/** The incident ("ocorrência") as the backend returns it, the optimistic
    status update applied to the cached list, and the badge colour of a status. */
module Incidents {

  const Aberta := "Aberta"
  const EmAndamento := "Em Andamento"
  const Finalizada := "Finalizada"

  /** One incident of the user's list. Ids and dates are kept as the strings
      the backend sends. */
  datatype Incident = Incident(
    id: string,
    categoria: string,
    subcategoria: string,
    prioridade: string,
    descricao: string,
    endereco: string,
    pontoReferencia: string,
    codigoViatura: string,
    status: string,
    createdAt: string)

  /** The list after `prev.map(inc => inc.id === id ? {...inc, status} : inc)`:
      every incident carrying `id` gets the new status, nothing else moves. */
  function WithStatus(incidents: seq<Incident>, id: string, status: string): (r: seq<Incident>)
    ensures |r| == |incidents|
    ensures forall i :: 0 <= i < |r| ==> r[i].id == incidents[i].id
    ensures forall i :: 0 <= i < |r| && incidents[i].id == id ==>
              r[i].status == status && r[i].(status := incidents[i].status) == incidents[i]
    ensures forall i :: 0 <= i < |r| && incidents[i].id != id ==> r[i] == incidents[i]
  {
    if incidents == [] then []
    else
      var head := if incidents[0].id == id then incidents[0].(status := status) else incidents[0];
      [head] + WithStatus(incidents[1..], id, status)
  }

  /** Changing the same incident's status twice to the same value is the same
      as changing it once. */
  lemma {:induction false} WithStatusIdempotent(incidents: seq<Incident>, id: string, status: string)
    ensures WithStatus(WithStatus(incidents, id, status), id, status) == WithStatus(incidents, id, status)
  {
    if incidents != [] {
      WithStatusIdempotent(incidents[1..], id, status);
    }
  }

  /** Of two status changes of the same incident, the later one wins. */
  lemma {:induction false} WithStatusLastWins(incidents: seq<Incident>, id: string, first: string, second: string)
    ensures WithStatus(WithStatus(incidents, id, first), id, second) == WithStatus(incidents, id, second)
  {
    if incidents != [] {
      WithStatusLastWins(incidents[1..], id, first, second);
    }
  }

  /** An id that no incident carries leaves the list as it is. */
  lemma {:induction false} WithStatusUnknownId(incidents: seq<Incident>, id: string, status: string)
    requires forall i :: 0 <= i < |incidents| ==> incidents[i].id != id
    ensures WithStatus(incidents, id, status) == incidents
  {
    if incidents != [] {
      WithStatusUnknownId(incidents[1..], id, status);
    }
  }

  const Red := "#E74C3C"
  const Yellow := "#F1C40F"
  const Green := "#2ECC71"
  const Grey := "#95A5A6"

  /** The three statuses the badge knows, with their colours. */
  const StatusPalette: map<string, string> := map[Aberta := Red, EmAndamento := Yellow, Finalizada := Green]

  /** `getStatusColor`: a total switch over the status string. */
  function StatusColor(status: string): (color: string)
    ensures status in StatusPalette ==> color == StatusPalette[status]
    ensures status !in StatusPalette ==> color == Grey
  {
    match status
    case "Aberta" => Red
    case "Em Andamento" => Yellow
    case "Finalizada" => Green
    case _ => Grey
  }

  /** Distinct known statuses get distinct colours, and none of them is the
      fallback grey, so the badge tells every known status apart from the rest. */
  lemma StatusColorsDistinguish(s: string, t: string)
    requires s in StatusPalette && s != t
    ensures StatusColor(s) != StatusColor(t)
  {
  }
}
