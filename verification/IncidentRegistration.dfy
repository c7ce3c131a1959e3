/** The incident registration screen: the draft kept in `formData`, one setter
    per input, the required-field check, the payload the screen hands to the
    service, and the `loading` flag around the submission. */
module IncidentRegistration {
  import opened Wrappers
  import opened Incidents
  import opened OcorrenciasService

  /** `formData`: every field is text. */
  datatype Draft = Draft(
    endereco: string,
    pontoReferencia: string,
    tipo: string,
    subtipo: string,
    prioridade: string,
    descricao: string,
    codigoViatura: string)

  /** The draft when the screen mounts: all empty but the priority. */
  const InitialDraft := Draft("", "", "", "", "low", "", "")

  /** The values of the "Tipo" selector. */
  const TipoValues: seq<string> := ["fire", "traffic_accident", "medic_emergency", "other"]

  /** The values of the "Prioridade" selector. */
  const PrioridadeValues: seq<string> := ["low", "medium", "high"]

  /** The alert `handleRegister` shows. */
  datatype Notice = MissingRequiredFields | Registered | RegistrationFailed

  /** The check in front of the submission: address, type and vehicle code
      must be non-empty; nothing else is looked at. */
  predicate Submittable(d: Draft)
    ensures Submittable(d) <==> "" !in [d.endereco, d.tipo, d.codigoViatura]
  {
    d.endereco != "" && d.tipo != "" && d.codigoViatura != ""
  }

  /** `{...formData, gps: [0, 0], idEquipes: []}`. */
  function ScreenPayload(d: Draft): (input: IncidentInput)
    ensures input.gps == Some([0.0, 0.0]) && input.idEquipes == Some([])
    ensures input.(gps := None, idEquipes := None) == IncidentInput(
              Some(d.endereco), Some(d.pontoReferencia), Some(d.tipo), Some(d.subtipo),
              Some(d.prioridade), Some(d.descricao), Some(d.codigoViatura), None, None)
  {
    IncidentInput(
      endereco := Some(d.endereco),
      pontoReferencia := Some(d.pontoReferencia),
      tipo := Some(d.tipo),
      subtipo := Some(d.subtipo),
      prioridade := Some(d.prioridade),
      descricao := Some(d.descricao),
      codigoViatura := Some(d.codigoViatura),
      gps := Some([0.0, 0.0]),
      idEquipes := Some([]))
  }

  /** The draft a payload sent by this screen was built from. */
  function DraftOf(p: Payload): Draft
  {
    Draft(
      endereco := p.endereco.GetOr(""),
      pontoReferencia := p.ponto_referencia,
      tipo := p.categoria.GetOr(""),
      subtipo := p.subcategoria,
      prioridade := p.prioridade.GetOr(""),
      descricao := p.descricao,
      codigoViatura := p.codigo_viatura.GetOr(""))
  }

  /** What reaches the backend from a draft: every field under its backend
      name, unchanged, the placeholder position `[0, 0]`, and no teams, even
      though the screen sent `idEquipes`. The draft can be read back from it. */
  lemma SentPayload(d: Draft)
    ensures BuildPayload(ScreenPayload(d)) == Payload(
              Some(d.tipo), d.subtipo, Some(d.prioridade), d.descricao, Some(d.endereco),
              d.pontoReferencia, Some(d.codigoViatura), [0.0, 0.0], [])
    ensures DraftOf(BuildPayload(ScreenPayload(d))) == d
  {
  }

  /** Two different drafts never produce the same request body. */
  lemma SentPayloadInjective(d1: Draft, d2: Draft)
    requires BuildPayload(ScreenPayload(d1)) == BuildPayload(ScreenPayload(d2))
    ensures d1 == d2
  {
    SentPayload(d1);
    SentPayload(d2);
  }

  /** The optional fields never decide whether a draft may be submitted. */
  lemma OptionalFieldsNotRequired(d: Draft, pontoReferencia: string, subtipo: string, prioridade: string, descricao: string)
    ensures Submittable(d.(pontoReferencia := pontoReferencia, subtipo := subtipo,
                           prioridade := prioridade, descricao := descricao)) == Submittable(d)
  {
  }

  /** Clearing any one of the three required fields blocks the submission. */
  lemma RequiredFieldsRequired(d: Draft)
    ensures !Submittable(d.(endereco := ""))
    ensures !Submittable(d.(tipo := ""))
    ensures !Submittable(d.(codigoViatura := ""))
  {
  }

  /** The initial draft cannot be submitted; filling the three required
      fields is enough to submit it. */
  lemma InitialDraftNeedsRequiredFields(endereco: string, tipo: string, codigoViatura: string)
    ensures !Submittable(InitialDraft)
    ensures Submittable(InitialDraft.(endereco := endereco, tipo := tipo, codigoViatura := codigoViatura))
        <==> endereco != "" && tipo != "" && codigoViatura != ""
  {
  }

  /** The screen's state: the draft and the `loading` flag. */
  class RegistrationScreen {
    var form: Draft
    var loading: bool

    /** No input sets `subtipo`, and the selectors only offer their fixed
        values; between two user actions nothing is loading. */
    ghost predicate Valid()
      reads this
    {
      && form.subtipo == ""
      && (form.tipo == "" || form.tipo in TipoValues)
      && form.prioridade in PrioridadeValues
      && !loading
    }

    constructor ()
      ensures Valid()
      ensures form == InitialDraft && !loading
    {
      form := InitialDraft;
      loading := false;
    }

    method SetEndereco(text: string)
      requires Valid()
      modifies this
      ensures Valid()
      ensures form == old(form).(endereco := text) && loading == old(loading)
    {
      form := form.(endereco := text);
    }

    method SetPontoReferencia(text: string)
      requires Valid()
      modifies this
      ensures Valid()
      ensures form == old(form).(pontoReferencia := text) && loading == old(loading)
    {
      form := form.(pontoReferencia := text);
    }

    /** Choosing a type leaves `subtipo` as it was. */
    method SelectTipo(value: string)
      requires Valid()
      requires value in TipoValues
      modifies this
      ensures Valid()
      ensures form == old(form).(tipo := value) && loading == old(loading)
      ensures form.subtipo == old(form.subtipo)
    {
      form := form.(tipo := value);
    }

    method SelectPrioridade(value: string)
      requires Valid()
      requires value in PrioridadeValues
      modifies this
      ensures Valid()
      ensures form == old(form).(prioridade := value) && loading == old(loading)
    {
      form := form.(prioridade := value);
    }

    method SetCodigoViatura(text: string)
      requires Valid()
      modifies this
      ensures Valid()
      ensures form == old(form).(codigoViatura := text) && loading == old(loading)
    {
      form := form.(codigoViatura := text);
    }

    method SetDescricao(text: string)
      requires Valid()
      modifies this
      ensures Valid()
      ensures form == old(form).(descricao := text) && loading == old(loading)
    {
      form := form.(descricao := text);
    }

    /** `handleRegister`, given the backend's reply to the create request.
        An incomplete draft is refused before any request; otherwise exactly
        the create request is sent, `loading` is back to false whatever the
        outcome, and the draft is kept as it was. */
    method HandleRegister(reply: Reply<Incident>) returns (notice: Notice, requests: seq<Request>)
      requires Valid()
      modifies this
      ensures Valid()
      ensures form == old(form)
      ensures !Submittable(form) ==> notice == MissingRequiredFields && requests == []
      ensures Submittable(form) ==>
                && requests == [PostOccurrence(BuildPayload(ScreenPayload(form)))]
                && notice == (if RegisterIncident(ScreenPayload(form), reply).result.Ok? then Registered
                              else RegistrationFailed)
                && !loading
      ensures forall r :: r in requests ==> r.PostOccurrence? && r.payload.subcategoria == ""
    {
      if !Submittable(form) {
        return MissingRequiredFields, [];
      }
      loading := true;
      var call := RegisterIncident(ScreenPayload(form), reply);
      requests := call.requests;
      notice := if call.result.Ok? then Registered else RegistrationFailed;
      loading := false;
    }
  }
}
