/** The "my incidents" screen: the cached list and its `loading` flag, the
    reload, the status menu and the optimistic status change with its
    fall-back reload. */
module MyIncidents {
  import opened Wrappers
  import opened Incidents
  import opened OcorrenciasService

  /** The buttons of the "Atualizar Status" alert. */
  datatype MenuChoice = Cancelar | ChooseEmAndamento | ChooseFinalizada

  /** How `await updateIncidentStatus(id, newStatus)` ended. */
  datatype UpdateStep = Confirmed | Threw

  /** The status a menu button asks for; "Cancelar" asks for none. */
  function MenuTarget(choice: MenuChoice): (target: Option<string>)
    ensures target.None? <==> choice == Cancelar
    ensures target.Some? ==> target.value == EmAndamento || target.value == Finalizada
    ensures target != Some(Aberta)
    ensures choice == ChooseEmAndamento ==> target == Some(EmAndamento)
    ensures choice == ChooseFinalizada ==> target == Some(Finalizada)
  {
    match choice
    case Cancelar => None
    case ChooseEmAndamento => Some(EmAndamento)
    case ChooseFinalizada => Some(Finalizada)
  }

  /** The list after `loadIncidents` obtained `fetched`: replaced on success,
      kept on failure. */
  function Reloaded(current: seq<Incident>, fetched: Result<seq<Incident>, ServiceError>): (r: seq<Incident>)
    ensures fetched.Ok? ==> r == fetched.value
    ensures fetched.Err? ==> r == current
  {
    match fetched
    case Ok(incidents) => incidents
    case Err(_) => current
  }

  /** The list after `changeStatus(id, status)`: the optimistic update, and
      when the backend step threw, whatever the reload then yields. */
  function AfterStatusChange(incidents: seq<Incident>, id: string, status: string, step: UpdateStep,
                             fetched: Result<seq<Incident>, ServiceError>): (r: seq<Incident>)
    ensures step == Confirmed ==> r == WithStatus(incidents, id, status)
    ensures step == Threw && fetched.Ok? ==> r == fetched.value
    ensures step == Threw && fetched.Err? ==> r == WithStatus(incidents, id, status)
  {
    var optimistic := WithStatus(incidents, id, status);
    if step == Confirmed then optimistic else Reloaded(optimistic, fetched)
  }

  /** A confirmed change does not depend on what a reload would return: the
      incident carries the new status whatever the server lists. */
  lemma ConfirmedChangeKept(incidents: seq<Incident>, id: string, status: string,
                            fetched: Result<seq<Incident>, ServiceError>, other: Result<seq<Incident>, ServiceError>)
    ensures AfterStatusChange(incidents, id, status, Confirmed, fetched)
         == AfterStatusChange(incidents, id, status, Confirmed, other)
    ensures forall i :: 0 <= i < |incidents| && incidents[i].id == id ==>
              AfterStatusChange(incidents, id, status, Confirmed, fetched)[i].status == status
  {
  }

  /** After a thrown step and a successful reload, nothing of the cached list
      or of the requested change survives: the outcome is the same for any
      list, id and status. Only a failed reload leaves the change in place. */
  lemma FailedChangeReloads(incidents: seq<Incident>, id: string, status: string,
                            others: seq<Incident>, otherId: string, otherStatus: string,
                            fetched: Result<seq<Incident>, ServiceError>)
    ensures fetched.Ok? ==>
              AfterStatusChange(incidents, id, status, Threw, fetched)
              == AfterStatusChange(others, otherId, otherStatus, Threw, fetched)
    ensures fetched.Err? ==> forall i :: 0 <= i < |incidents| && incidents[i].id == id ==>
              AfterStatusChange(incidents, id, status, Threw, fetched)[i].status == status
  {
  }

  /** Repeating a confirmed change changes nothing more. */
  lemma ConfirmedChangeIdempotent(incidents: seq<Incident>, id: string, status: string,
                                  fetched: Result<seq<Incident>, ServiceError>)
    ensures AfterStatusChange(AfterStatusChange(incidents, id, status, Confirmed, fetched), id, status, Confirmed, fetched)
         == AfterStatusChange(incidents, id, status, Confirmed, fetched)
  {
    WithStatusIdempotent(incidents, id, status);
  }

  /** As the files stand, the service module exports no `updateIncidentStatus`:
      the imported name is `undefined`, and calling it throws a `TypeError`
      before any request is made. */
  function UpdateStepAsWritten(id: string, status: string): (step: UpdateStep)
    ensures step != Confirmed
  {
    Threw
  }

  /** As written, a status change is never kept on its own: the list always
      ends as the reload left it. */
  lemma StatusChangeLostAsWritten(incidents: seq<Incident>, id: string, status: string,
                                  fetched: Result<seq<Incident>, ServiceError>)
    ensures AfterStatusChange(incidents, id, status, UpdateStepAsWritten(id, status), fetched)
         == Reloaded(WithStatus(incidents, id, status), fetched)
  {
  }

  /** The input that shows it: an open incident moved to "Em Andamento" while
      the server still lists it as open ends up open again. */
  lemma StatusChangeLostExample()
    ensures var open := Incident("1", "fire", "", "high", "", "Rua A, 10", "", "ABT-12", Aberta, "");
            var after := AfterStatusChange([open], "1", EmAndamento, UpdateStepAsWritten("1", EmAndamento), Ok([open]));
            |after| == 1 && after[0].status == Aberta && WithStatus([open], "1", EmAndamento)[0].status == EmAndamento
  {
  }

  /** The screen's state: the cached list and the `loading` flag. */
  class MyIncidentsScreen {
    var incidents: seq<Incident>
    var loading: bool

    constructor ()
      ensures incidents == [] && !loading
    {
      incidents := [];
      loading := false;
    }

    /** `loadIncidents`, given the replies to the profile and list requests. */
    method LoadIncidents(profileReply: Reply<ProfileJson>, listReply: Reply<seq<Incident>>)
      modifies this
      ensures incidents == Reloaded(old(incidents), GetMyIncidents(profileReply, listReply).result)
      ensures !loading
    {
      loading := true;
      var call := GetMyIncidents(profileReply, listReply);
      if call.result.Ok? {
        incidents := call.result.value;
      }
      loading := false;
    }

    /** `changeStatus(id, status)`: the optimistic update, then, when the
        backend step threw, a reload with the given replies. */
    method ChangeStatus(id: string, status: string, step: UpdateStep,
                        profileReply: Reply<ProfileJson>, listReply: Reply<seq<Incident>>)
      modifies this
      ensures incidents == AfterStatusChange(old(incidents), id, status, step,
                                             GetMyIncidents(profileReply, listReply).result)
      ensures step == Confirmed ==> loading == old(loading)
      ensures step == Threw ==> !loading
    {
      incidents := WithStatus(incidents, id, status);
      if step == Threw {
        LoadIncidents(profileReply, listReply);
      }
    }

    /** `handleStatusChange(item)` followed by the button the user pressed. */
    method HandleStatusChange(item: Incident, choice: MenuChoice, step: UpdateStep,
                              profileReply: Reply<ProfileJson>, listReply: Reply<seq<Incident>>)
      modifies this
      ensures choice == Cancelar ==> incidents == old(incidents) && loading == old(loading)
      ensures choice != Cancelar ==>
                incidents == AfterStatusChange(old(incidents), item.id, MenuTarget(choice).value, step,
                                               GetMyIncidents(profileReply, listReply).result)
      ensures choice != Cancelar ==>
                (step == Confirmed ==> loading == old(loading)) && (step == Threw ==> !loading)
    {
      var target := MenuTarget(choice);
      if target.Some? {
        ChangeStatus(item.id, target.value, step, profileReply, listReply);
      }
    }
  }
}
