/** The operator's pause, resume and cancel, as they act on the store. */
module RunControl {
  import opened Common
  import opened TaskEvents
  import opened RunHistory
  import opened RunStatus
  import opened TaskRunStore
  import Races = StatusRaces

  datatype ControlError = ChangedBeforeCommit | ChangedRepeatedly

  class RunControlService {
    const store: Store

    constructor (store: Store)
      ensures this.store == store
    {
      this.store := store;
    }

    /** One control without a runtime in between: its whole effect, which is also what the
        race machine does when this control takes its steps alone. */
    method Act(a: Control) returns (accepted: bool)
      requires store.Valid() && store.created
      modifies store
      ensures store.Valid()
      ensures match a
              case Pause =>
                && (accepted <==> old(store.status) in {Created, Status.Running, Recovering})
                && (accepted ==> store.status == Paused)
              case Resume =>
                && (accepted <==> old(store.status) in {Paused, WaitingUser})
                && (accepted ==> store.status == Status.Running)
              case Cancel =>
                && (accepted <==> old(store.status) !in {AcceptanceFailed, Completed, Status.Failed, Cancelled})
                && (accepted ==> store.status == Cancelled)
      ensures !accepted ==> store.status == old(store.status)
      ensures store.events == old(store.events) +
                if accepted then [ControlRecorded(a), CheckpointCreated, StatusChanged(store.status)]
                  else [ControlRejected(a)]
      ensures store.checkpoints == old(store.checkpoints) + if accepted then [None] else []
      ensures store.open == old(store.open) && Steady(old(store.events), store.events)
      ensures store.status ==
                Races.Run(Races.State(old(store.status), [], [Races.CIdle]), Races.Alone(0, a)).status
    {
      Races.ActsAlone(Races.State(store.status, [], [Races.CIdle]), 0, a);
      if !ControlAllowed(a, store.status) {
        store.Note(ControlRejected(a));
        return false;
      }
      store.Note(ControlRecorded(a));
      store.CreateCheckpoint(None);
      store.Note(CheckpointCreated);
      var error := SetStatus(a, store.status, store.status);
      accepted := error.None?;
    }

    /** Compare-and-set from the status read; if that is lost, check the status read again
        and try once more. The reads may be stale: the writes decide. */
    method SetStatus(a: Control, current: Status, latest: Status) returns (error: Option<ControlError>)
      requires store.Valid() && store.created
      modifies store
      ensures store.Valid() && Steady(old(store.events), store.events)
      ensures error.None? <==>
                old(store.status) == current || (ControlAllowed(a, latest) && old(store.status) == latest)
      ensures error == Some(ChangedBeforeCommit) <==> old(store.status) != current && !ControlAllowed(a, latest)
      ensures store.status == if error.Some? then old(store.status)
                else match a case Pause => Paused case Resume => Status.Running case Cancel => Cancelled
      ensures store.events == old(store.events) + if error.None? then [StatusChanged(store.status)] else []
      ensures store.checkpoints == old(store.checkpoints) && store.open == old(store.open)
    {
      var swapped := store.CompareAndSet(current, ControlTarget(a));
      if !swapped {
        if !ControlAllowed(a, latest) { return Some(ChangedBeforeCommit); }
        swapped := store.CompareAndSet(latest, ControlTarget(a));
        if !swapped { return Some(ChangedRepeatedly); }
      }
      store.Note(StatusChanged(ControlTarget(a)));
      return None;
    }
  }
}
