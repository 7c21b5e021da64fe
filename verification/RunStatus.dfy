/** Statuses of a run, shared by the runtime, the operator controls and the worker. */
module RunStatus {

  datatype Status = Created | Running | Paused | WaitingUser | Recovering | AcceptanceFailed | Completed | Failed
    | Cancelled

  const TERMINAL: set<Status> := {AcceptanceFailed, Completed, Failed, Cancelled}
  const STOPPED: set<Status> := {Paused, Cancelled}

  /** The statuses the runtime itself writes. */
  const RUNTIME_WRITES: set<Status> := {Running, WaitingUser, Recovering, AcceptanceFailed, Completed, Failed}

  datatype Control = Pause | Resume | Cancel

  predicate ControlAllowed(a: Control, s: Status) {
    match a
    case Pause => s in {Created, Running, Recovering}
    case Resume => s in {Paused, WaitingUser}
    case Cancel => s !in TERMINAL
  }

  function ControlTarget(a: Control): Status {
    match a
    case Pause => Paused
    case Resume => Running
    case Cancel => Cancelled
  }
}
