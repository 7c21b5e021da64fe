/** The append-only event log of one run: what the runtime, the operators and the workers write. */
module TaskEvents {
  import RunStatus

  /** Step ids; only their equality and their sort order matter. */
  type StepId = nat
  type Ref = string

  datatype StepStatus = Pending | Running | Passed | Failed | Blocked | Skipped

  /** What the acceptance gate is told besides tool evidence. */
  datatype Facts = Facts(
    evidence: seq<Ref>,
    tests: seq<Ref>,
    approvals: seq<Ref>,
    freshness: map<Ref, int>)

  const NoFacts := Facts([], [], [], map[])

  /** The idempotency key of a tool result, apart from the step's id, which ends every such
      key. An event under a key already used is not appended. `seen` counts the events that
      a recovery found. */
  datatype Anchor = FirstRun | Continuation | Recovery(seen: nat) | FromCheckpoint(checkpoint: nat)

  /** The idempotency key under which facts are recorded. */
  datatype FactsKey = InitialFacts | RecoveryFacts(seen: nat) | CheckpointFacts(checkpoint: nat)

  datatype Decision = Accepted | Rejected | BlockedOnUser

  datatype Event =
    | RunCreated
    | StatusChanged(status: RunStatus.Status)
    | StepStarted(step: StepId)
    | ToolResultRecorded(step: StepId, ok: bool, evidence: seq<Ref>, anchor: Anchor)
    | StepVerified(step: StepId, verdict: StepStatus)
    | FactsRecorded(facts: Facts, key: FactsKey)
    | AcceptanceEvaluated(decision: Decision, at: int)
    | CheckpointCreated
    | UserInputRequired
    | RunCompleted
    | RunFailed
    | ControlRecorded(control: RunStatus.Control)
    | ControlRejected(control: RunStatus.Control)
    | WorkerRecorded
}
