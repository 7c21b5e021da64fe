/**
  The stored state of one run. Every write the runtime makes goes through one of these
  methods, and each keeps `Valid`, so a crash between any two writes leaves a valid store.
  Operators and workers act between the runtime's accesses.
 */
module TaskRunStore {
  import opened Common
  import opened TaskEvents
  import opened PlanDag
  import opened StepFolds
  import opened AcceptanceFacts
  import opened RunHistory
  import opened RunStatus

  datatype RecoveryAction = Retry | AskUser | ReadBeforeWrite | UseAlternativeTool | ManualReview | Stop

  /** What a failed checkpoint says; `step` is absent when acceptance or the plan failed. */
  datatype Failure = Failure(step: Option<StepId>, status: Status, recoverable: bool, action: RecoveryAction)

  type Checkpoints = seq<Option<Failure>>

  /** The step that the latest checkpoint allows to be retried without an operator. */
  function RetryOf(checkpoints: Checkpoints): Option<StepId> {
    if checkpoints == [] then None
    else
      match checkpoints[|checkpoints| - 1]
      case None => None
      case Some(f) => if f.recoverable && f.action == Retry then f.step else None
  }

  /** The latest checkpoint allows no retry, or that retry has not recorded a result yet. */
  predicate RetryFree(log: seq<Event>, checkpoints: Checkpoints) {
    RetryOf(checkpoints).Some? ==> !KeyUsed(log, RetryOf(checkpoints).value, FromCheckpoint(|checkpoints| - 1))
  }

  /** The log already has an event under this event's key. */
  predicate KeyTaken(log: seq<Event>, e: Event) {
    match e
    case ToolResultRecorded(s, _, _, key) => KeyUsed(log, s, key)
    case FactsRecorded(_, key) => FactsKeyUsed(log, key)
    case _ => false
  }

  /** Only checkpoints without a failure were added, if any. */
  predicate Marked(a: Checkpoints, b: Checkpoints) {
    a <= b && forall k :: |a| <= k < |b| ==> b[k].None?
  }

  /** One checkpoint was added that says this, and maybe others without a failure. */
  ghost predicate Saved(a: Checkpoints, b: Checkpoints, failure: Option<Failure>) {
    && a <= b
    && exists k :: |a| <= k < |b| && b[k] == failure && forall j :: |a| <= j < |b| && j != k ==> b[j].None?
  }

  lemma MarkedSaved(a: Checkpoints, b: Checkpoints, c: Checkpoints, d: Checkpoints, failure: Option<Failure>)
    requires Marked(a, b) && Saved(b, c, failure) && Marked(c, d)
    ensures Saved(a, d, failure)
  {
    var k :| |b| <= k < |c| && c[k] == failure && forall j :: |b| <= j < |c| && j != k ==> c[j].None?;
    forall j | |a| <= j < |d| && j != k ensures d[j].None? {
      if j < |b| { assert d[j] == b[j]; } else if j < |c| { assert d[j] == c[j]; }
    }
    assert d[k] == failure;
  }

  /** The operator's writes. */
  const CONTROL_WRITES: set<Status> := {Paused, Status.Running, Cancelled}

  class Store {
    const plan: Plan
    const gate: Gate
    var created: bool
    var status: Status
    var events: seq<Event>
    var checkpoints: Checkpoints
    /** Open interactions, by the step that requires them. */
    var open: set<Option<StepId>>
    /** How often an operator has written the status. */
    ghost var interventions: nat
    /** How often an operator has answered questions. */
    ghost var answers: nat

    ghost predicate Valid()
      reads this
    {
      && Sound(plan, gate, events)
      && (created ==> DistinctIds(plan) && LinearOrder(plan))
      && (!created ==> events == [] && checkpoints == [] && open == {} && status == Status.Created)
      && (status == Completed ==> LastEvaluation(events) == Some(Accepted))
      && (RetryOf(checkpoints).Some? ==> Ready(plan, events, RetryOf(checkpoints).value))
      && (forall e :: e in events && e.ToolResultRecorded? && e.anchor.FromCheckpoint? ==>
          e.anchor.checkpoint < |checkpoints|)
      && (status == Recovering ==> RetryFree(events, checkpoints))
    }

    constructor (plan: Plan, gate: Gate)
      ensures Valid() && !created && this.plan == plan && this.gate == gate
    {
      this.plan, this.gate := plan, gate;
      created, status, events, checkpoints, open := false, Status.Created, [], [], {};
      interventions, answers := 0, 0;
    }

    method CreateRun()
      requires Valid() && !created && DistinctIds(plan) && LinearOrder(plan)
      modifies this
      ensures Valid() && created && status == Status.Created && events == [] && checkpoints == [] && open == {}
      ensures interventions == old(interventions)
    {
      created := true;
    }

    /** Appends an event, unless its key is already used. */
    method Append(e: Event) returns (appended: bool)
      requires Valid() && created && (KeyTaken(events, e) || Justified(plan, gate, events, e))
      requires e.StepVerified? && e.verdict == Passed ==> RetryOf(checkpoints) != Some(e.step)
      requires e.AcceptanceEvaluated? ==> status != Completed
      requires e.ToolResultRecorded? && e.anchor.FromCheckpoint? ==>
                 e.anchor.checkpoint < |checkpoints| && status != Recovering
      modifies this`events
      ensures Valid() && appended == !KeyTaken(old(events), e)
      ensures events == if appended then old(events) + [e] else old(events)
    {
      if KeyTaken(events, e) { return false; }
      ghost var before := events;
      events, appended := events + [e], true;
      SoundAppend(plan, gate, before, e);
      Appended(before, e);
      if RetryOf(checkpoints).Some? {
        DependenciesStay(plan, gate, before, events, RetryOf(checkpoints).value);
      }
    }

    /** An event that no fold over steps, facts or evaluations sees. */
    method Note(e: Event)
      requires Valid() && created && Inert(e) && Justified(plan, gate, events, e)
      modifies this`events
      ensures Valid() && events == old(events) + [e] && Steady(old(events), events)
    {
      InertAppend(events, e);
      var _ := Append(e);
    }

    method CompareAndSet(expected: Status, target: Status) returns (swapped: bool)
      requires Valid() && created
      requires target == Completed ==> LastEvaluation(events) == Some(Accepted)
      requires target == Recovering ==> RetryFree(events, checkpoints)
      modifies this`status
      ensures Valid() && swapped == (old(status) == expected)
      ensures status == if swapped then target else old(status)
    {
      swapped := status == expected;
      if swapped { status := target; }
    }

    method CreateCheckpoint(failure: Option<Failure>)
      requires Valid() && created
      requires RetryOf([failure]).Some? ==> Ready(plan, events, RetryOf([failure]).value)
      modifies this`checkpoints
      ensures Valid() && checkpoints == old(checkpoints) + [failure]
      ensures RetryFree(events, checkpoints)
    {
      checkpoints := checkpoints + [failure];
    }

    method OpenInteraction(step: Option<StepId>)
      requires Valid() && created
      modifies this`open
      ensures Valid() && open == old(open) + {step}
    {
      open := open + {step};
    }

    /** Whatever operators and workers do between two accesses of the runtime: any number of
        status writes, events, checkpoints without a failure, and answered interactions. */
    method Interfere()
      requires Valid() && created
      modifies this
      ensures Valid() && created
      ensures Steady(old(events), events)
      ensures Marked(old(checkpoints), checkpoints)
      ensures status == old(status) || status in CONTROL_WRITES
      ensures open <= old(open) && old(answers) <= answers && (answers == old(answers) ==> open == old(open))
      ensures old(interventions) <= interventions && (interventions == old(interventions) ==> status == old(status))
    {
      var n: nat := *;
      while n > 0
        invariant Valid() && created
        invariant Steady(old(events), events)
        invariant Marked(old(checkpoints), checkpoints)
        invariant status == old(status) || status in CONTROL_WRITES
        invariant open <= old(open) && old(answers) <= answers && (answers == old(answers) ==> open == old(open))
        invariant old(interventions) <= interventions && (interventions == old(interventions) ==> status == old(status))
      {
        n := n - 1;
        ghost var before := events;
        InterfereOnce();
        SteadyTwice(old(events), before, events);
      }
    }

    method InterfereOnce()
      requires Valid() && created
      modifies this
      ensures Valid() && created
      ensures Steady(old(events), events)
      ensures Marked(old(checkpoints), checkpoints)
      ensures status == old(status) || status in CONTROL_WRITES
      ensures open <= old(open) && old(answers) <= answers && (answers == old(answers) ==> open == old(open))
      ensures old(interventions) <= interventions && (interventions == old(interventions) ==> status == old(status))
    {
      var c: Control, kind: nat := *, *;
      if kind == 0 {
        status, interventions := ControlTarget(c), interventions + 1;
      } else if kind == 1 {
        checkpoints := checkpoints + [None];
      } else if kind == 2 {
        var answered: set<Option<StepId>> := *;
        open, answers := open - answered, answers + 1;
      } else {
        var e: Event := *;
        if e in {StatusChanged(ControlTarget(c)), ControlRecorded(c), ControlRejected(c), CheckpointCreated,
            WorkerRecorded} {
          Note(e);
        }
      }
    }
  }

  /** Operators and workers do not use up the key of a retry. */
  lemma RetryStaysFree(a: seq<Event>, b: seq<Event>, before: Checkpoints, after: Checkpoints)
    requires Steady(a, b) && Marked(before, after) && RetryFree(a, before)
    ensures RetryFree(b, after)
  {
    if RetryOf(after).Some? {
      KeysAreOwn(a, RetryOf(after).value, FromCheckpoint(|after| - 1));
      KeysAreOwn(b, RetryOf(after).value, FromCheckpoint(|after| - 1));
    }
  }
}
