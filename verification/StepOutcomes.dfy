/**
  What one execution of a step leaves: the verdict and the failure envelope of what a tool
  returned, and the events of the step, with or without the result.
 */
module StepOutcomes {
  import opened Common
  import opened TaskEvents
  import opened PlanDag
  import opened PlanProgress
  import opened StepFolds
  import opened RunHistory
  import opened RunStatus
  import opened TaskRunStore

  /** What a tool, or the outbox for it, returned. */
  datatype Outcome = Outcome(ok: bool, evidence: seq<Ref>, needsConfirmation: bool, recoverable: bool,
      action: Option<RecoveryAction>)

  datatype Execution = Execution(outcome: Outcome, failure: Option<Failure>)

  datatype Error = InvalidPlan | RunExists | UnknownRun | EmptyBatch | NoFrontier | StepsUnfinished | ConcurrentChange
    | NotIncomplete | NoCheckpoint | NoFailedStep

  datatype RunResult = RunResult(accepted: bool, failure: Option<Failure>, decision: Option<Decision>)

  /** The recovery envelope for a failed tool result. */
  function Recommend(s: StepId, o: Outcome): Failure {
    var action := if o.action.Some? then o.action.value else ManualReview;
    var status :=
      if o.needsConfirmation then WaitingUser
      else if action == Stop then Status.Failed
      else if o.recoverable then Recovering
      else if action == AskUser then WaitingUser
      else Status.Failed;
    var recoverable := action !in {Stop, ManualReview} && (o.needsConfirmation || o.recoverable);
    Failure(Some(s), status, recoverable, action)
  }

  /** What is recommended after a failed tool: the user is asked when the tool wants confirmation,
      or when that is the advice and nothing else helps; otherwise the run recovers if the model
      can, unless the advice is to stop. Only such a failure can be resumed, and not against an
      advice to stop or to review; without advice a review is due. */
  lemma RecommendIff(s: StepId, o: Outcome)
    ensures var f := Recommend(s, o);
            && f.step == Some(s)
            && f.action == (match o.action case Some(a) => a case None => ManualReview)
            && (f.status == WaitingUser <==> o.needsConfirmation || (o.action == Some(AskUser) && !o.recoverable))
            && (f.status == Recovering <==> !o.needsConfirmation && o.recoverable && o.action != Some(Stop))
            && (f.status == Status.Failed <==>
                !o.needsConfirmation
                && (o.action == Some(Stop) || (!o.recoverable && o.action != Some(AskUser))))
            && (f.recoverable <==>
                (o.needsConfirmation || o.recoverable)
                && o.action !in {None, Some(Stop), Some(ManualReview)})
  {
  }

  function VerdictFor(step: Step, o: Outcome): StepStatus {
    if !o.ok then if Recommend(step.id, o).status == WaitingUser then Blocked else StepStatus.Failed
    else if Covers(o.evidence, step.required) then Passed
    else StepStatus.Failed
  }

  /** The events that a longer log has beyond a shorter one. */
  function Added(a: seq<Event>, b: seq<Event>): set<Event>
    requires a <= b
  {
    set i | |a| <= i < |b| :: b[i]
  }

  /** The failure a step ends with: the tool's, or missing evidence, or none. */
  function FailureOf(step: Step, o: Outcome): (f: Option<Failure>)
    ensures f.None? <==> VerdictFor(step, o) == Passed
    ensures f.Some? ==> f.value.step == Some(step.id) && f.value.status in {WaitingUser, Status.Failed, Recovering}
  {
    if !o.ok then Some(Recommend(step.id, o))
    else if Covers(o.evidence, step.required) then None
    else Some(Failure(Some(step.id), Status.Failed, false, Stop))
  }

  /** The status of a run left alone by operators, after a step of it ended. */
  function StatusAfter(step: Step, o: Outcome, status: Status): Status {
    var failure := FailureOf(step, o);
    if failure.Some? then failure.value.status else status
  }

  function FailureEvent(f: Failure): Event {
    if f.status == WaitingUser then UserInputRequired else RunFailed
  }

  function TargetOf(d: Decision): Status {
    match d
    case Accepted => Completed
    case BlockedOnUser => WaitingUser
    case Rejected => AcceptanceFailed
  }

  function ClosingEvent(d: Decision): Event {
    match d
    case Accepted => RunCompleted
    case BlockedOnUser => UserInputRequired
    case Rejected => RunFailed
  }

  function ResultEvent(step: Step, o: Outcome, anchor: Anchor): Event {
    ToolResultRecorded(step.id, o.ok, o.evidence, anchor)
  }

  /** A result under a key already used, a stale one, leaves no event. */
  function ResultPart(step: Step, o: Outcome, anchor: Anchor, stale: bool): seq<Event> {
    if stale then [] else [ResultEvent(step, o, anchor)]
  }

  function Recording(step: Step, o: Outcome, anchor: Anchor, stale: bool): seq<Event> {
    ResultPart(step, o, anchor, stale) + [StepVerified(step.id, VerdictFor(step, o))]
  }

  /** All the events of one execution of a step under a fresh key. */
  function Trace(step: Step, o: Outcome, anchor: Anchor): seq<Event> {
    [StepStarted(step.id), ResultEvent(step, o, anchor), StepVerified(step.id, VerdictFor(step, o))]
  }

  predicate Reports(e: Execution, step: Step, o: Outcome) {
    e == Execution(o, FailureOf(step, o))
  }

  /** How a call ends unless an operator stops the run: with a failure, a decision, or a
      question to the user. */
  predicate Ends(r: Result<RunResult, Error>, status: Status) {
    r.Ok? && (r.value.failure.Some? || r.value.decision.Some? || status == WaitingUser)
  }

  /** The statuses from which a call may start a step: all but passed. */
  const RETRYABLE: set<StepStatus> := {Pending, StepStatus.Running, StepStatus.Failed, Blocked, Skipped}

  /** The evidence of the results a call carries is in the log, if the log keeps results. */
  ghost predicate Carried(results: seq<Outcome>, log: seq<Event>) {
    ResultsKept(log) ==> forall i :: 0 <= i < |results| ==> (set x | x in results[i].evidence) <= Evidence(log)
  }

  function ResultRefs(results: seq<Outcome>): set<Ref> {
    set o, x | o in results && x in o.evidence :: x
  }

  lemma ResultRefsCarried(results: seq<Outcome>, log: seq<Event>)
    requires Carried(results, log) && ResultsKept(log)
    ensures ResultRefs(results) <= Evidence(log)
  {
    forall x | x in ResultRefs(results) ensures x in Evidence(log) {
      var o :| o in results && x in o.evidence;
      var i :| 0 <= i < |results| && results[i] == o;
      assert x in set y | y in results[i].evidence;
    }
  }

  lemma OneCarried(log: seq<Event>, result: Event)
    requires result in log && result.ToolResultRecorded? && result.ok
    ensures (set x | x in result.evidence) <= Evidence(log)
  {
    forall x | x in result.evidence ensures x in Evidence(log) {
      assert x in EvidenceOf(result);
      EvidenceMembers(log, x);
    }
  }

  lemma FreeBeforeIff(a: seq<Event>, b: seq<Event>, checkpoints: Checkpoints)
    requires Steady(a, b)
    ensures RetryFree(a, checkpoints) <==> RetryFree(b, checkpoints)
  {
    if RetryOf(checkpoints).Some? {
      KeysAreOwn(a, RetryOf(checkpoints).value, FromCheckpoint(|checkpoints| - 1));
      KeysAreOwn(b, RetryOf(checkpoints).value, FromCheckpoint(|checkpoints| - 1));
    }
  }

  lemma StartKeepsKeys(a: seq<Event>, b: seq<Event>, s: StepId, anchor: Anchor)
    requires Worked(a, b, s, [StepStarted(s)])
    ensures KeyUsed(b, s, anchor) <==> KeyUsed(a, s, anchor)
  {
    KeysAreOwn(a, s, anchor);
    KeysAreOwn(b, s, anchor);
    var own := Project(a, s);
    forall e | ResultUnder(e, s, anchor) ensures e in own + [StepStarted(s)] <==> e in own { }
  }

  /** What one execution of a retry tells: the step started, first of all steps; its result is
      in the log unless the key was used, and then it is lost. */
  lemma RetryTells(a: seq<Event>, b: seq<Event>, c: seq<Event>, step: Step, o: Outcome, anchor: Anchor, stale: bool)
    requires Worked(a, b, step.id, [StepStarted(step.id)]) && Worked(b, c, step.id, Recording(step, o, anchor, stale))
    requires StatusOf(a, step.id) in RETRYABLE
    ensures Resumed(a, c, RETRYABLE) && FirstStart(a, c, step.id)
    ensures if stale then !Kept(Project(c, step.id)) else KeepsResults(a, c)
    ensures VerdictFor(step, o) == Passed ==> Carried([o], c)
  {
    var s, p := step.id, Project(a, step.id);
    var verdict := StepVerified(s, VerdictFor(step, o));
    var q := p + [StepStarted(s)] + ResultPart(step, o, anchor, stale);
    assert Project(c, s) == q + [verdict];
    RetryStarts(a, b, c, step, o, anchor, stale);
    forall t ensures ResumedStep(a, c, t, RETRYABLE) {
      if t != s {
        OwnEventsDecide(a, t);
        OwnEventsDecide(c, t);
      }
    }
    if stale {
      assert Project(c, s)[|p| + 1] == verdict && Project(c, s)[|p|] == StepStarted(s);
    } else {
      var result := ResultEvent(step, o, anchor);
      assert Project(c, s)[|p| + 1] == result;
      ProjectMembers(c, result);
      if VerdictFor(step, o) == Passed { OneCarried(c, result); }
    }
  }

  lemma RetryStarts(a: seq<Event>, b: seq<Event>, c: seq<Event>, step: Step, o: Outcome, anchor: Anchor, stale: bool)
    requires Worked(a, b, step.id, [StepStarted(step.id)]) && Worked(b, c, step.id, Recording(step, o, anchor, stale))
    ensures Starts(c, step.id) == Starts(a, step.id) + 1 && StatusOf(c, step.id) == VerdictFor(step, o)
    ensures FirstStart(a, c, step.id)
  {
    var s, p := step.id, Project(a, step.id);
    var verdict := StepVerified(s, VerdictFor(step, o));
    OwnEventsDecide(a, s);
    OwnEventsDecide(b, s);
    OwnEventsDecide(c, s);
    Appended(p, StepStarted(s));
    Appended(p + [StepStarted(s)], ResultEvent(step, o, anchor));
    var q := p + [StepStarted(s)] + ResultPart(step, o, anchor, stale);
    assert Project(c, s) == q + [verdict];
    assert stale ==> q == p + [StepStarted(s)];
    Appended(q, verdict);
    forall t | t != s ensures Starts(b, t) == Starts(a, t) {
      OwnEventsDecide(a, t);
      OwnEventsDecide(b, t);
    }
    FirstStartOf(a, b, s);
  }

  lemma ReadyKnown(plan: Plan, log: seq<Event>, id: StepId)
    requires Ready(plan, log, id)
    ensures id in Ids(plan)
  {
  }
}
