/**
  What a batch of steps leaves in the log, however its steps interleave, and what the runtime
  is told of it.
 */
module BatchTraces {
  import opened Common
  import opened TaskEvents
  import opened PlanDag
  import opened PlanProgress
  import opened StepFolds
  import opened BatchOrder
  import opened RunHistory
  import opened RunStatus
  import opened TaskRunStore
  import opened StepOutcomes

  predicate AllParallelSafe(steps: seq<Step>) {
    forall i :: 0 <= i < |steps| ==> steps[i].parallelSafe
  }

  // ---------- what a finished batch reports and leaves in the log ----------

  ghost predicate Reported(reports: seq<Execution>, batch: seq<Step>, outcomes: seq<Outcome>) {
    |reports| == |batch| == |outcomes| && forall i :: 0 <= i < |batch| ==> Reports(reports[i], batch[i], outcomes[i])
  }

  predicate AllSucceeded(reports: seq<Execution>) {
    forall i :: 0 <= i < |reports| ==> reports[i].failure.None?
  }

  ghost predicate LogHolds(log: seq<Event>, batch: seq<Step>, outcomes: seq<Outcome>, anchor: Anchor) {
    |batch| == |outcomes| && forall i :: 0 <= i < |batch| ==> ResultEvent(batch[i], outcomes[i], anchor) in log
  }

  function OutcomesOf(reports: seq<Execution>): (r: seq<Outcome>)
    ensures |r| == |reports| && forall i :: 0 <= i < |r| ==> r[i] == reports[i].outcome
  {
    seq(|reports|, i requires 0 <= i < |reports| => reports[i].outcome)
  }

  lemma CarriedMore(results: seq<Outcome>, batch: seq<Step>, outcomes: seq<Outcome>, reports: seq<Execution>,
      a: seq<Event>, b: seq<Event>, anchor: Anchor)
    requires Carried(results, a) && a <= b
    requires Reported(reports, batch, outcomes) && AllSucceeded(reports) && LogHolds(b, batch, outcomes, anchor)
    ensures Carried(results + OutcomesOf(reports), b)
  {
    if ResultsKept(b) {
      KeptBefore(a, b);
      EvidenceGrows(a, b);
      forall i | 0 <= i < |reports| ensures (set x | x in reports[i].outcome.evidence) <= Evidence(b) {
        assert Reports(reports[i], batch[i], outcomes[i]);
        OneCarried(b, ResultEvent(batch[i], outcomes[i], anchor));
      }
    }
  }

  lemma BatchStarts(a: seq<Event>, b: seq<Event>, batch: seq<Step>, outcomes: seq<Outcome>, s: StepId, anchor: Anchor)
    requires |batch| == |outcomes| && Grew(a, b, StepIds(batch), Traces(batch, outcomes, anchor))
    ensures Starts(b, s) == Starts(a, s) + if s in Ids(batch) then 1 else 0
  {
    GrewStatus(a, b, StepIds(batch), Traces(batch, outcomes, anchor), s);
    if s in Ids(batch) {
      var i :| 0 <= i < |batch| && batch[i].id == s;
      var t := Traces(batch, outcomes, anchor)[i];
      assert t == Trace(batch[i], outcomes[i], anchor) && t == [StepStarted(s), t[1], t[2]];
      assert StepIds(batch)[i] == s;
      StartedOnce(a, b, s, t[1], t[2]);
    }
  }

  /** Every step of a finished batch has a verdict. */
  lemma BatchDecided(a: seq<Event>, b: seq<Event>, batch: seq<Step>, outcomes: seq<Outcome>, s: StepId, anchor: Anchor)
    requires |batch| == |outcomes| && Grew(a, b, StepIds(batch), Traces(batch, outcomes, anchor))
    ensures if s in Ids(batch) then StatusOf(b, s) in {Passed, StepStatus.Failed, Blocked}
            else StatusOf(b, s) == StatusOf(a, s)
  {
    GrewStatus(a, b, StepIds(batch), Traces(batch, outcomes, anchor), s);
    if s in Ids(batch) {
      var i :| 0 <= i < |batch| && batch[i].id == s;
      var t := Traces(batch, outcomes, anchor)[i];
      assert t == Trace(batch[i], outcomes[i], anchor) && |t| == 3
             && t[2] == StepVerified(s, VerdictFor(batch[i], outcomes[i]));
      assert StepIds(batch)[i] == s;
    } else {
      assert s !in StepIds(batch);
    }
  }

  /** A batch loses no result. */
  lemma BatchKeeps(a: seq<Event>, b: seq<Event>, batch: seq<Step>, outcomes: seq<Outcome>, anchor: Anchor)
    requires |batch| == |outcomes| && Grew(a, b, StepIds(batch), Traces(batch, outcomes, anchor))
    ensures KeepsResults(a, b)
  {
    forall s | Kept(Project(a, s)) ensures Kept(Project(b, s)) {
      if s in StepIds(batch) {
        var i :| 0 <= i < |batch| && StepIds(batch)[i] == s;
        assert Traces(batch, outcomes, anchor)[i] == Trace(batch[i], outcomes[i], anchor);
        assert Project(b, s) == Project(a, s) + Trace(batch[i], outcomes[i], anchor);
      }
    }
  }

  lemma BatchContinues(a: seq<Event>, b: seq<Event>, batch: seq<Step>, outcomes: seq<Outcome>, anchor: Anchor)
    requires |batch| == |outcomes| && Grew(a, b, StepIds(batch), Traces(batch, outcomes, anchor))
    requires forall i :: 0 <= i < |batch| ==> StatusOf(a, batch[i].id) == Pending
    ensures Continued(a, b)
  {
    BatchKeeps(a, b, batch, outcomes, anchor);
    forall s ensures ContinuedStep(a, b, s) {
      BatchStarts(a, b, batch, outcomes, s, anchor);
      BatchDecided(a, b, batch, outcomes, s, anchor);
    }
  }

  lemma BatchResumes(a: seq<Event>, b: seq<Event>, batch: seq<Step>, outcomes: seq<Outcome>, may: set<StepStatus>,
      anchor: Anchor)
    requires |batch| == |outcomes| && Grew(a, b, StepIds(batch), Traces(batch, outcomes, anchor))
    requires forall i :: 0 <= i < |batch| ==> StatusOf(a, batch[i].id) in may
    ensures Resumed(a, b, may) && KeepsResults(a, b)
  {
    BatchKeeps(a, b, batch, outcomes, anchor);
    forall s ensures ResumedStep(a, b, s, may) {
      BatchStarts(a, b, batch, outcomes, s, anchor);
      BatchDecided(a, b, batch, outcomes, s, anchor);
    }
  }

  lemma BatchOfFrontier(plan: Plan, gate: Gate, order: seq<StepId>, log: seq<Event>, batch: seq<Step>)
    requires Sound(plan, gate, log)
    requires DistinctIds(plan) && Topological(plan, order) && batch <= Frontier(plan, order, log, {})
    ensures DistinctIds(batch) && Startable(plan, log, batch, Continuation)
    ensures forall i :: 0 <= i < |batch| ==> StatusOf(log, batch[i].id) == Pending
  {
    var frontier := Frontier(plan, order, log, {});
    HavingDistinct(plan, order, log, {}, Pending);
    KeepDistinct(Having(plan, order, log, {}, Pending), log);
    forall i | 0 <= i < |batch|
      ensures batch[i] in plan && StatusOf(log, batch[i].id) == Pending && Ready(plan, log, batch[i].id)
              && !KeyUsed(log, batch[i].id, Continuation) {
      assert batch[i] == frontier[i] && frontier[i] in frontier;
      PendingKeyIsFree(plan, gate, log, batch[i].id, Continuation);
      var k :| 0 <= k < |plan| && plan[k] == batch[i];
      assert Unblocked(plan[k], log);
    }
  }

  /** Whatever the interleaving of a batch, the log tells of every step what running the
      batch in order would have told. */
  lemma BatchIsOrderFree(a: seq<Event>, b: seq<Event>, batch: seq<Step>, outcomes: seq<Outcome>, anchor: Anchor)
    requires |batch| == |outcomes| && DistinctIds(batch) && Grew(a, b, StepIds(batch), Traces(batch, outcomes, anchor))
    ensures var inOrder := a + InOrder(Traces(batch, outcomes, anchor));
            && SameSteps(b, inOrder)
            && (forall s :: StatusOf(b, s) == StatusOf(inOrder, s))
            && (forall s :: StepVerified(s, Passed) in b <==> StepVerified(s, Passed) in inOrder)
            && Evidence(b) == Evidence(inOrder)
  {
    BatchConfluence(a, b, StepIds(batch), Traces(batch, outcomes, anchor));
    Confluence(b, a + InOrder(Traces(batch, outcomes, anchor)));
  }

  lemma BatchPassed(a: seq<Event>, b: seq<Event>, batch: seq<Step>, outcomes: seq<Outcome>, reports: seq<Execution>,
      s: StepId, anchor: Anchor)
    requires |batch| == |outcomes| && Grew(a, b, StepIds(batch), Traces(batch, outcomes, anchor))
    requires Reported(reports, batch, outcomes) && AllSucceeded(reports) && s in Ids(batch)
    ensures StatusOf(b, s) == Passed
  {
    var i :| 0 <= i < |batch| && batch[i].id == s;
    assert Reports(reports[i], batch[i], outcomes[i]);
    BatchVerdict(a, b, batch, outcomes, i, anchor);
  }

  lemma BatchVerdict(a: seq<Event>, b: seq<Event>, batch: seq<Step>, outcomes: seq<Outcome>, i: nat, anchor: Anchor)
    requires |batch| == |outcomes| && Grew(a, b, StepIds(batch), Traces(batch, outcomes, anchor)) && i < |batch|
    ensures StatusOf(b, batch[i].id) == VerdictFor(batch[i], outcomes[i])
  {
    var s, t := batch[i].id, Traces(batch, outcomes, anchor)[i];
    assert t == Trace(batch[i], outcomes[i], anchor) && |t| == 3
           && t[2] == StepVerified(s, VerdictFor(batch[i], outcomes[i]));
    assert StepIds(batch)[i] == s;
    GrewStatus(a, b, StepIds(batch), Traces(batch, outcomes, anchor), s);
  }

  /** The call started the failure's step, and the step did not pass. */
  ghost predicate FailedHere(plan: Plan, a: seq<Event>, b: seq<Event>, f: Failure) {
    f.step.Some? && f.step.value in Ids(plan) && Starts(a, f.step.value) < Starts(b, f.step.value)
      && StatusOf(b, f.step.value) in {StepStatus.Failed, Blocked}
  }

  lemma FailedAfter(plan: Plan, a: seq<Event>, b: seq<Event>, c: seq<Event>, f: Failure)
    requires a <= b && FailedHere(plan, b, c, f)
    ensures FailedHere(plan, a, c, f)
  {
    StartsGrow(a, b, f.step.value);
  }

  lemma BatchFailed(plan: Plan, a: seq<Event>, b: seq<Event>, batch: seq<Step>, outcomes: seq<Outcome>,
      reports: seq<Execution>, anchor: Anchor)
    requires |batch| == |outcomes| && Grew(a, b, StepIds(batch), Traces(batch, outcomes, anchor))
    requires Reported(reports, batch, outcomes) && !AllSucceeded(reports)
    requires forall i {:trigger batch[i]} :: 0 <= i < |batch| ==> batch[i] in plan
    ensures FailedHere(plan, a, b, FirstFailure(reports).value)
  {
    var k :| 0 <= k < |reports| && reports[k].failure == FirstFailure(reports) && AllSucceeded(reports[..k]);
    assert Reports(reports[k], batch[k], outcomes[k]) && batch[k] in plan;
    BatchStarts(a, b, batch, outcomes, batch[k].id, anchor);
    BatchVerdict(a, b, batch, outcomes, k, anchor);
  }

  /** How a continuation ends that nobody disturbs. With every step passed the gate has decided,
      or a step it started did not pass; otherwise it waits for the open questions, or has
      failed because no step can start. */
  ghost predicate Concluded(plan: Plan, a: seq<Event>, b: seq<Event>, open: set<Option<StepId>>, status: Status,
      r: RunResult) {
    || (r.decision.Some? && AllPassed(plan, b))
    || (r.failure.Some? && FailedHere(plan, a, b, r.failure.value))
    || (r.decision.None? && HasUnfinished(plan, b)
        && if open != {} then status == WaitingUser else status == Status.Failed && Stalled(plan, b))
  }

  lemma BatchRecorded(a: seq<Event>, b: seq<Event>, batch: seq<Step>, outcomes: seq<Outcome>, anchor: Anchor)
    requires |batch| == |outcomes| && Grew(a, b, StepIds(batch), Traces(batch, outcomes, anchor))
    ensures LogHolds(b, batch, outcomes, anchor)
  {
    forall i | 0 <= i < |batch| ensures ResultEvent(batch[i], outcomes[i], anchor) in b {
      var t := Traces(batch, outcomes, anchor)[i];
      var e := ResultEvent(batch[i], outcomes[i], anchor);
      assert t == Trace(batch[i], outcomes[i], anchor) && t[1] == e;
      assert StepIds(batch)[i] == batch[i].id;
      assert Project(b, e.step)[|Project(a, e.step)| + 1] == e;
      ProjectMembers(b, e);
    }
  }

  lemma BatchOfReady(plan: Plan, done: set<StepId>, batch: seq<Step>)
    requires DistinctIds(plan) && batch <= ReadySteps(Remaining(plan, done), done)
    ensures DistinctIds(batch) && forall s :: s in batch ==> s in plan && s.id !in done && Within(s, done)
  {
    var ready := ReadySteps(Remaining(plan, done), done);
    ReadyDistinct(plan, done, ready);
    RemainingMembers(plan, done);
    forall s | s in batch ensures s in ready {
      var i :| 0 <= i < |batch| && batch[i] == s;
      assert ready[i] == s;
    }
  }

  /** After a batch: its steps leave the list, and those that passed are done. */
  method Settle(plan: Plan, remaining: seq<Step>, done: set<StepId>, batch: seq<Step>, reports: seq<Execution>)
    returns (remaining': seq<Step>, done': set<StepId>)
    requires DistinctIds(plan) && DistinctIds(batch) && remaining == Remaining(plan, done)
    requires forall s :: s in batch ==> s in plan && s.id !in done
    requires batch != [] && |reports| == |batch|
    ensures AllSucceeded(reports) ==>
              done' == done + Ids(batch) && remaining' == Remaining(plan, done') && |remaining'| < |remaining|
  {
    remaining', done' := remaining, done;
    ghost var gone := done;
    for k := 0 to |batch|
      invariant gone == done + Ids(batch[..k]) && remaining' == Remaining(plan, gone) && |remaining'| == |remaining| - k
      invariant AllSucceeded(reports) ==> done' == gone
    {
      SettleOne(plan, done, batch, k);
      remaining' := Without(remaining', batch[k]);
      gone := gone + {batch[k].id};
      if reports[k].failure.None? { done' := done' + {batch[k].id}; }
    }
    assert batch[..|batch|] == batch;
  }

  function FirstFailure(reports: seq<Execution>): (f: Option<Failure>)
    ensures f.None? <==> AllSucceeded(reports)
    ensures f.Some? ==> exists i :: 0 <= i < |reports| && reports[i].failure == f && AllSucceeded(reports[..i])
  {
    if reports == [] then None
    else if reports[0].failure.Some? then
      assert AllSucceeded(reports[..0]);
      reports[0].failure
    else
      var f := FirstFailure(reports[1..]);
      assert f.Some? ==> exists i :: 0 <= i < |reports| && reports[i].failure == f && AllSucceeded(reports[..i]) by {
        if f.Some? {
          var i :| 0 <= i < |reports[1..]| && reports[1..][i].failure == f && AllSucceeded(reports[1..][..i]);
          assert reports[..i + 1] == [reports[0]] + reports[1..][..i];
          assert reports[i + 1].failure == f;
        }
      }
      f
  }

  lemma SettleOne(plan: Plan, done: set<StepId>, batch: seq<Step>, k: nat)
    requires DistinctIds(plan) && DistinctIds(batch) && k < |batch|
    requires forall s :: s in batch ==> s in plan && s.id !in done
    ensures var gone := done + Ids(batch[..k]);
            && done + Ids(batch[..k + 1]) == gone + {batch[k].id}
            && Without(Remaining(plan, gone), batch[k]) == Remaining(plan, gone + {batch[k].id})
            && |Remaining(plan, gone + {batch[k].id})| == |Remaining(plan, gone)| - 1
  {
    var gone := done + Ids(batch[..k]);
    assert batch[k] in batch;
    IdsOfBatch(batch, k);
    IdsGrow(batch, k);
    RemainingMembers(plan, gone);
    WithoutShorter(Remaining(plan, gone), batch[k]);
    WithoutIsDone(plan, gone, batch[k]);
  }

  /** Every step may start, and record its result under a key not used yet. */
  ghost predicate Startable(plan: Plan, log: seq<Event>, steps: seq<Step>, anchor: Anchor) {
    && !anchor.FromCheckpoint? && (anchor.Recovery? ==> anchor.seen <= |log|)
    && forall i {:trigger steps[i]} :: 0 <= i < |steps| ==>
         steps[i] in plan && Ready(plan, log, steps[i].id) && !KeyUsed(log, steps[i].id, anchor)
  }

  function Traces(steps: seq<Step>, outcomes: seq<Outcome>, anchor: Anchor): (t: seq<seq<Event>>)
    requires |steps| == |outcomes|
    ensures |t| == |steps| && forall i :: 0 <= i < |t| ==> t[i] == Trace(steps[i], outcomes[i], anchor)
  {
    seq(|steps|, i requires 0 <= i < |steps| => Trace(steps[i], outcomes[i], anchor))
  }

  function Indices(n: nat): (r: set<nat>)
    ensures forall i: nat :: i in r <==> i < n
  {
    if n == 0 then {} else Indices(n - 1) + {n - 1}
  }

  /** What each step of a batch has appended so far. */
  function Parts(steps: seq<Step>, outcomes: seq<Outcome>, waiting: set<nat>, inFlight: set<nat>,
      anchor: Anchor): (t: seq<seq<Event>>)
    requires |steps| == |outcomes|
  {
    seq(|steps|, i requires 0 <= i < |steps| =>
      if i in waiting then []
      else if i in inFlight then [StepStarted(steps[i].id)]
      else Trace(steps[i], outcomes[i], anchor))
  }

  ghost predicate Progress(a: seq<Event>, b: seq<Event>, steps: seq<Step>, outcomes: seq<Outcome>, waiting: set<nat>,
      inFlight: set<nat>, anchor: Anchor) {
    && |steps| == |outcomes|
    && waiting !! inFlight
    && (forall i :: i in waiting ==> i < |steps|)
    && (forall i :: i in inFlight ==> i < |steps|)
    && Grew(a, b, StepIds(steps), Parts(steps, outcomes, waiting, inFlight, anchor))
  }

  lemma ProgressNothing(a: seq<Event>, steps: seq<Step>, outcomes: seq<Outcome>, anchor: Anchor)
    requires |steps| == |outcomes|
    ensures Progress(a, a, steps, outcomes, Indices(|steps|), {}, anchor)
  {
    GrewNothing(a, StepIds(steps), Parts(steps, outcomes, Indices(|steps|), {}, anchor));
  }

  lemma ProgressDone(a: seq<Event>, b: seq<Event>, steps: seq<Step>, outcomes: seq<Outcome>, anchor: Anchor)
    requires Progress(a, b, steps, outcomes, {}, {}, anchor)
    ensures Grew(a, b, StepIds(steps), Traces(steps, outcomes, anchor))
  {
    assert Parts(steps, outcomes, {}, {}, anchor) == Traces(steps, outcomes, anchor);
  }

  /** The reports of the finished steps, or the first exception. */
  ghost predicate Gathered(r: Result<seq<Execution>, Error>, steps: seq<Step>, outcomes: seq<Outcome>,
      waiting: set<nat>, inFlight: set<nat>) {
    match r
    case Err(e) => e == ConcurrentChange
    case Ok(reports) =>
      && |reports| == |outcomes| == |steps|
      && forall i: nat :: i < |steps| && i !in waiting && i !in inFlight ==> Reports(reports[i], steps[i], outcomes[i])
  }

  lemma GatheredStarts(r: Result<seq<Execution>, Error>, steps: seq<Step>, outcomes: seq<Outcome>, waiting: set<nat>,
      inFlight: set<nat>, i: nat)
    requires Gathered(r, steps, outcomes, waiting, inFlight) && i in waiting
    ensures Gathered(r, steps, outcomes, waiting - {i}, inFlight + {i})
  {
  }

  lemma GatheredDone(r: Result<seq<Execution>, Error>, steps: seq<Step>, outcomes: seq<Outcome>)
    requires Gathered(r, steps, outcomes, {}, {})
    ensures r.Err? ==> r.error == ConcurrentChange
    ensures r.Ok? ==> Reported(r.value, steps, outcomes)
  {
  }

  method Gather(r: Result<seq<Execution>, Error>, steps: seq<Step>, ghost outcomes: seq<Outcome>,
      ghost waiting: set<nat>, ghost inFlight: set<nat>, i: nat, ghost o: Outcome, done: Result<Execution, Error>)
    returns (r': Result<seq<Execution>, Error>)
    requires Gathered(r, steps, outcomes, waiting, inFlight) && i < |steps| == |outcomes|
    requires if done.Ok? then Reports(done.value, steps[i], o) else done.error == ConcurrentChange
    ensures Gathered(r', steps, outcomes[i := o], waiting, inFlight - {i})
    ensures r.Ok? && done.Ok? ==> r'.Ok?
  {
    r' := if r.Ok? && done.Ok? then Ok(r.value[i := done.value]) else Err(ConcurrentChange);
  }

  lemma ProgressStatus(a: seq<Event>, b: seq<Event>, steps: seq<Step>, outcomes: seq<Outcome>, waiting: set<nat>,
      inFlight: set<nat>, i: nat, anchor: Anchor)
    requires Progress(a, b, steps, outcomes, waiting, inFlight, anchor) && (i in waiting || i in inFlight)
    ensures i in waiting ==> StatusOf(b, steps[i].id) == StatusOf(a, steps[i].id)
    ensures i in inFlight ==> StatusOf(b, steps[i].id) == StepStatus.Running
  {
    GrewStatus(a, b, StepIds(steps), Parts(steps, outcomes, waiting, inFlight, anchor), steps[i].id);
  }

  /** A step in flight has no result yet since it started, and its key is still free. */
  lemma ProgressKey(a: seq<Event>, b: seq<Event>, steps: seq<Step>, outcomes: seq<Outcome>, waiting: set<nat>,
      inFlight: set<nat>, i: nat, anchor: Anchor)
    requires Progress(a, b, steps, outcomes, waiting, inFlight, anchor) && i in inFlight
             && !KeyUsed(a, steps[i].id, anchor)
    ensures OpenResult(b, steps[i].id) == None && !KeyUsed(b, steps[i].id, anchor)
  {
    var s := steps[i].id;
    var own := Project(a, s);
    assert Parts(steps, outcomes, waiting, inFlight, anchor)[i] == [StepStarted(s)] && StepIds(steps)[i] == s;
    assert Project(b, s) == own + [StepStarted(s)];
    OpenIsLast(b, s);
    KeysAreOwn(a, s, anchor);
    KeysAreOwn(b, s, anchor);
    forall e | e in own + [StepStarted(s)] && ResultUnder(e, s, anchor) ensures e in own { }
  }

  lemma ProgressStarts(a: seq<Event>, b: seq<Event>, c: seq<Event>, steps: seq<Step>, outcomes: seq<Outcome>,
      waiting: set<nat>, inFlight: set<nat>, i: nat, anchor: Anchor)
    requires DistinctIds(steps)
    requires Progress(a, b, steps, outcomes, waiting, inFlight, anchor) && i in waiting
             && Worked(b, c, steps[i].id, [StepStarted(steps[i].id)])
    ensures Progress(a, c, steps, outcomes, waiting - {i}, inFlight + {i}, anchor)
  {
    var parts := Parts(steps, outcomes, waiting, inFlight, anchor);
    GrewWorked(a, b, c, StepIds(steps), parts, i, [StepStarted(steps[i].id)]);
    assert parts[i] + [StepStarted(steps[i].id)] == [StepStarted(steps[i].id)];
    assert parts[i := parts[i] + [StepStarted(steps[i].id)]] ==
             Parts(steps, outcomes, waiting - {i}, inFlight + {i}, anchor);
  }

  lemma ProgressFinishes(a: seq<Event>, b: seq<Event>, c: seq<Event>, steps: seq<Step>, outcomes: seq<Outcome>,
      waiting: set<nat>, inFlight: set<nat>, i: nat, o: Outcome, anchor: Anchor)
    requires DistinctIds(steps)
    requires Progress(a, b, steps, outcomes, waiting, inFlight, anchor) && i in inFlight
             && Worked(b, c, steps[i].id, Recording(steps[i], o, anchor, false))
    ensures Progress(a, c, steps, outcomes[i := o], waiting, inFlight - {i}, anchor)
  {
    var parts := Parts(steps, outcomes, waiting, inFlight, anchor);
    GrewWorked(a, b, c, StepIds(steps), parts, i, Recording(steps[i], o, anchor, false));
    assert parts[i] + Recording(steps[i], o, anchor, false) == Trace(steps[i], o, anchor);
    assert parts[i := parts[i] + Recording(steps[i], o, anchor, false)] ==
             Parts(steps, outcomes[i := o], waiting, inFlight - {i}, anchor);
  }
}
