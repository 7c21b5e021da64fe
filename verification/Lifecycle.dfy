/** The runtime of one run: steps, batches, the plan's frontier, status writes and acceptance. */
module Lifecycle {
  import opened Common
  import opened TaskEvents
  import opened PlanDag
  import opened PlanProgress
  import opened StepFolds
  import opened AcceptanceFacts
  import opened RunHistory
  import opened RunStatus
  import opened TaskRunStore
  import opened StepOutcomes
  import opened BatchTraces

  class HarnessRuntime {
    const store: Store
    const maxParallel: nat

    constructor (store: Store, maxParallel: nat)
      requires maxParallel >= 1
      ensures this.store == store && this.maxParallel == maxParallel
    {
      this.store, this.maxParallel := store, maxParallel;
    }

    // ---------- what most calls keep ----------

    /** The run exists, and the store keeps its invariant. */
    ghost predicate Open()
      reads store
    {
      store.Valid() && store.created
    }

    /** No operator wrote the status meanwhile, nor had stopped the run before. */
    twostate predicate Undisturbed()
      reads store
    {
      store.interventions == old(store.interventions) && old(store.status) !in STOPPED
    }

    /** Only operators wrote the status, if anybody did. */
    twostate predicate LeavesStatus()
      reads store
    {
      && old(store.interventions) <= store.interventions
      && (store.interventions == old(store.interventions) ==> store.status == old(store.status))
    }

    /** These questions were put to the operator, and no others; answered ones are gone. */
    twostate predicate Asks(questions: set<Option<StepId>>)
      reads store
    {
      && store.open <= old(store.open) + questions
      && old(store.answers) <= store.answers
      && (store.answers == old(store.answers) ==> store.open == old(store.open) + questions)
    }

    /** No question goes away unless it is answered. */
    twostate predicate KeepsQuestions()
      reads store
    {
      old(store.answers) <= store.answers && (store.answers == old(store.answers) ==> old(store.open) <= store.open)
    }

    /** The run is not completed unless it was before. */
    twostate predicate CompletesNothing()
      reads store
    {
      store.status == Completed ==> old(store.status) == Completed
    }

    /** A call that reports acceptance has an accepting decision and its status in the log. */
    ghost predicate AcceptanceIsLogged(r: Result<RunResult, Error>)
      reads store
    {
      r.Ok? && r.value.accepted ==> r.value.decision == Some(Accepted) && StatusChanged(Completed) in store.events
    }

    // ---------- status writes ----------

    /** Read, then compare-and-set. A paused or cancelled run is left alone and returned. */
    method SetStatus(target: Status) returns (r: Result<Status, Error>)
      requires Open() && MayWrite(target)
      modifies store
      ensures Open()
      ensures Steady(old(store.events), store.events) && Marked(old(store.checkpoints), store.checkpoints)
      ensures Asks({})
      ensures r.Ok? && r.value !in STOPPED ==> StatusChanged(target) in store.events[|old(store.events)|..]
      ensures r.Err? ==> r.error == ConcurrentChange
      ensures store.status == Completed ==> old(store.status) == Completed || target == Completed
      ensures r.Ok? ==> store.status == target || store.status in CONTROL_WRITES
      ensures old(store.interventions) <= store.interventions
      ensures Undisturbed() ==> r == Ok(target) && store.status == target
    {
      var refused := SwapStatus(target);
      if refused.Some? { return refused.value; }
      AnnounceStatus(target);
      return Ok(store.status);
    }

    /** Completed needs an acceptance; recovering needs a retry that can be recorded. */
    ghost predicate MayWrite(target: Status)
      reads store
    {
      && (target == Completed ==> LastEvaluation(store.events) == Some(Accepted))
      && (target == Recovering ==> RetryFree(store.events, store.checkpoints))
    }

    /** The write itself; a value returned means that it was not made. */
    method SwapStatus(target: Status) returns (refused: Option<Result<Status, Error>>)
      requires Open() && MayWrite(target)
      modifies store
      ensures Open()
      ensures Steady(old(store.events), store.events) && Marked(old(store.checkpoints), store.checkpoints)
      ensures Asks({})
      ensures old(store.interventions) <= store.interventions
      ensures refused.None? ==> store.status == target
      ensures refused.Some? ==> refused.value in {Err(ConcurrentChange), Ok(Paused), Ok(Cancelled)}
      ensures refused.Some? ==> old(store.status) in STOPPED || store.interventions > old(store.interventions)
      ensures refused.Some? && refused.value.Ok? ==> store.status in STOPPED
      ensures store.status == Completed ==> old(store.status) == Completed || target == Completed
    {
      var current := ReadStatus(target);
      if current in STOPPED && current != target { return Some(Ok(current)); }
      var swapped := store.CompareAndSet(current, target);
      if swapped { return None; }
      store.Interfere();
      var latest := store.status;
      return Some(if latest in STOPPED then Ok(latest) else Err(ConcurrentChange));
    }

    /** The status read. Operators may act again before it is used, unless it ends the call. */
    method ReadStatus(target: Status) returns (current: Status)
      requires Open() && MayWrite(target)
      modifies store
      ensures Open() && MayWrite(target)
      ensures Steady(old(store.events), store.events) && Marked(old(store.checkpoints), store.checkpoints)
      ensures Asks({})
      ensures old(store.interventions) <= store.interventions
      ensures store.interventions == old(store.interventions) ==> current == store.status == old(store.status)
      ensures current in STOPPED && current != target ==> store.status == current
      ensures store.status == old(store.status) || store.status in CONTROL_WRITES
    {
      store.Interfere();
      current := store.status;
      if !(current in STOPPED && current != target) {
        ghost var read := store.events;
        store.Interfere();
        SteadyTwice(old(store.events), read, store.events);
      }
      if target == Recovering {
        RetryStaysFree(old(store.events), store.events, old(store.checkpoints), store.checkpoints);
      }
    }

    method AnnounceStatus(target: Status)
      requires Open() && store.status == target
      modifies store
      ensures Open()
      ensures Steady(old(store.events), store.events) && Marked(old(store.checkpoints), store.checkpoints)
      ensures Asks({})
      ensures StatusChanged(target) in store.events[|old(store.events)|..]
      ensures store.status == target || store.status in CONTROL_WRITES
      ensures old(store.interventions) <= store.interventions
              && (store.interventions == old(store.interventions) ==> store.status == target)
    {
      store.Interfere();
      ghost var before := store.events;
      store.Note(StatusChanged(target));
      ghost var noted := store.events;
      SteadyTwice(old(store.events), before, noted);
      store.Interfere();
      SteadyTwice(old(store.events), noted, store.events);
      assert store.events[|old(store.events)|..][|before| - |old(store.events)|] == StatusChanged(target);
    }

    // ---------- one step ----------

    method StartStep(step: Step)
      requires Open() && Ready(store.plan, store.events, step.id)
      modifies store
      ensures LeavesStatus()
      ensures KeepsQuestions()
      ensures Open()
      ensures Worked(old(store.events), store.events, step.id, [StepStarted(step.id)])
      ensures StatusOf(store.events, step.id) == StepStatus.Running && OpenResult(store.events, step.id) == None
      ensures old(store.checkpoints) <= store.checkpoints
      ensures store.status == old(store.status) || store.status in CONTROL_WRITES
    {
      store.Interfere();
      SteadyReady(store.plan, old(store.events), store.events, step.id);
      ghost var before := store.events;
      var _ := store.Append(StepStarted(step.id));
      StepAppend(before, StepStarted(step.id), step.id);
      Appended(before, StepStarted(step.id));
    }

    /** What a result's key may be: only a retry's key may be used already, and a retry is of
        a stored checkpoint, in a run that is no longer recovering. */
    ghost predicate MayRecord(s: StepId, anchor: Anchor)
      reads store
    {
      && (anchor.Recovery? ==> anchor.seen <= |store.events|)
      && (anchor.FromCheckpoint? ==> anchor.checkpoint < |store.checkpoints| && store.status != Recovering)
      && (KeyUsed(store.events, s, anchor) ==> anchor.FromCheckpoint?)
    }

    /** The result goes to the log, unless the log has one under this key. */
    method RecordResult(step: Step, o: Outcome, anchor: Anchor)
      requires Open() && MayRecord(step.id, anchor)
      requires StatusOf(store.events, step.id) == StepStatus.Running && OpenResult(store.events, step.id) == None
      modifies store
      ensures LeavesStatus()
      ensures Open()
      ensures Marked(old(store.checkpoints), store.checkpoints)
      ensures Asks({})
      ensures var stale := old(KeyUsed(store.events, step.id, anchor));
              && Worked(old(store.events), store.events, step.id, ResultPart(step, o, anchor, stale))
              && OpenResult(store.events, step.id) == (if stale then None else Some(ResultEvent(step, o, anchor)))
              && (stale ==> Retried(store.events, step.id))
      ensures StatusOf(store.events, step.id) == StepStatus.Running
      ensures store.status == old(store.status) || store.status in CONTROL_WRITES
    {
      store.Interfere();
      ghost var before := store.events;
      KeysAreOwn(old(store.events), step.id, anchor);
      KeysAreOwn(before, step.id, anchor);
      var e := ResultEvent(step, o, anchor);
      var appended := store.Append(e);
      if appended {
        StepAppend(before, e, step.id);
        Appended(before, e);
        SteadyWorked(old(store.events), before, store.events, step.id, [e]);
      }
    }

    method CreateCheckpoint(failure: Option<Failure>)
      requires Open()
      requires RetryOf([failure]).Some? ==> Ready(store.plan, store.events, RetryOf([failure]).value)
      modifies store
      ensures LeavesStatus()
      ensures Open()
      ensures Saved(old(store.checkpoints), store.checkpoints, failure)
      ensures Steady(old(store.events), store.events)
      ensures RetryOf(store.checkpoints) in {None, RetryOf([failure])} && RetryFree(store.events, store.checkpoints)
      ensures Asks({})
      ensures store.status == old(store.status) || store.status in CONTROL_WRITES
    {
      store.Interfere();
      ghost var found := store.checkpoints;
      if RetryOf([failure]).Some? {
        SteadyReady(store.plan, old(store.events), store.events, RetryOf([failure]).value);
      }
      store.CreateCheckpoint(failure);
      assert RetryOf(store.checkpoints) == RetryOf([failure]);
      ghost var events, checkpoints := store.events, store.checkpoints;
      AnnounceCheckpoint();
      RetryStaysFree(events, store.events, checkpoints, store.checkpoints);
      assert checkpoints[|found|] == failure;
      MarkedSaved(old(store.checkpoints), found, checkpoints, store.checkpoints, failure);
      SteadyTwice(old(store.events), events, store.events);
    }

    method AnnounceCheckpoint()
      requires Open()
      modifies store
      ensures LeavesStatus()
      ensures Open()
      ensures Steady(old(store.events), store.events) && Marked(old(store.checkpoints), store.checkpoints)
      ensures Asks({})
      ensures store.status == old(store.status) || store.status in CONTROL_WRITES
    {
      store.Interfere();
      ghost var before := store.events;
      store.Note(CheckpointCreated);
      ghost var noted := store.events;
      SteadyTwice(old(store.events), before, noted);
      store.Interfere();
      SteadyTwice(old(store.events), noted, store.events);
    }

    method VerifyStep(step: Step, o: Outcome, ghost anchor: Anchor)
      requires Open() && step in store.plan && RetryFree(store.events, store.checkpoints)
      requires AwaitsVerdict(step, o, anchor)
      requires VerdictFor(step, o) == Passed ==> RetryOf(store.checkpoints) != Some(step.id)
      modifies store
      ensures LeavesStatus()
      ensures Open()
      ensures Marked(old(store.checkpoints), store.checkpoints)
      ensures Asks({})
      ensures Worked(old(store.events), store.events, step.id, [StepVerified(step.id, VerdictFor(step, o))])
      ensures StatusOf(store.events, step.id) == VerdictFor(step, o) && RetryFree(store.events, store.checkpoints)
      ensures store.status == old(store.status) || store.status in CONTROL_WRITES
    {
      store.Interfere();
      ghost var before := store.events;
      RetryStaysFree(old(store.events), before, old(store.checkpoints), store.checkpoints);
      AppendVerdict(step, o, anchor);
      SteadyWorked(old(store.events), before, store.events, step.id, [StepVerified(step.id, VerdictFor(step, o))]);
    }

    method AppendVerdict(step: Step, o: Outcome, ghost anchor: Anchor)
      requires Open() && step in store.plan && RetryFree(store.events, store.checkpoints)
      requires AwaitsVerdict(step, o, anchor)
      requires VerdictFor(step, o) == Passed ==> RetryOf(store.checkpoints) != Some(step.id)
      modifies store`events
      ensures Open()
      ensures Worked(old(store.events), store.events, step.id, [StepVerified(step.id, VerdictFor(step, o))])
      ensures StatusOf(store.events, step.id) == VerdictFor(step, o) && RetryFree(store.events, store.checkpoints)
    {
      ghost var before := store.events;
      var e := StepVerified(step.id, VerdictFor(step, o));
      EarnedIff(store.plan, step, ResultEvent(step, o, anchor));
      var _ := store.Append(e);
      StepAppend(before, e, step.id);
      Appended(before, e);
    }

    /** After a failed step: the run's status, and what the operator is told. */
    method AnnounceFailure(f: Failure) returns (r: Result<Status, Error>)
      requires Open() && f.status !in STOPPED && f.status != Completed && MayWrite(f.status)
      modifies store
      ensures old(store.interventions) <= store.interventions
      ensures Undisturbed() ==> r == Ok(f.status) && store.status == f.status
      ensures r == Ok(f.status) ==>
                old(store.events) <= store.events
                  && {StatusChanged(f.status), FailureEvent(f)} <= Added(old(store.events), store.events)
      ensures KeepsQuestions()
      ensures Open()
      ensures Marked(old(store.checkpoints), store.checkpoints)
      ensures Asks(if r == Ok(f.status) && f.action == AskUser then {f.step} else {})
      ensures Steady(old(store.events), store.events)
      ensures r.Err? ==> r.error == ConcurrentChange
      ensures CompletesNothing()
    {
      r := SetStatus(f.status);
      if r == Ok(f.status) {
        ghost var updated := store.events;
        TellFailure(f);
        SteadyTwice(old(store.events), updated, store.events);
      }
    }

    method TellFailure(f: Failure)
      requires Open()
      modifies store
      ensures LeavesStatus()
      ensures Open()
      ensures Marked(old(store.checkpoints), store.checkpoints)
      ensures Asks(if f.action == AskUser then {f.step} else {})
      ensures Steady(old(store.events), store.events)
      ensures FailureEvent(f) in store.events[|old(store.events)|..]
      ensures store.status == old(store.status) || store.status in CONTROL_WRITES
    {
      store.Interfere();
      ghost var before := store.events;
      store.Note(FailureEvent(f));
      ghost var noted := store.events;
      SteadyTwice(old(store.events), before, noted);
      if f.action == AskUser {
        store.Interfere();
        SteadyTwice(old(store.events), noted, store.events);
        store.OpenInteraction(f.step);
      }
      assert store.events[|old(store.events)|..][|before| - |old(store.events)|] == FailureEvent(f);
    }

    /** What follows the tool call: the result, a checkpoint, the verdict and, after a
        failure, the run's status. If the result's key is used already, the verdict comes
        without it. */
    method FinishStep(step: Step, o: Outcome, anchor: Anchor) returns (r: Result<Execution, Error>)
      requires Open() && step in store.plan && MayRecord(step.id, anchor)
      requires StatusOf(store.events, step.id) == StepStatus.Running && OpenResult(store.events, step.id) == None
      modifies store
      ensures old(store.interventions) <= store.interventions
      ensures Undisturbed() ==>
                && r.Ok?
                && store.status ==
                     if o.ok && (forall x :: x in step.required ==> x in o.evidence) then old(store.status)
                     else if o.ok then Status.Failed
                     else if o.needsConfirmation || (o.action == Some(AskUser) && !o.recoverable) then WaitingUser
                     else if o.recoverable && o.action != Some(Stop) then Recovering
                     else Status.Failed
      ensures Undisturbed() && !(o.ok && forall x :: x in step.required ==> x in o.evidence) ==>
                var told := if store.status == WaitingUser then UserInputRequired else RunFailed;
                old(store.events) <= store.events && told in Added(old(store.events), store.events)
      ensures Undisturbed() ==> Asks(if !o.ok && o.action == Some(AskUser) then {Some(step.id)} else {})
      ensures KeepsQuestions()
      ensures Open()
      ensures Saved(old(store.checkpoints), store.checkpoints, FailureOf(step, o))
      ensures o.ok && !(forall x :: x in step.required ==> x in o.evidence) ==>
                Saved(old(store.checkpoints), store.checkpoints,
                  Some(Failure(Some(step.id), Status.Failed, false, Stop)))
      ensures Worked(old(store.events), store.events, step.id,
                Recording(step, o, anchor, old(KeyUsed(store.events, step.id, anchor))))
      ensures StatusOf(store.events, step.id) ==
                if o.ok && (forall x :: x in step.required ==> x in o.evidence) then Passed
                else if !o.ok && (o.needsConfirmation || (o.action == Some(AskUser) && !o.recoverable)) then Blocked
                else StepStatus.Failed
      ensures r.Err? ==> r.error == ConcurrentChange
      ensures r.Ok? ==> Reports(r.value, step, o)
      ensures CompletesNothing()
    {
      ghost var stale := KeyUsed(store.events, step.id, anchor);
      RecordResult(step, o, anchor);
      ghost var recorded, found := store.events, store.checkpoints;
      r := JudgeStep(step, o, anchor);
      MarkedSaved(old(store.checkpoints), found, store.checkpoints, store.checkpoints, FailureOf(step, o));
      ghost var verdict := [StepVerified(step.id, VerdictFor(step, o))];
      GainedStatus(recorded, store.events, step.id, verdict);
      Appended([], verdict[0]);
      assert [] + [verdict[0]] == verdict;
      WorkedTwice(old(store.events), recorded, store.events, step.id, ResultPart(step, o, anchor, stale), verdict);
    }

    /** What follows the recorded result. */
    method JudgeStep(step: Step, o: Outcome, ghost anchor: Anchor) returns (r: Result<Execution, Error>)
      requires Open() && step in store.plan && AwaitsVerdict(step, o, anchor)
      modifies store
      ensures old(store.interventions) <= store.interventions
      ensures Undisturbed() ==> r.Ok? && store.status == StatusAfter(step, o, old(store.status))
      ensures Undisturbed() && VerdictFor(step, o) != Passed ==>
                old(store.events) <= store.events
                  && FailureEvent(FailureOf(step, o).value) in Added(old(store.events), store.events)
      ensures Undisturbed() ==> Asks(if !o.ok && o.action == Some(AskUser) then {Some(step.id)} else {})
      ensures KeepsQuestions()
      ensures Open()
      ensures Saved(old(store.checkpoints), store.checkpoints, FailureOf(step, o))
      ensures Worked(old(store.events), store.events, step.id, [StepVerified(step.id, VerdictFor(step, o))])
      ensures r.Err? ==> r.error == ConcurrentChange
      ensures r.Ok? ==> Reports(r.value, step, o)
      ensures CompletesNothing()
    {
      var failure := FailureOf(step, o);
      DecideStep(step, o, anchor, failure);
      ghost var verified, saved := store.events, store.checkpoints;
      if failure.Some? {
        var updated := AnnounceFailure(failure.value);
        if updated.Err? { r := Err(updated.error); } else { r := Ok(Execution(o, failure)); }
        WorkedSteady(old(store.events), verified, store.events, step.id,
          [StepVerified(step.id, VerdictFor(step, o))]);
      } else {
        r := Ok(Execution(o, None));
      }
      MarkedSaved(old(store.checkpoints), old(store.checkpoints), saved, store.checkpoints, failure);
    }

    /** The step runs, and this result of it is the last thing recorded; or a retry's key was
        used, and none was. */
    ghost predicate AwaitsVerdict(step: Step, o: Outcome, anchor: Anchor)
      reads store
    {
      && StatusOf(store.events, step.id) == StepStatus.Running
      && match OpenResult(store.events, step.id)
         case Some(e) => e == ResultEvent(step, o, anchor)
         case None => Retried(store.events, step.id)
    }

    /** The checkpoint and the verdict. */
    method DecideStep(step: Step, o: Outcome, ghost anchor: Anchor, failure: Option<Failure>)
      requires Open() && step in store.plan && failure == FailureOf(step, o) && AwaitsVerdict(step, o, anchor)
      modifies store
      ensures LeavesStatus()
      ensures Open()
      ensures Saved(old(store.checkpoints), store.checkpoints, failure)
      ensures Asks({})
      ensures Worked(old(store.events), store.events, step.id, [StepVerified(step.id, VerdictFor(step, o))])
      ensures RetryFree(store.events, store.checkpoints)
      ensures store.status == old(store.status) || store.status in CONTROL_WRITES
    {
      StartedHasDependencies(store.plan, store.gate, store.events, step.id);
      CreateCheckpoint(failure);
      ghost var checked := store.events;
      ghost var saved := store.checkpoints;
      VerifyStep(step, o, anchor);
      MarkedSaved(old(store.checkpoints), old(store.checkpoints), saved, store.checkpoints, failure);
      SteadyWorked(old(store.events), checked, store.events, step.id,
        [StepVerified(step.id, VerdictFor(step, o))]);
    }

    // ---------- batches ----------

    method CallTool(step: Step) returns (o: Outcome)
    {
      o := *;
    }

    /** The longest prefix of parallel-safe steps up to the limit, or the first step alone. */
    method ExecutionBatch(ready: seq<Step>) returns (batch: seq<Step>)
      ensures batch <= ready && (batch == [] <==> ready == [])
      ensures |batch| > 1 ==> |batch| <= maxParallel && AllParallelSafe(batch)
      ensures batch != [] && AllParallelSafe(batch) ==>
                batch == ready || |batch| >= maxParallel || !ready[|batch|].parallelSafe
    {
      if ready == [] { return []; }
      if !ready[0].parallelSafe { return [ready[0]]; }
      var n := 0;
      while n < |ready| && ready[n].parallelSafe && (n == 0 || n < maxParallel)
        invariant 0 <= n <= |ready|
        invariant n > 1 ==> n <= maxParallel
        invariant forall i :: 0 <= i < n ==> ready[i].parallelSafe
      {
        n := n + 1;
      }
      return ready[..if n < 2 then 1 else n];
    }

    /** Runs the steps of a batch. Their two halves, before and after the tool call,
        interleave in any order; `outcomes` is what the tools returned. */
    method ExecuteBatch(steps: seq<Step>, anchor: Anchor)
      returns (r: Result<seq<Execution>, Error>, ghost outcomes: seq<Outcome>)
      requires Open()
      requires Startable(store.plan, store.events, steps, anchor)
      requires DistinctIds(steps)
      modifies store
      ensures old(store.interventions) <= store.interventions
      ensures Undisturbed() && steps != [] ==>
                r.Ok? && store.status !in STOPPED
      ensures KeepsQuestions()
      ensures Open()
      ensures |outcomes| == |steps|
      ensures Grew(old(store.events), store.events, StepIds(steps), Traces(steps, outcomes, anchor))
      ensures r == Err(EmptyBatch) <==> steps == []
      ensures r.Err? && steps != [] ==> r.error == ConcurrentChange
      ensures r.Ok? ==> Reported(r.value, steps, outcomes)
      ensures CompletesNothing()
    {
      if steps == [] {
        outcomes := [];
        GrewNothing(store.events, StepIds(steps), Traces(steps, outcomes, anchor));
        return Err(EmptyBatch), outcomes;
      }
      r, outcomes := Interleave(steps, anchor);
    }

    method Interleave(steps: seq<Step>, anchor: Anchor)
      returns (r: Result<seq<Execution>, Error>, ghost outcomes: seq<Outcome>)
      requires Open()
      requires Startable(store.plan, store.events, steps, anchor)
      requires DistinctIds(steps)
      modifies store
      ensures old(store.interventions) <= store.interventions
      ensures Undisturbed() ==> r.Ok? && store.status !in STOPPED
      ensures KeepsQuestions()
      ensures Open()
      ensures |outcomes| == |steps|
      ensures Grew(old(store.events), store.events, StepIds(steps), Traces(steps, outcomes, anchor))
      ensures r.Err? ==> r.error == ConcurrentChange
      ensures r.Ok? ==> Reported(r.value, steps, outcomes)
      ensures CompletesNothing()
    {
      var blank: Outcome := *;
      r := Ok(seq(|steps|, _ => Execution(blank, None)));
      outcomes := seq(|steps|, _ => blank);
      var waiting, inFlight := Indices(|steps|), {};
      ghost var start := store.events;
      ProgressNothing(start, steps, outcomes, anchor);
      while waiting != {} || inFlight != {}
        invariant KeepsQuestions()
        invariant Open()
        invariant Progress(start, store.events, steps, outcomes, waiting, inFlight, anchor)
        invariant Gathered(r, steps, outcomes, waiting, inFlight)
        invariant old(store.interventions) <= store.interventions
        invariant Undisturbed() ==> r.Ok? && store.status !in STOPPED
        invariant CompletesNothing()
        decreases 2 * |waiting| + |inFlight|
      {
        r, outcomes, waiting, inFlight := Advance(start, steps, r, outcomes, waiting, inFlight, anchor);
      }
      ProgressDone(start, store.events, steps, outcomes, anchor);
      GatheredDone(r, steps, outcomes);
    }

    /** One half of one step: some waiting step starts, or some started one finishes. */
    method Advance(ghost start: seq<Event>, steps: seq<Step>, r: Result<seq<Execution>, Error>,
        ghost outcomes: seq<Outcome>, waiting: set<nat>, inFlight: set<nat>, anchor: Anchor)
      returns (r': Result<seq<Execution>, Error>, ghost outcomes': seq<Outcome>, waiting': set<nat>,
          inFlight': set<nat>)
      requires Open() && DistinctIds(steps) && (waiting != {} || inFlight != {})
      requires Startable(store.plan, start, steps, anchor)
      requires Progress(start, store.events, steps, outcomes, waiting, inFlight, anchor)
               && Gathered(r, steps, outcomes, waiting, inFlight)
      modifies store
      ensures old(store.interventions) <= store.interventions
      ensures Undisturbed() ==> store.status !in STOPPED && (r.Ok? ==> r'.Ok?)
      ensures KeepsQuestions()
      ensures Open()
      ensures Progress(start, store.events, steps, outcomes', waiting', inFlight', anchor)
              && Gathered(r', steps, outcomes', waiting', inFlight')
      ensures 2 * |waiting'| + |inFlight'| < 2 * |waiting| + |inFlight|
      ensures CompletesNothing()
    {
      var i :| i in waiting || i in inFlight;
      if i in waiting {
        BeginOne(start, steps, outcomes, waiting, inFlight, i, anchor);
        GatheredStarts(r, steps, outcomes, waiting, inFlight, i);
        r', outcomes', waiting', inFlight' := r, outcomes, waiting - {i}, inFlight + {i};
      } else {
        r', outcomes' := EndAndGather(start, steps, r, outcomes, waiting, inFlight, i, anchor);
        waiting', inFlight' := waiting, inFlight - {i};
      }
    }

    method EndAndGather(ghost start: seq<Event>, steps: seq<Step>, r: Result<seq<Execution>, Error>,
        ghost outcomes: seq<Outcome>, ghost waiting: set<nat>, ghost inFlight: set<nat>, i: nat, anchor: Anchor)
      returns (r': Result<seq<Execution>, Error>, ghost outcomes': seq<Outcome>)
      requires Open() && DistinctIds(steps) && i in inFlight && Startable(store.plan, start, steps, anchor)
      requires Progress(start, store.events, steps, outcomes, waiting, inFlight, anchor)
               && Gathered(r, steps, outcomes, waiting, inFlight)
      modifies store
      ensures old(store.interventions) <= store.interventions
      ensures Undisturbed() ==> store.status !in STOPPED && (r.Ok? ==> r'.Ok?)
      ensures KeepsQuestions()
      ensures Open()
      ensures Progress(start, store.events, steps, outcomes', waiting, inFlight - {i}, anchor)
              && Gathered(r', steps, outcomes', waiting, inFlight - {i})
      ensures CompletesNothing()
    {
      var o, done := EndOne(start, steps, outcomes, waiting, inFlight, i, anchor);
      r' := Gather(r, steps, outcomes, waiting, inFlight, i, o, done);
      outcomes' := outcomes[i := o];
    }

    method BeginOne(ghost start: seq<Event>, steps: seq<Step>, ghost outcomes: seq<Outcome>, ghost waiting: set<nat>,
        ghost inFlight: set<nat>, i: nat, anchor: Anchor)
      requires Open() && DistinctIds(steps)
      requires Progress(start, store.events, steps, outcomes, waiting, inFlight, anchor) && i in waiting
      requires Ready(store.plan, start, steps[i].id)
      modifies store
      ensures LeavesStatus()
      ensures KeepsQuestions()
      ensures Open()
      ensures Progress(start, store.events, steps, outcomes, waiting - {i}, inFlight + {i}, anchor)
      ensures CompletesNothing()
    {
      ProgressStatus(start, store.events, steps, outcomes, waiting, inFlight, i, anchor);
      StillReady(steps[i].id, start);
      StartStep(steps[i]);
      ProgressStarts(start, old(store.events), store.events, steps, outcomes, waiting, inFlight, i, anchor);
    }

    method EndOne(ghost start: seq<Event>, steps: seq<Step>, ghost outcomes: seq<Outcome>, ghost waiting: set<nat>,
        ghost inFlight: set<nat>, i: nat, anchor: Anchor)
      returns (o: Outcome, done: Result<Execution, Error>)
      requires Open() && DistinctIds(steps)
      requires Progress(start, store.events, steps, outcomes, waiting, inFlight, anchor) && i in inFlight
      requires Startable(store.plan, start, steps, anchor)
      modifies store
      ensures old(store.interventions) <= store.interventions
      ensures Undisturbed() ==> done.Ok? && store.status !in STOPPED
      ensures KeepsQuestions()
      ensures Open()
      ensures Progress(start, store.events, steps, outcomes[i := o], waiting, inFlight - {i}, anchor)
      ensures if done.Ok? then Reports(done.value, steps[i], o) else done.error == ConcurrentChange
      ensures CompletesNothing()
    {
      ProgressStatus(start, store.events, steps, outcomes, waiting, inFlight, i, anchor);
      ProgressKey(start, store.events, steps, outcomes, waiting, inFlight, i, anchor);
      o := CallTool(steps[i]);
      done := FinishStep(steps[i], o, anchor);
      ProgressFinishes(start, old(store.events), store.events, steps, outcomes, waiting, inFlight, i, o, anchor);
    }

    lemma StillReady(s: StepId, before: seq<Event>)
      requires store.Valid() && before <= store.events
      requires Ready(store.plan, before, s) && StatusOf(store.events, s) == StatusOf(before, s)
      ensures Ready(store.plan, store.events, s)
    {
      DependenciesStay(store.plan, store.gate, before, store.events, s);
    }
  
    // ---------- acceptance ----------

    /** Facts go to the log unless there are none or their key is used. */
    method RecordFacts(facts: Facts, key: FactsKey)
      requires Open() && (key.RecoveryFacts? ==> key.seen <= |store.events|)
      modifies store
      ensures LeavesStatus()
      ensures Asks({})
      ensures Open()
      ensures SameStory(old(store.events), store.events)
      ensures Rebuilt(store.events) == if old(FactsKeyUsed(store.events, key)) then Rebuilt(old(store.events))
              else Merged(Rebuilt(old(store.events)), facts)
      ensures CompletesNothing()
    {
      store.Interfere();
      ghost var before := store.events;
      RebuiltCanonical(before);
      MergeIdempotent(Rebuilt(before));
      if facts != NoFacts {
        var appended := store.Append(FactsRecorded(facts, key));
        if appended { FactsAppend(before, facts, key); }
      }
    }

    /** The facts a resumed call works with; under a fresh key, the log alone then yields the
        same. */
    method EffectiveFacts(supplied: Facts, key: FactsKey) returns (facts: Facts)
      requires Open() && (key.RecoveryFacts? ==> key.seen <= |store.events|)
      modifies store
      ensures LeavesStatus()
      ensures Asks({})
      ensures Open()
      ensures SameStory(old(store.events), store.events)
      ensures facts == Merged(Rebuilt(old(store.events)), supplied)
      ensures Held(facts, store.events) <==>
                !old(FactsKeyUsed(store.events, key)) || Known(supplied, Rebuilt(old(store.events)))
      ensures CompletesNothing()
    {
      var persisted := FromEvents(store.events);
      RecordFacts(supplied, key);
      facts := Merged(persisted, supplied);
      MergedCanonical(persisted, supplied);
      MergeIdempotent(facts);
      if old(FactsKeyUsed(store.events, key)) { ReusedKeyLosesFacts(old(store.events), supplied, key); }
    }

    /** The only way to completed: every step passed, and the gate accepts what the log holds. */
    method FinishAcceptance(facts: Facts, results: seq<Outcome>) returns (r: Result<RunResult, Error>)
      requires Open() && store.status != Completed
      requires Held(facts, store.events) && Carried(results, store.events)
      modifies store
      ensures old(store.interventions) <= store.interventions
      ensures Undisturbed() && AllPassed(store.plan, old(store.events)) ==>
                && r.Ok? && r.value.decision.Some?
                && (r.value.accepted <==> r.value.decision == Some(Accepted))
                && (r.value.failure.Some? <==> r.value.decision == Some(Rejected))
                && (store.status == Completed <==> r.value.decision == Some(Accepted))
                && (store.status == WaitingUser <==> r.value.decision == Some(BlockedOnUser))
                && (store.status == AcceptanceFailed <==> r.value.decision == Some(Rejected))
                && (r.value.decision == Some(BlockedOnUser) ==> ControlAllowed(Resume, store.status))
                && (r.value.decision == Some(Rejected) ==> store.status in TERMINAL)
                && Asks(if r.value.decision == Some(BlockedOnUser) then {None} else {})
      ensures Undisturbed() && AllPassed(store.plan, old(store.events)) ==>
                && old(store.events) <= store.events && r.Ok?
                && (match r.value.decision.value
                    case Accepted => RunCompleted
                    case BlockedOnUser => UserInputRequired
                    case Rejected => RunFailed) in Added(old(store.events), store.events)
      ensures KeepsQuestions()
      ensures Open()
      ensures r.Ok? ==> Saved(old(store.checkpoints), store.checkpoints,
                if r.value.decision == Some(Rejected) then Some(Failure(None, AcceptanceFailed, false, Stop)) else None)
      ensures SameStory(old(store.events), store.events)
      ensures r == Err(StepsUnfinished) <==> !AllPassed(store.plan, old(store.events))
      ensures r.Err? ==> r.error in {StepsUnfinished, ConcurrentChange}
      ensures r.Ok? ==> LastEvaluation(store.events) == r.value.decision && r.value.decision.Some?
      ensures AcceptanceIsLogged(r) && (r.Ok? && r.value.accepted ==> RunCompleted in store.events)
    {
      store.Interfere();
      if HasUnfinished(store.plan, store.events) { return Err(StepsUnfinished); }
      ghost var found := store.checkpoints;
      var decision;
      r, decision := EvaluateAndConclude(facts, results);
      MarkedSaved(old(store.checkpoints), found, store.checkpoints, store.checkpoints,
        if decision == Rejected then Some(Failure(None, AcceptanceFailed, false, Stop)) else None);
    }

    method EvaluateAndConclude(facts: Facts, results: seq<Outcome>)
      returns (r: Result<RunResult, Error>, decision: Decision)
      requires Open() && store.status != Completed && AllPassed(store.plan, store.events)
      requires Held(facts, store.events) && Carried(results, store.events)
      modifies store
      ensures old(store.interventions) <= store.interventions
      ensures Undisturbed() ==>
                && r.Ok? && store.status == TargetOf(decision) && (r.value.accepted <==> decision == Accepted)
                && (r.value.failure.Some? <==> decision == Rejected)
                && Asks(if decision == BlockedOnUser then {None} else {})
                && old(store.events) <= store.events && ClosingEvent(decision) in Added(old(store.events), store.events)
      ensures KeepsQuestions()
      ensures Open()
      ensures Saved(old(store.checkpoints), store.checkpoints,
                if decision == Rejected then Some(Failure(None, AcceptanceFailed, false, Stop)) else None)
      ensures SameStory(old(store.events), store.events) && LastEvaluation(store.events) == Some(decision)
      ensures r.Err? ==> r.error == ConcurrentChange
      ensures r.Ok? ==> r.value.decision == Some(decision)
      ensures r.Ok? && r.value.accepted ==>
                decision == Accepted && StatusChanged(Completed) in store.events && RunCompleted in store.events
    {
      decision := Evaluate(facts, results);
      r := Conclude(decision);
    }

    /** The gate's verdict on what the log holds, written to the log. */
    method Evaluate(facts: Facts, results: seq<Outcome>) returns (decision: Decision)
      requires Open() && store.status != Completed && AllPassed(store.plan, store.events)
      requires Held(facts, store.events) && Carried(results, store.events)
      modifies store`events
      ensures store.Valid() && LastEvaluation(store.events) == Some(decision)
      ensures SameStory(old(store.events), store.events)
      ensures exists now ::
                decision == store.gate(GateEvidence(old(store.events)) + ResultRefs(results),
                    Rebuilt(old(store.events)), now)
                            && store.events == old(store.events) + [AcceptanceEvaluated(decision, now)]
      ensures ResultsKept(old(store.events)) ==> ResultRefs(results) <= GateEvidence(old(store.events))
    {
      var held := FromEvents(store.events);
      var merged := Merged(held, facts);
      var recorded := CollectEvidence(store.events);
      var evidence := recorded + (set x | x in merged.evidence) + ResultRefs(results);
      if ResultsKept(store.events) { ResultRefsCarried(results, store.events); }
      assert evidence == GateEvidence(store.events) + ResultRefs(results);
      assert ResultsKept(store.events) ==> evidence == GateEvidence(store.events);
      var now: int := *;
      decision := store.gate(evidence, merged, now);
      ghost var before := store.events;
      assert Judged(store.gate, before, decision, now);
      var _ := store.Append(AcceptanceEvaluated(decision, now));
      Appended(before, AcceptanceEvaluated(decision, now));
    }

    /** The checkpoint, status and closing event that a decision calls for. */
    method Conclude(decision: Decision) returns (r: Result<RunResult, Error>)
      requires Open() && store.status != Completed && LastEvaluation(store.events) == Some(decision)
      modifies store
      ensures old(store.interventions) <= store.interventions
      ensures Undisturbed() ==>
                && r.Ok? && store.status == TargetOf(decision) && (r.value.accepted <==> decision == Accepted)
                && (r.value.failure.Some? <==> decision == Rejected)
                && Asks(if decision == BlockedOnUser then {None} else {})
                && old(store.events) <= store.events && ClosingEvent(decision) in Added(old(store.events), store.events)
      ensures KeepsQuestions()
      ensures Open()
      ensures Saved(old(store.checkpoints), store.checkpoints,
                if decision == Rejected then Some(Failure(None, AcceptanceFailed, false, Stop)) else None)
      ensures Steady(old(store.events), store.events)
      ensures r.Err? ==> r.error == ConcurrentChange
      ensures r.Ok? ==> r.value.decision == Some(decision)
      ensures r.Ok? && r.value.accepted ==>
                decision == Accepted && StatusChanged(Completed) in store.events && RunCompleted in store.events
    {
      var target := TargetOf(decision);
      var failure := if decision == Rejected then Some(Failure(None, AcceptanceFailed, false, Stop)) else None;
      CreateCheckpoint(failure);
      ghost var saved := store.checkpoints;
      if target == WaitingUser {
        store.Interfere();
        store.OpenInteraction(None);
      }
      ghost var ready := store.events;
      var updated := Close(decision);
      SteadyTwice(old(store.events), ready, store.events);
      MarkedSaved(old(store.checkpoints), old(store.checkpoints), saved, store.checkpoints, failure);
      if updated.Err? { return Err(updated.error); }
      r := Ok(RunResult(decision == Accepted && updated.value == target, failure, Some(decision)));
    }

    /** Writes the status a decision calls for and, if it stands, the closing event. */
    method Close(decision: Decision) returns (updated: Result<Status, Error>)
      requires Open() && LastEvaluation(store.events) == Some(decision)
      modifies store
      ensures old(store.interventions) <= store.interventions
      ensures Undisturbed() ==> updated == Ok(TargetOf(decision)) && store.status == TargetOf(decision)
      ensures Open()
      ensures Marked(old(store.checkpoints), store.checkpoints)
      ensures Asks({})
      ensures Steady(old(store.events), store.events)
      ensures updated.Err? ==> updated.error == ConcurrentChange
      ensures updated == Ok(TargetOf(decision)) ==>
                {StatusChanged(TargetOf(decision)), ClosingEvent(decision)} <= Added(old(store.events), store.events)
    {
      updated := SetStatus(TargetOf(decision));
      if updated == Ok(TargetOf(decision)) {
        ghost var before := store.events;
        store.Note(ClosingEvent(decision));
        assert store.events[|before|] == ClosingEvent(decision);
      }
    }

    // ---------- a first run ----------

    /** One batch of a first run: the steps it starts had never started. */
    method RunReady(batch: seq<Step>, ghost done: set<StepId>)
      returns (r: Result<seq<Execution>, Error>, ghost outcomes: seq<Outcome>)
      requires Open() && store.status != Completed
      requires batch != [] && DistinctIds(batch)
               && forall s :: s in batch ==> s in store.plan && s.id !in done && Within(s, done)
      requires DoneOnce(store.events, done)
      modifies store
      ensures old(store.interventions) <= store.interventions
      ensures Undisturbed() ==> r.Ok? && store.status !in STOPPED
      ensures Open() && store.status != Completed
      ensures old(store.events) <= store.events && Rebuilt(store.events) == Rebuilt(old(store.events))
      ensures forall s :: Starts(store.events, s) <= 1
      ensures KeepsResults(old(store.events), store.events)
      ensures r.Err? ==> r.error == ConcurrentChange
      ensures r.Ok? ==> Reported(r.value, batch, outcomes) && LogHolds(store.events, batch, outcomes, FirstRun)
      ensures r.Ok? && !AllSucceeded(r.value) ==>
                FailedHere(store.plan, old(store.events), store.events, FirstFailure(r.value).value)
      ensures r.Ok? && AllSucceeded(r.value) ==> DoneOnce(store.events, done + Ids(batch))
    {
      ghost var before := store.events;
      forall i | 0 <= i < |batch|
        ensures batch[i] in store.plan && Ready(store.plan, before, batch[i].id)
                && !KeyUsed(before, batch[i].id, FirstRun) {
        assert batch[i] in batch;
        NeverStarted(store.plan, store.gate, before, batch[i].id);
        PendingKeyIsFree(store.plan, store.gate, before, batch[i].id, FirstRun);
        var k :| 0 <= k < |store.plan| && store.plan[k] == batch[i];
        assert DependenciesPassed(store.plan, before, batch[i].id);
      }
      r, outcomes := ExecuteBatch(batch, FirstRun);
      forall s ensures Starts(store.events, s) == Starts(before, s) + if s in Ids(batch) then 1 else 0 {
        BatchStarts(before, store.events, batch, outcomes, s, FirstRun);
      }
      if r.Ok? && AllSucceeded(r.value) {
        forall s | s in done + Ids(batch) ensures StatusOf(store.events, s) == Passed {
          if s in done { PassedStays(store.plan, store.gate, before, store.events, s); }
          if s in Ids(batch) { BatchPassed(before, store.events, batch, outcomes, r.value, s, FirstRun); }
        }
      } else if r.Ok? {
        BatchFailed(store.plan, before, store.events, batch, outcomes, r.value, FirstRun);
      }
      BatchKeeps(before, store.events, batch, outcomes, FirstRun);
      BatchRecorded(before, store.events, batch, outcomes, FirstRun);
    }

    /** Persists the plan and creates the run, unless the plan is malformed or the run exists. */
    method Submit() returns (error: Option<Error>)
      requires store.Valid()
      modifies store
      ensures store.Valid()
      ensures error == Some(InvalidPlan) <==> !(DistinctIds(store.plan) && LinearOrder(store.plan))
      ensures error == Some(RunExists) <==> DistinctIds(store.plan) && LinearOrder(store.plan) && old(store.created)
      ensures error.Some? ==>
                error.value in {InvalidPlan, RunExists} && store.events == old(store.events)
                  && store.status == old(store.status)
      ensures error.None? ==>
                store.created && store.events == [RunCreated] && store.status == Created && !old(store.created)
      ensures store.interventions == old(store.interventions)
    {
      var order := Validate(store.plan);
      if order.Err? { return Some(InvalidPlan); }
      if store.created { return Some(RunExists); }
      store.CreateRun();
      store.Note(RunCreated);
      return None;
    }

    /** Submits the plan and runs its frontier until every step has passed or one fails. */
    method Run(facts: Facts) returns (r: Result<RunResult, Error>)
      requires store.Valid()
      modifies store
      ensures r.Ok? && store.interventions == old(store.interventions) ==>
                r.value.failure.Some? || r.value.decision.Some?
      ensures r.Ok? && r.value.decision.None? && r.value.failure.Some? ==>
                FailedHere(store.plan, old(store.events), store.events, r.value.failure.value)
      ensures r == Err(ConcurrentChange) ==> store.interventions > old(store.interventions)
      ensures store.Valid()
      ensures r == Err(InvalidPlan) <==> !(DistinctIds(store.plan) && LinearOrder(store.plan))
      ensures r == Err(RunExists) <==> DistinctIds(store.plan) && LinearOrder(store.plan) && old(store.created)
      ensures r.Err? ==> r.error in {InvalidPlan, RunExists, ConcurrentChange}
      ensures r.Err? && r.error != ConcurrentChange ==>
                store.events == old(store.events) && store.status == old(store.status)
      ensures !old(store.created) ==> forall s :: Starts(store.events, s) <= 1
      ensures !old(store.created) ==> ResultsKept(store.events)
      ensures r.Ok? && r.value.decision.Some? ==>
                AllPassed(store.plan, store.events)
                  && forall i :: 0 <= i < |store.plan| ==> Starts(store.events, store.plan[i].id) == 1
      ensures AcceptanceIsLogged(r)
    {
      var refused := Submit();
      if refused.Some? {
        NeverStartedYet(old(store.events));
        return Err(refused.value);
      }
      ghost var before := store.events;
      r := RunSubmitted(facts);
      if r.Ok? && r.value.decision.None? && r.value.failure.Some? {
        FailedAfter(store.plan, old(store.events), before, store.events, r.value.failure.value);
      }
    }

    method RunSubmitted(facts: Facts) returns (r: Result<RunResult, Error>)
      requires Open() && store.events == [RunCreated] && store.status == Created
      modifies store
      ensures old(store.interventions) <= store.interventions
      ensures store.interventions == old(store.interventions) ==>
                r.Ok? && (r.value.failure.Some? || r.value.decision.Some?)
      ensures r.Ok? && r.value.decision.None? && r.value.failure.Some? ==>
                FailedHere(store.plan, old(store.events), store.events, r.value.failure.value)
      ensures Open()
      ensures r.Err? ==> r.error == ConcurrentChange
      ensures forall s :: Starts(store.events, s) <= 1
      ensures ResultsKept(store.events)
      ensures r.Ok? && r.value.decision.Some? ==>
                AllPassed(store.plan, store.events)
                  && forall i :: 0 <= i < |store.plan| ==> Starts(store.events, store.plan[i].id) == 1
      ensures AcceptanceIsLogged(r)
    {
      NothingDone(store.events);
      RecordFacts(facts, InitialFacts);
      assert Rebuilt([RunCreated]) == NoFacts;
      MergeTwice(NoFacts, facts);
      var running := SetStatus(Status.Running);
      assert KeepsResults(old(store.events), store.events);
      if running.Err? { return Err(running.error); }
      ghost var before := store.events;
      r := RunFrontier(facts);
      if r.Ok? && r.value.decision.None? && r.value.failure.Some? {
        FailedAfter(store.plan, old(store.events), before, store.events, r.value.failure.value);
      }
    }

    lemma NeverStartedYet(events: seq<Event>)
      ensures events == [] ==> forall s :: Starts(events, s) == 0
    {
    }

    method RunFrontier(facts: Facts) returns (r: Result<RunResult, Error>)
      requires Open() && store.status != Completed
      requires DoneOnce(store.events, {}) && Held(facts, store.events)
      modifies store
      ensures old(store.interventions) <= store.interventions
      ensures Undisturbed() ==> r.Ok? && (r.value.failure.Some? || r.value.decision.Some?)
      ensures r.Ok? && r.value.decision.None? && r.value.failure.Some? ==>
                FailedHere(store.plan, old(store.events), store.events, r.value.failure.value)
      ensures Open()
      ensures r.Err? ==> r.error == ConcurrentChange
      ensures forall s :: Starts(store.events, s) <= 1
      ensures KeepsResults(old(store.events), store.events)
      ensures r.Ok? && r.value.decision.Some? ==>
                AllPassed(store.plan, store.events)
                  && forall i :: 0 <= i < |store.plan| ==> Starts(store.events, store.plan[i].id) == 1
      ensures AcceptanceIsLogged(r)
    {
      var remaining, done: set<StepId>, results: seq<Outcome> := store.plan, {}, [];
      RemainingAll(store.plan);
      while remaining != []
        invariant Open() && store.status != Completed
        invariant old(store.events) <= store.events && remaining == Remaining(store.plan, done)
        invariant DoneOnce(store.events, done) && KeepsResults(old(store.events), store.events)
        invariant Held(facts, store.events) && Carried(results, store.events)
        invariant old(store.interventions) <= store.interventions
        invariant Undisturbed() ==> store.status !in STOPPED
        decreases |remaining|
      {
        var stopped := Stopped();
        if stopped { return Ok(RunResult(false, None, None)); }
        var executions;
        ghost var before := store.events;
        remaining, done, executions := RunNext(remaining, done, results);
        if executions.Err? { return Err(executions.error); }
        if !AllSucceeded(executions.value) {
          FailedAfter(store.plan, old(store.events), before, store.events, FirstFailure(executions.value).value);
          return Ok(RunResult(false, FirstFailure(executions.value), None));
        }
        results := results + OutcomesOf(executions.value);
      }
      r := FinishRun(facts, results, done);
    }

    /** Whether an operator has paused or cancelled the run. */
    method Stopped() returns (stopped: bool)
      requires Open()
      modifies store
      ensures LeavesStatus()
      ensures KeepsQuestions()
      ensures Open()
      ensures Steady(old(store.events), store.events)
      ensures CompletesNothing()
      ensures stopped == (store.status in STOPPED)
    {
      store.Interfere();
      stopped := store.status in STOPPED;
    }

    /** One round of a first run: the frontier, its batch, and the list settled. */
    method RunNext(remaining: seq<Step>, done: set<StepId>, ghost results: seq<Outcome>)
      returns (remaining': seq<Step>, done': set<StepId>, r: Result<seq<Execution>, Error>)
      requires Open() && store.status != Completed
      requires remaining != [] && remaining == Remaining(store.plan, done)
      requires DoneOnce(store.events, done) && Carried(results, store.events)
      modifies store
      ensures old(store.interventions) <= store.interventions
      ensures Undisturbed() ==> r.Ok? && store.status !in STOPPED
      ensures Open() && store.status != Completed
      ensures old(store.events) <= store.events && Rebuilt(store.events) == Rebuilt(old(store.events))
      ensures forall s :: Starts(store.events, s) <= 1
      ensures KeepsResults(old(store.events), store.events)
      ensures r.Err? ==> r.error == ConcurrentChange
      ensures r.Ok? && !AllSucceeded(r.value) ==>
                FailedHere(store.plan, old(store.events), store.events, FirstFailure(r.value).value)
      ensures r.Ok? && AllSucceeded(r.value) ==>
        && remaining' == Remaining(store.plan, done') && |remaining'| < |remaining|
        && DoneOnce(store.events, done') && Carried(results + OutcomesOf(r.value), store.events)
    {
      FrontierExists(store.plan, done);
      var ready := ReadySteps(remaining, done);
      if ready == [] { return remaining, done, Err(NoFrontier); }
      var batch := ExecutionBatch(ready);
      BatchOfReady(store.plan, done, batch);
      ghost var outcomes;
      r, outcomes := RunReady(batch, done);
      remaining', done' := remaining, done;
      if r.Ok? {
        remaining', done' := Settle(store.plan, remaining, done, batch, r.value);
        if AllSucceeded(r.value) {
          CarriedMore(results, batch, outcomes, r.value, old(store.events), store.events, FirstRun);
        }
      }
    }

    method FinishRun(facts: Facts, results: seq<Outcome>, ghost done: set<StepId>) returns (r: Result<RunResult, Error>)
      requires Open() && store.status != Completed
      requires Remaining(store.plan, done) == [] && DoneOnce(store.events, done)
      requires Held(facts, store.events) && Carried(results, store.events)
      modifies store
      ensures old(store.interventions) <= store.interventions
      ensures Undisturbed() ==> r.Ok? && r.value.decision.Some?
      ensures r.Ok? && r.value.decision.None? ==> r.value.failure.None?
      ensures Open()
      ensures r.Err? ==> r.error == ConcurrentChange
      ensures forall s :: Starts(store.events, s) <= 1
      ensures KeepsResults(old(store.events), store.events)
      ensures r.Ok? && r.value.decision.Some? ==>
                AllPassed(store.plan, store.events)
                  && forall i :: 0 <= i < |store.plan| ==> Starts(store.events, store.plan[i].id) == 1
      ensures AcceptanceIsLogged(r)
    {
      forall i | 0 <= i < |store.plan| ensures store.plan[i].id in done {
        RemainingMembers(store.plan, done);
        assert store.plan[i] !in Remaining(store.plan, done);
      }
      var stopped := Stopped();
      if stopped { return Ok(RunResult(false, None, None)); }
      r := FinishAcceptance(facts, results);
    }
  
    // ---------- picking a run up again ----------

    /** Continues from what the log says: the frontier of steps never started whose
        dependencies have passed, batch after batch. */
    method ContinueRemainingPlan(facts: Facts, carried: seq<Outcome>) returns (r: Result<RunResult, Error>)
      requires Open() && store.status != Completed
      requires Held(facts, store.events) && Carried(carried, store.events)
      modifies store
      ensures old(store.interventions) <= store.interventions
      ensures Undisturbed() ==> Ends(r, store.status)
      ensures store.answers == old(store.answers) && old(store.open) != {} ==>
                NothingStarts(old(store.events), store.events)
      ensures KeepsQuestions()
      ensures Open()
      ensures r.Err? ==> r.error == ConcurrentChange
      ensures old(store.events) <= store.events && Continued(old(store.events), store.events)
      ensures Undisturbed() && store.answers == old(store.answers) ==>
                Concluded(store.plan, old(store.events), store.events, store.open, store.status, r.value)
      ensures AcceptanceIsLogged(r)
    {
      var results := carried;
      var order := Order();
      while true
        invariant KeepsQuestions()
        invariant store.answers == old(store.answers) && old(store.open) != {} ==>
                    NothingStarts(old(store.events), store.events)
        invariant Open() && store.status != Completed
        invariant Held(facts, store.events) && Carried(results, store.events)
        invariant old(store.events) <= store.events && Continued(old(store.events), store.events)
        invariant old(store.interventions) <= store.interventions
        invariant Undisturbed() ==> store.status !in STOPPED
        decreases Unfinished(store.plan, store.events)
      {
        ghost var before := store.events;
        var finished, more := ContinueOnce(facts, results, order);
        if finished.Some? {
          ContinuedConcludes(old(store.events), before, finished.value);
          ContinuedTwice(old(store.events), before, store.events);
          return finished.value;
        }
        ContinuedTwice(old(store.events), before, store.events);
        results := results + more;
      }
    }

    lemma ContinuedConcludes(a: seq<Event>, b: seq<Event>, r: Result<RunResult, Error>)
      requires Continued(a, b)
      ensures r.Ok? && Concluded(store.plan, b, store.events, store.open, store.status, r.value) ==>
                Concluded(store.plan, a, store.events, store.open, store.status, r.value)
    {
      forall s ensures Starts(a, s) <= Starts(b, s) { assert ContinuedStep(a, b, s); }
    }

    /** One round: an answer for the caller, or a batch that succeeded. */
    method ContinueOnce(facts: Facts, results: seq<Outcome>, order: seq<StepId>)
      returns (finished: Option<Result<RunResult, Error>>, more: seq<Outcome>)
      requires Open() && store.status != Completed && Topological(store.plan, order)
      requires Held(facts, store.events) && Carried(results, store.events)
      modifies store
      ensures old(store.interventions) <= store.interventions
      ensures Undisturbed() ==> store.status !in STOPPED || finished.Some?
      ensures Undisturbed() && finished.Some? ==>
                Ends(finished.value, store.status)
      ensures store.answers == old(store.answers) && old(store.open) != {} ==>
                NothingStarts(old(store.events), store.events)
      ensures KeepsQuestions()
      ensures Open()
      ensures old(store.events) <= store.events && Continued(old(store.events), store.events)
      ensures finished.None? ==>
                store.status != Completed && Held(facts, store.events) && Carried(results + more, store.events)
      ensures finished.None? ==> Unfinished(store.plan, store.events) < Unfinished(store.plan, old(store.events))
      ensures finished.Some? && finished.value.Err? ==> finished.value.error == ConcurrentChange
      ensures finished.Some? && finished.value.Ok? && finished.value.value.accepted ==>
                finished.value.value.decision == Some(Accepted) && StatusChanged(Completed) in store.events
      ensures Undisturbed() && store.answers == old(store.answers) && finished.Some? ==>
                Concluded(store.plan, old(store.events), store.events, store.open, store.status, finished.value.value)
    {
      more := [];
      var stopped := Stopped();
      UntouchedResumes(old(store.events), store.events, {});
      if stopped { return Some(Ok(RunResult(false, None, None))), []; }
      ghost var before := store.events;
      var incomplete, open := Incomplete(order, store.events), store.open;
      var ready := Frontier(store.plan, order, store.events, open);
      if incomplete == [] || open != {} || ready == [] {
        var r := ContinueNowhere(facts, results, order);
        UntouchedResumes(old(store.events), store.events, {});
        return Some(r), [];
      }
      var executions := RunFrontierOf(order, ready, results);
      ContinuedTwice(old(store.events), before, store.events);
      SteadyUnfinished(store.plan, old(store.events), before);
      if executions.Err? {
        finished := Some(Err(executions.error));
      } else if !AllSucceeded(executions.value) {
        finished := Some(Ok(RunResult(false, FirstFailure(executions.value), None)));
      } else {
        finished, more := None, OutcomesOf(executions.value);
      }
    }

    /** Nothing to execute: acceptance, a question still open, or a stalled plan. */
    method ContinueNowhere(facts: Facts, results: seq<Outcome>, order: seq<StepId>)
      returns (r: Result<RunResult, Error>)
      requires Open() && store.status != Completed && Topological(store.plan, order)
      requires Held(facts, store.events) && Carried(results, store.events)
      requires Incomplete(order, store.events) == [] || store.open != {}
               || Frontier(store.plan, order, store.events, store.open) == []
      modifies store
      ensures old(store.interventions) <= store.interventions
      ensures Undisturbed() ==> Ends(r, store.status)
      ensures KeepsQuestions()
      ensures Open()
      ensures SameStory(old(store.events), store.events)
      ensures r.Err? ==> r.error == ConcurrentChange
      ensures AcceptanceIsLogged(r)
      ensures r.Ok? && r.value.decision.Some? ==> AllPassed(store.plan, old(store.events))
      ensures Undisturbed() && store.answers == old(store.answers) ==>
                Concluded(store.plan, old(store.events), store.events, store.open, store.status, r.value)
    {
      var incomplete := Incomplete(order, store.events);
      if incomplete == [] {
        NoneUnfinished(store.plan, order, store.events);
        r := FinishAcceptance(facts, results);
      } else if store.open != {} {
        SomeUnfinished(store.plan, order, store.events);
        r := WaitForUser();
      } else {
        SomeUnfinished(store.plan, order, store.events);
        NoFrontierStalls(store.plan, order, store.events);
        r := FailStalled(incomplete[0]);
      }
    }

    method Order() returns (order: seq<StepId>)
      requires Open()
      ensures Topological(store.plan, order)
    {
      LinearIsAcyclic(store.plan);
      var ids := TopologicalIds(store.plan);
      order := ids.value;
    }

    /** One round of a continuation. If it succeeds, strictly fewer steps are unfinished. */
    method RunFrontierOf(ghost order: seq<StepId>, ready: seq<Step>, ghost results: seq<Outcome>)
      returns (r: Result<seq<Execution>, Error>)
      requires Open() && store.status != Completed && Topological(store.plan, order)
      requires ready != [] && ready == Frontier(store.plan, order, store.events, {}) && Carried(results, store.events)
      modifies store
      ensures old(store.interventions) <= store.interventions
      ensures Undisturbed() ==> r.Ok? && store.status !in STOPPED
      ensures KeepsQuestions()
      ensures Open() && store.status != Completed
      ensures old(store.events) <= store.events && Rebuilt(store.events) == Rebuilt(old(store.events))
      ensures Continued(old(store.events), store.events)
      ensures r.Err? ==> r.error == ConcurrentChange
      ensures r.Ok? && !AllSucceeded(r.value) ==>
                FailedHere(store.plan, old(store.events), store.events, FirstFailure(r.value).value)
      ensures r.Ok? && AllSucceeded(r.value) ==>
                Unfinished(store.plan, store.events) < Unfinished(store.plan, old(store.events))
      ensures r.Ok? && AllSucceeded(r.value) ==> Carried(results + OutcomesOf(r.value), store.events)
    {
      var batch := ExecutionBatch(ready);
      BatchOfFrontier(store.plan, store.gate, order, store.events, batch);
      ghost var outcomes;
      r, outcomes := ExecuteBatch(batch, Continuation);
      BatchContinues(old(store.events), store.events, batch, outcomes, Continuation);
      BatchRecorded(old(store.events), store.events, batch, outcomes, Continuation);
      if r.Ok? && AllSucceeded(r.value) {
        CarriedMore(results, batch, outcomes, r.value, old(store.events), store.events, Continuation);
        FewerUnfinished(old(store.events), batch, outcomes, r.value, Continuation);
      } else if r.Ok? {
        BatchFailed(store.plan, old(store.events), store.events, batch, outcomes, r.value, Continuation);
      }
    }

    lemma FewerUnfinished(before: seq<Event>, batch: seq<Step>, outcomes: seq<Outcome>, reports: seq<Execution>,
        anchor: Anchor)
      requires store.Valid() && before <= store.events
      requires batch != [] && Startable(store.plan, before, batch, anchor)
      requires |batch| == |outcomes| && Grew(before, store.events, StepIds(batch), Traces(batch, outcomes, anchor))
      requires Reported(reports, batch, outcomes) && AllSucceeded(reports)
      ensures Unfinished(store.plan, store.events) < Unfinished(store.plan, before)
    {
      forall s | s in Unfinished(store.plan, store.events) ensures s in Unfinished(store.plan, before) {
        if StatusOf(before, s) == Passed { PassedStays(store.plan, store.gate, before, store.events, s); }
      }
      var s := batch[0];
      assert s.id in Ids(batch);
      BatchPassed(before, store.events, batch, outcomes, reports, s.id, anchor);
      assert s in store.plan && s.id in Unfinished(store.plan, before) && s.id !in Unfinished(store.plan, store.events);
    }

    method WaitForUser() returns (r: Result<RunResult, Error>)
      requires Open()
      modifies store
      ensures old(store.interventions) <= store.interventions
      ensures Undisturbed() ==> r.Ok? && store.status == WaitingUser
      ensures KeepsQuestions()
      ensures Open()
      ensures Steady(old(store.events), store.events)
      ensures r.Err? ==> r.error == ConcurrentChange
      ensures r.Ok? ==> !r.value.accepted && r.value.decision == None
    {
      var updated := SetStatus(WaitingUser);
      if updated.Err? { return Err(updated.error); }
      var n := |store.checkpoints|;
      r := Ok(RunResult(false, if n == 0 then None else store.checkpoints[n - 1], None));
    }

    method FailStalled(step: StepId) returns (r: Result<RunResult, Error>)
      requires Open()
      modifies store
      ensures old(store.interventions) <= store.interventions
      ensures Undisturbed() ==> r.Ok? && store.status == Status.Failed
      ensures r.Ok? ==> r.value.failure == Some(Failure(Some(step), Status.Failed, false, ManualReview))
      ensures KeepsQuestions()
      ensures Open()
      ensures Saved(old(store.checkpoints), store.checkpoints,
                Some(Failure(Some(step), Status.Failed, false, ManualReview)))
      ensures Asks({})
      ensures Steady(old(store.events), store.events)
      ensures r.Err? ==> r.error == ConcurrentChange
      ensures r.Ok? ==> !r.value.accepted && r.value.decision == None
    {
      var failure := Failure(Some(step), Status.Failed, false, ManualReview);
      CreateCheckpoint(Some(failure));
      ghost var saved := store.checkpoints;
      var updated := AnnounceFailure(failure);
      MarkedSaved(old(store.checkpoints), old(store.checkpoints), saved, store.checkpoints, Some(failure));
      if updated.Err? { return Err(updated.error); }
      r := Ok(RunResult(false, Some(failure), None));
    }

    /** Recovers a created or running run: what was running runs again, then the rest. */
    method ResumeIncompleteRun(supplied: Facts) returns (r: Result<RunResult, Error>)
      requires store.Valid()
      modifies store
      ensures Undisturbed() && old(store.created) && old(store.status) in {Created, Status.Running} ==>
                Ends(r, store.status)
      ensures Undisturbed() && old(store.created) && old(store.status) in {Created, Status.Running}
              && store.answers == old(store.answers) ==>
                PickedUp(old(store.events), old(store.open), r.value)
      ensures store.Valid()
      ensures store.answers == old(store.answers) && old(store.open) != {} ==>
                OnlyReruns(old(store.events), store.events, old(store.open))
      ensures r == Err(UnknownRun) <==> !old(store.created)
      ensures r.Err? ==> r.error in {UnknownRun, NotIncomplete, ConcurrentChange}
      ensures r == Err(NotIncomplete) || !old(store.created) ==> SameStory(old(store.events), store.events)
      ensures Resumed(old(store.events), store.events, {Pending, StepStatus.Running})
              && KeepsResults(old(store.events), store.events)
      ensures AcceptanceIsLogged(r)
    {
      UntouchedResumes(store.events, store.events, {Pending, StepStatus.Running});
      if !store.created { return Err(UnknownRun); }
      store.Interfere();
      UntouchedResumes(old(store.events), store.events, {Pending, StepStatus.Running});
      if store.status !in {Created, Status.Running} { return Err(NotIncomplete); }
      var updated := SetStatus(Status.Running);
      UntouchedResumes(old(store.events), store.events, {Pending, StepStatus.Running});
      if updated.Err? { return Err(updated.error); }
      if updated.value != Status.Running { return Ok(RunResult(false, None, None)); }
      ghost var before, open := store.events, store.open;
      assert store.answers == old(store.answers) ==> open == old(store.open);
      r := RecoverRunning(supplied);
      assert Undisturbed() && store.answers == old(store.answers) ==> PickedUp(before, open, r.value);
      ResumedAfter(old(store.events), before, store.events, {Pending, StepStatus.Running});
      PickedUpAfter(old(store.events), before, open, r);
    }

    method RecoverRunning(supplied: Facts) returns (r: Result<RunResult, Error>)
      requires Open() && store.status != Completed
      modifies store
      ensures old(store.interventions) <= store.interventions
      ensures Undisturbed() ==> Ends(r, store.status)
      ensures Undisturbed() && store.answers == old(store.answers) ==>
                PickedUp(old(store.events), old(store.open), r.value)
      ensures KeepsQuestions()
      ensures Open()
      ensures store.answers == old(store.answers) && old(store.open) != {} ==>
                OnlyReruns(old(store.events), store.events, old(store.open))
      ensures r.Err? ==> r.error == ConcurrentChange
      ensures Resumed(old(store.events), store.events, {Pending, StepStatus.Running})
              && KeepsResults(old(store.events), store.events)
      ensures AcceptanceIsLogged(r)
    {
      RecoveryKeysAreOld(store.plan, store.gate, store.events, 0, |store.events|);
      var facts := EffectiveFacts(supplied, RecoveryFacts(|store.events|));
      UntouchedResumes(old(store.events), store.events, {});
      ghost var before, open := store.events, store.open;
      assert store.answers == old(store.answers) ==> open == old(store.open);
      r := Recover(facts);
      assert Undisturbed() && store.answers == old(store.answers) ==> PickedUp(before, open, r.value);
      ResumedAfter(old(store.events), before, store.events, {Pending, StepStatus.Running});
      PickedUpAfter(old(store.events), before, open, r);
    }

    /** What was running has been started again, and the rest has been continued. Steps that were
        running together but are not safe in parallel fail the run instead, and nothing starts. */
    ghost predicate PickedUp(before: seq<Event>, open: set<Option<StepId>>, r: RunResult)
      reads store
    {
      if Tangled(store.plan, before, open) then
        NothingStarts(before, store.events) && store.status == Status.Failed && r.failure.Some? && r.decision.None?
      else
        Restarted(store.plan, before, store.events, open)
        && Concluded(store.plan, before, store.events, store.open, store.status, r)
    }

    lemma PickedUpAfter(a: seq<Event>, b: seq<Event>, open: set<Option<StepId>>, r: Result<RunResult, Error>)
      requires forall s :: StatusOf(b, s) == StatusOf(a, s) && Starts(b, s) == Starts(a, s)
      ensures r.Ok? && PickedUp(b, open, r.value) ==> PickedUp(a, open, r.value)
    {
      assert forall s :: Interrupted(store.plan, a, open, s) <==> Interrupted(store.plan, b, open, s);
    }

    method Recover(facts: Facts) returns (r: Result<RunResult, Error>)
      requires Open() && store.status != Completed && Held(facts, store.events)
      modifies store
      ensures old(store.interventions) <= store.interventions
      ensures Undisturbed() ==> Ends(r, store.status)
      ensures KeepsQuestions()
      ensures store.answers == old(store.answers) && old(store.open) != {} ==>
                OnlyReruns(old(store.events), store.events, old(store.open))
      ensures Undisturbed() && store.answers == old(store.answers) ==>
                PickedUp(old(store.events), old(store.open), r.value)
      ensures Open()
      ensures r.Err? ==> r.error == ConcurrentChange
      ensures Resumed(old(store.events), store.events, {Pending, StepStatus.Running})
              && KeepsResults(old(store.events), store.events)
      ensures AcceptanceIsLogged(r)
    {
      var order := Order();
      var running := Having(store.plan, order, store.events, store.open, StepStatus.Running);
      var results: seq<Outcome> := [];
      HavingInterrupted(store.plan, order, store.events, store.open);
      if |running| > 1 && exists i :: 0 <= i < |running| && !running[i].parallelSafe {
        var incomplete := Incomplete(order, store.events);
        assert running[0] in running && running[0].id in incomplete;
        r := FailStalled(incomplete[0]);
        UntouchedResumes(old(store.events), store.events, {Pending, StepStatus.Running});
        return;
      }
      UntouchedResumes(store.events, store.events, {Pending, StepStatus.Running});
      if running != [] {
        var executions := Rerun(order, running);
        if executions.Err? { return Err(executions.error); }
        if !AllSucceeded(executions.value) { return Ok(RunResult(false, FirstFailure(executions.value), None)); }
        results := OutcomesOf(executions.value);
      }
      ghost var rerun := store.events;
      r := ContinueRemainingPlan(facts, results);
      RerunConcludes(old(store.events), rerun, old(store.open), r);
      ResumedContinues(old(store.events), rerun, store.events, {Pending, StepStatus.Running});
    }

    lemma RerunConcludes(a: seq<Event>, b: seq<Event>, open: set<Option<StepId>>, r: Result<RunResult, Error>)
      requires Resumed(a, b, {Pending, StepStatus.Running}) && Restarted(store.plan, a, b, open)
      requires Continued(b, store.events) && !Tangled(store.plan, a, open)
      ensures r.Ok? && Concluded(store.plan, b, store.events, store.open, store.status, r.value) ==>
                PickedUp(a, open, r.value)
    {
      forall s ensures Starts(a, s) <= Starts(b, s) { assert ResumedStep(a, b, s, {Pending, StepStatus.Running}); }
      forall s | Interrupted(store.plan, a, open, s) ensures Starts(store.events, s.id) == Starts(a, s.id) + 1 {
        assert ResumedStep(a, b, s.id, {Pending, StepStatus.Running}) && ContinuedStep(b, store.events, s.id);
      }
    }

    /** Steps that a crash or a pause left running are executed again. */
    method Rerun(ghost order: seq<StepId>, running: seq<Step>) returns (r: Result<seq<Execution>, Error>)
      requires Open() && store.status != Completed && Topological(store.plan, order)
      requires running != [] && running == Having(store.plan, order, store.events, store.open, StepStatus.Running)
      modifies store
      ensures old(store.interventions) <= store.interventions
      ensures Undisturbed() ==> r.Ok? && store.status !in STOPPED
      ensures KeepsQuestions()
      ensures OnlyReruns(old(store.events), store.events, old(store.open))
      ensures Restarted(store.plan, old(store.events), store.events, old(store.open))
      ensures r.Ok? && !AllSucceeded(r.value) ==>
                FailedHere(store.plan, old(store.events), store.events, FirstFailure(r.value).value)
      ensures Open() && store.status != Completed
      ensures Rebuilt(store.events) == Rebuilt(old(store.events))
      ensures Resumed(old(store.events), store.events, {Pending, StepStatus.Running})
              && KeepsResults(old(store.events), store.events)
      ensures r.Err? ==> r.error == ConcurrentChange
      ensures r.Ok? && AllSucceeded(r.value) ==> Carried(OutcomesOf(r.value), store.events)
    {
      ghost var before, open := store.events, store.open;
      HavingInterrupted(store.plan, order, before, open);
      MayRerun(order, running);
      ghost var outcomes;
      r, outcomes := ExecuteBatch(running, Recovery(|store.events|));
      RanAgain(before, open, running, outcomes);
      if r.Ok? { RerunReported(before, running, outcomes, r.value); }
    }

    lemma MayRerun(order: seq<StepId>, running: seq<Step>)
      requires Open() && Topological(store.plan, order)
      requires running == Having(store.plan, order, store.events, store.open, StepStatus.Running)
      ensures DistinctIds(running) && Startable(store.plan, store.events, running, Recovery(|store.events|))
    {
      var log := store.events;
      HavingDistinct(store.plan, order, log, store.open, StepStatus.Running);
      forall i | 0 <= i < |running|
        ensures running[i] in store.plan && Ready(store.plan, log, running[i].id)
                && !KeyUsed(log, running[i].id, Recovery(|log|)) {
        assert running[i] in running;
        RecoveryKeysAreOld(store.plan, store.gate, log, running[i].id, |log|);
        StartedHasDependencies(store.plan, store.gate, log, running[i].id);
      }
    }

    lemma RanAgain(before: seq<Event>, open: set<Option<StepId>>, running: seq<Step>, outcomes: seq<Outcome>)
      requires forall s :: s in running <==> Interrupted(store.plan, before, open, s)
      requires |running| == |outcomes|
      requires Grew(before, store.events, StepIds(running), Traces(running, outcomes, Recovery(|before|)))
      ensures OnlyReruns(before, store.events, open) && Restarted(store.plan, before, store.events, open)
      ensures Resumed(before, store.events, {Pending, StepStatus.Running}) && KeepsResults(before, store.events)
    {
      forall i | 0 <= i < |running| ensures StatusOf(before, running[i].id) == StepStatus.Running {
        assert running[i] in running;
      }
      BatchResumes(before, store.events, running, outcomes, {Pending, StepStatus.Running}, Recovery(|before|));
      forall s ensures Starts(store.events, s) == Starts(before, s) + if s in Ids(running) then 1 else 0 {
        BatchStarts(before, store.events, running, outcomes, s, Recovery(|before|));
      }
      forall s | Interrupted(store.plan, before, open, s) ensures s.id in Ids(running) {
        assert s in running;
      }
      forall s: StepId | s in Ids(running) ensures StatusOf(before, s) == StepStatus.Running && Some(s) !in open {
        var i :| 0 <= i < |running| && running[i].id == s;
        assert running[i] in running;
      }
    }

    lemma RerunReported(before: seq<Event>, running: seq<Step>, outcomes: seq<Outcome>, reports: seq<Execution>)
      requires store.Valid() && before <= store.events && Reported(reports, running, outcomes)
      requires Startable(store.plan, before, running, Recovery(|before|))
      requires Grew(before, store.events, StepIds(running), Traces(running, outcomes, Recovery(|before|)))
      ensures AllSucceeded(reports) ==> Carried(OutcomesOf(reports), store.events)
      ensures !AllSucceeded(reports) ==>
                FailedHere(store.plan, before, store.events, FirstFailure(reports).value)
    {
      BatchRecorded(before, store.events, running, outcomes, Recovery(|before|));
      if AllSucceeded(reports) {
        CarriedMore([], running, outcomes, reports, before, store.events, Recovery(|before|));
        assert [] + OutcomesOf(reports) == OutcomesOf(reports);
      } else {
        BatchFailed(store.plan, before, store.events, running, outcomes, reports, Recovery(|before|));
      }
    }

    /** Retries the step that failed at the latest checkpoint, if policy allows it without an
        operator, and then continues. A second retry from the same checkpoint finds the key
        of its result used if the first one got as far as recording one; then, and only then,
        the log loses the result. That cannot happen to a run that is recovering. */
    method ResumeFromCheckpoint() returns (r: Result<RunResult, Error>)
      requires store.Valid()
      modifies store
      ensures store.Valid()
      ensures r == Err(UnknownRun) <==> !old(store.created)
      ensures r.Err? ==> r.error in {UnknownRun, NoCheckpoint, NoFailedStep, ConcurrentChange}
      ensures Resumed(old(store.events), store.events, RETRYABLE)
      ensures StartsOnly(old(store.events), store.events, old(RetryOf(store.checkpoints)))
      ensures !NothingStarts(old(store.events), store.events) ==>
                && old(store.checkpoints) != []
                && var latest := old(store.checkpoints)[|old(store.checkpoints)| - 1];
                   && latest.Some? && latest.value.recoverable && latest.value.action == Retry
                     && latest.value.step.Some?
                   && FirstStart(old(store.events), store.events, latest.value.step.value)
      ensures Undisturbed() && NothingStarts(old(store.events), store.events) && r.Ok? && r.value.failure.Some? ==>
                && old(store.events) <= store.events
                && if r.value.failure.value.action in {AskUser, ReadBeforeWrite, UseAlternativeTool, ManualReview} then
                     store.status == WaitingUser && UserInputRequired in Added(old(store.events), store.events)
                   else
                     store.status == old(store.status) && RunFailed in Added(old(store.events), store.events)
      ensures old(RetryFree(store.events, store.checkpoints)) ==> KeepsResults(old(store.events), store.events)
      ensures old(store.status) == Recovering ==> KeepsResults(old(store.events), store.events)
      ensures !old(RetryFree(store.events, store.checkpoints)) && !NothingStarts(old(store.events), store.events) ==>
                !ResultsKept(store.events)
      ensures old(store.created) && Undisturbed() ==>
                || Ends(r, store.status)
                || (r in {Ok(RunResult(false, None, None)), Err(NoCheckpoint), Err(NoFailedStep)}
                  && NothingStarts(old(store.events), store.events))
      ensures Undisturbed() && old(RetryOf(store.checkpoints)).Some? && r != Ok(RunResult(false, None, None)) ==>
                !NothingStarts(old(store.events), store.events)
      ensures Undisturbed() && store.answers == old(store.answers)
              && !NothingStarts(old(store.events), store.events) ==>
                Concluded(store.plan, old(store.events), store.events, store.open, store.status, r.value)
      ensures AcceptanceIsLogged(r)
    {
      UntouchedResumes(store.events, store.events, RETRYABLE);
      if !store.created { return Err(UnknownRun); }
      store.Interfere();
      UntouchedResumes(old(store.events), store.events, RETRYABLE);
      var n := |store.checkpoints|;
      if n == 0 { return Err(NoCheckpoint); }
      var checkpoint := store.checkpoints[n - 1];
      if checkpoint.None? || !checkpoint.value.recoverable || checkpoint.value.action != Retry {
        r := RefuseResume(checkpoint);
        UntouchedResumes(old(store.events), store.events, RETRYABLE);
        return;
      }
      if checkpoint.value.step.None? { return Err(NoFailedStep); }
      ghost var found := store.events;
      FreeBeforeIff(old(store.events), found, store.checkpoints);
      r := ResumeAt(checkpoint.value.step.value, n - 1);
      SteadyConcludes(old(store.events), found, r);
      ResumedAfter(old(store.events), found, store.events, RETRYABLE);
      StartsAfter(old(store.events), found, store.events, checkpoint.value.step);
    }

    /** Sets the run running again and, if that stands, retries the step. */
    method ResumeAt(id: StepId, checkpoint: nat) returns (r: Result<RunResult, Error>)
      requires Open() && checkpoint == |store.checkpoints| - 1 && RetryOf(store.checkpoints) == Some(id)
      modifies store
      ensures old(store.interventions) <= store.interventions
      ensures Undisturbed() ==> Ends(r, store.status) && !NothingStarts(old(store.events), store.events)
      ensures old(store.answers) <= store.answers
      ensures Undisturbed() && store.answers == old(store.answers) ==>
                Concluded(store.plan, old(store.events), store.events, store.open, store.status, r.value)
      ensures Open()
      ensures r.Err? ==> r.error == ConcurrentChange
      ensures Resumed(old(store.events), store.events, RETRYABLE)
      ensures StartsOnly(old(store.events), store.events, Some(id))
      ensures old(RetryFree(store.events, store.checkpoints)) ==> KeepsResults(old(store.events), store.events)
      ensures !old(RetryFree(store.events, store.checkpoints)) && !NothingStarts(old(store.events), store.events) ==>
                !ResultsKept(store.events)
      ensures AcceptanceIsLogged(r)
    {
      var failure := store.checkpoints[checkpoint];
      var updated := SetStatus(Status.Running);
      UntouchedResumes(old(store.events), store.events, RETRYABLE);
      if updated.Err? { return Err(updated.error); }
      if updated.value != Status.Running { return Ok(RunResult(false, failure, None)); }
      ghost var running := store.events;
      SteadyReady(store.plan, old(store.events), running, id);
      KeysAreOwn(old(store.events), id, FromCheckpoint(checkpoint));
      KeysAreOwn(running, id, FromCheckpoint(checkpoint));
      r := RetryStep(id, checkpoint);
      SteadyConcludes(old(store.events), running, r);
      ResumedAfter(old(store.events), running, store.events, RETRYABLE);
      FirstStartCounts(running, store.events, id);
      StartsAfter(old(store.events), running, store.events, Some(id));
    }

    method RefuseResume(checkpoint: Option<Failure>) returns (r: Result<RunResult, Error>)
      requires Open()
      modifies store
      ensures old(store.interventions) <= store.interventions
      ensures Undisturbed() && checkpoint.Some? ==>
                && Ends(r, store.status) && old(store.events) <= store.events
                && if checkpoint.value.action in {AskUser, ReadBeforeWrite, UseAlternativeTool, ManualReview} then
                     store.status == WaitingUser && UserInputRequired in Added(old(store.events), store.events)
                   else
                     store.status == old(store.status) && RunFailed in Added(old(store.events), store.events)
      ensures Open()
      ensures Steady(old(store.events), store.events)
      ensures r.Err? ==>
                r.error == ConcurrentChange
                  && (old(store.status) in STOPPED || store.interventions > old(store.interventions))
      ensures r.Ok? ==> r.value == RunResult(false, checkpoint, None)
    {
      var action := if checkpoint.None? then Stop else checkpoint.value.action;
      var asks := action in {AskUser, ReadBeforeWrite, UseAlternativeTool, ManualReview};
      ghost var told := if asks then UserInputRequired else RunFailed;
      store.Note(if asks then UserInputRequired else RunFailed);
      assert store.events[|old(store.events)|] == told;
      if asks {
        var updated := SetStatus(WaitingUser);
        if updated.Err? { return Err(updated.error); }
      }
      r := Ok(RunResult(false, checkpoint, None));
    }

    method RetryStep(id: StepId, checkpoint: nat) returns (r: Result<RunResult, Error>)
      requires Open() && store.status !in {Completed, Recovering} && Ready(store.plan, store.events, id)
      requires checkpoint < |store.checkpoints|
      modifies store
      ensures old(store.interventions) <= store.interventions
      ensures Undisturbed() ==> Ends(r, store.status)
      ensures old(store.answers) <= store.answers
      ensures Undisturbed() && store.answers == old(store.answers) ==>
                Concluded(store.plan, old(store.events), store.events, store.open, store.status, r.value)
      ensures Open()
      ensures r.Err? ==> r.error == ConcurrentChange
      ensures Resumed(old(store.events), store.events, RETRYABLE)
      ensures FirstStart(old(store.events), store.events, id)
      ensures if old(KeyUsed(store.events, id, FromCheckpoint(checkpoint))) then !Kept(Project(store.events, id))
              else KeepsResults(old(store.events), store.events)
      ensures AcceptanceIsLogged(r)
    {
      ghost var before := store.events;
      ReadyKnown(store.plan, before, id);
      var step := StepById(store.plan, id);
      RebuiltCanonical(before);
      MergeIdempotent(Rebuilt(before));
      var facts := FromEvents(store.events);
      var execution, o := ExecuteRetry(step, checkpoint);
      if execution.Err? { return Err(execution.error); }
      if execution.value.failure.Some? { return Ok(RunResult(false, execution.value.failure, None)); }
      ghost var retried := store.events;
      r := ContinueRemainingPlan(facts, [o]);
      RetryConcludes(before, retried, r);
      ResumedContinues(before, retried, store.events, RETRYABLE);
      KeptBeforeOf(retried, store.events, id);
    }

    lemma RetryConcludes(a: seq<Event>, b: seq<Event>, r: Result<RunResult, Error>)
      requires Resumed(a, b, RETRYABLE)
      ensures r.Ok? && Concluded(store.plan, b, store.events, store.open, store.status, r.value) ==>
                Concluded(store.plan, a, store.events, store.open, store.status, r.value)
    {
      forall s ensures Starts(a, s) <= Starts(b, s) { assert ResumedStep(a, b, s, RETRYABLE); }
    }

    lemma SteadyConcludes(a: seq<Event>, b: seq<Event>, r: Result<RunResult, Error>)
      requires forall s :: Starts(b, s) == Starts(a, s)
      ensures r.Ok? && Concluded(store.plan, b, store.events, store.open, store.status, r.value) ==>
                Concluded(store.plan, a, store.events, store.open, store.status, r.value)
    {
    }

    /** The execution itself: the step starts, the tool runs, and the result is recorded under
        the checkpoint's key. */
    method ExecuteRetry(step: Step, checkpoint: nat) returns (r: Result<Execution, Error>, o: Outcome)
      requires Open() && store.status !in {Completed, Recovering} && step in store.plan
               && Ready(store.plan, store.events, step.id)
      requires checkpoint < |store.checkpoints|
      modifies store
      ensures old(store.interventions) <= store.interventions
      ensures Undisturbed() ==> r.Ok? && (r.value.failure.None? ==> store.status !in STOPPED)
      ensures old(store.answers) <= store.answers
      ensures r.Ok? && r.value.failure.Some? ==>
                FailedHere(store.plan, old(store.events), store.events, r.value.failure.value)
      ensures Open() && store.status != Completed
      ensures r.Err? ==> r.error == ConcurrentChange
      ensures r.Ok? ==> Reports(r.value, step, o)
      ensures r.Ok? && r.value.failure.None? ==> Carried([o], store.events)
      ensures Rebuilt(store.events) == Rebuilt(old(store.events))
      ensures Resumed(old(store.events), store.events, RETRYABLE)
      ensures FirstStart(old(store.events), store.events, step.id)
      ensures if old(KeyUsed(store.events, step.id, FromCheckpoint(checkpoint))) then
                !Kept(Project(store.events, step.id)) else KeepsResults(old(store.events), store.events)
    {
      ghost var before, anchor := store.events, FromCheckpoint(checkpoint);
      ghost var stale := KeyUsed(before, step.id, anchor);
      StartStep(step);
      ghost var started := store.events;
      StartKeepsKeys(before, started, step.id, anchor);
      o := CallTool(step);
      r := FinishStep(step, o, FromCheckpoint(checkpoint));
      RetryTells(before, started, store.events, step, o, anchor, stale);
      FirstStartCounts(before, store.events, step.id);
    }
  }
}
