/**
  What a tool's answer means for the records of its call and for everything that may follow,
  in terms of the answer alone.
 */
module OutboxAnswers {
  import opened Common
  import opened SideEffects
  import opened OutboxPlan
  import opened OutboxMachine
  import opened OutboxInvariant
  import opened OutboxRecovery
  import opened OutboxDecisions
  import opened OutboxVerdicts
  import opened OutboxEffects

  lemma {:induction false} RunFirst(c: Call, s: State, a: Action, rest: seq<Action>)
    ensures Run(c, s, [a] + rest) == Run(c, Do(c, s, a), rest)
    decreases |rest|
  {
    if rest == [] {
      assert [a] + rest == [a] && [a][..0] == [];
    } else {
      assert ([a] + rest)[..|rest|] == [a] + rest[..|rest| - 1];
      RunFirst(c, s, a, rest[..|rest| - 1]);
    }
  }

  lemma {:induction false} RunBoth(c: Call, s: State, a: seq<Action>, b: seq<Action>)
    ensures Run(c, s, a + b) == Run(c, Run(c, s, a), b)
    decreases |b|
  {
    if b == [] {
      assert a + b == a;
    } else {
      assert (a + b)[..|a + b| - 1] == a + b[..|b| - 1];
      RunBoth(c, s, a, b[..|b| - 1]);
    }
  }

  /** The execution and the recording of its answer, one store access each. */
  function Recording(c: Call, r: ToolResult): seq<Action> {
    seq(c.N + 1, _ => Work(0, r, false, ""))
  }

  /** Whenever the tool of one owner is run and its answer recorded undisturbed, all records
      are applied if it succeeded with exactly the intended effects, failed if it failed
      without any and may be retried, and uncertain otherwise. */
  lemma AnswerDecidesRecords(c: Call, acts: seq<Action>, r: ToolResult, i: nat)
    requires |Run(c, Init(c, 1), acts).workers| == 1 && Run(c, Init(c, 1), acts).workers[0].Ready? && i < c.N
    ensures var s, t := Run(c, Init(c, 1), acts), Run(c, Init(c, 1), acts + Recording(c, r));
            && i in t.recs && t.executions == s.executions + 1
            && (t.recs[i].status == Applied <==> r.ok && r.effects == c.intents)
            && (t.recs[i].status == Failed <==> !r.ok && c.retrySafe && r.effects == [])
            && t.recs[i].status in {Applied, Failed, Uncertain}
            && (t.recs[i].status != Uncertain ==> t.recs[i].toolResult == Some(r))
  {
    var s, tick := Run(c, Init(c, 1), acts), Work(0, r, false, "");
    OwnerRuns(c, acts);
    assert WellFormed(c, s.workers[0]);
    assert Recording(c, r) == [tick] + seq(c.N, _ => tick);
    RunFirst(c, s, tick, seq(c.N, _ => tick));
    RunBoth(c, Init(c, 1), acts, Recording(c, r));
    AfterAnswer(c, s, r, tick, i);
  }

  /** The status that an answer leads to. */
  function StatusFor(c: Call, r: ToolResult): Status {
    if r.ok && r.effects == c.intents then Applied
    else if !r.ok && c.retrySafe && r.effects == [] then Failed
    else Uncertain
  }

  lemma AfterAnswer(c: Call, s: State, r: ToolResult, tick: Action, i: nat)
    requires OwnerInv(c, s) && s.workers[0].Ready? && |s.workers[0].local| == c.N && i < c.N
    requires tick.Work? && tick.worker == 0 && tick.result == r
    ensures var t := Run(c, Do(c, s, tick), seq(c.N, _ => tick));
            && i in t.recs && t.executions == s.executions + 1 && t.recs[i].status == StatusFor(c, r)
            && (t.recs[i].status != Uncertain ==> t.recs[i].toolResult == Some(r))
  {
    var local := s.workers[0].local;
    var (moves, reported) := RecordPlan(local, c.intents, c.retrySafe, r);
    var s1 := Do(c, s, tick);
    OwnerExecutes(c, s, local, r);
    assert s1.workers[0] == Moving(moves, local, Recorded(reported)) && s1.recs == s.recs;
    assert forall k :: 0 <= k < |local| ==> s.recs[k] == local[k];
    RecordingMoves(c, local, r, i);
    assert moves[..c.N] == moves;
    StageRuns(c, s1, moves, local, Recorded(reported), tick, c.N);
    StageKeepsExecutions(c, s1, moves, local, Recorded(reported), tick, c.N);
  }

  lemma RecordingMoves(c: Call, local: seq<Entry>, r: ToolResult, i: nat)
    requires |local| == c.N && AllIn(local, {Dispatching}) && i < c.N
    ensures var moves := RecordPlan(local, c.intents, c.retrySafe, r).0;
            && |moves| == c.N && ApplyMoves(local, moves)[i].status == StatusFor(c, r)
            && (StatusFor(c, r) != Uncertain ==> ApplyMoves(local, moves)[i].toolResult == Some(r))
  {
    var snapshot := Patch(Some(r), false, None);
    if r.ok && r.effects != c.intents {
      WholeSweep(local, UNSETTLED, Uncertain, NoPatch, i);
    } else if r.ok {
      WholeSweep(local, {Dispatching}, Applied, snapshot, i);
    } else if c.retrySafe && r.effects == [] {
      WholeSweep(local, {Dispatching}, Failed, snapshot, i);
    } else {
      WholeSweep(local, {Dispatching}, Uncertain, snapshot, i);
    }
  }

  lemma WholeSweep(local: seq<Entry>, from: set<Status>, to: Status, p: Patch, i: nat)
    requires AllIn(local, {Dispatching}) && Dispatching in from && i < |local|
    ensures |Sweep(local, from, to, p)| == |local|
    ensures ApplyMoves(local, Sweep(local, from, to, p))[i] == Advance(local[i], to, p)
  {
    forall e | e in local ensures e.status in from {
      var k :| 0 <= k < |local| && local[k] == e;
      assert local[k].status in {Dispatching};
    }
    SweepAll(local, from, to, p);
    SweepApplies(local, from, to, p);
    assert local[i].status in {Dispatching};
  }

  /** Recording transitions run no tool. */
  lemma {:induction false} StageKeepsExecutions(c: Call, s: State, todo: seq<Move>, local: seq<Entry>, next: Next,
      tick: Action, n: nat)
    requires OwnerInv(c, s) && tick.Work? && tick.worker == 0 && s.workers[0] == Moving(todo, local, next)
    requires n <= |todo| && forall i :: 0 <= i < |local| ==> s.recs[i] == local[i]
    ensures Run(c, s, seq(n, _ => tick)).executions == s.executions
  {
    if n > 0 {
      StageKeepsExecutions(c, s, todo, local, next, tick, n - 1);
      StageRuns(c, s, todo, local, next, tick, n - 1);
      assert seq(n, _ => tick)[..n - 1] == seq(n - 1, _ => tick);
      MovingRunsNothing(c, Run(c, s, seq(n - 1, _ => tick)), tick);
    }
  }

  lemma MovingRunsNothing(c: Call, s: State, tick: Action)
    requires tick.Work? && tick.worker < |s.workers| && s.workers[tick.worker].Moving?
    ensures Do(c, s, tick).executions == s.executions
  {
  }

  /** What the next attempt does if the process dies once the answer is recorded: it replays a
      success, runs the tool again after a failure without effects that may be retried, and
      asks for manual review otherwise. */
  lemma AnswerDecidesNext(c: Call, acts: seq<Action>, r: ToolResult)
    requires |Run(c, Init(c, 1), acts).workers| == 1 && Run(c, Init(c, 1), acts).workers[0].Ready? && c.N > 0
    ensures var outcome := PreparePlan(Vector(c, Run(c, Init(c, 1), acts + Recording(c, r)).recs), c.retrySafe).outcome;
            && (outcome == Replay(r) <==> r.ok && r.effects == c.intents)
            && (outcome == Dispatch <==> !r.ok && c.retrySafe && r.effects == [])
            && (outcome == Block <==> (r.ok && r.effects != c.intents) || (!r.ok && !(c.retrySafe && r.effects == [])))
  {
    var v := Vector(c, Run(c, Init(c, 1), acts + Recording(c, r)).recs);
    forall i | 0 <= i < c.N
      ensures && (v[i].status == Applied <==> r.ok && r.effects == c.intents)
              && (v[i].status == Failed <==> !r.ok && c.retrySafe && r.effects == [])
              && v[i].status in {Applied, Failed, Uncertain}
              && (v[i].status != Uncertain ==> v[i].toolResult == Some(r))
    {
      AnswerDecidesRecords(c, acts, r, i);
    }
    EqualStatusesDecide(v, c.retrySafe, r);
  }

  lemma EqualStatusesDecide(v: seq<Entry>, retrySafe: bool, r: ToolResult)
    requires v != [] && AllIn(v, {v[0].status}) && v[0].status in {Applied, Failed, Uncertain}
    requires v[0].status == Failed ==> retrySafe
    requires v[0].status == Applied ==> forall i :: 0 <= i < |v| ==> v[i].toolResult == Some(r)
    ensures PreparePlan(v, retrySafe).outcome ==
              if v[0].status == Applied then Replay(r) else if v[0].status == Failed then Dispatch else Block
  {
    if v[0].status == Failed {
      assert !Has(v, Uncertain);
      DispatchIff(v, retrySafe);
    }
  }

  /** An answer that leaves doubt, such as a failure that reports effects, is the last one: no
      later attempt runs the tool, unless the operator rules every record failed. */
  lemma DoubtIsNotRunAgain(c: Call, acts: seq<Action>, r: ToolResult, later: seq<Action>, i: nat)
    requires |Run(c, Init(c, 1), acts).workers| == 1 && Run(c, Init(c, 1), acts).workers[0].Ready? && i < c.N
    requires if r.ok then r.effects != c.intents else r.effects != [] || !c.retrySafe
    requires NeverRuledFailed(later, i)
    ensures Run(c, Init(c, 1), acts + Recording(c, r) + later).executions == Run(c, Init(c, 1), acts).executions + 1
  {
    AnswerDecidesRecords(c, acts, r, i);
    DoneIsNotRunAgain(c, acts + Recording(c, r), later, i);
  }

  // ---------- what a record remembers ----------

  /** No action of anybody makes a record forget: its attempts, that an operator ruled on it, its
      result and the event that logged it. */
  lemma RecordsRemember(c: Call, s: State, a: Action, i: nat)
    requires i in s.recs
    ensures var e, e' := s.recs[i], Do(c, s, a).recs[i];
            && e'.attempts == e.attempts + (if e.status == Planned && e'.status == Dispatching then 1 else 0)
            && (e.reconciled ==> e'.reconciled)
            && (e.toolResult.Some? ==> e'.toolResult.Some?)
            && (e.resultEvent.Some? ==> e'.resultEvent.Some?)
  {
    if a.Work? && a.worker < |s.workers| && s.workers[a.worker].Moving? && s.workers[a.worker].todo != [] {
      ReachedFrom(s.recs[i].status, Dispatching);
    }
  }

  /** A confirmed record names the event that logged its result, or an operator confirmed it. */
  ghost predicate Reasoned(s: State) {
    && (forall i :: i in s.recs && s.recs[i].status == Confirmed ==>
        s.recs[i].resultEvent.Some? || s.recs[i].reconciled)
    && (forall w :: 0 <= w < |s.workers| && s.workers[w].Moving? ==> NamesEvents(s.workers[w].todo))
  }

  predicate NamesEvents(todo: seq<Move>) {
    forall j :: 0 <= j < |todo| && todo[j].to == Confirmed ==> todo[j].patch.resultEvent.Some?
  }

  lemma SweepNames(es: seq<Entry>, from: set<Status>, to: Status, p: Patch)
    requires to == Confirmed ==> p.resultEvent.Some?
    ensures NamesEvents(Sweep(es, from, to, p))
  {
    SweepAims(es, from, to, p);
  }

  lemma StepNames(c: Call, s: State, a: Action)
    requires Reasoned(s) && a.Work? && a.worker < |s.workers|
    ensures Reasoned(Do(c, s, a))
  {
    match s.workers[a.worker]
    case Idle =>
    case Loading(seen) =>
      if |seen| >= c.N {
        PreparePlanShape(seen, c.retrySafe);
        var moves := PreparePlan(seen, c.retrySafe).moves;
        assert forall j :: 0 <= j < |moves| ==> moves[j] in moves;
      }
    case Moving(todo, local, next) =>
      if todo != [] { MoveNames(s, a.worker, todo, local, next); }
      else { StageNames(s, a.worker, local, next, a.verified, a.eventId); }
    case Ready(local) => AnswerNames(c, local, a.result);
  }

  lemma MoveNames(s: State, w: nat, todo: seq<Move>, local: seq<Entry>, next: Next)
    requires Reasoned(s) && w < |s.workers| && s.workers[w] == Moving(todo, local, next) && todo != []
    ensures Reasoned(MoveStep(s, w, todo, local, next))
  {
    assert forall j :: 0 <= j < |todo[1..]| ==> todo[1..][j] == todo[j + 1];
  }

  lemma StageNames(s: State, w: nat, local: seq<Entry>, next: Next, verified: bool, eventId: string)
    requires Reasoned(s) && w < |s.workers|
    ensures Reasoned(StageStep(s, w, local, next, verified, eventId))
  {
    SweepNames(local, {Planned}, Dispatching, NoPatch);
    SweepNames(local, {Applied}, Confirmed, Patch(None, false, Some(eventId)));
  }

  lemma AnswerNames(c: Call, local: seq<Entry>, r: ToolResult)
    ensures NamesEvents(RecordPlan(local, c.intents, c.retrySafe, r).0)
  {
    var snapshot := Patch(Some(r), false, None);
    SweepNames(local, UNSETTLED, Uncertain, NoPatch);
    SweepNames(local, {Dispatching}, Applied, snapshot);
    SweepNames(local, {Dispatching}, Failed, snapshot);
    SweepNames(local, {Dispatching}, Uncertain, snapshot);
  }

  /** In every reachable state of any workers, crashes and verdicts. */
  lemma {:induction false} ConfirmedHasReason(c: Call, workers: nat, acts: seq<Action>)
    ensures Reasoned(Run(c, Init(c, workers), acts))
  {
    if acts != [] {
      var init, a := acts[..|acts| - 1], acts[|acts| - 1];
      ConfirmedHasReason(c, workers, init);
      if a.Work? && a.worker < |Run(c, Init(c, workers),
          init).workers| { StepNames(c, Run(c, Init(c, workers), init), a); }
    }
  }
}
