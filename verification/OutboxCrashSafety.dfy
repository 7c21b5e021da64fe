/**
  How far crash safety reaches: calls with one intent always recover by themselves,
  calls with several do not, and one guard of the preparation is never taken.
 */
module OutboxCrashSafety {
  import opened Common
  import opened SideEffects
  import opened OutboxPlan
  import opened OutboxMachine
  import opened OutboxInvariant
  import opened OutboxRecovery

  /** The tool tells the truth: success reports exactly the declared effects, failure reports none. */
  predicate Honest(c: Call, a: Action) {
    a.Work? ==> if a.result.ok then a.result.effects == c.intents else a.result.effects == []
  }

  ghost predicate NoDoubt(c: Call, s: State) {
    && CrashInv(c, s)
    && (forall i :: i in s.recs ==> s.recs[i].status != Uncertain)
    && (s.workers[0].Moving? ==> forall j :: 0 <= j < |s.workers[0].todo| ==> s.workers[0].todo[j].to != Uncertain)
  }

  lemma LoadWithoutDoubt(c: Call, s: State, seen: seq<Entry>)
    requires c.retrySafe && c.N == 1 && NoDoubt(c, s) && s.workers[0] == Loading(seen) && |seen| == 1
    ensures var moves := PreparePlan(seen, c.retrySafe).moves; forall j :: 0 <= j < |moves| ==> moves[j].to != Uncertain
  {
    assert s.recs[0] == seen[0] || seen[0].status == Uncertain;
    var reset := Sweep(seen, {Dispatching}, Planned, NoPatch);
    var afterReset := Swept(seen, {Dispatching}, Planned, NoPatch);
    var clear := Sweep(afterReset, {Failed}, Planned, NoPatch);
    var afterClear := Swept(afterReset, {Failed}, Planned, NoPatch);
    SweepAims(seen, {Dispatching}, Planned, NoPatch);
    SweepAims(afterReset, {Failed}, Planned, NoPatch);
    if seen[0].status in SETTLED {
      assert ReplayResult(seen).Some?;
    } else if seen[0].status == Uncertain {
      assert Has(seen, Uncertain);
    } else {
      assert afterClear[0].status == Planned;
    }
  }

  lemma ExecuteWithoutDoubt(c: Call, s: State, local: seq<Entry>, r: ToolResult)
    requires c.retrySafe && NoDoubt(c, s) && s.workers[0] == Ready(local)
    requires if r.ok then r.effects == c.intents else r.effects == []
    ensures NoDoubt(c, ExecuteStep(c, s, 0, local, r))
  {
    CrashExecutes(c, s, local, r);
    SweepAims(local, {Dispatching}, Applied, Patch(Some(r), false, None));
    SweepAims(local, {Dispatching}, Failed, Patch(Some(r), false, None));
  }

  lemma MoveWithoutDoubt(c: Call, s: State, todo: seq<Move>, local: seq<Entry>, next: Next)
    requires NoDoubt(c, s) && s.workers[0] == Moving(todo, local, next) && todo != []
    ensures NoDoubt(c, MoveStep(s, 0, todo, local, next))
  {
    CrashMoves(c, s, todo, local, next);
    assert forall j :: 0 <= j < |todo[1..]| ==> todo[1..][j] == todo[j + 1];
  }

  lemma StageWithoutDoubt(c: Call, s: State, local: seq<Entry>, next: Next, verified: bool, eventId: string)
    requires NoDoubt(c, s) && s.workers[0] == Moving([], local, next)
    ensures NoDoubt(c, StageStep(s, 0, local, next, verified, eventId))
  {
    CrashStages(c, s, local, next, verified, eventId);
    StageNeverDoubts(s, local, next, verified, eventId);
  }

  lemma StageNeverDoubts(s: State, local: seq<Entry>, next: Next, verified: bool, eventId: string)
    requires |s.workers| > 0
    ensures var s' := StageStep(s, 0, local, next, verified, eventId);
            && s'.recs == s.recs && |s'.workers| == |s.workers|
            && (s'.workers[0].Moving? ==>
                forall j :: 0 <= j < |s'.workers[0].todo| ==> s'.workers[0].todo[j].to != Uncertain)
  {
    SweepAims(local, {Planned}, Dispatching, NoPatch);
    SweepAims(local, {Applied}, Confirmed, Patch(None, false, Some(eventId)));
  }

  lemma NoDoubtKept(c: Call, s: State, a: Action)
    requires c.retrySafe && c.N == 1 && NoDoubt(c, s) && !a.Resolve? && Honest(c, a)
    ensures NoDoubt(c, Do(c, s, a))
  {
    CrashDoes(c, s, a);
    if a.Work? && a.worker == 0 {
      match s.workers[0]
      case Idle =>
      case Loading(seen) =>
        assert WellFormed(c, s.workers[0]);
        if |seen| == 1 { LoadWithoutDoubt(c, s, seen); }
      case Ready(local) => ExecuteWithoutDoubt(c, s, local, a.result);
      case Moving(todo, local, next) =>
        if todo != [] { MoveWithoutDoubt(c, s, todo, local, next); }
        else { StageWithoutDoubt(c, s, local, next, a.verified, a.eventId); }
    }
  }

  lemma {:induction false} NoDoubtRuns(c: Call, acts: seq<Action>)
    requires c.retrySafe && c.N == 1
    requires forall a :: a in acts ==> !a.Resolve? && Honest(c, a)
    ensures NoDoubt(c, Run(c, Init(c, 1), acts))
  {
    if acts == [] {
      CrashRuns(c, []);
    } else {
      var init := acts[..|acts| - 1];
      assert forall a :: a in init ==> a in acts;
      NoDoubtRuns(c, init);
      assert acts[|acts| - 1] in acts;
      NoDoubtKept(c, Run(c, Init(c, 1), init), acts[|acts| - 1]);
    }
  }

  /** A call with one intent that is safe to retry, run by one owner against an honest tool,
      never needs manual review: wherever it crashed, the next attempt runs or replays. */
  lemma SingleIntentRecovers(c: Call, acts: seq<Action>)
    requires c.retrySafe && c.N == 1
    requires forall a :: a in acts ==> !a.Resolve? && Honest(c, a)
    ensures !PreparePlan(Vector(c, Run(c, Init(c, 1), acts).recs), c.retrySafe).outcome.Block?
  {
    NoDoubtRuns(c, acts);
    CrashRecovery(c, acts);
    var v := Vector(c, Run(c, Init(c, 1), acts).recs);
    assert v[0].status != Uncertain && v[0].status != Reverted;
    OneRecord(v);
  }

  lemma OneRecord(v: seq<Entry>)
    requires |v| == 1 && v[0].status != Uncertain && v[0].status != Reverted
    ensures !Has(v, Uncertain) && (AllIn(v, REDOABLE) || AllIn(v, SETTLED))
  {
  }

  // ---------- several intents: a crash between two commits ----------

  /** `n` records, the first `j` of them `a` and the others `b`. */
  function Mixed(n: nat, j: nat, a: Entry, b: Entry): (v: seq<Entry>)
    ensures |v| == n
  {
    seq(n, i => if i < j then a else b)
  }

  function Table(v: seq<Entry>): map<nat, Entry> {
    map i: nat | 0 <= i < |v| :: v[i]
  }

  function Tick(r: ToolResult): Action { Work(0, r, true, "event") }

  /** The state after an uninterrupted owner has taken `steps` steps of its first attempt. */
  function After(c: Call, r: ToolResult, steps: nat): State {
    Run(c, Init(c, 1), seq(steps, _ => Tick(r)))
  }

  lemma NextTick(c: Call, r: ToolResult, steps: nat)
    ensures After(c, r, steps + 1) == Do(c, After(c, r, steps), Tick(r))
  {
    assert seq(steps + 1, _ => Tick(r))[..steps] == seq(steps, _ => Tick(r));
  }

  /** A state of the first attempt: the records, and the only worker. */
  ghost predicate At(s: State, v: seq<Entry>, p: Phase, executions: nat) {
    s.recs == Table(v) && s.workers == [p] && s.executions == executions
  }

  const InFlight := Entry(Dispatching, 1, None, false, None)

  function Written(r: ToolResult): Patch { Patch(Some(r), false, None) }

  function Committed(r: ToolResult): Entry { Advance(InFlight, Applied, Written(r)) }

  lemma LoadTick(c: Call, s: State, r: ToolResult, j: nat)
    requires j < c.N && At(s, Mixed(j, 0, NewEntry, NewEntry), Loading(Mixed(j, 0, NewEntry, NewEntry)), 0)
    ensures At(Do(c, s, Tick(r)), Mixed(j + 1, 0, NewEntry, NewEntry), Loading(Mixed(j + 1, 0, NewEntry, NewEntry)), 0)
  {
    var v, v' := Mixed(j, 0, NewEntry, NewEntry), Mixed(j + 1, 0, NewEntry, NewEntry);
    assert v' == v + [NewEntry];
    assert Table(v') == Table(v)[j := NewEntry];
  }

  lemma {:induction false} AttemptLoads(c: Call, r: ToolResult, j: nat)
    requires j <= c.N
    ensures At(After(c, r, 1 + j), Mixed(j, 0, NewEntry, NewEntry), Loading(Mixed(j, 0, NewEntry, NewEntry)), 0)
  {
    NextTick(c, r, j);
    if j > 0 {
      AttemptLoads(c, r, j - 1);
      LoadTick(c, After(c, r, j), r, j - 1);
    }
  }

  lemma AttemptPlans(c: Call, r: ToolResult)
    requires c.N > 0
    ensures var v := Mixed(c.N, 0, NewEntry, NewEntry); At(After(c, r, c.N + 3), v, Moving(BeginMoves(v), v, Begun), 0)
  {
    var v := Mixed(c.N, 0, NewEntry, NewEntry);
    AttemptLoads(c, r, c.N);
    NextTick(c, r, c.N + 1);
    NextTick(c, r, c.N + 2);
    assert v[0].status == Planned;
    SweepNone(v, {Dispatching}, Planned, NoPatch);
    SweepNone(v, {Failed}, Planned, NoPatch);
    assert PreparePlan(v, c.retrySafe) == Plan([], v, Dispatch);
  }

  function Moves(c: Call, a: Entry, to: Status, p: Patch, done: nat): seq<Move>
    requires done <= c.N
  {
    seq(c.N - done, i requires 0 <= i => Move(done + i, a.status, to, p))
  }

  /** A sweep over equal records, `j` transitions in. */
  ghost predicate Sweeping(c: Call, s: State, a: Entry, to: Status, p: Patch, next: Next, j: nat, executions: nat)
    requires j <= c.N
  {
    At(s, Mixed(c.N, j, Advance(a, to, p), a), Moving(Moves(c, a, to, p, j), Mixed(c.N, j, Advance(a, to, p), a), next),
        executions)
  }

  lemma SweepTick(c: Call, s: State, r: ToolResult, a: Entry, to: Status, p: Patch, next: Next, j: nat, executions: nat)
    requires j < c.N && Allowed(a.status, to) && Sweeping(c, s, a, to, p, next, j, executions)
    ensures Sweeping(c, Do(c, s, Tick(r)), a, to, p, next, j + 1, executions)
  {
    var b := Advance(a, to, p);
    var todo := Moves(c, a, to, p, j);
    var v, v' := Mixed(c.N, j, b, a), Mixed(c.N, j + 1, b, a);
    assert todo[0] == Move(j, a.status, to, p) && todo[1..] == Moves(c, a, to, p, j + 1);
    assert v' == v[j := b];
    assert Table(v') == Table(v)[j := b];
  }

  /** Step by step through a sweep, along any states that follow each other. */
  lemma {:induction false} SweepRuns(c: Call, r: ToolResult, states: seq<State>, a: Entry, to: Status, p: Patch,
      next: Next, j: nat, executions: nat)
    requires j <= c.N && j < |states| && Allowed(a.status, to) && Sweeping(c, states[0], a, to, p, next, 0, executions)
    requires forall i {:trigger Follows(c, r, states, i)} :: 0 <= i < j ==> Follows(c, r, states, i)
    ensures Sweeping(c, states[j], a, to, p, next, j, executions)
  {
    if j > 0 {
      SweepRuns(c, r, states, a, to, p, next, j - 1, executions);
      assert Follows(c, r, states, j - 1);
      SweepTick(c, states[j - 1], r, a, to, p, next, j - 1, executions);
    }
  }

  ghost predicate Follows(c: Call, r: ToolResult, states: seq<State>, i: nat) {
    i + 1 < |states| && states[i + 1] == Do(c, states[i], Tick(r))
  }

  lemma SweepAfter(c: Call, r: ToolResult, k: nat, a: Entry, to: Status, p: Patch, next: Next, j: nat, executions: nat)
    requires j <= c.N && Allowed(a.status, to) && Sweeping(c, After(c, r, k), a, to, p, next, 0, executions)
    ensures Sweeping(c, After(c, r, k + j), a, to, p, next, j, executions)
  {
    var states := seq(j + 1, i requires 0 <= i => After(c, r, k + i));
    forall i | 0 <= i < j ensures Follows(c, r, states, i) { NextTick(c, r, k + i); }
    SweepRuns(c, r, states, a, to, p, next, j, executions);
  }

  lemma AttemptBegins(c: Call, r: ToolResult, j: nat)
    requires 0 < c.N && j <= c.N
    ensures Sweeping(c, After(c, r, c.N + 3 + j), NewEntry, Dispatching, NoPatch, Begun, j, 0)
  {
    AttemptReady(c, r);
    SweepAfter(c, r, c.N + 3, NewEntry, Dispatching, NoPatch, Begun, j, 0);
  }

  lemma AttemptReady(c: Call, r: ToolResult)
    requires 0 < c.N
    ensures Sweeping(c, After(c, r, c.N + 3), NewEntry, Dispatching, NoPatch, Begun, 0, 0)
  {
    AttemptPlans(c, r);
    BeginsFresh(c);
    assert Advance(NewEntry, Dispatching, NoPatch) == InFlight;
  }

  lemma BeginsFresh(c: Call)
    ensures BeginMoves(Mixed(c.N, 0, NewEntry, NewEntry)) == Moves(c, NewEntry, Dispatching, NoPatch, 0)
    ensures Mixed(c.N, 0, InFlight, NewEntry) == Mixed(c.N, 0, NewEntry, NewEntry)
  {
    SweepAll(Mixed(c.N, 0, NewEntry, NewEntry), {Planned}, Dispatching, NoPatch);
  }

  lemma ExecuteTick(c: Call, s: State, r: ToolResult)
    requires r.ok && r.effects == c.intents
    requires At(s, Mixed(c.N, 0, InFlight, InFlight), Ready(Mixed(c.N, 0, InFlight, InFlight)), 0)
    ensures Sweeping(c, Do(c, s, Tick(r)), InFlight, Applied, Written(r), Recorded(r), 0, 1)
  {
    var v := Mixed(c.N, 0, InFlight, InFlight);
    SweepAll(v, {Dispatching}, Applied, Written(r));
    assert Sweep(v, {Dispatching}, Applied, Written(r)) == Moves(c, InFlight, Applied, Written(r), 0);
    assert Mixed(c.N, 0, Committed(r), InFlight) == v;
  }

  lemma BegunTick(c: Call, s: State, r: ToolResult)
    requires Sweeping(c, s, NewEntry, Dispatching, NoPatch, Begun, c.N, 0)
    ensures At(Do(c, s, Tick(r)), Mixed(c.N, 0, InFlight, InFlight), Ready(Mixed(c.N, 0, InFlight, InFlight)), 0)
  {
    assert Mixed(c.N, c.N, InFlight, NewEntry) == Mixed(c.N, 0, InFlight, InFlight);
    assert Moves(c, NewEntry, Dispatching, NoPatch, c.N) == [];
  }

  lemma AttemptCommits(c: Call, r: ToolResult, j: nat)
    requires 0 < c.N && j <= c.N && r.ok && r.effects == c.intents
    ensures Sweeping(c, After(c, r, 2 * c.N + 5 + j), InFlight, Applied, Written(r), Recorded(r), j, 1)
  {
    AttemptExecutes(c, r);
    SweepAfter(c, r, 2 * c.N + 5, InFlight, Applied, Written(r), Recorded(r), j, 1);
  }

  lemma AttemptExecutes(c: Call, r: ToolResult)
    requires 0 < c.N && r.ok && r.effects == c.intents
    ensures Sweeping(c, After(c, r, 2 * c.N + 5), InFlight, Applied, Written(r), Recorded(r), 0, 1)
  {
    AttemptBegins(c, r, c.N);
    ExecuteAfter(c, r, c.N + 3 + c.N, 2 * c.N + 5);
  }

  lemma ExecuteAfter(c: Call, r: ToolResult, k: nat, k': nat)
    requires k' == k + 2 && r.ok && r.effects == c.intents
    requires Sweeping(c, After(c, r, k), NewEntry, Dispatching, NoPatch, Begun, c.N, 0)
    ensures Sweeping(c, After(c, r, k'), InFlight, Applied, Written(r), Recorded(r), 0, 1)
  {
    NextTick(c, r, k);
    BegunTick(c, After(c, r, k), r);
    NextTick(c, r, k + 1);
    ExecuteTick(c, After(c, r, k + 1), r);
  }

  /** The first attempt succeeds at the target and the process dies after `j` of the commits
      of its result: the next attempt runs the tool again when none was written, replays the
      result when all were, and in between it asks for manual review, although the call is
      safe to retry. */
  lemma CrashDuringCommit(c: Call, r: ToolResult, j: nat)
    requires c.retrySafe && 0 < c.N && j <= c.N && r.ok && r.effects == c.intents
    ensures var s := Do(c, After(c, r, 2 * c.N + 5 + j), Crash(0));
            var outcome := PreparePlan(Vector(c, s.recs), c.retrySafe).outcome;
            && s.executions == 1 && s.workers == [Idle]
            && (outcome.Dispatch? <==> j == 0)
            && (outcome == Replay(r) <==> j == c.N)
            && (outcome.Block? <==> 0 < j < c.N)
  {
    AttemptCommits(c, r, j);
    var steps := 2 * c.N + 5 + j;
    var acts := seq(steps, _ => Tick(r)) + [Crash(0)];
    assert acts[..steps] == seq(steps, _ => Tick(r));
    CrashRecovery(c, acts);
    var w := Vector(c, Run(c, Init(c, 1), acts).recs);
    assert w == Mixed(c.N, j, Committed(r), InFlight);
    assert j < c.N ==> w[j].status == Dispatching;
    assert w[0].status == if j > 0 then Applied else Dispatching;
  }

  // ---------- a guard that is never taken ----------

  ghost predicate FailuresCleared(c: Call, s: State) {
    Inv(c, s) && forall i :: i in s.recs && s.recs[i].status == Failed ==> s.recs[i].reconciled
  }

  /** A record of a call that is not safe to retry fails only by an operator's verdict, so
      the refusal to retry a failure nobody has cleared is never reached for such a call,
      with any number of workers and crashes. */
  lemma {:induction false} FailuresAreCleared(c: Call, workers: nat, acts: seq<Action>)
    requires !c.retrySafe
    ensures ManuallyCleared(Vector(c, Run(c, Init(c, workers), acts).recs))
    ensures FailuresCleared(c, Run(c, Init(c, workers), acts))
  {
    if acts == [] {
      RunKeeps(c, workers, []);
    } else {
      var init, a := acts[..|acts| - 1], acts[|acts| - 1];
      FailuresAreCleared(c, workers, init);
      var s := Run(c, Init(c, workers), init);
      DoKeeps(c, s, a);
      if a.Work? && a.worker < |s.workers| && s.workers[a.worker].Moving? && s.workers[a.worker].todo != [] {
        assert WellFormed(c, s.workers[a.worker]);
        assert WorkerMove(s.workers[a.worker].todo[0], c.retrySafe);
      }
    }
  }
}
