/**
  A single owner of the call, as the run lease intends: its compare-and-sets never
  conflict, and what the next attempt decides after a crash is known exactly.
 */
module OutboxRecovery {
  import opened Common
  import opened SideEffects
  import opened OutboxPlan
  import opened OutboxMachine
  import opened OutboxInvariant

  function Seen(p: Phase): seq<Entry> {
    match p
    case Idle => []
    case Loading(seen) => seen
    case Ready(local) => local
    case Moving(_, local, _) => local
  }

  /** What the owner last read is still true, except where the operator has spoken. */
  ghost predicate InStep(recs: map<nat, Entry>, local: seq<Entry>) {
    forall i :: 0 <= i < |local| ==> i in recs && (recs[i] == local[i] || local[i].status == Uncertain)
  }

  ghost predicate OwnerInv(c: Call, s: State) {
    && Inv(c, s) && |s.workers| == 1
    && (forall i :: i in s.recs ==> i < c.N)
    && InStep(s.recs, Seen(s.workers[0]))
    && match s.workers[0]
       case Idle => true
       case Loading(_) => true
       case Ready(local) => AllIn(local, {Dispatching})
       case Moving(todo, local, next) =>
         && Consistent(todo, local)
         && (next.Begun? ==> forall i :: 0 <= i < |local| ==> local[i].status == Dispatching || InTodo(todo, i))
  }

  lemma ConsistentTail(todo: seq<Move>, local: seq<Entry>, e: Entry)
    requires Consistent(todo, local) && todo != []
    ensures Consistent(todo[1..], local[todo[0].index := e])
  {
    var rest := todo[1..];
    assert forall j :: 0 <= j < |rest| ==> rest[j] == todo[j + 1];
  }

  lemma OwnerMoves(c: Call, s: State, todo: seq<Move>, local: seq<Entry>, next: Next)
    requires OwnerInv(c, s) && s.workers[0] == Moving(todo, local, next) && todo != []
    ensures OwnerInv(c, MoveStep(s, 0, todo, local, next))
    ensures MoveStep(s, 0, todo, local, next).workers[0].Moving?
  {
    MoveKeeps(c, s, 0, todo, local, next);
    var s' := MoveStep(s, 0, todo, local, next);
    var m := todo[0];
    assert WellFormed(c, s.workers[0]) && WorkerMove(m, c.retrySafe);
    assert s.recs[m.index] == local[m.index];
    ConsistentTail(todo, local, s'.recs[m.index]);
    if next.Begun? {
      forall i | 0 <= i < |local| ensures s'.workers[0].local[i].status == Dispatching || InTodo(todo[1..], i) {
        if i != m.index && local[i].status != Dispatching { InTodoTail(todo, i); }
      }
    }
  }

  lemma BeginCovers(c: Call, local: seq<Entry>)
    requires WellFormed(c, Moving([], local, Prepared(Dispatch)))
    ensures forall i :: 0 <= i < |local| ==> InTodo(BeginMoves(local), i)
  {
    forall i | 0 <= i < |local| ensures InTodo(BeginMoves(local), i) {
      assert local[i].status == Planned || InTodo([], i);
      SweepCovers(local, {Planned}, Dispatching, NoPatch, i);
    }
  }

  lemma OwnerStages(c: Call, s: State, local: seq<Entry>, next: Next, verified: bool, eventId: string)
    requires OwnerInv(c, s) && s.workers[0] == Moving([], local, next)
    ensures OwnerInv(c, StageStep(s, 0, local, next, verified, eventId))
  {
    StageKeeps(c, s, 0, local, next, verified, eventId);
    var s' := StageStep(s, 0, local, next, verified, eventId);
    assert s'.recs == s.recs && Seen(s'.workers[0]) in {local, []};
    assert WellFormed(c, s.workers[0]);
    match next
    case Prepared(Dispatch) =>
      BeginCovers(c, local);
      SweepConsistent(local, {Planned}, Dispatching, NoPatch);
    case Begun => assert forall i :: !InTodo([], i);
    case _ => SweepConsistent(local, {Applied}, Confirmed, Patch(None, false, Some(eventId)));
  }

  lemma OwnerExecutes(c: Call, s: State, local: seq<Entry>, result: ToolResult)
    requires OwnerInv(c, s) && s.workers[0] == Ready(local)
    ensures OwnerInv(c, ExecuteStep(c, s, 0, local, result))
  {
    ExecuteKeeps(c, s, 0, local, result);
    var snapshot := Patch(Some(result), false, None);
    SweepConsistent(local, UNSETTLED, Uncertain, NoPatch);
    SweepConsistent(local, {Dispatching}, Applied, snapshot);
    SweepConsistent(local, {Dispatching}, Failed, snapshot);
    SweepConsistent(local, {Dispatching}, Uncertain, snapshot);
  }

  lemma OwnerDoes(c: Call, s: State, a: Action)
    requires OwnerInv(c, s)
    ensures OwnerInv(c, Do(c, s, a))
  {
    DoKeeps(c, s, a);
    if a.Work? && a.worker == 0 {
      match s.workers[0]
      case Idle =>
      case Loading(seen) =>
        assert WellFormed(c, s.workers[0]);
        if |seen| == c.N { PreparePlanShape(seen, c.retrySafe); }
      case Ready(local) => OwnerExecutes(c, s, local, a.result);
      case Moving(todo, local, next) =>
        if todo != [] { OwnerMoves(c, s, todo, local, next); }
        else { OwnerStages(c, s, local, next, a.verified, a.eventId); }
    }
  }

  lemma {:induction false} OwnerRuns(c: Call, acts: seq<Action>)
    ensures OwnerInv(c, Run(c, Init(c, 1), acts))
  {
    if acts == [] {
      RunKeeps(c, 1, []);
    } else {
      OwnerRuns(c, acts[..|acts| - 1]);
      OwnerDoes(c, Run(c, Init(c, 1), acts[..|acts| - 1]), acts[|acts| - 1]);
    }
  }

  /** With one owner no compare-and-set ever fails, whatever crashed before and whatever the
      operator decides meanwhile. */
  lemma OwnerNeverConflicts(c: Call, acts: seq<Action>, step: Action, todo: seq<Move>, local: seq<Entry>, next: Next)
    requires Run(c, Init(c, 1), acts).workers == [Moving(todo, local, next)] && todo != []
    requires step.Work? && step.worker == 0
    ensures var s' := Do(c, Run(c, Init(c, 1), acts), step); |s'.workers| == 1 && s'.workers[0].Moving?
  {
    OwnerRuns(c, acts);
    OwnerMoves(c, Run(c, Init(c, 1), acts), todo, local, next);
  }

  /** The tool is about to run only when every record is dispatching: none is applied,
      confirmed, failed, uncertain or reverted. */
  lemma ExecutionStartsClean(c: Call, acts: seq<Action>, local: seq<Entry>, i: nat)
    requires Run(c, Init(c, 1), acts).workers == [Ready(local)] && i < c.N
    ensures var s := Run(c, Init(c, 1), acts); i in s.recs && s.recs[i].status == Dispatching
  {
    OwnerRuns(c, acts);
    assert WellFormed(c, Run(c, Init(c, 1), acts).workers[0]);
  }

  // ---------- what a crash leaves, and what the next attempt decides ----------

  /** Every applied or confirmed record carries the same successful result. */
  ghost predicate Replayable(recs: map<nat, Entry>) {
    && (forall i :: i in recs && recs[i].status in SETTLED ==> recs[i].toolResult.Some? && recs[i].toolResult.value.ok)
    && (forall i, j :: i in recs && j in recs && recs[i].status in SETTLED && recs[j].status in SETTLED ==>
        recs[i].toolResult == recs[j].toolResult)
  }

  /** The transitions of a result being recorded: a success is written with its result, and
      agrees with whatever part of it is durable already. */
  ghost predicate Commits(recs: map<nat, Entry>, m: Move, r: ToolResult) {
    && m.to != Confirmed
    && (m.to == Applied ==>
        && r.ok && m.patch.toolResult == Some(r)
        && forall i :: i in recs && recs[i].status in SETTLED ==> recs[i].toolResult == Some(r))
  }

  ghost predicate CrashInv(c: Call, s: State) {
    && OwnerInv(c, s)
    && Replayable(s.recs)
    && (forall i :: i in s.recs ==> s.recs[i].status != Reverted)
    && (s.workers[0].Moving? ==> Harmless(s.recs, s.workers[0].todo, s.workers[0].next))
  }

  ghost predicate Harmless(recs: map<nat, Entry>, todo: seq<Move>, next: Next) {
    forall j :: 0 <= j < |todo| ==>
      if next.Recorded? then Commits(recs, todo[j], next.result)
        else todo[j].to != Applied && todo[j].patch.toolResult.None?
  }

  lemma SweepAims(local: seq<Entry>, from: set<Status>, to: Status, p: Patch)
    ensures forall j :: 0 <= j < |Sweep(local, from, to, p)| ==>
              Sweep(local, from, to, p)[j].to == to && Sweep(local, from, to, p)[j].patch == p
  {
    forall j | 0 <= j < |Sweep(local, from, to, p)|
      ensures Sweep(local, from, to, p)[j].to == to && Sweep(local, from, to, p)[j].patch == p
    {
      SweepMoves(local, from, to, p, Sweep(local, from, to, p)[j]);
    }
  }

  /** One transition keeps the durable results in agreement, and the rest of the recording too. */
  lemma MoveReplays(recs: map<nat, Entry>, m: Move, retrySafe: bool, next: Next)
    requires Replayable(recs) && m.index in recs && recs[m.index].status == m.from && WorkerMove(m, retrySafe)
    requires if next.Recorded? then Commits(recs, m, next.result) else m.to != Applied && m.patch.toolResult.None?
    ensures Replayable(recs[m.index := Advance(recs[m.index], m.to, m.patch)])
  {
    var e := Advance(recs[m.index], m.to, m.patch);
    assert m.to == Confirmed ==> m.from == Applied && e.toolResult == recs[m.index].toolResult;
    assert m.to == Applied ==> e.toolResult == m.patch.toolResult;
  }

  lemma MoveLeavesHarmless(c: Call, recs: map<nat, Entry>, todo: seq<Move>, next: Next)
    requires Harmless(recs, todo, next) && todo != [] && todo[0].index in recs
    ensures Harmless(recs[todo[0].index := Advance(recs[todo[0].index], todo[0].to, todo[0].patch)], todo[1..], next)
  {
    var m, rest := todo[0], todo[1..];
    var recs' := recs[m.index := Advance(recs[m.index], m.to, m.patch)];
    forall j | 0 <= j < |rest|
      ensures if next.Recorded? then Commits(recs', rest[j], next.result)
              else rest[j].to != Applied && rest[j].patch.toolResult.None?
    {
      assert rest[j] == todo[j + 1];
      if next.Recorded? {
        assert Commits(recs, todo[j + 1], next.result) && Commits(recs, m, next.result);
      }
    }
  }

  lemma CrashMoves(c: Call, s: State, todo: seq<Move>, local: seq<Entry>, next: Next)
    requires CrashInv(c, s) && s.workers[0] == Moving(todo, local, next) && todo != []
    ensures CrashInv(c, MoveStep(s, 0, todo, local, next))
  {
    OwnerMoves(c, s, todo, local, next);
    var m := todo[0];
    assert WellFormed(c, s.workers[0]) && WorkerMove(m, c.retrySafe);
    assert s.recs[m.index] == local[m.index];
    MoveReplays(s.recs, m, c.retrySafe, next);
    MoveLeavesHarmless(c, s.recs, todo, next);
  }

  lemma CrashExecutes(c: Call, s: State, local: seq<Entry>, result: ToolResult)
    requires CrashInv(c, s) && s.workers[0] == Ready(local)
    ensures CrashInv(c, ExecuteStep(c, s, 0, local, result))
  {
    OwnerExecutes(c, s, local, result);
    assert WellFormed(c, s.workers[0]);
    assert forall i :: i in s.recs ==> s.recs[i] == local[i];
    var snapshot := Patch(Some(result), false, None);
    SweepAims(local, UNSETTLED, Uncertain, NoPatch);
    SweepAims(local, {Dispatching}, Applied, snapshot);
    SweepAims(local, {Dispatching}, Failed, snapshot);
    SweepAims(local, {Dispatching}, Uncertain, snapshot);
  }

  lemma CrashLoads(c: Call, s: State, seen: seq<Entry>)
    requires CrashInv(c, s) && s.workers[0] == Loading(seen) && OwnerInv(c, LoadStep(c, s, 0, seen))
    ensures CrashInv(c, LoadStep(c, s, 0, seen))
  {
    if |seen| >= c.N { PreparationIsHarmless(s.recs, seen, c.retrySafe); }
  }

  lemma PreparationIsHarmless(recs: map<nat, Entry>, seen: seq<Entry>, retrySafe: bool)
    ensures var p := PreparePlan(seen, retrySafe); Harmless(recs, p.moves, Prepared(p.outcome))
  {
    PreparePlanShape(seen, retrySafe);
    var moves := PreparePlan(seen, retrySafe).moves;
    assert forall j :: 0 <= j < |moves| ==> moves[j] in moves;
  }

  lemma CrashStages(c: Call, s: State, local: seq<Entry>, next: Next, verified: bool, eventId: string)
    requires CrashInv(c, s) && s.workers[0] == Moving([], local, next)
    ensures CrashInv(c, StageStep(s, 0, local, next, verified, eventId))
  {
    OwnerStages(c, s, local, next, verified, eventId);
    var s' := StageStep(s, 0, local, next, verified, eventId);
    assert s'.recs == s.recs;
    CrashStageAims(c, s, local, next, eventId);
  }

  /** The transitions of the next stage that starts are harmless to a later preparation. */
  lemma CrashStageAims(c: Call, s: State, local: seq<Entry>, next: Next, eventId: string)
    requires CrashInv(c, s) && s.workers[0] == Moving([], local, next)
    ensures next == Prepared(Dispatch) ==> Harmless(s.recs, BeginMoves(local), Begun)
    ensures next != Prepared(Dispatch) ==>
              forall n: Next :: !n.Recorded? ==> Harmless(s.recs, ConfirmMoves(local, eventId), n)
  {
    SweepAims(local, {Planned}, Dispatching, NoPatch);
    SweepAims(local, {Applied}, Confirmed, Patch(None, false, Some(eventId)));
  }

  lemma CrashDoes(c: Call, s: State, a: Action)
    requires CrashInv(c, s) && !a.Resolve?
    ensures CrashInv(c, Do(c, s, a))
  {
    OwnerDoes(c, s, a);
    if a.Work? && a.worker == 0 {
      match s.workers[0]
      case Idle =>
      case Loading(seen) => CrashLoads(c, s, seen);
      case Ready(local) => CrashExecutes(c, s, local, a.result);
      case Moving(todo, local, next) =>
        if todo != [] { CrashMoves(c, s, todo, local, next); }
        else { CrashStages(c, s, local, next, a.verified, a.eventId); }
    }
  }

  lemma {:induction false} CrashRuns(c: Call, acts: seq<Action>)
    requires forall a :: a in acts ==> !a.Resolve?
    ensures CrashInv(c, Run(c, Init(c, 1), acts))
  {
    if acts == [] {
      RunKeeps(c, 1, []);
    } else {
      var init := acts[..|acts| - 1];
      assert forall a :: a in init ==> a in acts;
      CrashRuns(c, init);
      CrashDoes(c, Run(c, Init(c, 1), init), acts[|acts| - 1]);
    }
  }

  /** The records as the next attempt will read them; a missing one is created. */
  function Vector(c: Call, recs: map<nat, Entry>): (v: seq<Entry>)
    ensures |v| == c.N
  {
    seq(c.N, i requires i >= 0 => if i in recs then recs[i] else NewEntry)
  }

  const REDOABLE: set<Status> := {Planned, Dispatching, Failed}

  /** For a call that is safe to retry, after any crashes and with no operator involved:
      the next attempt redispatches exactly when nothing has been applied, replays the
      recorded success exactly when everything has, and blocks exactly when an outcome is
      uncertain or a crash fell between two commits of one result. */
  lemma CrashRecovery(c: Call, acts: seq<Action>)
    requires c.retrySafe && c.N > 0
    requires forall a :: a in acts ==> !a.Resolve?
    ensures var v := Vector(c, Run(c, Init(c, 1), acts).recs);
            var outcome := PreparePlan(v, c.retrySafe).outcome;
            && (outcome.Dispatch? <==> AllIn(v, REDOABLE))
            && (outcome.Replay? <==> AllIn(v, SETTLED))
            && (outcome.Replay? ==> outcome.result.ok && Some(outcome.result) == v[0].toolResult)
            && (outcome.Block? <==> Has(v, Uncertain) || (!AllIn(v, REDOABLE) && !AllIn(v, SETTLED)))
  {
    CrashRuns(c, acts);
    var s := Run(c, Init(c, 1), acts);
    var v := Vector(c, s.recs);
    var afterReset := Swept(v, {Dispatching}, Planned, NoPatch);
    var afterClear := Swept(afterReset, {Failed}, Planned, NoPatch);
    assert v[0].status in SETTLED || v[0].status !in SETTLED;
    assert AllIn(v, SETTLED) ==> ReplayResult(v) == v[0].toolResult;
    if AllIn(v, REDOABLE) {
      assert !AllIn(v, SETTLED) by { assert v[0].status !in SETTLED; }
      assert forall i :: 0 <= i < c.N ==> v[i].status in REDOABLE && afterClear[i].status == Planned;
    } else if !AllIn(v, SETTLED) && !Has(v, Uncertain) {
      var k :| 0 <= k < c.N && v[k].status !in REDOABLE;
      assert v[k].status in SETTLED;
      assert afterClear[k].status == v[k].status;
    }
  }
}
