/**
  What holds of every reachable state of the outbox machine: every record counts the
  executions, and workers only move records the way the outbox may.
 */
module OutboxInvariant {
  import opened Common
  import opened SideEffects
  import opened OutboxPlan
  import opened OutboxMachine

  function AttemptsOf(s: State, i: nat): nat {
    if i in s.recs then s.recs[i].attempts else 0
  }

  /** 1 when the worker has moved record `i` to dispatching for an execution still to come. */
  function Credit(c: Call, p: Phase, i: nat): nat {
    match p
    case Ready(_) => 1
    case Moving(todo, _, next) => if next.Begun? && i + |todo| < c.N then 1 else 0
    case _ => 0
  }

  function Credits(c: Call, ws: seq<Phase>, i: nat): nat {
    if ws == [] then 0 else Credits(c, ws[..|ws| - 1], i) + Credit(c, ws[|ws| - 1], i)
  }

  lemma {:induction false} CreditsUpdate(c: Call, ws: seq<Phase>, w: nat, p: Phase, i: nat)
    requires w < |ws|
    ensures Credits(c, ws[w := p], i) == Credits(c, ws, i) - Credit(c, ws[w], i) + Credit(c, p, i)
  {
    var n := |ws| - 1;
    var ws' := ws[w := p];
    if w == n {
      assert ws'[..n] == ws[..n];
    } else {
      assert ws'[..n] == ws[..n][w := p];
      CreditsUpdate(c, ws[..n], w, p, i);
    }
  }

  lemma {:induction false} CreditsIdle(c: Call, ws: seq<Phase>, i: nat)
    requires forall k :: 0 <= k < |ws| ==> ws[k] == Idle
    ensures Credits(c, ws, i) == 0
  {
    if ws != [] {
      CreditsIdle(c, ws[..|ws| - 1], i);
    }
  }

  /** Every record the worker holds is planned already or about to be. */
  ghost predicate Returning(todo: seq<Move>, local: seq<Entry>) {
    && (forall j :: 0 <= j < |todo| ==> todo[j].to == Planned)
    && (forall i :: 0 <= i < |local| ==> local[i].status == Planned || InTodo(todo, i))
  }

  /** A worker's remaining transitions are ones the outbox can ask for. */
  ghost predicate WellFormed(c: Call, p: Phase) {
    match p
    case Idle => true
    case Loading(seen) => |seen| <= c.N
    case Ready(local) => |local| == c.N
    case Moving(todo, local, next) =>
      && |local| == c.N
      && (forall j :: 0 <= j < |todo| ==> todo[j].index < c.N && WorkerMove(todo[j], c.retrySafe))
      && (if next.Begun? then
            && |todo| <= c.N
            && forall j :: 0 <= j < |todo| ==>
                todo[j].index == c.N - |todo| + j && todo[j].from == Planned && todo[j].to == Dispatching
          else forall j :: 0 <= j < |todo| ==> todo[j].to != Dispatching)
      && (next.Prepared? && next.outcome.Dispatch? ==> Returning(todo, local))
  }

  /** Record `i` counts every execution that happened or is under way, and a call that is
      not retry-safe gets a new dispatch of it only from an operator's failure verdict. */
  ghost predicate RecordInv(c: Call, s: State, i: nat)
    requires i < |s.failedVerdicts|
  {
    && s.executions + Credits(c, s.workers, i) <= AttemptsOf(s, i)
    && (!c.retrySafe && i in s.recs ==>
        s.recs[i].attempts + (if s.recs[i].status in {Planned, Failed} then 1 else 0) <= 1 + s.failedVerdicts[i])
  }

  ghost predicate Inv(c: Call, s: State) {
    && |s.failedVerdicts| == c.N
    && (forall w :: 0 <= w < |s.workers| ==> WellFormed(c, s.workers[w]))
    && (forall i :: 0 <= i < c.N ==> RecordInv(c, s, i))
  }

  lemma InTodoTail(todo: seq<Move>, i: nat)
    requires InTodo(todo, i) && todo[0].index != i
    ensures InTodo(todo[1..], i)
  {
    var j :| 0 <= j < |todo| && todo[j].index == i;
    assert todo[1..][j - 1].index == i;
  }

  lemma DispatchReturns(seen: seq<Entry>, retrySafe: bool)
    requires PreparePlan(seen, retrySafe).outcome.Dispatch?
    ensures Returning(PreparePlan(seen, retrySafe).moves, seen)
  {
    var reset := Sweep(seen, {Dispatching}, Planned, NoPatch);
    var afterReset := Swept(seen, {Dispatching}, Planned, NoPatch);
    var clear := Sweep(afterReset, {Failed}, Planned, NoPatch);
    var moves := reset + clear;
    InTodoConcat(reset, clear);
    forall j | 0 <= j < |moves| ensures moves[j].to == Planned {
      if j < |reset| { SweepMoves(seen, {Dispatching}, Planned, NoPatch, reset[j]); }
      else { assert moves[j] == clear[j - |reset|]; SweepMoves(afterReset, {Failed}, Planned, NoPatch, moves[j]); }
    }
    forall i | 0 <= i < |seen| ensures seen[i].status == Planned || InTodo(moves, i) {
      assert Swept(afterReset, {Failed}, Planned, NoPatch)[i].status == Planned;
      if seen[i].status == Dispatching { SweepCovers(seen, {Dispatching}, Planned, NoPatch, i); }
      else if seen[i].status == Failed { SweepCovers(afterReset, {Failed}, Planned, NoPatch, i); }
    }
  }

  lemma LoadKeeps(c: Call, s: State, w: nat, seen: seq<Entry>)
    requires Inv(c, s) && w < |s.workers| && s.workers[w] == Loading(seen)
    ensures Inv(c, LoadStep(c, s, w, seen))
  {
    var s' := LoadStep(c, s, w, seen);
    if |seen| == c.N {
      PreparePlanShape(seen, c.retrySafe);
      var plan := PreparePlan(seen, c.retrySafe);
      if plan.outcome.Dispatch? { DispatchReturns(seen, c.retrySafe); }
      forall j | 0 <= j < |plan.moves|
        ensures WorkerMove(plan.moves[j], c.retrySafe) && plan.moves[j].to != Dispatching {
        assert plan.moves[j] in plan.moves;
      }
    }
    forall i | 0 <= i < c.N ensures RecordInv(c, s', i) {
      assert RecordInv(c, s, i);
      CreditsUpdate(c, s.workers, w, s'.workers[w], i);
    }
  }

  lemma MoveWellFormed(c: Call, todo: seq<Move>, local: seq<Entry>, next: Next, e: Entry)
    requires WellFormed(c, Moving(todo, local, next)) && todo != [] && e.status == todo[0].to
    ensures WellFormed(c, Moving(todo[1..], local[todo[0].index := e], next))
  {
    var i := todo[0].index;
    var rest, local' := todo[1..], local[i := e];
    assert forall j :: 0 <= j < |rest| ==> rest[j] == todo[j + 1];
    if next.Prepared? && next.outcome.Dispatch? {
      forall k | 0 <= k < |local'| ensures local'[k].status == Planned || InTodo(rest, k) {
        if k != i && local[k].status != Planned { InTodoTail(todo, k); }
      }
    }
  }

  lemma MoveCounts(c: Call, s: State, w: nat, todo: seq<Move>, local: seq<Entry>, next: Next, i: nat)
    requires w < |s.workers| && s.workers[w] == Moving(todo, local, next) && todo != []
    requires |s.failedVerdicts| == c.N && i < c.N && RecordInv(c, s, i)
    requires WellFormed(c, s.workers[w])
    ensures RecordInv(c, MoveStep(s, w, todo, local, next), i)
  {
    var s' := MoveStep(s, w, todo, local, next);
    CreditsUpdate(c, s.workers, w, s'.workers[w], i);
    assert WorkerMove(todo[0], c.retrySafe);
  }

  lemma MoveKeeps(c: Call, s: State, w: nat, todo: seq<Move>, local: seq<Entry>, next: Next)
    requires Inv(c, s) && w < |s.workers| && s.workers[w] == Moving(todo, local, next) && todo != []
    ensures Inv(c, MoveStep(s, w, todo, local, next))
  {
    var s' := MoveStep(s, w, todo, local, next);
    assert WellFormed(c, s.workers[w]);
    if s'.workers[w] != Idle {
      MoveWellFormed(c, todo, local, next, s'.recs[todo[0].index]);
    }
    assert forall k :: 0 <= k < |s'.workers| && k != w ==> s'.workers[k] == s.workers[k];
    forall i | 0 <= i < c.N ensures RecordInv(c, s', i) {
      assert RecordInv(c, s, i);
      MoveCounts(c, s, w, todo, local, next, i);
    }
  }

  lemma SweepWellFormed(c: Call, local: seq<Entry>, from: set<Status>, to: Status, p: Patch)
    requires |local| == c.N && to != Dispatching
    requires forall st :: st in from ==> WorkerMove(Move(0, st, to, p), c.retrySafe)
    ensures forall j :: 0 <= j < |Sweep(local, from, to, p)| ==>
              Sweep(local, from, to, p)[j].index < c.N && WorkerMove(Sweep(local, from, to, p)[j], c.retrySafe)
                && Sweep(local, from, to, p)[j].to == to
  {
    forall j | 0 <= j < |Sweep(local, from, to, p)|
      ensures Sweep(local, from, to, p)[j].index < c.N && WorkerMove(Sweep(local, from, to, p)[j], c.retrySafe)
              && Sweep(local, from, to, p)[j].to == to
    {
      SweepMoves(local, from, to, p, Sweep(local, from, to, p)[j]);
      assert WorkerMove(Move(0, Sweep(local, from, to, p)[j].from, to, p), c.retrySafe);
    }
  }

  lemma StageWellFormed(c: Call, s: State, w: nat, local: seq<Entry>, next: Next, verified: bool, eventId: string)
    requires w < |s.workers| && WellFormed(c, Moving([], local, next))
    ensures WellFormed(c, StageStep(s, w, local, next, verified, eventId).workers[w])
    ensures forall i :: 0 <= i < c.N ==>
              Credit(c, StageStep(s, w, local, next, verified, eventId).workers[w], i) ==
                  Credit(c, Moving([], local, next), i)
  {
    SweepWellFormed(c, local, {Applied}, Confirmed, Patch(None, false, Some(eventId)));
    if next.Prepared? && next.outcome.Dispatch? {
      assert forall i :: 0 <= i < |local| ==> local[i].status == Planned;
      SweepAll(local, {Planned}, Dispatching, NoPatch);
    }
  }

  lemma StageKeeps(c: Call, s: State, w: nat, local: seq<Entry>, next: Next, verified: bool, eventId: string)
    requires Inv(c, s) && w < |s.workers| && s.workers[w] == Moving([], local, next)
    ensures Inv(c, StageStep(s, w, local, next, verified, eventId))
  {
    var s' := StageStep(s, w, local, next, verified, eventId);
    assert WellFormed(c, s.workers[w]);
    StageWellFormed(c, s, w, local, next, verified, eventId);
    assert forall k :: 0 <= k < |s'.workers| && k != w ==> s'.workers[k] == s.workers[k];
    forall i | 0 <= i < c.N ensures RecordInv(c, s', i) {
      assert RecordInv(c, s, i);
      CreditsUpdate(c, s.workers, w, s'.workers[w], i);
    }
  }

  lemma RecordWellFormed(c: Call, local: seq<Entry>, r: ToolResult)
    requires |local| == c.N
    ensures WellFormed(c,
              Moving(RecordPlan(local, c.intents, c.retrySafe, r).0, local,
                  Recorded(RecordPlan(local, c.intents, c.retrySafe, r).1)))
  {
    var snapshot := Patch(Some(r), false, None);
    SweepWellFormed(c, local, UNSETTLED, Uncertain, NoPatch);
    SweepWellFormed(c, local, {Dispatching}, Applied, snapshot);
    SweepWellFormed(c, local, {Dispatching}, Uncertain, snapshot);
    if c.retrySafe { SweepWellFormed(c, local, {Dispatching}, Failed, snapshot); }
  }

  lemma ExecuteKeeps(c: Call, s: State, w: nat, local: seq<Entry>, result: ToolResult)
    requires Inv(c, s) && w < |s.workers| && s.workers[w] == Ready(local)
    ensures Inv(c, ExecuteStep(c, s, w, local, result))
  {
    var s' := ExecuteStep(c, s, w, local, result);
    RecordWellFormed(c, local, result);
    forall i | 0 <= i < c.N ensures RecordInv(c, s', i) {
      assert RecordInv(c, s, i);
      CreditsUpdate(c, s.workers, w, s'.workers[w], i);
    }
  }

  lemma IdleKeeps(c: Call, s: State, w: nat, p: Phase)
    requires Inv(c, s) && w < |s.workers| && p in {Idle, Loading([])}
    ensures Inv(c, WithWorker(s, w, p))
  {
    forall i | 0 <= i < c.N ensures RecordInv(c, WithWorker(s, w, p), i) {
      assert RecordInv(c, s, i);
      CreditsUpdate(c, s.workers, w, p, i);
    }
  }

  lemma DoKeeps(c: Call, s: State, a: Action)
    requires Inv(c, s)
    ensures Inv(c, Do(c, s, a))
  {
    match a
    case Work(w, result, verified, eventId) =>
      if w < |s.workers| {
        match s.workers[w]
        case Idle => IdleKeeps(c, s, w, Loading([]));
        case Loading(seen) => LoadKeeps(c, s, w, seen);
        case Ready(local) => ExecuteKeeps(c, s, w, local, result);
        case Moving(todo, local, next) =>
          if todo != [] { MoveKeeps(c, s, w, todo, local, next); }
          else { StageKeeps(c, s, w, local, next, verified, eventId); }
      }
    case Crash(w) => if w < |s.workers| { IdleKeeps(c, s, w, Idle); }
    case Resolve(i, v) =>
      forall k | 0 <= k < c.N ensures RecordInv(c, Do(c, s, a), k) { assert RecordInv(c, s, k); }
  }

  lemma {:induction false} RunKeeps(c: Call, workers: nat, acts: seq<Action>)
    ensures Inv(c, Run(c, Init(c, workers), acts))
  {
    if acts == [] {
      forall i | 0 <= i < c.N ensures RecordInv(c, Init(c, workers), i) {
        CreditsIdle(c, Init(c, workers).workers, i);
      }
    } else {
      RunKeeps(c, workers, acts[..|acts| - 1]);
      DoKeeps(c, Run(c, Init(c, workers), acts[..|acts| - 1]), acts[|acts| - 1]);
    }
  }
}
