/**
  What the outbox decides from the records it has read, as lists of single
  store transitions. The process can stop between any two of them.
 */
module OutboxPlan {
  import opened Common
  import opened SideEffects

  /** A compare-and-set on the record of one intent. */
  datatype Move = Move(index: nat, from: Status, to: Status, patch: Patch)

  datatype Outcome = Dispatch | Replay(result: ToolResult) | Block

  /** Transitions still to perform, the records as they will be afterwards, the decision. */
  datatype Plan = Plan(moves: seq<Move>, local: seq<Entry>, outcome: Outcome)

  // ---------- the sweep: move every record that is in one of some statuses ----------

  function Sweep(es: seq<Entry>, from: set<Status>, to: Status, p: Patch): seq<Move> {
    if es == [] then []
    else
      var last := es[|es| - 1];
      Sweep(es[..|es| - 1], from, to, p)
      + if last.status in from then [Move(|es| - 1, last.status, to, p)] else []
  }

  function Swept(es: seq<Entry>, from: set<Status>, to: Status, p: Patch): (r: seq<Entry>)
    ensures |r| == |es|
  {
    seq(|es|, i requires 0 <= i < |es| => if es[i].status in from then Advance(es[i], to, p) else es[i])
  }

  predicate InTodo(todo: seq<Move>, i: nat) {
    exists j :: 0 <= j < |todo| && todo[j].index == i
  }

  /** Every move starts from the status the process last saw, and no record moves twice. */
  ghost predicate Consistent(todo: seq<Move>, local: seq<Entry>) {
    && (forall j :: 0 <= j < |todo| ==> todo[j].index < |local| && local[todo[j].index].status == todo[j].from)
    && (forall j, k :: 0 <= j < k < |todo| ==> todo[j].index != todo[k].index)
  }

  lemma {:induction false} SweepMoves(es: seq<Entry>, from: set<Status>, to: Status, p: Patch, m: Move)
    requires m in Sweep(es, from, to, p)
    ensures m.index < |es| && m == Move(m.index, es[m.index].status, to, p) && m.from in from
  {
    var n := |es| - 1;
    if m in Sweep(es[..n], from, to, p) {
      SweepMoves(es[..n], from, to, p, m);
    }
  }

  lemma {:induction false} SweepConsistent(es: seq<Entry>, from: set<Status>, to: Status, p: Patch)
    ensures Consistent(Sweep(es, from, to, p), es)
  {
    if es != [] {
      var n := |es| - 1;
      var rest, all := Sweep(es[..n], from, to, p), Sweep(es, from, to, p);
      SweepConsistent(es[..n], from, to, p);
      forall j | 0 <= j < |rest| ensures all[j].index < n && es[all[j].index].status == all[j].from {
        assert all[j] == rest[j];
      }
    }
  }

  lemma {:induction false} SweepCovers(es: seq<Entry>, from: set<Status>, to: Status, p: Patch, i: nat)
    requires i < |es| && es[i].status in from
    ensures InTodo(Sweep(es, from, to, p), i)
  {
    var n := |es| - 1;
    var rest, all := Sweep(es[..n], from, to, p), Sweep(es, from, to, p);
    if i < n {
      SweepCovers(es[..n], from, to, p, i);
      var j :| 0 <= j < |rest| && rest[j].index == i;
      assert all[j].index == i;
    } else {
      assert all[|rest|].index == i;
    }
  }

  /** When every record is in a swept status, the sweep visits all of them in order. */
  lemma {:induction false} SweepAll(es: seq<Entry>, from: set<Status>, to: Status, p: Patch)
    requires forall e :: e in es ==> e.status in from
    ensures |Sweep(es, from, to, p)| == |es|
    ensures forall j :: 0 <= j < |es| ==> Sweep(es, from, to, p)[j] == Move(j, es[j].status, to, p)
  {
    if es != [] {
      SweepAll(es[..|es| - 1], from, to, p);
    }
  }

  lemma {:induction false} SweepNone(es: seq<Entry>, from: set<Status>, to: Status, p: Patch)
    requires forall e :: e in es ==> e.status !in from
    ensures Sweep(es, from, to, p) == []
    ensures Swept(es, from, to, p) == es
  {
    if es != [] {
      SweepNone(es[..|es| - 1], from, to, p);
    }
  }

  // ---------- preparation ----------

  predicate Has(es: seq<Entry>, s: Status) {
    exists i :: 0 <= i < |es| && es[i].status == s
  }

  predicate AllIn(es: seq<Entry>, ss: set<Status>) {
    forall i :: 0 <= i < |es| ==> es[i].status in ss
  }

  const UNSETTLED: set<Status> := {Dispatching, Applied}
  const SETTLED: set<Status> := {Applied, Confirmed}

  /** The recorded tool result, when every record carries one and they all agree. */
  function ReplayResult(es: seq<Entry>): Option<ToolResult> {
    if es == [] || exists i :: 0 <= i < |es| && es[i].toolResult.None? then None
    else if exists i :: 0 <= i < |es| && es[i].toolResult != es[0].toolResult then None
    else es[0].toolResult
  }

  predicate ManuallyCleared(es: seq<Entry>) {
    forall i :: 0 <= i < |es| && es[i].status == Failed ==> es[i].reconciled
  }

  function BlockMarking(done: seq<Move>, es: seq<Entry>): Plan {
    Plan(done + Sweep(es, UNSETTLED, Uncertain, NoPatch), Swept(es, UNSETTLED, Uncertain, NoPatch), Block)
  }

  function PreparePlan(seen: seq<Entry>, retrySafe: bool): Plan {
    if AllIn(seen, SETTLED) then
      match ReplayResult(seen)
      case Some(r) => Plan([], seen, Replay(r))
      case None => BlockMarking([], seen)
    else if Has(seen, Uncertain) then
      Plan([], seen, Block)
    else if Has(seen, Dispatching) && !retrySafe then
      BlockMarking([], seen)
    else
      RedoPlan(seen, retrySafe)
  }

  /** Nothing is in doubt: take back what was dispatched or failed, and dispatch if then
      every record is planned. */
  function RedoPlan(seen: seq<Entry>, retrySafe: bool): Plan {
    var reset := Sweep(seen, {Dispatching}, Planned, NoPatch);
    var afterReset := Swept(seen, {Dispatching}, Planned, NoPatch);
    if Has(afterReset, Failed) && !retrySafe && !ManuallyCleared(afterReset) then
      Plan(reset, afterReset, Block)
    else
      var cleared := reset + Sweep(afterReset, {Failed}, Planned, NoPatch);
      var afterClear := Swept(afterReset, {Failed}, Planned, NoPatch);
      if AllIn(afterClear, {Planned}) then Plan(cleared, afterClear, Dispatch)
      else BlockMarking(cleared, afterClear)
  }

  function BeginMoves(local: seq<Entry>): seq<Move> {
    Sweep(local, {Planned}, Dispatching, NoPatch)
  }

  // ---------- recording and confirming ----------

  const BlockedResult := ToolResult(false, "manual review", [], [])

  function Blocked(r: ToolResult): ToolResult {
    ToolResult(false, "manual review", r.effects, r.evidence)
  }

  /** The transitions that record a result, and the result the step goes on with. */
  function RecordPlan(local: seq<Entry>, intents: seq<Effect>, retrySafe: bool, r: ToolResult): (seq<Move>,
      ToolResult) {
    if r.ok && r.effects != intents then
      (Sweep(local, UNSETTLED, Uncertain, NoPatch), Blocked(r))
    else
      var snapshot := Patch(Some(r), false, None);
      if r.ok then (Sweep(local, {Dispatching}, Applied, snapshot), r)
      else if retrySafe && r.effects == [] then (Sweep(local, {Dispatching}, Failed, snapshot), r)
      else (Sweep(local, {Dispatching}, Uncertain, snapshot), Blocked(r))
  }

  function ConfirmMoves(local: seq<Entry>, eventId: string): seq<Move> {
    Sweep(local, {Applied}, Confirmed, Patch(None, false, Some(eventId)))
  }

  // ---------- which moves a plan can contain ----------

  /** A worker never moves a confirmed, reverted or uncertain record, and hands a
      dispatched record back only when the call is safe to retry. */
  predicate WorkerMove(m: Move, retrySafe: bool) {
    && Allowed(m.from, m.to)
    && m.from !in {Confirmed, Reverted, Uncertain}
    && m.to != Reverted
    && (m.from == Dispatching && m.to in {Planned, Failed} ==> retrySafe)
  }

  ghost predicate GoodMoves(todo: seq<Move>, seen: seq<Entry>, retrySafe: bool) {
    && Consistent(todo, seen)
    && forall m :: m in todo ==> WorkerMove(m, retrySafe) && m.to in {Planned, Uncertain} && m.patch == NoPatch
  }

  lemma SweepGood(es: seq<Entry>, from: set<Status>, to: Status, retrySafe: bool)
    requires (from == UNSETTLED && to == Uncertain) || (from == {Failed} && to == Planned)
             || (from == {Dispatching} && to == Planned)
    requires from == {Dispatching} ==> retrySafe || !Has(es, Dispatching)
    ensures GoodMoves(Sweep(es, from, to, NoPatch), es, retrySafe)
  {
    SweepConsistent(es, from, to, NoPatch);
    forall m | m in Sweep(es, from, to, NoPatch)
      ensures WorkerMove(m, retrySafe) && m.to in {Planned, Uncertain} && m.patch == NoPatch
    {
      SweepMoves(es, from, to, NoPatch, m);
    }
  }

  /** A sweep that follows earlier moves touches only records those moves left alone. */
  lemma Joins(done: seq<Move>, next: seq<Move>, before: seq<Entry>, after: seq<Entry>, retrySafe: bool)
    requires |after| == |before|
    requires GoodMoves(done, before, retrySafe) && GoodMoves(next, after, retrySafe)
    requires forall i :: 0 <= i < |before| && !InTodo(done, i) ==> after[i] == before[i]
    requires forall j :: 0 <= j < |done| ==> after[done[j].index].status == Planned
    ensures GoodMoves(done + next, before, retrySafe)
  {
    var all := done + next;
    forall j | 0 <= j < |next|
      ensures !InTodo(done, next[j].index)
    {
      assert next[j] in next;
    }
    forall j | 0 <= j < |all| ensures all[j].index < |before| && before[all[j].index].status == all[j].from {
      if j >= |done| { assert all[j] == next[j - |done|]; }
    }
    forall j, k | 0 <= j < k < |all| ensures all[j].index != all[k].index {
      if j < |done| <= k { assert all[k] == next[k - |done|]; }
    }
  }

  /** What a sweep to Planned leaves behind. */
  lemma SweptBehind(es: seq<Entry>, from: set<Status>, to: Status)
    ensures forall i :: 0 <= i < |es| && !InTodo(Sweep(es, from, to, NoPatch), i) ==>
              Swept(es, from, to, NoPatch)[i] == es[i]
    ensures forall j :: 0 <= j < |Sweep(es, from, to, NoPatch)| ==>
              Sweep(es, from, to, NoPatch)[j].index < |es|
                && Swept(es, from, to, NoPatch)[Sweep(es, from, to, NoPatch)[j].index].status == to
  {
    forall i | 0 <= i < |es| && !InTodo(Sweep(es, from, to, NoPatch), i)
      ensures Swept(es, from, to, NoPatch)[i] == es[i]
    {
      if es[i].status in from { SweepCovers(es, from, to, NoPatch, i); }
    }
    forall j | 0 <= j < |Sweep(es, from, to, NoPatch)|
      ensures Sweep(es, from, to, NoPatch)[j].index < |es|
              && Swept(es, from, to, NoPatch)[Sweep(es, from, to, NoPatch)[j].index].status == to
    {
      SweepMoves(es, from, to, NoPatch, Sweep(es, from, to, NoPatch)[j]);
    }
  }

  /** The records after some moves to Planned: those moved are planned, the rest as before. */
  ghost predicate Behind(done: seq<Move>, before: seq<Entry>, after: seq<Entry>) {
    && |after| == |before|
    && (forall i :: 0 <= i < |before| && !InTodo(done, i) ==> after[i] == before[i])
    && (forall j :: 0 <= j < |done| ==> done[j].index < |before| && after[done[j].index].status == Planned)
  }

  lemma JoinSweep(done: seq<Move>, before: seq<Entry>, after: seq<Entry>, from: set<Status>, to: Status,
      retrySafe: bool)
    requires GoodMoves(done, before, retrySafe) && Behind(done, before, after)
    requires (from == UNSETTLED && to == Uncertain) || (from == {Failed} && to == Planned)
             || (from == {Dispatching} && to == Planned)
    requires from == {Dispatching} ==> retrySafe || !Has(after, Dispatching)
    ensures GoodMoves(done + Sweep(after, from, to, NoPatch), before, retrySafe)
    ensures to == Planned ==> Behind(done + Sweep(after, from, to, NoPatch), before, Swept(after, from, to, NoPatch))
  {
    SweepGood(after, from, to, retrySafe);
    Joins(done, Sweep(after, from, to, NoPatch), before, after, retrySafe);
    if to == Planned {
      SweptBehind(after, from, to);
      InTodoConcat(done, Sweep(after, from, to, NoPatch));
    }
  }

  /** After clearing dispatched and then failed records. */
  lemma ClearedShape(seen: seq<Entry>, retrySafe: bool)
    requires Has(seen, Dispatching) ==> retrySafe
    ensures var afterReset := Swept(seen, {Dispatching}, Planned, NoPatch);
            var cleared := Sweep(seen, {Dispatching}, Planned, NoPatch) + Sweep(afterReset, {Failed}, Planned, NoPatch);
            && GoodMoves(cleared, seen, retrySafe)
              && Behind(cleared, seen, Swept(afterReset, {Failed}, Planned, NoPatch))
            && GoodMoves(Sweep(seen, {Dispatching}, Planned, NoPatch), seen, retrySafe)
  {
    var reset := Sweep(seen, {Dispatching}, Planned, NoPatch);
    JoinSweep([], seen, seen, {Dispatching}, Planned, retrySafe);
    assert [] + reset == reset;
    JoinSweep(reset, seen, Swept(seen, {Dispatching}, Planned, NoPatch), {Failed}, Planned, retrySafe);
  }

  lemma RedoPlanShape(seen: seq<Entry>, retrySafe: bool)
    requires Has(seen, Dispatching) ==> retrySafe
    ensures |RedoPlan(seen, retrySafe).local| == |seen|
    ensures GoodMoves(RedoPlan(seen, retrySafe).moves, seen, retrySafe)
  {
    var afterReset := Swept(seen, {Dispatching}, Planned, NoPatch);
    var cleared := Sweep(seen, {Dispatching}, Planned, NoPatch) + Sweep(afterReset, {Failed}, Planned, NoPatch);
    ClearedShape(seen, retrySafe);
    JoinSweep(cleared, seen, Swept(afterReset, {Failed}, Planned, NoPatch), UNSETTLED, Uncertain, retrySafe);
  }

  /** Every transition of a preparation is one a worker may make, starts from what was
      read, and no record is moved twice. */
  lemma PreparePlanShape(seen: seq<Entry>, retrySafe: bool)
    ensures |PreparePlan(seen, retrySafe).local| == |seen|
    ensures GoodMoves(PreparePlan(seen, retrySafe).moves, seen, retrySafe)
  {
    SweepGood(seen, UNSETTLED, Uncertain, retrySafe);
    assert [] + Sweep(seen, UNSETTLED, Uncertain, NoPatch) == Sweep(seen, UNSETTLED, Uncertain, NoPatch);
    if Has(seen, Dispatching) ==> retrySafe { RedoPlanShape(seen, retrySafe); }
  }

  lemma InTodoConcat(a: seq<Move>, b: seq<Move>)
    ensures forall i :: InTodo(a + b, i) <==> InTodo(a, i) || InTodo(b, i)
  {
    forall i: nat ensures InTodo(a + b, i) <==> InTodo(a, i) || InTodo(b, i) {
      if InTodo(a, i) { var j :| 0 <= j < |a| && a[j].index == i; assert (a + b)[j].index == i; }
      if InTodo(b, i) { var j :| 0 <= j < |b| && b[j].index == i; assert (a + b)[|a| + j].index == i; }
      if InTodo(a + b, i) {
        var j :| 0 <= j < |a + b| && (a + b)[j].index == i;
        if j < |a| { assert a[j].index == i; } else { assert b[j - |a|].index == i; }
      }
    }
  }
}
