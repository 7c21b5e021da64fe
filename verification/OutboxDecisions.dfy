/**
  Properties of the outbox's decisions that hold for every vector of records.
 */
module OutboxDecisions {
  import opened Common
  import opened SideEffects
  import opened OutboxPlan
  import opened OutboxMachine
  import opened OutboxInvariant
  import opened OutboxRecovery

  /** The records after a list of transitions has been performed. */
  function ApplyMoves(es: seq<Entry>, moves: seq<Move>): (r: seq<Entry>)
    ensures |r| == |es|
  {
    if moves == [] then es
    else
      var r := ApplyMoves(es, moves[..|moves| - 1]);
      var m := moves[|moves| - 1];
      if m.index < |es| then r[m.index := Advance(r[m.index], m.to, m.patch)] else r
  }

  lemma {:induction false} ApplyConcat(es: seq<Entry>, a: seq<Move>, b: seq<Move>)
    ensures ApplyMoves(es, a + b) == ApplyMoves(ApplyMoves(es, a), b)
  {
    if b == [] {
      assert a + b == a;
    } else {
      assert (a + b)[..|a + b| - 1] == a + b[..|b| - 1];
      ApplyConcat(es, a, b[..|b| - 1]);
    }
  }

  lemma {:induction false} ApplyTail(es: seq<Entry>, e: Entry, moves: seq<Move>)
    requires forall m :: m in moves ==> m.index < |es|
    ensures ApplyMoves(es + [e], moves) == ApplyMoves(es, moves) + [e]
  {
    if moves != [] {
      assert moves[|moves| - 1] in moves;
      ApplyTail(es, e, moves[..|moves| - 1]);
    }
  }

  lemma {:induction false} SweepApplies(es: seq<Entry>, from: set<Status>, to: Status, p: Patch)
    ensures ApplyMoves(es, Sweep(es, from, to, p)) == Swept(es, from, to, p)
  {
    if es != [] {
      SweepApplies(es[..|es| - 1], from, to, p);
      SweepExtends(es[..|es| - 1], es[|es| - 1], from, to, p);
      assert es == es[..|es| - 1] + [es[|es| - 1]];
    }
  }

  lemma SweepExtends(init: seq<Entry>, e: Entry, from: set<Status>, to: Status, p: Patch)
    requires ApplyMoves(init, Sweep(init, from, to, p)) == Swept(init, from, to, p)
    ensures ApplyMoves(init + [e], Sweep(init + [e], from, to, p)) == Swept(init + [e], from, to, p)
  {
    var moves := Sweep(init, from, to, p);
    var last := if e.status in from then [Move(|init|, e.status, to, p)] else [];
    SweepAppended(init, e, from, to, p);
    forall m | m in moves ensures m.index < |init| { SweepMoves(init, from, to, p, m); }
    ApplyTail(init, e, moves);
    ApplyConcat(init + [e], moves, last);
    LastApplies(Swept(init, from, to, p), e, last);
  }

  lemma SweepAppended(init: seq<Entry>, e: Entry, from: set<Status>, to: Status, p: Patch)
    ensures Sweep(init + [e], from, to, p) == Sweep(init, from, to, p) +
              if e.status in from then [Move(|init|, e.status, to, p)] else []
    ensures Swept(init + [e], from, to, p) ==
              Swept(init, from, to, p) + [if e.status in from then Advance(e, to, p) else e]
  {
    assert (init + [e])[..|init|] == init;
  }

  lemma LastApplies(before: seq<Entry>, e: Entry, last: seq<Move>)
    requires last == [] || (exists to, p :: last == [Move(|before|, e.status, to, p)])
    ensures ApplyMoves(before + [e], last) == before + [if last == [] then e else Advance(e, last[0].to, last[0].patch)]
  {
    if last != [] {
      assert last[..0] == [];
      assert (before + [e])[|before| := Advance(e, last[0].to, last[0].patch)] ==
               before + [Advance(e, last[0].to, last[0].patch)];
    }
  }

  lemma MarkApplies(done: seq<Move>, seen: seq<Entry>, es: seq<Entry>)
    requires ApplyMoves(seen, done) == es
    ensures ApplyMoves(seen, BlockMarking(done, es).moves) == BlockMarking(done, es).local
  {
    SweepApplies(es, UNSETTLED, Uncertain, NoPatch);
    ApplyConcat(seen, done, Sweep(es, UNSETTLED, Uncertain, NoPatch));
  }

  /** Performed without interference, the transitions of a preparation leave the records
      the preparation reports. */
  lemma PlanApplies(seen: seq<Entry>, retrySafe: bool)
    ensures ApplyMoves(seen, PreparePlan(seen, retrySafe).moves) == PreparePlan(seen, retrySafe).local
  {
    var reset := Sweep(seen, {Dispatching}, Planned, NoPatch);
    var afterReset := Swept(seen, {Dispatching}, Planned, NoPatch);
    var clear := Sweep(afterReset, {Failed}, Planned, NoPatch);
    var afterClear := Swept(afterReset, {Failed}, Planned, NoPatch);
    MarkApplies([], seen, seen);
    assert ApplyMoves(seen, reset) == afterReset by { SweepApplies(seen, {Dispatching}, Planned, NoPatch); }
    assert ApplyMoves(seen, reset + clear) == afterClear by {
      SweepApplies(afterReset, {Failed}, Planned, NoPatch);
      ApplyConcat(seen, reset, clear);
    }
    MarkApplies(reset + clear, seen, afterClear);
  }

  /** What the runtime does to the records once it has a decision that does not dispatch:
      it logs the answer and confirms every applied record. */
  function AfterLogging(local: seq<Entry>, eventId: string): seq<Entry> {
    Swept(local, {Applied}, Confirmed, Patch(None, false, Some(eventId)))
  }

  /** Blocking is final for the outbox: preparing again blocks again and moves nothing,
      both right after the block and after the runtime has logged it. */
  lemma BlockIsStable(seen: seq<Entry>, retrySafe: bool, eventId: string)
    requires PreparePlan(seen, retrySafe).outcome.Block?
    ensures var v := PreparePlan(seen, retrySafe).local;
            && PreparePlan(v, retrySafe).outcome.Block? && PreparePlan(v, retrySafe).moves == []
            && var w := AfterLogging(v, eventId);
               PreparePlan(w, retrySafe).outcome.Block? && PreparePlan(w, retrySafe).moves == []
  {
    var v := PreparePlan(seen, retrySafe).local;
    BlockedShape(seen, retrySafe);
    StillBlocked(v, retrySafe);
    LoggingKeepsStuck(v, retrySafe, eventId);
    StillBlocked(AfterLogging(v, eventId), retrySafe);
  }

  /** The vectors a block leaves behind, in a form that logging does not disturb. */
  ghost predicate Stuck(v: seq<Entry>, retrySafe: bool) {
    || Has(v, Uncertain)
    || (AllIn(v, {Confirmed}) && ReplayResult(v).None?)
    || (!retrySafe && Has(v, Failed) && !ManuallyCleared(v) && !Has(v, Dispatching) && !Has(v, Uncertain))
    || (AllIn(v, {Planned, Confirmed, Reverted}) && !AllIn(v, {Planned}) && !AllIn(v, {Confirmed}))
  }

  lemma StillBlocked(v: seq<Entry>, retrySafe: bool)
    requires Stuck(v, retrySafe)
    ensures PreparePlan(v, retrySafe).outcome.Block? && PreparePlan(v, retrySafe).moves == []
  {
    if Has(v, Uncertain) {
    } else if AllIn(v, {Confirmed}) && ReplayResult(v).None? {
      SweepNone(v, UNSETTLED, Uncertain, NoPatch);
    } else {
      SweepNone(v, {Dispatching}, Planned, NoPatch);
      if AllIn(v, {Planned, Confirmed, Reverted}) {
        SweepNone(v, {Failed}, Planned, NoPatch);
        SweepNone(v, UNSETTLED, Uncertain, NoPatch);
      } else {
        var k :| 0 <= k < |v| && v[k].status == Failed;
      }
    }
  }

  lemma MarkedShape(done: seq<Move>, es: seq<Entry>, retrySafe: bool)
    requires Has(es, Applied) || Has(es, Dispatching) || Stuck(es, retrySafe)
    ensures Stuck(BlockMarking(done, es).local, retrySafe)
  {
    var v := BlockMarking(done, es).local;
    if Has(es, Applied) || Has(es, Dispatching) {
      var k :| 0 <= k < |es| && es[k].status in UNSETTLED;
      assert v[k].status == Uncertain;
    } else {
      SweepNone(es, UNSETTLED, Uncertain, NoPatch);
    }
  }

  lemma BlockedShape(seen: seq<Entry>, retrySafe: bool)
    requires PreparePlan(seen, retrySafe).outcome.Block?
    ensures Stuck(PreparePlan(seen, retrySafe).local, retrySafe)
  {
    if AllIn(seen, SETTLED) {
      if !Has(seen, Applied) { assert AllIn(seen, {Confirmed}); }
      MarkedShape([], seen, retrySafe);
    } else if Has(seen, Uncertain) {
    } else if Has(seen, Dispatching) && !retrySafe {
      MarkedShape([], seen, retrySafe);
    } else {
      var afterReset := Swept(seen, {Dispatching}, Planned, NoPatch);
      if Has(afterReset, Failed) && !retrySafe && !ManuallyCleared(afterReset) {
        assert afterReset == seen;
      } else {
        var afterClear := Swept(afterReset, {Failed}, Planned, NoPatch);
        var k :| 0 <= k < |seen| && seen[k].status !in SETTLED;
        assert afterClear[k].status !in SETTLED;
        if !Has(afterClear, Applied) {
          assert AllIn(afterClear, {Planned, Confirmed, Reverted});
        }
        MarkedShape(Sweep(seen, {Dispatching}, Planned, NoPatch) + Sweep(afterReset, {Failed}, Planned, NoPatch),
            afterClear, retrySafe);
      }
    }
  }

  /** Logging confirms applied records, which does not free a stuck vector. */
  lemma LoggingKeepsStuck(v: seq<Entry>, retrySafe: bool, eventId: string)
    requires Stuck(v, retrySafe)
    ensures Stuck(AfterLogging(v, eventId), retrySafe)
  {
    var w := AfterLogging(v, eventId);
    if Has(v, Uncertain) {
      var k :| 0 <= k < |v| && v[k].status == Uncertain;
      assert w[k].status == Uncertain;
    } else if AllIn(v, {Confirmed}) || AllIn(v, {Planned, Confirmed, Reverted}) {
      assert w == v;
    } else {
      var k :| 0 <= k < |v| && v[k].status == Failed && !v[k].reconciled;
      assert w[k] == v[k];
    }
  }

  /** A replay is repeatable: after the runtime has logged it, preparing again replays the
      same result and moves nothing. */
  lemma ReplayIsStable(seen: seq<Entry>, retrySafe: bool, eventId: string)
    requires PreparePlan(seen, retrySafe).outcome.Replay?
    ensures PreparePlan(seen, retrySafe).moves == []
    ensures PreparePlan(AfterLogging(seen, eventId), retrySafe) ==
            Plan([], AfterLogging(seen, eventId), PreparePlan(seen, retrySafe).outcome)
  {
    var w := AfterLogging(seen, eventId);
    assert forall i :: 0 <= i < |seen| ==> w[i].toolResult == seen[i].toolResult && w[i].status in SETTLED;
  }

  /** An uninterrupted owner performs a whole stage: after one step per transition the
      records are what the stage's transitions make of them. */
  lemma {:induction false} StageRuns(c: Call, s: State, todo: seq<Move>, local: seq<Entry>, next: Next, tick: Action,
      j: nat)
    requires OwnerInv(c, s) && s.workers[0] == Moving(todo, local, next) && j <= |todo|
    requires forall i :: 0 <= i < |local| ==> s.recs[i] == local[i]
    requires tick.Work? && tick.worker == 0
    ensures var s' := Run(c, s, seq(j, _ => tick));
            && OwnerInv(c, s')
            && s'.workers[0] == Moving(todo[j..], ApplyMoves(local, todo[..j]), next)
            && forall i :: 0 <= i < |local| ==> s'.recs[i] == ApplyMoves(local, todo[..j])[i]
  {
    if j > 0 {
      StageRuns(c, s, todo, local, next, tick, j - 1);
      assert seq(j, _ => tick)[..j - 1] == seq(j - 1, _ => tick);
      StageTick(c, Run(c, s, seq(j - 1, _ => tick)), todo, local, next, tick, j);
    }
  }

  lemma ApplyNext(local: seq<Entry>, todo: seq<Move>, j: nat)
    requires 0 < j <= |todo|
    ensures ApplyMoves(local, todo[..j]) == ApplyMoves(ApplyMoves(local, todo[..j - 1]), [todo[j - 1]])
  {
    assert todo[..j] == todo[..j - 1] + [todo[j - 1]];
    ApplyConcat(local, todo[..j - 1], [todo[j - 1]]);
  }

  /** One transition of an undisturbed owner, on its copy and on the stored records alike. */
  lemma MoveApplies(c: Call, s: State, todo: seq<Move>, local: seq<Entry>, next: Next)
    requires OwnerInv(c, s) && s.workers[0] == Moving(todo, local, next) && todo != []
    requires forall i :: 0 <= i < |local| ==> s.recs[i] == local[i]
    ensures var s' := MoveStep(s, 0, todo, local, next);
            && OwnerInv(c, s')
            && s'.workers[0] == Moving(todo[1..], ApplyMoves(local, [todo[0]]), next)
            && forall i :: 0 <= i < |local| ==> s'.recs[i] == ApplyMoves(local, [todo[0]])[i]
  {
    OwnerMoves(c, s, todo, local, next);
    assert WellFormed(c, s.workers[0]) && s.recs[todo[0].index] == local[todo[0].index];
    assert [todo[0]][..0] == [];
  }

  lemma StageTick(c: Call, s: State, todo: seq<Move>, local: seq<Entry>, next: Next, tick: Action, j: nat)
    requires 0 < j <= |todo| && tick.Work? && tick.worker == 0
    requires OwnerInv(c, s) && s.workers[0] == Moving(todo[j - 1..], ApplyMoves(local, todo[..j - 1]), next)
    requires forall i :: 0 <= i < |local| ==> s.recs[i] == ApplyMoves(local, todo[..j - 1])[i]
    ensures var s' := Do(c, s, tick);
            && OwnerInv(c, s')
            && s'.workers[0] == Moving(todo[j..], ApplyMoves(local, todo[..j]), next)
            && forall i :: 0 <= i < |local| ==> s'.recs[i] == ApplyMoves(local, todo[..j])[i]
  {
    var rest := todo[j - 1..];
    assert rest[0] == todo[j - 1] && rest[1..] == todo[j..];
    ApplyNext(local, todo, j);
    MoveApplies(c, s, rest, ApplyMoves(local, todo[..j - 1]), next);
  }
}
