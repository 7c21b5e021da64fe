/**
  What crashes alone can do to the records of a call with one owner: two records never get
  into trouble together, three can be frozen for good.
 */
module OutboxMixing {
  import opened Common
  import opened SideEffects
  import opened OutboxPlan
  import opened OutboxMachine
  import opened OutboxInvariant
  import opened OutboxRecovery
  import opened OutboxCrashSafety
  import opened OutboxVerdicts

  /** Some run of one owner without operator leads here. */
  ghost predicate Reached(c: Call, s: State) {
    exists acts :: Run(c, Init(c, 1), acts) == s && forall a: Action :: a in acts ==> !a.Resolve?
  }

  lemma ReachedNext(c: Call, s: State, a: Action)
    requires Reached(c, s) && !a.Resolve?
    ensures Reached(c, Do(c, s, a))
  {
    var acts :| Run(c, Init(c, 1), acts) == s && forall b: Action :: b in acts ==> !b.Resolve?;
    var more := acts + [a];
    assert more[..|more| - 1] == acts;
    assert Run(c, Init(c, 1), more) == Do(c, s, a);
  }

  /** The owner reads the next record. */
  lemma ReadsNext(c: Call, s: State, r: ToolResult, v: seq<Entry>, k: nat)
    requires k < |v| == c.N && s.recs == Table(v) && s.workers == [Loading(v[..k])]
    ensures Do(c, s, Tick(r)).recs == Table(v) && Do(c, s, Tick(r)).workers == [Loading(v[..k + 1])]
  {
    assert v[..k + 1] == v[..k] + [v[k]];
  }

  lemma {:induction false} ReadsOn(c: Call, s: State, r: ToolResult, v: seq<Entry>, k: nat) returns (s': State)
    requires Reached(c, s) && k <= |v| == c.N && s.recs == Table(v) && s.workers == [Loading(v[..k])]
    ensures Reached(c, s') && s'.recs == Table(v) && s'.workers == [Loading(v)]
    decreases |v| - k
  {
    if k == |v| {
      assert v[..k] == v;
      s' := s;
    } else {
      ReadsNext(c, s, r, v, k);
      ReachedNext(c, s, Tick(r));
      s' := ReadsOn(c, Do(c, s, Tick(r)), r, v, k + 1);
    }
  }

  /** After a crash the owner starts over: it reads the records and plans. */
  lemma Restarts(c: Call, s: State, r: ToolResult, v: seq<Entry>) returns (s': State)
    requires Reached(c, s) && |v| == c.N && s.recs == Table(v) && |s.workers| == 1
    ensures Reached(c, s') && s'.recs == Table(v)
    ensures s'.workers == [Moving(PreparePlan(v, c.retrySafe).moves, v, Prepared(PreparePlan(v, c.retrySafe).outcome))]
  {
    ReachedNext(c, s, Crash(0));
    s' := Do(c, s, Crash(0));
    ReachedNext(c, s', Tick(r));
    s' := Do(c, s', Tick(r));
    assert v[..0] == [];
    s' := ReadsOn(c, s', r, v, 0);
    ReachedNext(c, s', Tick(r));
    s' := Do(c, s', Tick(r));
  }

  /** The owner performs its next transition, on its copy and on the stored records. */
  lemma MovesNext(c: Call, s: State, r: ToolResult, todo: seq<Move>, local: seq<Entry>, next: Next) returns (s': State)
    requires Reached(c, s) && s.recs == Table(local) && s.workers == [Moving(todo, local, next)] && todo != []
    requires todo[0].index < |local| && local[todo[0].index].status == todo[0].from && Allowed(todo[0].from, todo[0].to)
    ensures var m := todo[0];
            var local' := local[m.index := Advance(local[m.index], m.to, m.patch)];
            Reached(c, s') && s'.recs == Table(local') && s'.workers == [Moving(todo[1..], local', next)]
  {
    ReachedNext(c, s, Tick(r));
    s' := Do(c, s, Tick(r));
  }

  // ---------- three intents or more ----------

  /** Preparing after a crash behind all commits but the last: take the last record back, if
      the call is safe to retry, and mark the others. */
  lemma HalfCommittedPlan(v: seq<Entry>, a: Entry, b: Entry, retrySafe: bool)
    requires |v| >= 2 && v == Mixed(|v|, |v| - 1, a, b) && a.status == Applied && b.status == Dispatching
    ensures var n := |v| - 1;
            var reset := if retrySafe then [Move(n, Dispatching, Planned, NoPatch)] else [];
            var w := if retrySafe then v[n := Advance(b, Planned, NoPatch)] else v;
            && PreparePlan(v, retrySafe).moves == reset + Sweep(w, UNSETTLED, Uncertain, NoPatch)
            && PreparePlan(v, retrySafe).outcome == Block
  {
    var n := |v| - 1;
    assert v[n].status == Dispatching && v[0].status == Applied && !AllIn(v, SETTLED) && !Has(v, Uncertain);
    assert v[..n] == Mixed(n, n, a, b);
    SweepNone(v[..n], {Dispatching}, Planned, NoPatch);
    var w := v[n := Advance(b, Planned, NoPatch)];
    assert Sweep(v, {Dispatching}, Planned, NoPatch) == [Move(n, Dispatching, Planned, NoPatch)];
    assert Swept(v, {Dispatching}, Planned, NoPatch) == w;
    SweepNone(w, {Failed}, Planned, NoPatch);
    assert w[0].status == Applied;
    assert [] + Sweep(v, UNSETTLED, Uncertain, NoPatch) == Sweep(v, UNSETTLED, Uncertain, NoPatch);
    assert [Move(n, Dispatching, Planned, NoPatch)] + [] == [Move(n, Dispatching, Planned, NoPatch)];
  }

  /** One owner, no operator: a crash behind the last commit but one, and another while the
      next attempt marks what it found, leave an uncertain record beside an applied one. */
  lemma CrashesMix(c: Call, r: ToolResult) returns (s: State, v: seq<Entry>, i: nat, k: nat)
    requires c.N >= 3 && r.ok && r.effects == c.intents
    ensures Reached(c, s) && |s.workers| == 1 && |v| == c.N && s.recs == Table(v)
    ensures i < c.N && k < c.N && v[i].status == Uncertain && v[k].status == Applied
    ensures v[c.N - 1].status == if c.retrySafe then Planned else Dispatching
  {
    var a, b, n := Committed(r), InFlight, c.N - 1;
    s := After(c, r, 2 * c.N + 5 + n);
    AttemptCommits(c, r, n);
    assert forall t: Action :: t in seq(2 * c.N + 5 + n, _ => Tick(r)) ==> !t.Resolve?;
    assert Reached(c, s);
    v := Mixed(c.N, n, a, b);
    s := Restarts(c, s, r, v);
    HalfCommittedPlan(v, a, b, c.retrySafe);
    var todo, next := PreparePlan(v, c.retrySafe).moves, Prepared(Block);
    if c.retrySafe {
      s := MovesNext(c, s, r, todo, v, next);
      v := v[n := Advance(b, Planned, NoPatch)];
      todo := todo[1..];
    }
    assert todo == Sweep(v, UNSETTLED, Uncertain, NoPatch);
    SweepStarts(v, UNSETTLED, Uncertain, NoPatch);
    s := MovesNext(c, s, r, todo, v, next);
    i, k := 0, 1;
    v := v[0 := Advance(v[0], Uncertain, NoPatch)];
  }

  /** The first transition of a sweep is of the first record it covers. */
  lemma {:induction false} SweepStarts(es: seq<Entry>, from: set<Status>, to: Status, p: Patch)
    requires es != [] && es[0].status in from
    ensures Sweep(es, from, to, p) != [] && Sweep(es, from, to, p)[0] == Move(0, es[0].status, to, p)
  {
    if |es| > 1 { SweepStarts(es[..|es| - 1], from, to, p); }
  }

  /** The attempt after that blocks. Logging the block confirms an applied record beside a
      planned one, if the call is safe to retry, and no verdict will free the call. */
  lemma CrashesFreeze(c: Call, r: ToolResult)
    requires c.retrySafe && c.N >= 3 && r.ok && r.effects == c.intents
    ensures exists s :: Reached(c, s) && Frozen(Vector(c, s.recs), c.retrySafe)
  {
    var s, v, i, k := CrashesMix(c, r);
    s := Restarts(c, s, r, v);
    assert v[i].status == Uncertain && v[i].status !in SETTLED;
    assert PreparePlan(v, c.retrySafe) == Plan([], v, Block);
    ReachedNext(c, s, Tick(r));
    s := Do(c, s, Tick(r));
    var todo := ConfirmMoves(v, "event");
    SweepCovers(v, {Applied}, Confirmed, Patch(None, false, Some("event")), k);
    SweepMoves(v, {Applied}, Confirmed, Patch(None, false, Some("event")), todo[0]);
    s := MovesNext(c, s, r, todo, v, Finished(BlockedResult));
    var j := todo[0].index;
    var w := v[j := Advance(v[j], Confirmed, todo[0].patch)];
    assert Vector(c, s.recs) == w;
    assert w[j].status == Confirmed && Unconfirmable(w[c.N - 1], c.retrySafe);
  }

  // ---------- two intents ----------

  /** What two records of a call can be at once. */
  predicate Side(x: Entry, y: Entry) {
    && (y.status in SETTLED ==> x.status in SETTLED)
    && (x.status == Applied ==> y.status in {Planned, Dispatching, Applied, Confirmed})
    && (x.status == Confirmed ==> y.status in SETTLED)
  }

  function Moved(v: seq<Entry>, m: Move): seq<Entry>
    requires m.index < |v|
  {
    v[m.index := Advance(v[m.index], m.to, m.patch)]
  }

  /** Two records stay on the same side through all these transitions, and afterwards nothing
      that is confirmed next stands beside a record that is not. */
  ghost predicate Good(v: seq<Entry>, todo: seq<Move>, next: Next)
    decreases |todo|
  {
    && |v| == 2 && Side(v[0], v[1])
    && if todo == [] then (Confirming(next) ==> AllIn(v, SETTLED) || !Has(v, Applied))
       else todo[0].index < 2 && Good(Moved(v, todo[0]), todo[1..], next)
  }

  predicate Confirming(next: Next) {
    next.Recorded? || (next.Prepared? && !next.outcome.Dispatch?)
  }

  function MoveIf(i: nat, e: Entry, from: set<Status>, to: Status, p: Patch): seq<Move> {
    if e.status in from then [Move(i, e.status, to, p)] else []
  }

  function AfterSweep(e: Entry, from: set<Status>, to: Status, p: Patch): Entry {
    if e.status in from then Advance(e, to, p) else e
  }

  /** A sweep over two records is good if the states it passes through are. */
  lemma SweepIsGood(x: Entry, y: Entry, from: set<Status>, to: Status, p: Patch, rest: seq<Move>, next: Next)
    requires Side(x, y) && Side(AfterSweep(x, from, to, p), y)
    requires Good([AfterSweep(x, from, to, p), AfterSweep(y, from, to, p)], rest, next)
    ensures Good([x, y], Sweep([x, y], from, to, p) + rest, next)
    ensures Swept([x, y], from, to, p) == [AfterSweep(x, from, to, p), AfterSweep(y, from, to, p)]
  {
    var one, two := MoveIf(0, x, from, to, p), MoveIf(1, y, from, to, p);
    assert [x, y][..1] == [x] && [x][..0] == [];
    assert Sweep([x], from, to, p) == one;
    assert Sweep([x, y], from, to, p) == one + two;
    var x', y' := AfterSweep(x, from, to, p), AfterSweep(y, from, to, p);
    assert [x', y][1 := y'] == [x', y'] && [x, y][0 := x'] == [x', y];
    MoveIsGood([x', y], 1, from, to, p, rest, next);
    MoveIsGood([x, y], 0, from, to, p, two + rest, next);
    assert one + (two + rest) == one + two + rest;
  }

  lemma MoveIsGood(v: seq<Entry>, i: nat, from: set<Status>, to: Status, p: Patch, rest: seq<Move>, next: Next)
    requires |v| == 2 && i < 2 && Side(v[0], v[1])
    requires Good(v[i := AfterSweep(v[i], from, to, p)], rest, next)
    ensures Good(v, MoveIf(i, v[i], from, to, p) + rest, next)
  {
    var moves := MoveIf(i, v[i], from, to, p);
    if moves == [] {
      assert moves + rest == rest && v[i := v[i]] == v;
    } else {
      assert (moves + rest)[1..] == rest;
    }
  }

  /** Preparing from any such pair. */
  lemma PreparationIsGood(x: Entry, y: Entry, retrySafe: bool)
    requires Side(x, y) && (AllIn([x, y], SETTLED) ==> ReplayResult([x, y]).Some?)
    ensures var plan := PreparePlan([x, y], retrySafe); Good([x, y], plan.moves, Prepared(plan.outcome))
  {
    var v := [x, y];
    assert v[0] == x && v[1] == y;
    if AllIn(v, SETTLED) || Has(v, Uncertain) {
    } else if Has(v, Dispatching) && !retrySafe {
      MarkingIsGood(x, y);
      var marks := Sweep(v, UNSETTLED, Uncertain, NoPatch);
      assert [] + marks == marks;
    } else {
      RedoIsGood(x, y, retrySafe);
    }
  }

  lemma MarkingIsGood(x: Entry, y: Entry)
    requires Side(x, y) && !AllIn([x, y], SETTLED) && !Has([x, y], Uncertain)
    ensures Good([x, y], Sweep([x, y], UNSETTLED, Uncertain, NoPatch), Prepared(Block))
  {
    assert [x, y][0] == x && [x, y][1] == y;
    SweepIsGood(x, y, UNSETTLED, Uncertain, NoPatch, [], Prepared(Block));
    var moves := Sweep([x, y], UNSETTLED, Uncertain, NoPatch);
    assert moves + [] == moves;
  }

  lemma RedoIsGood(x: Entry, y: Entry, retrySafe: bool)
    requires Side(x, y) && !AllIn([x, y], SETTLED) && !Has([x, y], Uncertain)
    ensures var plan := RedoPlan([x, y], retrySafe); Good([x, y], plan.moves, Prepared(plan.outcome))
  {
    var v, plan, next := [x, y], RedoPlan([x, y], retrySafe), Prepared(RedoPlan([x, y], retrySafe).outcome);
    var x1, y1 := AfterSweep(x, {Dispatching}, Planned, NoPatch), AfterSweep(y, {Dispatching}, Planned, NoPatch);
    var reset, clear := Sweep(v, {Dispatching}, Planned, NoPatch), Sweep([x1, y1], {Failed}, Planned, NoPatch);
    ResetLeaves(x, y);
    if Has([x1, y1], Failed) && !retrySafe && !ManuallyCleared([x1, y1]) {
      ResetIsGood(x, y, [], next);
      assert reset + [] == reset;
    } else {
      var marks := MarksAfter(x1, y1);
      ClearingIsGood(x1, y1);
      ResetIsGood(x, y, clear + marks, next);
      assert reset + (clear + marks) == reset + clear + marks;
      assert reset + clear + [] == reset + clear;
    }
  }

  lemma ResetLeaves(x: Entry, y: Entry)
    requires Side(x, y) && !AllIn([x, y], SETTLED) && !Has([x, y], Uncertain)
    ensures var v := Swept([x, y], {Dispatching}, Planned, NoPatch);
            && v == [AfterSweep(x, {Dispatching}, Planned, NoPatch), AfterSweep(y, {Dispatching}, Planned, NoPatch)]
            && Side(v[0], v[1]) && Side(v[0], y)
            && !AllIn(v, SETTLED) && !Has(v, Uncertain) && !Has(v, Dispatching)
            && (Has(v, Failed) ==> !Has(v, Applied))
  {
    var v := Swept([x, y], {Dispatching}, Planned, NoPatch);
    assert [x, y][0] == x && [x, y][1] == y;
    assert v[0] == AfterSweep(x, {Dispatching}, Planned, NoPatch);
    assert v[1] == AfterSweep(y, {Dispatching}, Planned, NoPatch);
  }

  lemma ResetIsGood(x: Entry, y: Entry, rest: seq<Move>, next: Next)
    requires Side(x, y) && !AllIn([x, y], SETTLED) && !Has([x, y], Uncertain)
    requires Good(Swept([x, y], {Dispatching}, Planned, NoPatch), rest, next)
    ensures Good([x, y], Sweep([x, y], {Dispatching}, Planned, NoPatch) + rest, next)
  {
    ResetLeaves(x, y);
    SweepIsGood(x, y, {Dispatching}, Planned, NoPatch, rest, next);
  }

  /** What is marked once failed records are cleared. */
  function MarksAfter(x: Entry, y: Entry): seq<Move> {
    var v := Swept([x, y], {Failed}, Planned, NoPatch);
    if AllIn(v, {Planned}) then [] else Sweep(v, UNSETTLED, Uncertain, NoPatch)
  }

  lemma ClearingIsGood(x: Entry, y: Entry)
    requires Side(x, y) && !AllIn([x, y], SETTLED) && !Has([x, y], Uncertain) && !Has([x, y], Dispatching)
    ensures var v, moves := Swept([x, y], {Failed}, Planned, NoPatch), Sweep([x, y], {Failed}, Planned, NoPatch);
            Good([x, y], moves + MarksAfter(x, y), Prepared(if AllIn(v, {Planned}) then Dispatch else Block))
  {
    var x', y' := AfterSweep(x, {Failed}, Planned, NoPatch), AfterSweep(y, {Failed}, Planned, NoPatch);
    assert [x, y][0] == x && [x, y][1] == y && [x', y'][0] == x' && [x', y'][1] == y';
    assert Swept([x, y], {Failed}, Planned, NoPatch) == [x', y'];
    var dispatches := AllIn([x', y'], {Planned});
    if !dispatches { MarkingIsGood(x', y'); }
    SweepIsGood(x, y, {Failed}, Planned, NoPatch, MarksAfter(x, y), Prepared(if dispatches then Dispatch else Block));
  }

  /** Recording any result over two dispatched records. */
  lemma RecordingIsGood(x: Entry, y: Entry, intents: seq<Effect>, retrySafe: bool, r: ToolResult)
    requires x.status == y.status == Dispatching
    ensures var (moves, reported) := RecordPlan([x, y], intents, retrySafe, r); Good([x, y], moves, Recorded(reported))
  {
    var (moves, reported) := RecordPlan([x, y], intents, retrySafe, r);
    var snapshot := Patch(Some(r), false, None);
    SweepIsGood(x, y, UNSETTLED, Uncertain, NoPatch, [], Recorded(reported));
    SweepIsGood(x, y, {Dispatching}, Applied, snapshot, [], Recorded(reported));
    SweepIsGood(x, y, {Dispatching}, Failed, snapshot, [], Recorded(reported));
    SweepIsGood(x, y, {Dispatching}, Uncertain, snapshot, [], Recorded(reported));
    assert moves + [] == moves;
  }

  lemma StageIsGood(x: Entry, y: Entry, next: Next, eventId: string)
    requires Good([x, y], [], next)
    ensures next == Prepared(Dispatch) && x.status == y.status == Planned ==> Good([x, y], BeginMoves([x, y]), Begun)
    ensures Confirming(next) ==> forall r :: Good([x, y], ConfirmMoves([x, y], eventId), Finished(r))
  {
    assert [x, y][0] == x && [x, y][1] == y;
    if next == Prepared(Dispatch) && x.status == y.status == Planned {
      SweepIsGood(x, y, {Planned}, Dispatching, NoPatch, [], Begun);
      assert BeginMoves([x, y]) + [] == BeginMoves([x, y]);
    }
    if Confirming(next) {
      var moves := ConfirmMoves([x, y], eventId);
      assert moves + [] == moves;
      forall r ensures Good([x, y], moves, Finished(r)) {
        SweepIsGood(x, y, {Applied}, Confirmed, Patch(None, false, Some(eventId)), [], Finished(r));
      }
    }
  }

  /** The invariant of a call with two intents and one owner while no operator acts. */
  ghost predicate PairInv(c: Call, s: State) {
    && c.N == 2 && CrashInv(c, s)
    && Side(Vector(c, s.recs)[0], Vector(c, s.recs)[1])
    && (forall i :: 0 <= i < |Seen(s.workers[0])| ==> i in s.recs && s.recs[i] == Seen(s.workers[0])[i])
    && (s.workers[0].Moving? ==> Good(s.workers[0].local, s.workers[0].todo, s.workers[0].next))
  }

  lemma PairDoes(c: Call, s: State, a: Action)
    requires PairInv(c, s) && !a.Resolve?
    ensures PairInv(c, Do(c, s, a))
  {
    CrashDoes(c, s, a);
    if a.Work? && a.worker == 0 {
      match s.workers[0]
      case Idle =>
      case Loading(seen) => PairLoads(c, s, seen);
      case Ready(local) =>
        assert WellFormed(c, s.workers[0]);
        assert local == [local[0], local[1]];
        RecordingIsGood(local[0], local[1], c.intents, c.retrySafe, a.result);
      case Moving(todo, local, next) =>
        if todo != [] { PairMoves(c, s, todo, local, next); }
        else { PairStages(c, s, local, next, a.verified, a.eventId); }
    }
  }

  lemma PairLoads(c: Call, s: State, seen: seq<Entry>)
    requires PairInv(c, s) && s.workers[0] == Loading(seen) && CrashInv(c, LoadStep(c, s, 0, seen))
    ensures PairInv(c, LoadStep(c, s, 0, seen))
  {
    assert WellFormed(c, s.workers[0]);
    var s' := LoadStep(c, s, 0, seen);
    assert Vector(c, s'.recs) == Vector(c, s.recs);
    if |seen| == 2 {
      assert s.recs[0] == seen[0] && s.recs[1] == seen[1];
      PairPlans(s.recs, seen, c.retrySafe);
    }
  }

  lemma PairPlans(recs: map<nat, Entry>, seen: seq<Entry>, retrySafe: bool)
    requires Replayable(recs) && |seen| == 2 && 0 in recs && 1 in recs && seen == [recs[0], recs[1]]
    requires Side(seen[0], seen[1])
    ensures var plan := PreparePlan(seen, retrySafe); Good(seen, plan.moves, Prepared(plan.outcome))
  {
    if AllIn(seen, SETTLED) {
      assert seen[0].status in SETTLED && seen[1].status in SETTLED;
      assert ReplayResult(seen) == seen[0].toolResult;
    }
    PreparationIsGood(seen[0], seen[1], retrySafe);
  }

  lemma PairMoves(c: Call, s: State, todo: seq<Move>, local: seq<Entry>, next: Next)
    requires PairInv(c, s) && s.workers[0] == Moving(todo, local, next) && todo != []
    requires CrashInv(c, MoveStep(s, 0, todo, local, next))
    ensures PairInv(c, MoveStep(s, 0, todo, local, next))
  {
    var m := todo[0];
    assert WellFormed(c, s.workers[0]) && WorkerMove(m, c.retrySafe);
    var local' := Moved(local, m);
    assert s.recs[m.index] == local[m.index];
    assert MoveStep(s, 0, todo, local, next).workers[0] == Moving(todo[1..], local', next);
    assert Good(local', todo[1..], next);
  }

  lemma PairStages(c: Call, s: State, local: seq<Entry>, next: Next, verified: bool, eventId: string)
    requires PairInv(c, s) && s.workers[0] == Moving([], local, next)
    requires CrashInv(c, StageStep(s, 0, local, next, verified, eventId))
    ensures PairInv(c, StageStep(s, 0, local, next, verified, eventId))
  {
    assert WellFormed(c, s.workers[0]);
    assert next == Prepared(Dispatch) ==> local[0].status == Planned || InTodo([], 0);
    assert next == Prepared(Dispatch) ==> local[1].status == Planned || InTodo([], 1);
    NextStageIsGood(s, local, next, verified, eventId);
  }

  lemma NextStageIsGood(s: State, local: seq<Entry>, next: Next, verified: bool, eventId: string)
    requires |s.workers| == 1 && |local| == 2 && Good(local, [], next)
    requires next == Prepared(Dispatch) ==> local[0].status == local[1].status == Planned
    ensures var s' := StageStep(s, 0, local, next, verified, eventId);
            && s'.recs == s.recs && Seen(s'.workers[0]) in {local, []}
            && (s'.workers[0].Moving? ==> Good(s'.workers[0].local, s'.workers[0].todo, s'.workers[0].next))
  {
    assert local == [local[0], local[1]];
    StageIsGood(local[0], local[1], next, eventId);
  }

  lemma {:induction false} PairRuns(c: Call, acts: seq<Action>)
    requires c.N == 2 && forall a :: a in acts ==> !a.Resolve?
    ensures PairInv(c, Run(c, Init(c, 1), acts))
  {
    if acts == [] {
      CrashRuns(c, []);
    } else {
      var init := acts[..|acts| - 1];
      assert forall a :: a in init ==> a in acts;
      PairRuns(c, init);
      assert acts[|acts| - 1] in acts;
      PairDoes(c, Run(c, Init(c, 1), init), acts[|acts| - 1]);
    }
  }

  // ---------- exactly from three intents on ----------

  /** An applied record beside an uncertain one. */
  ghost predicate Beside(recs: map<nat, Entry>) {
    exists i, j :: i in recs && j in recs && recs[i].status == Applied && recs[j].status == Uncertain
  }

  /** One owner and crashes alone: an applied record can come to stand beside an uncertain one
      exactly if the call has three intents or more, safe to retry or not. */
  lemma CrashesMixIff(c: Call)
    ensures (exists s :: Reached(c, s) && Beside(s.recs)) <==> c.N >= 3
  {
    if c.N >= 3 {
      var s, v, i, k := CrashesMix(c, ToolResult(true, "", c.intents, []));
      assert i in s.recs && k in s.recs && s.recs[k].status == Applied && s.recs[i].status == Uncertain;
    } else {
      forall s | Reached(c, s) ensures !Beside(s.recs) { FewStayApart(c, s); }
    }
  }

  lemma FewStayApart(c: Call, s: State)
    requires c.N <= 2 && Reached(c, s)
    ensures !Beside(s.recs) && !Frozen(Vector(c, s.recs), true)
  {
    var acts :| Run(c, Init(c, 1), acts) == s && forall a: Action :: a in acts ==> !a.Resolve?;
    CrashRuns(c, acts);
    if c.N == 2 {
      PairRuns(c, acts);
      TwoStayApart(c, s);
    } else {
      OneStaysApart(c, s);
    }
  }

  lemma OneStaysApart(c: Call, s: State)
    requires c.N <= 1 && CrashInv(c, s)
    ensures !Beside(s.recs) && !Frozen(Vector(c, s.recs), true)
  {
    var v := Vector(c, s.recs);
    assert forall i :: i in s.recs ==> i == 0 && v[0] == s.recs[0];
    assert Has(v, Confirmed) ==> v[0].status == Confirmed;
  }

  lemma TwoStayApart(c: Call, s: State)
    requires PairInv(c, s)
    ensures !Beside(s.recs) && !Frozen(Vector(c, s.recs), true)
  {
    var v := Vector(c, s.recs);
    assert v == [v[0], v[1]];
    assert forall i :: i in s.recs ==> i < 2 && v[i] == s.recs[i];
    forall i, j | 0 <= i < 2 && 0 <= j < 2 ensures !Disagree(v[i], v[j]) {
      assert v[i].status == Confirmed ==> i in s.recs;
      assert v[j].status == Confirmed ==> j in s.recs;
    }
    if Has(v, Confirmed) { assert v[0].status in SETTLED && v[1].status in SETTLED; }
  }

  /** A call that is safe to retry can be frozen by crashes alone exactly if it has three
      intents or more. */
  lemma CrashesFreezeIff(c: Call)
    requires c.retrySafe
    ensures (exists s :: Reached(c, s) && Frozen(Vector(c, s.recs), c.retrySafe)) <==> c.N >= 3
  {
    if c.N >= 3 {
      CrashesFreeze(c, ToolResult(true, "", c.intents, []));
    } else {
      forall s | Reached(c, s) ensures !Frozen(Vector(c, s.recs), c.retrySafe) { FewStayApart(c, s); }
    }
  }
}
