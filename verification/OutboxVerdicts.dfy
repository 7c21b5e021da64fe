/**
  What verdicts can and cannot do for a blocked call: exactly when failing the uncertain records
  leads back to a dispatch, and exactly which vectors of records block for good.
 */
module OutboxVerdicts {
  import opened Common
  import opened SideEffects
  import opened OutboxPlan
  import opened OutboxDecisions

  function Ruled(e: Entry, v: Verdict): Entry {
    if e.status == Uncertain then Advance(e, VerdictStatus(v), VerdictPatch(v)) else e
  }

  /** The same verdict on every uncertain record. */
  function RuleAll(es: seq<Entry>, v: Verdict): (r: seq<Entry>)
    ensures |r| == |es|
  {
    seq(|es|, i requires 0 <= i < |es| => Ruled(es[i], v))
  }

  // ---------- failing what is uncertain ----------

  /** The statuses that a redispatch can start from once uncertain records have failed. */
  function Redoable(retrySafe: bool): set<Status> {
    {Planned, Failed, Uncertain} + if retrySafe then {Dispatching} else {}
  }

  /** A vector without uncertain records dispatches exactly when every record can be redone. */
  lemma DispatchIff(v: seq<Entry>, retrySafe: bool)
    requires v != [] && !Has(v, Uncertain)
    ensures PreparePlan(v, retrySafe).outcome.Dispatch? <==>
              AllIn(v, Redoable(retrySafe)) && (retrySafe || ManuallyCleared(v))
  {
    var afterReset := Swept(v, {Dispatching}, Planned, NoPatch);
    var afterClear := Swept(afterReset, {Failed}, Planned, NoPatch);
    assert forall i :: 0 <= i < |v| ==>
      afterClear[i].status == if v[i].status in {Dispatching, Failed} then Planned else v[i].status;
    assert forall i :: 0 <= i < |v| && v[i].status == Failed ==> afterReset[i] == v[i];
    assert forall i :: 0 <= i < |v| && afterReset[i].status == Failed ==> afterReset[i] == v[i];
    if AllIn(v, SETTLED) { assert v[0].status in SETTLED; }
    if AllIn(v, Redoable(retrySafe)) { assert v[0].status !in SETTLED; }
    if Has(v, Dispatching) && !retrySafe {
      var k :| 0 <= k < |v| && v[k].status == Dispatching;
      assert v[k].status !in Redoable(retrySafe);
    }
    if !AllIn(v, Redoable(retrySafe)) && (Has(v, Dispatching) ==> retrySafe) {
      var k :| 0 <= k < |v| && v[k].status !in Redoable(retrySafe);
      assert afterClear[k].status == v[k].status != Planned;
    }
  }

  /** A block on an uncertain record is logged, which confirms the applied records beside it;
      then the operator rules every uncertain record failed. The next preparation dispatches
      exactly when no record was applied, confirmed or reverted, none was in flight unless the
      call is safe to retry, and no failure is left uncleared unless it is. */
  lemma BlockFreezesSiblings(v: seq<Entry>, retrySafe: bool, eventId: string, info: Option<ToolResult>)
    requires Has(v, Uncertain)
    ensures PreparePlan(v, retrySafe) == Plan([], v, Block)
    ensures PreparePlan(RuleAll(AfterLogging(v, eventId), VerdictFailed(info)), retrySafe).outcome.Dispatch? <==>
              AllIn(v, Redoable(retrySafe)) && (retrySafe || ManuallyCleared(v))
  {
    var k :| 0 <= k < |v| && v[k].status == Uncertain;
    var w := RuleAll(AfterLogging(v, eventId), VerdictFailed(info));
    assert !AllIn(v, SETTLED) by { assert v[k].status !in SETTLED; }
    DispatchIff(w, retrySafe);
    RuledOut(v, w, retrySafe, eventId, info);
  }

  lemma RuledOut(v: seq<Entry>, w: seq<Entry>, retrySafe: bool, eventId: string, info: Option<ToolResult>)
    requires w == RuleAll(AfterLogging(v, eventId), VerdictFailed(info))
    ensures !Has(w, Uncertain) && (ManuallyCleared(w) <==> ManuallyCleared(v))
    ensures AllIn(w, Redoable(retrySafe)) <==> AllIn(v, Redoable(retrySafe))
  {
    assert forall i :: 0 <= i < |v| ==>
      w[i].status == match v[i].status case Applied => Confirmed case Uncertain => Failed case other => other;
    assert forall i :: 0 <= i < |v| && v[i].status == Uncertain ==> w[i].reconciled;
    assert forall i :: 0 <= i < |v| && v[i].status == Failed ==> w[i] == v[i];
  }

  /** Without the logging, a second round of the same verdicts after the next preparation leads
      to a dispatch exactly when no record was confirmed or reverted: applied siblings and
      records in flight come back too. */
  lemma UnloggedSiblingsRecover(v: seq<Entry>, retrySafe: bool, info: Option<ToolResult>)
    requires Has(v, Uncertain)
    ensures PreparePlan(Rounds(v, retrySafe, VerdictFailed(info)), retrySafe).outcome.Dispatch? <==>
              AllIn(v, {Planned, Failed, Uncertain, Applied, Dispatching}) && (retrySafe || ManuallyCleared(v))
  {
    var one := RuleAll(v, VerdictFailed(info));
    var two := PreparePlan(one, retrySafe).local;
    var w := RuleAll(two, VerdictFailed(info));
    FirstRound(v, one, info);
    SecondRound(one, retrySafe);
    DispatchIff(w, retrySafe);
    ThirdRound(one, two, w, retrySafe, info);
  }

  /** Rule everything uncertain, prepare again, and rule again. */
  function Rounds(v: seq<Entry>, retrySafe: bool, verdict: Verdict): seq<Entry> {
    RuleAll(PreparePlan(RuleAll(v, verdict), retrySafe).local, verdict)
  }

  lemma FirstRound(v: seq<Entry>, one: seq<Entry>, info: Option<ToolResult>)
    requires one == RuleAll(v, VerdictFailed(info))
    ensures !Has(one, Uncertain) && (ManuallyCleared(one) <==> ManuallyCleared(v))
    ensures AllIn(one, {Planned, Failed, Applied, Dispatching}) <==>
              AllIn(v, {Planned, Failed, Uncertain, Applied, Dispatching})
    ensures Has(v, Uncertain) ==> Has(one, Failed) && one != [] && !AllIn(one, SETTLED)
  {
    assert forall i :: 0 <= i < |v| ==> one[i].status == if v[i].status == Uncertain then Failed else v[i].status;
    assert forall i :: 0 <= i < |v| && v[i].status == Uncertain ==> one[i].reconciled;
    assert forall i :: 0 <= i < |v| && v[i].status == Failed ==> one[i] == v[i];
    if Has(v, Uncertain) {
      var k :| 0 <= k < |v| && v[k].status == Uncertain;
      assert one[k].status == Failed;
    }
  }

  /** What a preparation of a vector with a failed record and no uncertain one leaves. */
  lemma SecondRound(one: seq<Entry>, retrySafe: bool)
    requires !Has(one, Uncertain) && Has(one, Failed) && !AllIn(one, SETTLED)
    ensures var two := PreparePlan(one, retrySafe).local;
            && |two| == |one|
            && (forall i :: 0 <= i < |one| && one[i].status in {Planned, Confirmed, Reverted} ==> two[i] == one[i])
            && (forall i :: 0 <= i < |one| && one[i].status == Failed ==> two[i] == one[i] || two[i].status == Planned)
            && (retrySafe || ManuallyCleared(one) ==>
                forall i :: 0 <= i < |one| && one[i].status in UNSETTLED ==> two[i].status in {Planned, Uncertain})
            && (!retrySafe && !ManuallyCleared(one) ==>
                forall i :: 0 <= i < |one| && one[i].status == Failed ==> two[i] == one[i])
  {
  }

  lemma ThirdRound(one: seq<Entry>, two: seq<Entry>, w: seq<Entry>, retrySafe: bool, info: Option<ToolResult>)
    requires !Has(one, Uncertain) && Has(one, Failed) && !AllIn(one, SETTLED)
    requires two == PreparePlan(one, retrySafe).local && w == RuleAll(two, VerdictFailed(info))
    ensures w != [] && !Has(w, Uncertain)
    ensures AllIn(w, Redoable(retrySafe)) && (retrySafe || ManuallyCleared(w)) <==>
              AllIn(one, {Planned, Failed, Applied, Dispatching}) && (retrySafe || ManuallyCleared(one))
  {
    SecondRound(one, retrySafe);
    assert forall i :: 0 <= i < |two| ==> w[i].status == if two[i].status == Uncertain then Failed else two[i].status;
    assert forall i :: 0 <= i < |two| && two[i].status == Uncertain ==> w[i].reconciled;
    assert forall i :: 0 <= i < |two| && two[i].status != Uncertain ==> w[i] == two[i];
    if !AllIn(one, {Planned, Failed, Applied, Dispatching}) {
      var k :| 0 <= k < |one| && one[k].status !in {Planned, Failed, Applied, Dispatching};
      assert w[k] == one[k];
    } else if !retrySafe && !ManuallyCleared(one) {
      var k :| 0 <= k < |one| && one[k].status == Failed && !one[k].reconciled;
      assert w[k] == one[k];
    }
  }

  // ---------- which vectors block for good ----------

  /** What can happen to a call that does not dispatch: the first transitions of a preparation,
      the first confirmations of logging its outcome, or a verdict on one uncertain record. */
  datatype Turn = Attempt(moves: nat) | Logging(moves: nat, eventId: string) | Ruling(index: nat, verdict: Verdict)

  function Prefix(moves: seq<Move>, n: nat): seq<Move> {
    if n < |moves| then moves[..n] else moves
  }

  function Take(v: seq<Entry>, retrySafe: bool, t: Turn): (r: seq<Entry>)
    ensures |r| == |v|
  {
    match t
    case Attempt(n) => ApplyMoves(v, Prefix(PreparePlan(v, retrySafe).moves, n))
    case Logging(n, eventId) => ApplyMoves(v, Prefix(ConfirmMoves(v, eventId), n))
    case Ruling(i, verdict) => if i < |v| then v[i := Ruled(v[i], verdict)] else v
  }

  function TakeAll(v: seq<Entry>, retrySafe: bool, turns: seq<Turn>): (r: seq<Entry>)
    ensures |r| == |v|
  {
    if turns == [] then v else Take(TakeAll(v, retrySafe, turns[..|turns| - 1]), retrySafe, turns[|turns| - 1])
  }

  /** Reverted records, confirmed ones beside one that no verdict can confirm, confirmed ones
      without a common result, and uncleared failures of a call not safe to retry. */
  ghost predicate Frozen(v: seq<Entry>, retrySafe: bool) {
    || Has(v, Reverted)
    || (Has(v, Confirmed) && exists j :: 0 <= j < |v| && Unconfirmable(v[j], retrySafe))
    || (exists i, j :: 0 <= i < |v| && 0 <= j < |v| && Disagree(v[i], v[j]))
    || (!retrySafe && !ManuallyCleared(v))
  }

  predicate Unconfirmable(e: Entry, retrySafe: bool) {
    e.status in {Planned, Failed} || (retrySafe && e.status == Dispatching)
  }

  /** Two confirmed records, or twice the same, that leave nothing to replay. */
  predicate Disagree(a: Entry, b: Entry) {
    a.status == Confirmed && b.status == Confirmed && (a.toolResult.None? || a.toolResult != b.toolResult)
  }

  lemma FrozenBlocks(v: seq<Entry>, retrySafe: bool)
    requires Frozen(v, retrySafe)
    ensures PreparePlan(v, retrySafe).outcome.Block?
  {
    if !Has(v, Uncertain) {
      DispatchIff(v, retrySafe);
      if AllIn(v, SETTLED) {
        if ReplayResult(v).Some? { assert forall i :: 0 <= i < |v| ==> v[i].toolResult == v[0].toolResult; }
      }
    }
  }

  /** How a record that was part of the reason may change without the reason going away. */
  ghost predicate Holds(a: Entry, b: Entry, retrySafe: bool) {
    && (a.status in {Confirmed, Reverted} ==> b == a)
    && (Unconfirmable(a, retrySafe) ==> Unconfirmable(b, retrySafe))
    && (!retrySafe && a.status == Failed && !a.reconciled ==> b == a)
  }

  lemma HeldStaysFrozen(v: seq<Entry>, w: seq<Entry>, retrySafe: bool)
    requires Frozen(v, retrySafe) && |w| == |v| && forall i :: 0 <= i < |v| ==> Holds(v[i], w[i], retrySafe)
    ensures Frozen(w, retrySafe)
  {
    if Has(v, Reverted) {
      var k :| 0 <= k < |v| && v[k].status == Reverted;
      assert Holds(v[k], w[k], retrySafe) && Has(w, Reverted);
    } else if !retrySafe && !ManuallyCleared(v) {
      var k :| 0 <= k < |v| && v[k].status == Failed && !v[k].reconciled;
      assert Holds(v[k], w[k], retrySafe) && !ManuallyCleared(w);
    } else if i, j :| 0 <= i < |v| && 0 <= j < |v| && Disagree(v[i], v[j]) {
      assert Holds(v[i], w[i], retrySafe) && Holds(v[j], w[j], retrySafe) && Disagree(w[i], w[j]);
    } else {
      var i, j :| 0 <= i < |v| && v[i].status == Confirmed && 0 <= j < |v| && Unconfirmable(v[j], retrySafe);
      assert Holds(v[i], w[i], retrySafe) && Holds(v[j], w[j], retrySafe) && Has(w, Confirmed);
    }
  }

  /** Transitions that leave the reason alone, each starting from the status it expects. */
  ghost predicate Gentle(v: seq<Entry>, moves: seq<Move>, retrySafe: bool) {
    && Consistent(moves, v)
    && forall j :: 0 <= j < |moves| ==>
        Holds(v[moves[j].index], Advance(v[moves[j].index], moves[j].to, moves[j].patch), retrySafe)
  }

  lemma {:induction false} GentleHolds(v: seq<Entry>, moves: seq<Move>, n: nat, retrySafe: bool)
    requires Gentle(v, moves, retrySafe) && n <= |moves|
    ensures forall i :: 0 <= i < |v| ==> Holds(v[i], ApplyMoves(v, moves[..n])[i], retrySafe)
    ensures forall i :: 0 <= i < |v| && !InTodo(moves[..n], i) ==> ApplyMoves(v, moves[..n])[i] == v[i]
  {
    if n > 0 {
      GentleHolds(v, moves, n - 1, retrySafe);
      assert moves[..n][..n - 1] == moves[..n - 1];
      var m := moves[n - 1];
      assert !InTodo(moves[..n - 1], m.index);
      assert moves[..n][n - 1] == m;
      assert forall i :: InTodo(moves[..n - 1], i) ==> InTodo(moves[..n], i) by {
        forall i: nat | InTodo(moves[..n - 1], i) ensures InTodo(moves[..n], i) {
          var j :| 0 <= j < n - 1 && moves[..n - 1][j].index == i;
          assert moves[..n][j].index == i;
        }
      }
    }
  }

  lemma PlanMoves(v: seq<Entry>, retrySafe: bool, m: Move)
    requires m in PreparePlan(v, retrySafe).moves
    ensures retrySafe && m.from == Dispatching ==> m.to == Planned
    ensures !retrySafe && m.from == Failed ==> ManuallyCleared(v)
  {
    var reset := Sweep(v, {Dispatching}, Planned, NoPatch);
    var afterReset := Swept(v, {Dispatching}, Planned, NoPatch);
    var clear := Sweep(afterReset, {Failed}, Planned, NoPatch);
    var afterClear := Swept(afterReset, {Failed}, Planned, NoPatch);
    var marking, late := Sweep(v, UNSETTLED, Uncertain, NoPatch), Sweep(afterClear, UNSETTLED, Uncertain, NoPatch);
    assert [] + marking == marking;
    assert forall i :: 0 <= i < |v| && v[i].status == Failed ==> afterReset[i] == v[i];
    assert forall i :: 0 <= i < |v| ==> afterClear[i].status !in {Dispatching, Failed};
    if m in reset { SweepMoves(v, {Dispatching}, Planned, NoPatch, m); }
    if m in clear { SweepMoves(afterReset, {Failed}, Planned, NoPatch, m); }
    if m in marking { SweepMoves(v, UNSETTLED, Uncertain, NoPatch, m); }
    if m in late { SweepMoves(afterClear, UNSETTLED, Uncertain, NoPatch, m); }
  }

  lemma PlanIsGentle(v: seq<Entry>, retrySafe: bool)
    ensures Gentle(v, PreparePlan(v, retrySafe).moves, retrySafe)
  {
    PreparePlanShape(v, retrySafe);
    var moves := PreparePlan(v, retrySafe).moves;
    forall j | 0 <= j < |moves|
      ensures Holds(v[moves[j].index], Advance(v[moves[j].index], moves[j].to, moves[j].patch), retrySafe)
    {
      assert moves[j] in moves;
      PlanMoves(v, retrySafe, moves[j]);
    }
  }

  lemma TurnKeepsFrozen(v: seq<Entry>, retrySafe: bool, t: Turn)
    requires Frozen(v, retrySafe)
    ensures Frozen(Take(v, retrySafe, t), retrySafe)
  {
    match t
    case Attempt(n) =>
      var moves := PreparePlan(v, retrySafe).moves;
      PlanIsGentle(v, retrySafe);
      PrefixIsTaken(moves, n);
      GentleHolds(v, moves, |Prefix(moves, n)|, retrySafe);
      HeldStaysFrozen(v, Take(v, retrySafe, t), retrySafe);
    case Logging(n, eventId) =>
      var moves := ConfirmMoves(v, eventId);
      SweepConsistent(v, {Applied}, Confirmed, Patch(None, false, Some(eventId)));
      forall j | 0 <= j < |moves|
        ensures Holds(v[moves[j].index], Advance(v[moves[j].index], moves[j].to, moves[j].patch), retrySafe)
      {
        SweepMoves(v, {Applied}, Confirmed, Patch(None, false, Some(eventId)), moves[j]);
      }
      PrefixIsTaken(moves, n);
      GentleHolds(v, moves, |Prefix(moves, n)|, retrySafe);
      HeldStaysFrozen(v, Take(v, retrySafe, t), retrySafe);
    case Ruling(i, verdict) =>
      HeldStaysFrozen(v, Take(v, retrySafe, t), retrySafe);
  }

  lemma PrefixIsTaken(moves: seq<Move>, n: nat)
    ensures |Prefix(moves, n)| <= |moves| && Prefix(moves, n) == moves[..|Prefix(moves, n)|]
  {
  }

  lemma {:induction false} FrozenForever(v: seq<Entry>, retrySafe: bool, turns: seq<Turn>)
    requires Frozen(v, retrySafe)
    ensures Frozen(TakeAll(v, retrySafe, turns), retrySafe)
    ensures PreparePlan(TakeAll(v, retrySafe, turns), retrySafe).outcome.Block?
  {
    if turns != [] {
      FrozenForever(v, retrySafe, turns[..|turns| - 1]);
      TurnKeepsFrozen(TakeAll(v, retrySafe, turns[..|turns| - 1]), retrySafe, turns[|turns| - 1]);
    }
    FrozenBlocks(TakeAll(v, retrySafe, turns), retrySafe);
  }

  // ---------- and which do not ----------

  function Rulings(n: nat, verdict: Verdict): (turns: seq<Turn>)
    ensures |turns| == n
  {
    if n == 0 then [] else Rulings(n - 1, verdict) + [Ruling(n - 1, verdict)]
  }

  lemma {:induction false} RulingsRuleAll(v: seq<Entry>, retrySafe: bool, n: nat, verdict: Verdict)
    requires n <= |v|
    ensures forall i :: 0 <= i < |v| ==>
              TakeAll(v, retrySafe, Rulings(n, verdict))[i] == if i < n then Ruled(v[i], verdict) else v[i]
  {
    if n > 0 {
      RulingsRuleAll(v, retrySafe, n - 1, verdict);
      assert Rulings(n, verdict)[..n - 1] == Rulings(n - 1, verdict);
    }
  }

  lemma {:induction false} TakeConcat(v: seq<Entry>, retrySafe: bool, a: seq<Turn>, b: seq<Turn>)
    ensures TakeAll(v, retrySafe, a + b) == TakeAll(TakeAll(v, retrySafe, a), retrySafe, b)
    decreases |b|
  {
    if b == [] {
      assert a + b == a;
    } else {
      assert (a + b)[..|a + b| - 1] == a + b[..|b| - 1];
      TakeConcat(v, retrySafe, a, b[..|b| - 1]);
    }
  }

  lemma RoundsAreTurns(v: seq<Entry>, retrySafe: bool, verdict: Verdict)
    ensures exists turns :: TakeAll(v, retrySafe, turns) == Rounds(v, retrySafe, verdict)
  {
    var one := RuleAll(v, verdict);
    var plan := PreparePlan(one, retrySafe);
    var rule := Rulings(|v|, verdict);
    RulingsRuleAll(v, retrySafe, |v|, verdict);
    assert TakeAll(v, retrySafe, rule) == one;
    var again := rule + [Attempt(|plan.moves|)];
    TakeConcat(v, retrySafe, rule, [Attempt(|plan.moves|)]);
    PlanApplies(one, retrySafe);
    TakeOne(one, retrySafe, Attempt(|plan.moves|));
    assert TakeAll(v, retrySafe, again) == plan.local;
    TakeConcat(v, retrySafe, again, rule);
    RulingsRuleAll(plan.local, retrySafe, |v|, verdict);
    assert TakeAll(v, retrySafe, again + rule) == RuleAll(plan.local, verdict);
  }

  lemma TakeOne(v: seq<Entry>, retrySafe: bool, t: Turn)
    ensures TakeAll(v, retrySafe, [t]) == Take(v, retrySafe, t)
  {
    assert [t][..0] == [];
  }

  lemma PlanKeepsLength(v: seq<Entry>, retrySafe: bool)
    ensures |PreparePlan(v, retrySafe).local| == |v|
  {
    PreparePlanShape(v, retrySafe);
  }

  /** Confirming what is uncertain leads to a replay when some record is confirmed and the
      vector is not frozen. */
  lemma ConfirmingFrees(v: seq<Entry>, retrySafe: bool, r: ToolResult)
    requires v != [] && !Frozen(v, retrySafe)
    requires exists i :: 0 <= i < |v| && v[i].status == Confirmed && v[i].toolResult == Some(r)
    ensures PreparePlan(Rounds(v, retrySafe, VerdictConfirmed(r)), retrySafe).outcome.Replay?
  {
    var verdict := VerdictConfirmed(r);
    var one := RuleAll(v, verdict);
    var two := PreparePlan(one, retrySafe).local;
    var w := Rounds(v, retrySafe, verdict);
    var c :| 0 <= c < |v| && v[c].status == Confirmed && v[c].toolResult == Some(r);
    forall i | 0 <= i < |v|
      ensures one[i].status in {Confirmed, Applied} || (!retrySafe && one[i].status == Dispatching) {
      assert !Unconfirmable(v[i], retrySafe);
    }
    forall i | 0 <= i < |v| && one[i].status == Confirmed ensures one[i].toolResult == Some(r) {
      if v[i].status == Confirmed { assert !Disagree(v[c], v[i]); }
    }
    ConfirmedLeft(one, retrySafe);
    if PreparePlan(one, retrySafe).outcome.Replay? {
      assert w == one;
    } else {
      assert forall i :: 0 <= i < |v| ==> w[i].status == Confirmed && w[i].toolResult == Some(r);
    }
  }

  lemma ConfirmedLeft(one: seq<Entry>, retrySafe: bool)
    requires one != []
             && forall i :: 0 <= i < |one| ==>
                 one[i].status in {Confirmed, Applied} || (!retrySafe && one[i].status == Dispatching)
    ensures var p := PreparePlan(one, retrySafe);
            && |p.local| == |one| && !p.outcome.Dispatch?
            && (p.outcome.Replay? ==> p.local == one && AllIn(one, SETTLED))
            && (p.outcome.Block? ==> forall i :: 0 <= i < |one| ==>
                 if one[i].status == Confirmed then p.local[i] == one[i] else p.local[i].status == Uncertain)
  {
    if !AllIn(one, SETTLED) {
      var k :| 0 <= k < |one| && one[k].status !in SETTLED;
      assert one[k].status == Dispatching;
    }
  }

  /** Failing what is uncertain leads to a dispatch, or to the replay there was, when no record
      is confirmed and the vector is not frozen. */
  lemma FailingFrees(v: seq<Entry>, retrySafe: bool)
    requires v != [] && !Frozen(v, retrySafe) && !Has(v, Confirmed)
    ensures !PreparePlan(Rounds(v, retrySafe, VerdictFailed(None)), retrySafe).outcome.Block?
  {
    var one := RuleAll(v, VerdictFailed(None));
    var w := Rounds(v, retrySafe, VerdictFailed(None));
    assert AllIn(v, {Planned, Failed, Uncertain, Applied, Dispatching});
    FirstRound(v, one, None);
    if Has(v, Uncertain) {
      UnloggedSiblingsRecover(v, retrySafe, None);
    } else {
      assert one == v;
      NoneUncertain(v, retrySafe);
    }
  }

  lemma NoneUncertain(v: seq<Entry>, retrySafe: bool)
    requires v != [] && AllIn(v, {Planned, Failed, Applied, Dispatching}) && (retrySafe || ManuallyCleared(v))
    ensures !PreparePlan(RuleAll(PreparePlan(v, retrySafe).local, VerdictFailed(None)), retrySafe).outcome.Block?
  {
    var two := PreparePlan(v, retrySafe).local;
    var w := RuleAll(two, VerdictFailed(None));
    PlanKeepsLength(v, retrySafe);
    if PreparePlan(v, retrySafe).outcome.Replay? {
      assert w == v;
    } else {
      DispatchIff(w, retrySafe);
    }
  }

  /** Exactly the frozen vectors block for good, whatever is prepared, logged, interrupted and
      ruled: for any other there is a way to a dispatch or a replay. */
  lemma FrozenIff(v: seq<Entry>, retrySafe: bool)
    requires v != []
    ensures Frozen(v, retrySafe) <==>
              forall turns :: PreparePlan(TakeAll(v, retrySafe, turns), retrySafe).outcome.Block?
  {
    if Frozen(v, retrySafe) {
      forall turns ensures PreparePlan(TakeAll(v, retrySafe, turns), retrySafe).outcome.Block? {
        FrozenForever(v, retrySafe, turns);
      }
    } else if Has(v, Confirmed) {
      var i :| 0 <= i < |v| && v[i].status == Confirmed;
      assert !Disagree(v[i], v[i]);
      ConfirmingFrees(v, retrySafe, v[i].toolResult.value);
      RoundsAreTurns(v, retrySafe, VerdictConfirmed(v[i].toolResult.value));
    } else {
      FailingFrees(v, retrySafe);
      RoundsAreTurns(v, retrySafe, VerdictFailed(None));
    }
  }
}
