/**
  The two conversation stores compared: one looks compaction ids up in a session, the other in
  every session.
 */
module StoreAgreement {
  import opened ConversationTypes

  /** No id names compactions of two sessions. */
  ghost predicate IdsUnshared(w: World) {
    forall a, b, id :: a in w && b in w && HasId(w[a], id) && HasId(w[b], id) ==> a == b
  }

  /** The two lookups answer alike exactly when the id is not another session's. */
  lemma LookupsAgreeIff(w: World, c: Compaction)
    requires IdsUnshared(w) && ProperWorld(w) && ValidCompaction(c)
    ensures AppendCompactionGlobally(w, c) == AppendCompaction(w, c) <==> !Foreign(w, c)
  {
    var s := At(w, c.session);
    assert c in s.compactions ==> HasId(s, c.id) by {
      if c in s.compactions {
        var i :| 0 <= i < |s.compactions| && s.compactions[i] == c;
        assert s.compactions[i].id == c.id;
      }
    }
  }

  datatype Op = Record(id: string, user: string, assistant: string) | Compact(c: Compaction)

  ghost function Step(w: World, op: Op, global: bool): (World, Answer) {
    match op
    case Record(id, user, assistant) => After(w, AppendTurn(w, id, user, assistant))
    case Compact(c) => After(w, if global then AppendCompactionGlobally(w, c) else AppendCompaction(w, c))
  }

  ghost function History(ops: seq<Op>, global: bool): (World, seq<Answer>) {
    if ops == [] then (map[], [])
    else
      var (w, answers) := History(ops[..|ops| - 1], global);
      var (w', answer) := Step(w, ops[|ops| - 1], global);
      (w', answers + [answer])
  }

  /** No compaction id is used for two sessions. */
  predicate IdsStayHome(ops: seq<Op>) {
    forall i, j :: 0 <= i < |ops| && 0 <= j < |ops| ==>
      ops[i].Compact? && ops[j].Compact? && ops[i].c.id == ops[j].c.id ==> ops[i].c.session == ops[j].c.session
  }

  ghost predicate FromOps(w: World, ops: seq<Op>) {
    forall id, c :: id in w && c in w[id].compactions ==> Compact(c) in ops && c.session == id
  }

  lemma {:induction false} HistoryFromOps(ops: seq<Op>)
    ensures FromOps(History(ops, false).0, ops)
  {
    if ops != [] {
      HistoryFromOps(ops[..|ops| - 1]);
      assert ops == ops[..|ops| - 1] + [ops[|ops| - 1]];
    }
  }

  lemma UsedBefore(w: World, ops: seq<Op>, id: string, key: string) returns (k: nat)
    requires ops != [] && FromOps(w, ops[..|ops| - 1]) && id in w && HasId(w[id], key)
    ensures k < |ops| - 1 && ops[k].Compact? && ops[k].c.id == key && ops[k].c.session == id
  {
    var i :| 0 <= i < |w[id].compactions| && w[id].compactions[i].id == key;
    assert w[id].compactions[i] in w[id].compactions;
    k :| 0 <= k < |ops| - 1 && ops[..|ops| - 1][k] == Compact(w[id].compactions[i]);
  }

  lemma NeverForeign(w: World, ops: seq<Op>, c: Compaction)
    requires ops != [] && ops[|ops| - 1] == Compact(c) && IdsStayHome(ops) && FromOps(w, ops[..|ops| - 1])
    ensures !Foreign(w, c)
  {
    forall id | id in w && id != c.session ensures !HasId(w[id], c.id) {
      if HasId(w[id], c.id) { var k := UsedBefore(w, ops, id, c.id); }
    }
  }

  /** As long as no compaction id crosses sessions, every history of operations gets the
      same answers and the same sessions from both lookups. */
  lemma {:induction false} StoresAgree(ops: seq<Op>)
    requires IdsStayHome(ops)
    ensures History(ops, true) == History(ops, false)
  {
    if ops != [] {
      var before, op := ops[..|ops| - 1], ops[|ops| - 1];
      StoresAgree(before);
      HistoryFromOps(before);
      if op.Compact? { NeverForeign(History(before, false).0, ops, op.c); }
    }
  }

  /** And if one does cross, they differ on some history. */
  lemma StoresDisagree()
    ensures exists ops :: History(ops, true).1 != History(ops, false).1
  {
    var a := Compaction("c", "s", 1, "x", RoundThreshold, 1, 0, 0);
    var b := a.(session := "t");
    var ops := [Compact(a), Compact(b)];
    assert ops[..1] == [Compact(a)] && ops[..1][..0] == [];
    var one := map["s" := Session([], [a])];
    assert At(map[], "s") == NoSession;
    assert [] + [a] == [a];
    assert History([Compact(a)], true).0 == one && History([Compact(a)], false).0 == one;
    assert one["s"].compactions[0].id == b.id;
    assert HasId(one["s"], "c");
    assert Foreign(one, b);
    assert Step(one, Compact(b), true).1 == Refused(ConflictingId);
    assert Step(one, Compact(b), false).1 == Done;
    assert ops[..|ops| - 1] == [Compact(a)];
    var strict, loose := History(ops, true).1, History(ops, false).1;
    assert strict == History([Compact(a)], true).1 + [Refused(ConflictingId)];
    assert loose == History([Compact(a)], false).1 + [Done];
    assert strict[|strict| - 1] != loose[|loose| - 1];
  }
}
