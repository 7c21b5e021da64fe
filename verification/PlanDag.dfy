/** The static dependency graph of a plan, its checks and its topological order. */
module PlanDag {
  import opened Common
  import opened TaskEvents

  datatype Step = Step(id: StepId, dependsOn: seq<StepId>, required: seq<Ref>, parallelSafe: bool)

  type Plan = seq<Step>

  datatype PlanError = DuplicateStep | UnknownDependency | Cycle | OutOfOrder

  ghost predicate DistinctIds(plan: Plan) {
    forall i, j :: 0 <= i < |plan| && 0 <= j < |plan| && plan[i].id == plan[j].id ==> i == j
  }

  ghost function Ids(plan: Plan): set<StepId> {
    set i | 0 <= i < |plan| :: plan[i].id
  }

  predicate Within(s: Step, ids: set<StepId>) {
    forall d :: d in s.dependsOn ==> d in ids
  }

  ghost predicate KnownDependencies(plan: Plan) {
    forall i :: 0 <= i < |plan| ==> Within(plan[i], Ids(plan))
  }

  /** Every dependency of a step is the id of an earlier step. */
  ghost predicate LinearOrder(plan: Plan) {
    forall i {:trigger Within(plan[i], Ids(plan[..i]))} :: 0 <= i < |plan| ==> Within(plan[i], Ids(plan[..i]))
  }

  function AllIds(plan: Plan): (r: set<StepId>)
    ensures r == Ids(plan)
  {
    set s | s in plan :: s.id
  }

  ghost predicate Waits(s: Step, waiting: set<StepId>) {
    exists d :: d in s.dependsOn && d in waiting
  }

  predicate DependsOnlyOn(s: Step, done: seq<StepId>) {
    forall d :: d in s.dependsOn ==> d in done
  }

  function Elems(s: seq<StepId>): (r: set<StepId>)
    ensures forall x :: x in r <==> x in s
  {
    set x | x in s
  }

  /** A non-empty set of steps each waiting for another of the set: a cycle, and what leads to it. */
  ghost predicate Stuck(plan: Plan, waiting: set<StepId>) {
    && waiting != {} && waiting <= Ids(plan)
    && forall i :: 0 <= i < |plan| && plan[i].id in waiting ==> Waits(plan[i], waiting)
  }

  ghost predicate Acyclic(plan: Plan) {
    forall waiting :: !Stuck(plan, waiting)
  }

  /** Each step of the plan once, after everything it depends on. */
  ghost predicate Topological(plan: Plan, order: seq<StepId>) {
    && Elems(order) == Ids(plan)
    && Ordered(plan, order)
  }

  ghost predicate Ordered(plan: Plan, order: seq<StepId>) {
    && (forall i, j :: 0 <= i < |order| && 0 <= j < |order| && order[i] == order[j] ==> i == j)
    && (forall i, k :: 0 <= i < |plan| && 0 <= k < |order| && order[k] == plan[i].id ==>
         DependsOnlyOn(plan[i], order[..k]))
  }

  // ---------- the checks ----------

  method CheckDistinct(plan: Plan) returns (ok: bool)
    ensures ok <==> DistinctIds(plan)
  {
    var seen: set<StepId> := {};
    for i := 0 to |plan|
      invariant seen == Ids(plan[..i])
      invariant DistinctIds(plan[..i])
    {
      if plan[i].id in seen {
        var j :| 0 <= j < i && plan[..i][j].id == plan[i].id;
        return false;
      }
      seen := seen + {plan[i].id};
      assert plan[..i + 1] == plan[..i] + [plan[i]];
      assert plan[..i + 1][i].id == plan[i].id;
      assert forall x :: x in Ids(plan[..i]) ==> x in Ids(plan[..i + 1]) by {
        forall x | x in Ids(plan[..i]) ensures x in Ids(plan[..i + 1]) {
          var j :| 0 <= j < i && plan[..i][j].id == x;
          assert plan[..i + 1][j].id == x;
        }
      }
    }
    assert plan[..|plan|] == plan;
    return true;
  }

  method ValidateLinearOrder(plan: Plan) returns (ok: bool)
    ensures ok <==> LinearOrder(plan)
  {
    var seen: set<StepId> := {};
    for i := 0 to |plan|
      invariant seen == Ids(plan[..i])
      invariant forall k :: 0 <= k < i ==> Within(plan[k], Ids(plan[..k]))
    {
      if !Within(plan[i], seen) {
        return false;
      }
      seen := seen + {plan[i].id};
      IdsGrow(plan, i);
    }
    return true;
  }

  lemma IdsGrow(plan: Plan, i: nat)
    requires i < |plan|
    ensures Ids(plan[..i + 1]) == Ids(plan[..i]) + {plan[i].id}
  {
    assert plan[..i + 1][i].id == plan[i].id;
    forall x | x in Ids(plan[..i]) ensures x in Ids(plan[..i + 1]) {
      var j :| 0 <= j < i && plan[..i][j].id == x;
      assert plan[..i + 1][j].id == x;
    }
  }

  method KnowsDependencies(plan: Plan) returns (ok: bool)
    ensures ok <==> KnownDependencies(plan)
  {
    var seen := AllIds(plan);
    ok := forall i :: 0 <= i < |plan| ==> Within(plan[i], seen);
  }

  method SortIds(ids: set<StepId>) returns (r: seq<StepId>)
    ensures Elems(r) == ids && Increasing(r)
  {
    r := [];
    var rest := ids;
    while rest != {}
      invariant rest <= ids && Elems(r) == ids - rest
      invariant Increasing(r)
      invariant forall x :: x in r ==> Below(x, rest)
      decreases |rest|
    {
      HasMin(rest);
      var m :| m in rest && IsMin(m, rest);
      rest, r := TakeMin(rest, r, m);
    }
  }

  /** One selection step: the least remaining id goes to the end of the list. */
  method TakeMin(rest: set<StepId>, r: seq<StepId>, m: StepId) returns (rest': set<StepId>, r': seq<StepId>)
    requires m in rest && IsMin(m, rest) && Increasing(r) && forall x :: x in r ==> Below(x, rest)
    ensures rest' == rest - {m} && Elems(r') == Elems(r) + {m}
    ensures Increasing(r') && forall x :: x in r' ==> Below(x, rest')
  {
    rest', r' := rest - {m}, r + [m];
    assert forall i :: 0 <= i < |r| ==> r[i] in r;
    forall x | x in r' ensures Below(x, rest') { }
  }

  predicate Increasing(r: seq<StepId>) {
    forall i, j :: 0 <= i < j < |r| ==> r[i] < r[j]
  }

  predicate IsMin(m: StepId, ids: set<StepId>) {
    forall y :: y in ids ==> m <= y
  }

  predicate Below(m: StepId, ids: set<StepId>) {
    forall y :: y in ids ==> m < y
  }

  lemma {:induction false} HasMin(ids: set<StepId>)
    requires ids != {}
    ensures exists m :: m in ids && IsMin(m, ids)
    decreases |ids|
  {
    var x :| x in ids;
    if ids != {x} {
      assert ids == (ids - {x}) + {x};
      HasMin(ids - {x});
      var m :| m in ids - {x} && IsMin(m, ids - {x});
      var least := if x < m then x else m;
      forall y | y in ids ensures least <= y {
        if y != x { assert y in ids - {x}; }
      }
      assert least in ids && IsMin(least, ids);
    } else {
      assert IsMin(x, ids);
    }
  }

  /** The order in which the projection lists steps: repeatedly the sorted ids whose
      dependencies are all listed. It fails exactly on a cycle. */
  method TopologicalIds(plan: Plan) returns (r: Option<seq<StepId>>)
    requires DistinctIds(plan) && KnownDependencies(plan)
    ensures r.Some? <==> Acyclic(plan)
    ensures r.Some? ==> Topological(plan, r.value)
  {
    var remaining := AllIds(plan);
    var ordered: seq<StepId> := [];
    assert Listed(plan, ordered, remaining) by { assert Elems([]) == {}; }
    while remaining != {}
      invariant Listed(plan, ordered, remaining)
      decreases |remaining|
    {
      var ready := ReadyIds(plan, remaining, ordered);
      if ready == {} {
        StuckRemaining(plan, ordered, remaining);
        return None;
      }
      ReadyRemains(remaining, ready);
      ordered, remaining := ListLayer(plan, ordered, remaining, ready);
    }
    OrderedIsAcyclic(plan, ordered);
    return Some(ordered);
  }

  ghost predicate Listed(plan: Plan, ordered: seq<StepId>, remaining: set<StepId>) {
    remaining <= Ids(plan) && Elems(ordered) == Ids(plan) - remaining && Ordered(plan, ordered)
  }

  function ReadyIds(plan: Plan, remaining: set<StepId>, ordered: seq<StepId>): (r: set<StepId>)
    ensures r <= remaining
  {
    set s | s in plan && s.id in remaining && DependsOnlyOn(s, ordered) :: s.id
  }

  lemma ReadyRemains(remaining: set<StepId>, ready: set<StepId>)
    requires ready <= remaining && ready != {}
    ensures |remaining - ready| < |remaining|
  {
    assert remaining == (remaining - ready) + ready;
  }

  method ListLayer(plan: Plan, ordered: seq<StepId>, remaining: set<StepId>, ready: set<StepId>)
    returns (ordered': seq<StepId>, remaining': set<StepId>)
    requires DistinctIds(plan) && Listed(plan, ordered, remaining) && ready == ReadyIds(plan, remaining, ordered)
    ensures Listed(plan, ordered', remaining') && remaining' == remaining - ready
  {
    var layer := SortIds(ready);
    LayerKeepsOrder(plan, ordered, layer, remaining);
    ordered', remaining' := ordered + layer, remaining - ready;
  }

  lemma StuckRemaining(plan: Plan, ordered: seq<StepId>, remaining: set<StepId>)
    requires KnownDependencies(plan) && remaining != {} && Listed(plan, ordered, remaining)
    requires ReadyIds(plan, remaining, ordered) == {}
    ensures !Acyclic(plan)
  {
    forall i | 0 <= i < |plan| && plan[i].id in remaining ensures Waits(plan[i], remaining) {
      var s := plan[i];
      assert s in plan && s.id !in ReadyIds(plan, remaining, ordered);
      assert !DependsOnlyOn(s, ordered);
      var d :| d in plan[i].dependsOn && d !in ordered;
      assert d in Ids(plan) && d !in Elems(ordered);
    }
    assert Stuck(plan, remaining);
  }

  lemma LayerKeepsOrder(plan: Plan, ordered: seq<StepId>, layer: seq<StepId>, remaining: set<StepId>)
    requires DistinctIds(plan) && Listed(plan, ordered, remaining)
    requires Increasing(layer)
    requires Elems(layer) == ReadyIds(plan, remaining, ordered)
    ensures Listed(plan, ordered + layer, remaining - ReadyIds(plan, remaining, ordered))
  {
    assert Elems(ordered + layer) == Elems(ordered) + Elems(layer);
    var all := ordered + layer;
    forall k | 0 <= k < |layer| ensures layer[k] in remaining {
      assert layer[k] in Elems(layer);
    }
    forall i, k | 0 <= i < |plan| && 0 <= k < |all| && all[k] == plan[i].id
      ensures DependsOnlyOn(plan[i], all[..k])
    {
      if k < |ordered| {
        assert all[..k] == ordered[..k];
      } else {
        assert all[k] in Elems(layer) by { assert layer[k - |ordered|] in layer; }
        var s :| s in plan && s.id in remaining && s.id == all[k] && DependsOnlyOn(s, ordered);
        assert s == plan[i];
        assert all[..k] == ordered + layer[..k - |ordered|];
      }
    }
  }

  lemma OrderedIsAcyclic(plan: Plan, order: seq<StepId>)
    requires Listed(plan, order, {})
    ensures Topological(plan, order) && Acyclic(plan)
  {
    forall waiting ensures !Stuck(plan, waiting) {
      if Stuck(plan, waiting) {
        var x :| x in waiting;
        assert x in Elems(order);
        var k :| 0 <= k < |order| && order[k] == x;
        NoneWaits(plan, order, waiting, k);
      }
    }
  }

  lemma {:induction false} NoneWaits(plan: Plan, order: seq<StepId>, waiting: set<StepId>, k: nat)
    requires Topological(plan, order) && Stuck(plan, waiting) && k < |order|
    ensures order[k] !in waiting
  {
    if order[k] in waiting {
      assert order[k] in Ids(plan);
      var i := EarlierStep(plan[..], |plan|, order[k]);
      assert Waits(plan[i], waiting) && DependsOnlyOn(plan[i], order[..k]);
      var d :| d in plan[i].dependsOn && d in waiting;
      assert d in order[..k];
      var j :| 0 <= j < k && order[j] == d;
      NoneWaits(plan, order, waiting, j);
    }
  }

  /** A plan accepted in linear order needs no further check: its graph is well formed. */
  lemma LinearIsAcyclic(plan: Plan)
    requires LinearOrder(plan)
    ensures KnownDependencies(plan) && Acyclic(plan)
  {
    forall i, d | 0 <= i < |plan| && d in plan[i].dependsOn ensures d in Ids(plan) {
      assert Within(plan[i], Ids(plan[..i]));
      var j :| 0 <= j < i && plan[..i][j].id == d;
      assert plan[j].id == d;
    }
    forall waiting ensures !Stuck(plan, waiting) {
      if Stuck(plan, waiting) {
        var x :| x in waiting;
        var k :| 0 <= k < |plan| && plan[k].id == x;
        NoneWaitsLinear(plan, waiting, k);
      }
    }
  }

  lemma {:induction false} NoneWaitsLinear(plan: Plan, waiting: set<StepId>, k: nat)
    requires LinearOrder(plan) && Stuck(plan, waiting) && k < |plan|
    ensures plan[k].id !in waiting
  {
    if plan[k].id in waiting {
      var d :| d in plan[k].dependsOn && d in waiting;
      assert Within(plan[k], Ids(plan[..k]));
      var j := EarlierStep(plan, k, d);
      NoneWaitsLinear(plan, waiting, j);
    }
  }

  lemma EarlierStep(plan: Plan, k: nat, d: StepId) returns (j: nat)
    requires k <= |plan| && d in Ids(plan[..k])
    ensures j < k && plan[j].id == d
  {
    j :| 0 <= j < k && plan[..k][j].id == d;
  }

  /** All the checks on a submitted plan; the order is the projection's. */
  method Validate(plan: Plan) returns (r: Result<seq<StepId>, PlanError>)
    ensures r.Ok? <==> DistinctIds(plan) && LinearOrder(plan)
    ensures r.Ok? ==> Topological(plan, r.value)
    ensures r == Err(DuplicateStep) <==> !DistinctIds(plan)
    ensures r == Err(UnknownDependency) <==> DistinctIds(plan) && !KnownDependencies(plan)
    ensures r == Err(Cycle) <==> DistinctIds(plan) && KnownDependencies(plan) && !Acyclic(plan)
  {
    var distinct := CheckDistinct(plan);
    if !distinct { return Err(DuplicateStep); }
    var known := KnowsDependencies(plan);
    if !known {
      NotLinear(plan);
      return Err(UnknownDependency);
    }
    var order := TopologicalIds(plan);
    if order.None? {
      NotLinear(plan);
      return Err(Cycle);
    }
    var linear := ValidateLinearOrder(plan);
    return if linear then Ok(order.value) else Err(OutOfOrder);
  }

  lemma NotLinear(plan: Plan)
    requires !(KnownDependencies(plan) && Acyclic(plan))
    ensures !LinearOrder(plan)
  {
    if LinearOrder(plan) { LinearIsAcyclic(plan); }
  }
}
