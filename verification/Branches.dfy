/** The tree of forked runs: the root of a run's lineage and everything forked below it. */
module Branches {
  import opened Common
  import PlanDag

  /** Run ids; only their equality and their sort order matter. */
  type RunId = nat

  datatype Run = Run(id: RunId, parent: Option<RunId>)

  type Runs = map<RunId, Run>

  datatype LineageError = UnknownRun | MissingParent(parent: RunId) | AncestorCycle | ProjectionCycle | TooManyNodes

  datatype Node = Node(id: RunId, parent: Option<RunId>, selected: bool, children: seq<Node>)

  datatype Tree = Tree(selected: RunId, root: Node, count: nat)

  // ---------- ancestors ----------

  /** The `n`-th ancestor, as long as the chain stays within the runs. */
  function Up(runs: Runs, id: RunId, n: nat): Option<RunId>
    decreases n
  {
    if id !in runs then None
    else if n == 0 then Some(id)
    else if runs[id].parent.None? then None
    else Up(runs, runs[id].parent.value, n - 1)
  }

  ghost predicate IsRoot(runs: Runs, id: RunId) {
    id in runs && runs[id].parent == None
  }

  /** The chain of ancestors ends in `root`. */
  ghost predicate RootIs(runs: Runs, id: RunId, root: RunId) {
    IsRoot(runs, root) && exists n: nat :: Up(runs, id, n) == Some(root)
  }

  /** The chain leads to a run whose parent `p` is not there. */
  ghost predicate Broken(runs: Runs, id: RunId, p: RunId) {
    p !in runs && exists n: nat, x :: x in runs && Up(runs, id, n) == Some(x) && runs[x].parent == Some(p)
  }

  ghost predicate Endless(runs: Runs, id: RunId) {
    forall n: nat :: Up(runs, id, n).Some?
  }

  lemma {:induction false} UpAdd(runs: Runs, id: RunId, n: nat, m: nat)
    ensures Up(runs, id, n + m) == if Up(runs, id, n).None? then None else Up(runs, Up(runs, id, n).value, m)
    decreases n
  {
    if n > 0 && id in runs && runs[id].parent.Some? { UpAdd(runs, runs[id].parent.value, n - 1, m); }
  }

  lemma {:induction false} UpIsThere(runs: Runs, id: RunId, n: nat)
    ensures Up(runs, id, n).Some? ==> Up(runs, id, n).value in runs && id in runs
    decreases n
  {
    if n > 0 && id in runs && runs[id].parent.Some? { UpIsThere(runs, runs[id].parent.value, n - 1); }
  }

  /** The three ends of a chain exclude each other. */
  lemma OneEnd(runs: Runs, id: RunId, n: nat, x: RunId, m: nat)
    requires Up(runs, id, n) == Some(x) && x in runs && (runs[x].parent == None || runs[x].parent.value !in runs)
    ensures m > n ==> Up(runs, id, m) == None
    ensures !Endless(runs, id)
  {
    UpAdd(runs, id, n, 1);
    assert Up(runs, id, n + 1) == None;
    if m > n { UpAdd(runs, id, n, m - n); }
  }

  /** A run whose chain ends does not meet itself again. */
  lemma {:induction false} NoReturn(runs: Runs, x: RunId, d: nat, root: RunId, k: nat)
    requires Up(runs, x, d) == Some(root) && IsRoot(runs, root) && k >= 1
    ensures Up(runs, x, k) != Some(x)
    decreases d
  {
    if k > d {
      OneEnd(runs, x, d, root, k);
    } else if Up(runs, x, k) == Some(x) {
      UpAdd(runs, x, k, d - k);
      NoReturn(runs, x, d - k, root, k);
    }
  }

  lemma {:induction false} CycleIsEndless(runs: Runs, x: RunId, k: nat, n: nat)
    requires Up(runs, x, k) == Some(x) && k >= 1
    ensures Up(runs, x, n).Some?
    decreases n
  {
    if n >= k {
      UpAdd(runs, x, k, n - k);
      CycleIsEndless(runs, x, k, n - k);
    } else {
      UpAdd(runs, x, n, k - n);
    }
  }

  /** Walks up the chain, remembering the runs seen. */
  method RootId(selected: RunId, runs: Runs) returns (r: Result<RunId, LineageError>)
    requires selected in runs
    ensures match r
            case Ok(root) => RootIs(runs, selected, root)
            case Err(MissingParent(p)) => Broken(runs, selected, p)
            case Err(AncestorCycle) => Endless(runs, selected)
            case Err(_) => false
  {
    var current, seen := selected, [];
    while true
      invariant current in runs && Up(runs, selected, |seen|) == Some(current)
      invariant forall i :: 0 <= i < |seen| ==> Up(runs, selected, i) == Some(seen[i]) && seen[i] in runs
      invariant forall i, j :: 0 <= i < |seen| && 0 <= j < |seen| && seen[i] == seen[j] ==> i == j
      decreases |runs| - |seen|
    {
      if current in seen {
        var i :| 0 <= i < |seen| && seen[i] == current;
        SeenAgain(runs, selected, i, |seen|, current);
        return Err(AncestorCycle);
      }
      UpAdd(runs, selected, |seen|, 1);
      FewerThanRuns(runs, seen + [current]);
      seen := seen + [current];
      if runs[current].parent.None? { return Ok(current); }
      var parent := runs[current].parent.value;
      if parent !in runs { return Err(MissingParent(parent)); }
      current := parent;
    }
  }

  lemma SeenAgain(runs: Runs, id: RunId, i: nat, j: nat, x: RunId)
    requires i < j && Up(runs, id, i) == Some(x) && Up(runs, id, j) == Some(x)
    ensures Endless(runs, id)
  {
    UpAdd(runs, id, i, j - i);
    forall n: nat ensures Up(runs, id, n).Some? {
      if n < i {
        UpAdd(runs, id, n, i - n);
      } else {
        UpAdd(runs, id, i, n - i);
        CycleIsEndless(runs, x, j - i, n - i);
      }
    }
  }

  lemma {:induction false} FewerThanRuns(runs: Runs, ids: seq<RunId>)
    requires forall i :: 0 <= i < |ids| ==> ids[i] in runs
    requires forall i, j :: 0 <= i < |ids| && 0 <= j < |ids| && ids[i] == ids[j] ==> i == j
    ensures |ids| <= |runs|
  {
    DistinctSize(ids);
    assert PlanDag.Elems(ids) <= runs.Keys;
    SubsetSize(PlanDag.Elems(ids), runs.Keys);
    assert |runs.Keys| == |runs|;
  }

  lemma SubsetSize(a: set<RunId>, b: set<RunId>)
    requires a <= b
    ensures |a| <= |b|
  {
    assert b == a + (b - a);
  }

  lemma {:induction false} DistinctSize(ids: seq<RunId>)
    requires forall i, j :: 0 <= i < |ids| && 0 <= j < |ids| && ids[i] == ids[j] ==> i == j
    ensures |PlanDag.Elems(ids)| == |ids|
  {
    if ids == [] {
      assert PlanDag.Elems(ids) == {};
    } else {
      var n := |ids| - 1;
      DistinctSize(ids[..n]);
      assert PlanDag.Elems(ids) == PlanDag.Elems(ids[..n]) + {ids[n]};
      assert ids[n] !in ids[..n];
    }
  }

  // ---------- descendants ----------

  ghost predicate Descends(runs: Runs, x: RunId, r: RunId) {
    exists n: nat :: Up(runs, x, n) == Some(r)
  }

  ghost function Descendants(runs: Runs, r: RunId): set<RunId> {
    set x | x in runs && Descends(runs, x, r)
  }

  ghost function DescendantsOf(runs: Runs, kids: seq<RunId>): set<RunId> {
    if kids == [] then {} else DescendantsOf(runs, kids[..|kids| - 1]) + Descendants(runs, kids[|kids| - 1])
  }

  ghost predicate AreKids(runs: Runs, r: RunId, kids: seq<RunId>) {
    && PlanDag.Increasing(kids)
    && forall c :: c in kids <==> c in runs && runs[c].parent == Some(r)
  }

  lemma {:induction false} InDescendantsOf(runs: Runs, kids: seq<RunId>, x: RunId)
    ensures x in DescendantsOf(runs, kids) <==> exists i :: 0 <= i < |kids| && x in Descendants(runs, kids[i])
  {
    if kids != [] {
      var n := |kids| - 1;
      InDescendantsOf(runs, kids[..n], x);
      if i :| 0 <= i < |kids| && x in Descendants(runs, kids[i]) { assert i < n ==> kids[..n][i] == kids[i]; }
      if x in DescendantsOf(runs, kids[..n]) {
        var i :| 0 <= i < n && x in Descendants(runs, kids[..n][i]);
        assert kids[i] == kids[..n][i];
      }
    }
  }

  /** The descendants of a run are itself and those of its children. */
  lemma DescendantsSplit(runs: Runs, r: RunId, kids: seq<RunId>, d: nat, root: RunId)
    requires r in runs && AreKids(runs, r, kids) && Up(runs, r, d) == Some(root) && IsRoot(runs, root)
    ensures Descendants(runs, r) == {r} + DescendantsOf(runs, kids)
    ensures r !in DescendantsOf(runs, kids)
  {
    assert Up(runs, r, 0) == Some(r);
    forall x ensures x in Descendants(runs, r) <==> x == r || x in DescendantsOf(runs, kids) {
      InDescendantsOf(runs, kids, x);
      if x in Descendants(runs, r) && x != r {
        var n: nat :| Up(runs, x, n) == Some(r);
        ThroughKid(runs, r, kids, x, n);
      }
      if x in DescendantsOf(runs, kids) {
        var i :| 0 <= i < |kids| && x in Descendants(runs, kids[i]);
        KidDescends(runs, r, kids, i, x);
      }
    }
    InDescendantsOf(runs, kids, r);
    forall i | 0 <= i < |kids| ensures r !in Descendants(runs, kids[i]) {
      NotBelowItself(runs, r, kids[i], d, root);
    }
  }

  lemma NotBelowItself(runs: Runs, r: RunId, kid: RunId, d: nat, root: RunId)
    requires kid in runs && runs[kid].parent == Some(r) && Up(runs, r, d) == Some(root) && IsRoot(runs, root)
    ensures r !in Descendants(runs, kid)
  {
    if r in Descendants(runs, kid) {
      var n: nat :| Up(runs, r, n) == Some(kid);
      UpAdd(runs, r, n, 1);
      NoReturn(runs, r, d, root, n + 1);
    }
  }

  lemma ThroughKid(runs: Runs, r: RunId, kids: seq<RunId>, x: RunId, n: nat)
    requires r in runs && AreKids(runs, r, kids) && Up(runs, x, n) == Some(r) && x != r
    ensures exists i :: 0 <= i < |kids| && x in Descendants(runs, kids[i])
  {
    UpAdd(runs, x, n - 1, 1);
    UpIsThere(runs, x, n - 1);
    var c := Up(runs, x, n - 1).value;
    assert c in kids;
    var i :| 0 <= i < |kids| && kids[i] == c;
    assert x in Descendants(runs, kids[i]);
  }

  lemma KidDescends(runs: Runs, r: RunId, kids: seq<RunId>, i: nat, x: RunId)
    requires r in runs && AreKids(runs, r, kids) && i < |kids| && x in Descendants(runs, kids[i])
    ensures x in Descendants(runs, r)
  {
    assert kids[i] in kids;
    var n: nat :| Up(runs, x, n) == Some(kids[i]);
    UpAdd(runs, x, n, 1);
    assert Up(runs, x, n + 1) == Some(r);
  }

  /** No run descends from two children of the same run. */
  lemma KidsDisjoint(runs: Runs, r: RunId, kids: seq<RunId>, k: nat, d: nat, root: RunId)
    requires r in runs && AreKids(runs, r, kids) && k < |kids| && Up(runs, r, d) == Some(root) && IsRoot(runs, root)
    ensures DescendantsOf(runs, kids[..k]) !! Descendants(runs, kids[k])
  {
    forall x | x in DescendantsOf(runs, kids[..k]) ensures x !in Descendants(runs, kids[k]) {
      InDescendantsOf(runs, kids[..k], x);
      var i :| 0 <= i < k && x in Descendants(runs, kids[..k][i]);
      assert kids[i] in kids && kids[k] in kids && kids[i] < kids[k];
      if x in Descendants(runs, kids[k]) {
        var n: nat :| Up(runs, x, n) == Some(kids[i]);
        var m: nat :| Up(runs, x, m) == Some(kids[k]);
        if n < m {
          Below(runs, r, kids[i], kids[k], x, n, m, d, root);
        } else {
          Below(runs, r, kids[k], kids[i], x, m, n, d, root);
        }
      }
    }
  }

  /** Two different siblings cannot lie on one chain. */
  lemma Below(runs: Runs, r: RunId, a: RunId, b: RunId, x: RunId, n: nat, m: nat, d: nat, root: RunId)
    requires a in runs && b in runs && runs[a].parent == Some(r) && runs[b].parent == Some(r) && r in runs
    requires Up(runs, x, n) == Some(a) && Up(runs, x, m) == Some(b) && n <= m
    requires Up(runs, r, d) == Some(root) && IsRoot(runs, root)
    ensures a == b
  {
    UpAdd(runs, x, n, m - n);
    if n < m {
      UpAdd(runs, a, 1, m - n - 1);
      NotBelowItself(runs, r, b, d, root);
    }
  }

  // ---------- the projected tree ----------

  function Size(n: Node): nat {
    1 + Sizes(n.children)
  }

  function Sizes(nodes: seq<Node>): nat {
    if nodes == [] then 0 else Sizes(nodes[..|nodes| - 1]) + Size(nodes[|nodes| - 1])
  }

  /** How often a run occurs in a tree. */
  function Occurs(n: Node, x: RunId): nat {
    (if n.id == x then 1 else 0) + OccursIn(n.children, x)
  }

  function OccursIn(nodes: seq<Node>, x: RunId): nat {
    if nodes == [] then 0 else OccursIn(nodes[..|nodes| - 1], x) + Occurs(nodes[|nodes| - 1], x)
  }

  /** Every node shows its own run, and its children are all of that run's children, sorted. */
  ghost predicate Shaped(runs: Runs, selected: RunId, n: Node) {
    && n.id in runs && n.parent == runs[n.id].parent && n.selected == (n.id == selected)
    && AreKids(runs, n.id, IdsOf(n.children))
    && forall i :: 0 <= i < |n.children| ==> Shaped(runs, selected, n.children[i])
  }

  function IdsOf(nodes: seq<Node>): (ids: seq<RunId>)
    ensures |ids| == |nodes| && forall i :: 0 <= i < |ids| ==> ids[i] == nodes[i].id
  {
    seq(|nodes|, i requires 0 <= i < |nodes| => nodes[i].id)
  }

  /** Exactly the descendants of a run, each once. */
  ghost predicate HoldsOnce(n: Node, descendants: set<RunId>) {
    Size(n) == |descendants| && forall x :: Occurs(n, x) == if x in descendants then 1 else 0
  }

  /** The path walked so far: the ancestors of the current run, from the root down. */
  ghost predicate OnPath(runs: Runs, current: RunId, path: seq<RunId>, root: RunId) {
    && current in runs && IsRoot(runs, root)
    && Up(runs, current, |path|) == Some(root)
    && forall j :: 0 <= j < |path| ==> Up(runs, current, |path| - j) == Some(path[j])
  }

  lemma PathIsFresh(runs: Runs, current: RunId, path: seq<RunId>, root: RunId)
    requires OnPath(runs, current, path, root)
    ensures current !in path && |path| < |runs|
  {
    forall j | 0 <= j < |path| ensures path[j] != current && path[j] in runs {
      NoReturn(runs, current, |path|, root, |path| - j);
      UpIsThere(runs, current, |path| - j);
    }
    forall i, j | 0 <= i < j < |path| ensures path[i] != path[j] {
      UpAdd(runs, current, |path| - j, j - i);
      UpAdd(runs, current, |path| - j, j);
      NoReturn(runs, path[j], j, root, j - i);
    }
    var all := path + [current];
    assert forall i, j :: 0 <= i < |all| && 0 <= j < |all| && all[i] == all[j] ==> i == j;
    FewerThanRuns(runs, all);
  }

  lemma PathExtends(runs: Runs, current: RunId, path: seq<RunId>, root: RunId, kid: RunId)
    requires OnPath(runs, current, path, root) && kid in runs && runs[kid].parent == Some(current)
    ensures OnPath(runs, kid, path + [current], root)
  {
    var longer := path + [current];
    forall j | 0 <= j < |longer| ensures Up(runs, kid, |longer| - j) == Some(longer[j]) {
      UpAdd(runs, kid, 1, |longer| - j - 1);
    }
    UpAdd(runs, kid, 1, |path|);
  }

  type ChildTable = map<RunId, set<RunId>>

  ghost predicate GroupsChildren(runs: Runs, table: ChildTable) {
    && (forall r, c :: r in table && c in table[r] ==> c in runs && runs[c].parent == Some(r))
    && (forall c :: c in runs && runs[c].parent.Some? && runs[c].parent.value in runs ==>
        runs[c].parent.value in table && c in table[runs[c].parent.value])
  }

  method GroupChildren(runs: Runs) returns (table: ChildTable)
    ensures GroupsChildren(runs, table)
  {
    table := map[];
    var rest := runs.Keys;
    while rest != {}
      invariant rest <= runs.Keys
      invariant forall r, c :: r in table && c in table[r] ==> c in runs && runs[c].parent == Some(r)
      invariant forall c :: c in runs && c !in rest && runs[c].parent.Some? && runs[c].parent.value in runs ==>
                  runs[c].parent.value in table && c in table[runs[c].parent.value]
      decreases |rest|
    {
      var c :| c in rest;
      var parent := runs[c].parent;
      if parent.Some? && parent.value in runs {
        table := table[parent.value := (if parent.value in table then table[parent.value] else {}) + {c}];
      }
      rest := rest - {c};
    }
  }

  method SortedKids(runs: Runs, table: ChildTable, r: RunId) returns (kids: seq<RunId>)
    requires GroupsChildren(runs, table) && r in runs
    ensures AreKids(runs, r, kids)
  {
    var group := if r in table then table[r] else {};
    kids := PlanDag.SortIds(group);
    assert forall c :: c in kids <==> c in PlanDag.Elems(kids);
  }

  /** Projects one run and everything below it, counting nodes as it goes. */
  method Project(runs: Runs, table: ChildTable, current: RunId, path: seq<RunId>, count: nat, max: nat, selected: RunId,
      ghost root: RunId)
    returns (r: Result<Node, LineageError>, count': nat)
    requires GroupsChildren(runs, table) && OnPath(runs, current, path, root) && count <= max
    ensures r.Ok? ==>
              r.value.id == current && Shaped(runs, selected, r.value) && HoldsOnce(r.value, Descendants(runs, current))
    ensures r.Ok? ==> count' == count + |Descendants(runs, current)| <= max
    ensures r.Err? ==> r.error == TooManyNodes && count + |Descendants(runs, current)| > max
    decreases |runs| - |path|
  {
    PathIsFresh(runs, current, path, root);
    if current in path { return Err(ProjectionCycle), count; }
    var kids := SortedKids(runs, table, current);
    DescendantsSplit(runs, current, kids, |path|, root);
    count' := count + 1;
    if count' > max { return Err(TooManyNodes), count'; }
    var nodes: seq<Node> := [];
    ghost var below: set<RunId> := {};
    for k := 0 to |kids|
      invariant Collected(runs, selected, kids[..k], nodes, below)
      invariant count' == count + 1 + |below| <= max
    {
      PathExtends(runs, current, path, root, kids[k]);
      ghost var before := below;
      NextKid(runs, current, kids, k, |path|, root);
      var child;
      child, count' := Project(runs, table, kids[k], path + [current], count', max, selected, root);
      if child.Err? {
        SomeBelow(runs, current, kids, k, |path|, root);
        return Err(child.error), count';
      }
      below := before + Descendants(runs, kids[k]);
      CollectNext(runs, selected, kids, k, nodes, before, child.value);
      nodes := nodes + [child.value];
    }
    assert kids[..|kids|] == kids;
    var node := Node(current, runs[current].parent, current == selected, nodes);
    Assembled(runs, selected, kids, node, below);
    r := Ok(node);
  }

  /** The children projected so far. */
  ghost predicate Collected(runs: Runs, selected: RunId, kids: seq<RunId>, nodes: seq<Node>, below: set<RunId>) {
    && IdsOf(nodes) == kids && below == DescendantsOf(runs, kids)
    && (forall i :: 0 <= i < |nodes| ==> Shaped(runs, selected, nodes[i]))
    && Sizes(nodes) == |below|
    && forall x :: OccursIn(nodes, x) == if x in below then 1 else 0
  }

  lemma NextKid(runs: Runs, r: RunId, kids: seq<RunId>, k: nat, d: nat, root: RunId)
    requires r in runs && AreKids(runs, r, kids) && k < |kids| && Up(runs, r, d) == Some(root) && IsRoot(runs, root)
    ensures DescendantsOf(runs, kids[..k + 1]) == DescendantsOf(runs, kids[..k]) + Descendants(runs, kids[k])
    ensures DescendantsOf(runs, kids[..k]) !! Descendants(runs, kids[k])
    ensures |DescendantsOf(runs, kids[..k + 1])| == |DescendantsOf(runs, kids[..k])| + |Descendants(runs, kids[k])|
  {
    assert kids[..k + 1][..k] == kids[..k];
    KidsDisjoint(runs, r, kids, k, d, root);
  }

  /** Some of a run's children have no more descendants than the run itself has below it. */
  lemma SomeBelow(runs: Runs, r: RunId, kids: seq<RunId>, k: nat, d: nat, root: RunId)
    requires r in runs && AreKids(runs, r, kids) && k < |kids| && Up(runs, r, d) == Some(root) && IsRoot(runs, root)
    ensures 1 + |DescendantsOf(runs, kids[..k])| + |Descendants(runs, kids[k])| <= |Descendants(runs, r)|
  {
    NextKid(runs, r, kids, k, d, root);
    DescendantsSplit(runs, r, kids, d, root);
    var some := DescendantsOf(runs, kids[..k + 1]);
    forall x | x in some ensures x in DescendantsOf(runs, kids) {
      InDescendantsOf(runs, kids[..k + 1], x);
      InDescendantsOf(runs, kids, x);
      var i :| 0 <= i < k + 1 && x in Descendants(runs, kids[..k + 1][i]);
      assert x in Descendants(runs, kids[i]);
    }
    SubsetSize({r} + some, Descendants(runs, r));
    assert |{r} + some| == 1 + |some|;
  }

  lemma CollectNext(runs: Runs, selected: RunId, kids: seq<RunId>, k: nat, nodes: seq<Node>, below: set<RunId>,
      child: Node)
    requires k < |kids| && Collected(runs, selected, kids[..k], nodes, below)
    requires child.id == kids[k] && Shaped(runs, selected, child) && HoldsOnce(child, Descendants(runs, kids[k]))
    requires below !! Descendants(runs, kids[k])
    ensures Collected(runs, selected, kids[..k + 1], nodes + [child], below + Descendants(runs, kids[k]))
  {
    var more := nodes + [child];
    assert more[..|nodes|] == nodes;
    assert kids[..k + 1][..k] == kids[..k];
    assert IdsOf(more) == kids[..k + 1];
    assert |below + Descendants(runs, kids[k])| == |below| + |Descendants(runs, kids[k])|;
    forall x ensures OccursIn(more, x) == if x in below + Descendants(runs, kids[k]) then 1 else 0 {
      assert OccursIn(more, x) == OccursIn(nodes, x) + Occurs(child, x);
    }
  }

  lemma Assembled(runs: Runs, selected: RunId, kids: seq<RunId>, node: Node, below: set<RunId>)
    requires node.id in runs && node.parent == runs[node.id].parent && node.selected == (node.id == selected)
    requires AreKids(runs, node.id, kids) && Collected(runs, selected, kids, node.children, below)
    requires Descendants(runs, node.id) == {node.id} + below && node.id !in below
    ensures Shaped(runs, selected, node) && HoldsOnce(node, Descendants(runs, node.id))
  {
    assert |Descendants(runs, node.id)| == 1 + |below|;
    forall x ensures Occurs(node, x) == if x in Descendants(runs, node.id) then 1 else 0 {
      assert Occurs(node, x) == (if node.id == x then 1 else 0) + OccursIn(node.children, x);
    }
  }

  // ---------- building ----------

  ghost predicate DistinctRuns(stored: seq<Run>) {
    forall i, j :: 0 <= i < |stored| && 0 <= j < |stored| && stored[i].id == stored[j].id ==> i == j
  }

  function ById(stored: seq<Run>): Runs
    requires DistinctRuns(stored)
  {
    map i | 0 <= i < |stored| :: stored[i].id := stored[i]
  }

  lemma ByIdSize(stored: seq<Run>)
    requires DistinctRuns(stored)
    ensures |ById(stored)| == |stored|
  {
    var ids := seq(|stored|, i requires 0 <= i < |stored| => stored[i].id);
    DistinctSize(ids);
    forall x ensures x in ById(stored) <==> x in ids {
      if x in ById(stored) {
        var i :| 0 <= i < |stored| && stored[i].id == x;
        assert ids[i] == x;
      }
      if x in ids {
        var i :| 0 <= i < |ids| && ids[i] == x;
        assert stored[i].id == x;
      }
    }
    assert ById(stored).Keys == PlanDag.Elems(ids);
    assert |ById(stored).Keys| == |ById(stored)|;
  }

  /** The runs a build looks at: the first listed ones, and the selected run. */
  function Window(stored: seq<Run>, max: nat, id: RunId): Runs
    requires DistinctRuns(stored)
  {
    var listed := ById(stored[..if max < |stored| then max else |stored|]);
    var all := ById(stored);
    if id in all && id !in listed then listed[id := all[id]] else listed
  }

  /** A tree holds each descendant of the root of the selected run's lineage exactly once and
      nothing else; building fails exactly for an unknown run, a broken lineage, a cyclic
      one, or too many descendants. */
  method Build(stored: seq<Run>, max: nat, id: RunId) returns (r: Result<Tree, LineageError>)
    requires DistinctRuns(stored) && max >= 1
    ensures r == Err(UnknownRun) <==> id !in ById(stored)
    ensures id in ById(stored) ==> Answers(Window(stored, max, id), max, id, r)
  {
    var all := ById(stored);
    if id !in all { return Err(UnknownRun); }
    var runs := Window(stored, max, id);
    var root := RootId(id, runs);
    if root.Err? { return Err(root.error); }
    var table := GroupChildren(runs);
    assert OnPath(runs, root.value, [], root.value);
    var node, count := Project(runs, table, root.value, [], 0, max, id, root.value);
    r := if node.Err? then Err(node.error) else Ok(Tree(id, node.value, count));
  }

  ghost predicate Answers(runs: Runs, max: nat, id: RunId, r: Result<Tree, LineageError>) {
    match r
    case Ok(t) =>
      && t.selected == id && RootIs(runs, id, t.root.id) && Shaped(runs, id, t.root)
      && HoldsOnce(t.root, Descendants(runs, t.root.id))
      && t.count == Size(t.root) && t.count <= max
    case Err(MissingParent(p)) => Broken(runs, id, p)
    case Err(AncestorCycle) => Endless(runs, id)
    case Err(TooManyNodes) => exists root :: RootIs(runs, id, root) && |Descendants(runs, root)| > max
    case Err(_) => false
  }

  /** The answers exclude each other, so each happens exactly when its condition holds. */
  lemma AnswerIff(runs: Runs, max: nat, id: RunId, r: Result<Tree, LineageError>)
    requires id in runs && Answers(runs, max, id, r)
    ensures r.Ok? <==> exists root :: RootIs(runs, id, root) && |Descendants(runs, root)| <= max
    ensures r == Err(AncestorCycle) <==> Endless(runs, id)
    ensures (exists p: RunId :: r == Err(MissingParent(p))) <==> exists p: RunId :: Broken(runs, id, p)
    ensures r == Err(TooManyNodes) <==> exists root :: RootIs(runs, id, root) && |Descendants(runs, root)| > max
  {
    forall root | RootIs(runs, id, root)
      ensures !Endless(runs, id) && (forall p: RunId :: !Broken(runs, id, p))
              && (forall other :: RootIs(runs, id, other) ==> other == root) {
      RootExcludes(runs, id, root);
    }
    forall p: RunId | Broken(runs, id, p) ensures !Endless(runs, id) {
      var n: nat, x :| x in runs && Up(runs, id, n) == Some(x) && runs[x].parent == Some(p);
      OneEnd(runs, id, n, x, n);
    }
    match r
    case Ok(t) => assert RootIs(runs, id, t.root.id);
    case Err(e) =>
  }

  lemma RootExcludes(runs: Runs, id: RunId, root: RunId)
    requires RootIs(runs, id, root)
    ensures !Endless(runs, id)
    ensures forall p: RunId :: !Broken(runs, id, p)
    ensures forall other :: RootIs(runs, id, other) ==> other == root
  {
    var n: nat :| Up(runs, id, n) == Some(root);
    OneEnd(runs, id, n, root, n);
    forall p: RunId ensures !Broken(runs, id, p) {
      if Broken(runs, id, p) {
        var m: nat, x :| x in runs && Up(runs, id, m) == Some(x) && runs[x].parent == Some(p);
        OneEnd(runs, id, n, root, m);
        OneEnd(runs, id, m, x, n);
      }
    }
    forall other | RootIs(runs, id, other) ensures other == root {
      var m: nat :| Up(runs, id, m) == Some(other);
      OneEnd(runs, id, n, root, m);
      OneEnd(runs, id, m, other, n);
    }
  }

  /** The selected run is marked, and only once. */
  lemma SelectedOnce(runs: Runs, max: nat, id: RunId, t: Tree)
    requires id in runs && Answers(runs, max, id, Ok(t))
    ensures Occurs(t.root, id) == 1
  {
    assert Descends(runs, id, t.root.id);
  }

  /** With no more runs stored than listed, the build sees them all and never finds too many. */
  lemma SmallStoreIsExact(stored: seq<Run>, max: nat, id: RunId)
    requires DistinctRuns(stored) && |stored| <= max
    ensures Window(stored, max, id) == ById(stored)
    ensures forall root :: |Descendants(ById(stored), root)| <= max
  {
    assert stored[..|stored|] == stored;
    ByIdSize(stored);
    forall root ensures |Descendants(ById(stored), root)| <= max {
      SubsetSize(Descendants(ById(stored), root), ById(stored).Keys);
      assert |ById(stored).Keys| == |stored|;
    }
  }

  // ---------- more runs stored than listed ----------

  /** The runs a build sees: the first `max` stored ones, and the selected one. */
  lemma WindowIs(stored: seq<Run>, max: nat, id: RunId, x: RunId)
    requires DistinctRuns(stored) && id in ById(stored)
    ensures x in Window(stored, max, id) <==> x == id || exists i :: 0 <= i < |stored| && i < max && stored[i].id == x
    ensures x in Window(stored, max, id) ==> x in ById(stored) && Window(stored, max, id)[x] == ById(stored)[x]
  {
    ListedAre(stored, if max < |stored| then max else |stored|, x);
  }

  lemma ListedAre(stored: seq<Run>, n: nat, x: RunId)
    requires DistinctRuns(stored) && n <= |stored|
    ensures x in ById(stored[..n]) <==> exists i :: 0 <= i < n && stored[i].id == x
    ensures x in ById(stored[..n]) ==> x in ById(stored) && ById(stored[..n])[x] == ById(stored)[x]
  {
    var listed := stored[..n];
    if x in ById(listed) {
      var i :| 0 <= i < n && listed[i].id == x;
      assert stored[i] == listed[i];
    }
    if i :| 0 <= i < n && stored[i].id == x { assert listed[i].id == x; }
  }

  ghost predicate Within(some: Runs, all: Runs) {
    forall x :: x in some ==> x in all && some[x] == all[x]
  }

  lemma WindowWithin(stored: seq<Run>, max: nat, id: RunId)
    requires DistinctRuns(stored) && id in ById(stored)
    ensures Within(Window(stored, max, id), ById(stored))
  {
    forall x | x in Window(stored, max, id) ensures x in ById(stored) && Window(stored, max, id)[x] == ById(stored)[x] {
      WindowIs(stored, max, id, x);
    }
  }

  /** A chain among some of the runs is a chain among all, and the converse as far as its runs
      are there. */
  lemma {:induction false} SameChain(some: Runs, all: Runs, x: RunId, n: nat)
    requires Within(some, all)
    ensures Up(some, x, n).Some? ==> Up(all, x, n) == Up(some, x, n)
    ensures (forall k: nat :: k <= n && Up(all, x, k).Some? ==> Up(all, x, k).value in some) ==>
              Up(some, x, n) == Up(all, x, n)
    decreases n
  {
    assert x in all ==> Up(all, x, 0) == Some(x);
    if n > 0 && x in all && all[x].parent.Some? {
      var p := all[x].parent.value;
      SameChain(some, all, p, n - 1);
      if forall k: nat :: k <= n && Up(all, x, k).Some? ==> Up(all, x, k).value in some {
        forall k: nat | k <= n - 1 && Up(all, p, k).Some? ensures Up(all, p, k).value in some {
          assert Up(all, x, k + 1) == Up(all, p, k);
        }
      }
    }
  }

  /** Whoever lies on the chain from a descendant to the root is a descendant. */
  lemma ChainDescends(all: Runs, x: RunId, n: nat, root: RunId, k: nat)
    requires Up(all, x, n) == Some(root) && k <= n && Up(all, x, k).Some?
    ensures Up(all, x, k).value in Descendants(all, root)
  {
    UpAdd(all, x, k, n - k);
    UpIsThere(all, x, k);
  }

  /** The tree of the listed runs has all descendants of its root exactly when every stored
      descendant is listed or is the selected run. */
  lemma TreeIsWholeIff(stored: seq<Run>, max: nat, id: RunId, root: RunId)
    requires DistinctRuns(stored) && id in ById(stored)
    requires RootIs(Window(stored, max, id), id, root) && RootIs(ById(stored), id, root)
    ensures Descendants(Window(stored, max, id), root) == Descendants(ById(stored), root) <==>
              forall x :: x in Descendants(ById(stored), root) ==>
                x == id || exists i :: 0 <= i < |stored| && i < max && stored[i].id == x
  {
    var some, all := Window(stored, max, id), ById(stored);
    WindowWithin(stored, max, id);
    forall x ensures x in some <==> x == id || exists i :: 0 <= i < |stored| && i < max && stored[i].id == x {
      WindowIs(stored, max, id, x);
    }
    SeenDescend(some, all, root);
    if forall x :: x in Descendants(all, root) ==> x in some { AllSeenDescend(some, all, root); }
  }

  /** So a tree that is built holds every stored descendant of the lineage's root exactly under
      that condition. */
  lemma BuiltTreeIsWholeIff(stored: seq<Run>, max: nat, id: RunId, root: RunId, t: Tree)
    requires DistinctRuns(stored) && id in ById(stored) && RootIs(ById(stored), id, root)
    requires Answers(Window(stored, max, id), max, id, Ok(t))
    ensures t.root.id == root
    ensures HoldsOnce(t.root, Descendants(ById(stored), root)) <==>
              forall x :: x in Descendants(ById(stored), root) ==>
                x == id || exists i :: 0 <= i < |stored| && i < max && stored[i].id == x
  {
    var some, all := Window(stored, max, id), ById(stored);
    WindowWithin(stored, max, id);
    var n: nat :| Up(some, id, n) == Some(t.root.id);
    SameChain(some, all, id, n);
    RootExcludes(all, id, root);
    assert RootIs(all, id, t.root.id);
    TreeIsWholeIff(stored, max, id, root);
    if HoldsOnce(t.root, Descendants(all, root)) {
      assert forall x :: x in Descendants(all, root) <==> Occurs(t.root, x) == 1;
      assert Descendants(all, root) == Descendants(some, root);
    }
  }

  lemma SeenDescend(some: Runs, all: Runs, root: RunId)
    requires Within(some, all)
    ensures Descendants(some, root) <= Descendants(all, root)
  {
    forall x | x in Descendants(some, root) ensures x in Descendants(all, root) {
      var n: nat :| Up(some, x, n) == Some(root);
      SameChain(some, all, x, n);
    }
  }

  lemma AllSeenDescend(some: Runs, all: Runs, root: RunId)
    requires Within(some, all) && forall x :: x in Descendants(all, root) ==> x in some
    ensures Descendants(all, root) <= Descendants(some, root)
  {
    forall x | x in Descendants(all, root) ensures x in Descendants(some, root) {
      var n: nat :| Up(all, x, n) == Some(root);
      forall k: nat | k <= n && Up(all, x, k).Some? ensures Up(all, x, k).value in some {
        ChainDescends(all, x, n, root, k);
      }
      SameChain(some, all, x, n);
    }
  }

  /** A tree that is too large is refused only if the selected run is not among the listed ones
      and everything listed descends from the root; any other is cut down without a word. */
  lemma RefusedIff(stored: seq<Run>, max: nat, id: RunId, root: RunId)
    requires DistinctRuns(stored) && id in ById(stored) && RootIs(Window(stored, max, id), id, root)
    ensures |Descendants(Window(stored, max, id), root)| > max <==>
              |Window(stored, max, id)| == max + 1
                && Descendants(Window(stored, max, id), root) == Window(stored, max, id).Keys
  {
    var some := Window(stored, max, id);
    WindowSize(stored, max, id);
    assert |some.Keys| == |some|;
    SubsetSize(Descendants(some, root), some.Keys);
    if |Descendants(some, root)| > max { SubsetEqual(Descendants(some, root), some.Keys); }
  }

  lemma SubsetEqual(a: set<RunId>, b: set<RunId>)
    requires a <= b && |a| == |b|
    ensures a == b
  {
    assert b == a + (b - a);
    assert |b - a| == 0;
  }

  lemma WindowSize(stored: seq<Run>, max: nat, id: RunId)
    requires DistinctRuns(stored)
    ensures |Window(stored, max, id)| <= max + 1
  {
    ByIdSize(stored[..if max < |stored| then max else |stored|]);
  }

  /** Two runs stored, one listed: the build answers with a tree of one node and drops the
      descendant, although the tree has more nodes than allowed. */
  lemma LargeTreeIsCut()
    ensures exists stored, max: nat, id :: DistinctRuns(stored) && max >= 1 && RootIs(ById(stored), id, id) &&
              |Descendants(ById(stored), id)| > max &&
              forall r :: Answers(Window(stored, max, id), max, id, r) ==> r.Ok? && r.value.count == 1
  {
    var stored := [Run(0, None), Run(1, Some(0))];
    TwoStored(stored);
    LoneRun(Window(stored, 1, 0));
  }

  lemma TwoStored(stored: seq<Run>)
    requires stored == [Run(0, None), Run(1, Some(0))]
    ensures DistinctRuns(stored) && RootIs(ById(stored), 0, 0) && |Descendants(ById(stored), 0)| > 1
    ensures Window(stored, 1, 0) == map[0 := Run(0, None)]
  {
    var all := ById(stored);
    assert all[stored[0].id] == stored[0] && all[stored[1].id] == stored[1];
    assert Up(all, 0, 0) == Some(0) && Up(all, 1, 1) == Up(all, 0, 0);
    assert {0, 1} <= Descendants(all, 0);
    SubsetSize({0, 1}, Descendants(all, 0));
    assert stored[..1] == [stored[0]];
  }

  lemma LoneRun(runs: Runs)
    requires runs == map[0 := Run(0, None)]
    ensures forall r :: Answers(runs, 1, 0, r) ==> r.Ok? && r.value.count == 1
  {
    assert Up(runs, 0, 0) == Some(0);
    assert RootIs(runs, 0, 0);
    SubsetSize(Descendants(runs, 0), {0});
    RootExcludes(runs, 0, 0);
    forall r | Answers(runs, 1, 0, r) ensures r.Ok? && r.value.count == 1 {
      AnswerIff(runs, 1, 0, r);
    }
  }

  /** With more runs stored than listed, an intact lineage looks broken exactly when one of its
      ancestors is not listed. */
  lemma HiddenParentIff(stored: seq<Run>, max: nat, id: RunId, root: RunId)
    requires DistinctRuns(stored) && id in ById(stored) && RootIs(ById(stored), id, root)
    ensures (exists p: RunId :: Broken(Window(stored, max, id), id, p)) <==>
              exists n: nat ::
                  Up(ById(stored), id, n).Some? && Up(ById(stored), id, n).value !in Window(stored, max, id)
  {
    var some, all := Window(stored, max, id), ById(stored);
    WindowWithin(stored, max, id);
    WindowIs(stored, max, id, id);
    if p: RunId :| Broken(some, id, p) { BrokenHides(some, all, id, root, p); }
    if n: nat :| Up(all, id, n).Some? && Up(all, id, n).value !in some { FirstHidden(some, all, id, n); }
  }

  lemma BrokenHides(some: Runs, all: Runs, id: RunId, root: RunId, p: RunId)
    requires Within(some, all) && RootIs(all, id, root) && Broken(some, id, p)
    ensures exists n: nat :: Up(all, id, n) == Some(p) && p !in some
  {
    var n: nat, x :| x in some && Up(some, id, n) == Some(x) && some[x].parent == Some(p);
    SameChain(some, all, id, n);
    RootIsNotHidden(all, id, root, n, p);
    UpAdd(all, id, n, 1);
    assert Up(all, x, 1) == Up(all, p, 0);
  }

  /** In an intact lineage every parent named is there. */
  lemma RootIsNotHidden(all: Runs, id: RunId, root: RunId, n: nat, p: RunId)
    requires RootIs(all, id, root) && Up(all, id, n).Some? && Up(all, id, n).value in all
             && all[Up(all, id, n).value].parent == Some(p)
    ensures p in all
  {
    var d: nat :| Up(all, id, d) == Some(root);
    if d <= n {
      OneEnd(all, id, d, root, n);
    } else {
      UpAdd(all, id, n, 1);
      UpAdd(all, id, n + 1, d - n - 1);
    }
  }

  lemma {:induction false} FirstHidden(some: Runs, all: Runs, id: RunId, n: nat)
    requires Within(some, all) && id in some && Up(all, id, n).Some? && Up(all, id, n).value !in some
    ensures exists p: RunId :: Broken(some, id, p)
  {
    UpAdd(all, id, n - 1, 1);
    UpIsThere(all, id, n - 1);
    var x := Up(all, id, n - 1).value;
    if x in some {
      if forall k: nat :: k <= n - 1 && Up(all, id, k).Some? ==> Up(all, id, k).value in some {
        SameChain(some, all, id, n - 1);
        assert Broken(some, id, Up(all, id, n).value);
      } else {
        var k: nat :| k <= n - 1 && Up(all, id, k).Some? && Up(all, id, k).value !in some;
        FirstHidden(some, all, id, k);
      }
    } else {
      FirstHidden(some, all, id, n - 1);
    }
  }

  /** Such a lineage: the parent is stored but not listed. */
  lemma LargeStoreHidesParents()
    ensures exists stored, max: nat, id :: DistinctRuns(stored) && max >= 1 &&
              RootIs(ById(stored), id, 1) && Broken(Window(stored, max, id), id, 1)
  {
    var stored := [Run(0, None), Run(1, None), Run(2, Some(1))];
    assert DistinctRuns(stored);
    var all, seen := ById(stored), Window(stored, 1, 2);
    assert stored[..1] == [stored[0]];
    assert all[stored[2].id] == stored[2] && all[stored[1].id] == stored[1];
    assert Up(all, 2, 1) == Up(all, 1, 0) == Some(1);
    assert RootIs(all, 2, 1);
    assert seen == map[0 := stored[0], 2 := stored[2]];
    assert Up(seen, 2, 0) == Some(2) && seen[2].parent == Some(1);
    assert Broken(seen, 2, 1);
  }
}
