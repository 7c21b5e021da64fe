/** The parts of a plan still to do: what a first run keeps in a list, what a continuation reads from the log. */
module PlanProgress {
  import opened Common
  import opened TaskEvents
  import opened PlanDag
  import opened StepFolds

  // ---------- a first run: the list of remaining steps ----------

  function Remaining(plan: Plan, done: set<StepId>): seq<Step> {
    if plan == [] then []
    else (if plan[0].id in done then [] else [plan[0]]) + Remaining(plan[1..], done)
  }

  lemma {:induction false} RemainingMembers(plan: Plan, done: set<StepId>)
    ensures forall s :: s in Remaining(plan, done) <==> s in plan && s.id !in done
  {
    if plan != [] {
      RemainingMembers(plan[1..], done);
      assert plan == [plan[0]] + plan[1..];
    }
  }

  /** List removal: the first equal element goes. */
  function Without(steps: seq<Step>, step: Step): seq<Step> {
    if steps == [] then []
    else if steps[0] == step then steps[1..]
    else [steps[0]] + Without(steps[1..], step)
  }

  /** Removing a step from the list is doing it. */
  lemma WithoutIsDone(plan: Plan, done: set<StepId>, step: Step)
    requires DistinctIds(plan) && step in plan && step.id !in done
    ensures Without(Remaining(plan, done), step) == Remaining(plan, done + {step.id})
  {
    var k :| 0 <= k < |plan| && plan[k] == step;
    assert forall i :: 0 <= i < |plan| && i != k ==> plan[i].id != plan[k].id;
    WithoutAt(plan, done, k);
  }

  lemma {:induction false} WithoutAt(plan: Plan, done: set<StepId>, k: nat)
    requires k < |plan| && plan[k].id !in done
    requires forall i :: 0 <= i < |plan| && i != k ==> plan[i].id != plan[k].id
    ensures Without(Remaining(plan, done), plan[k]) == Remaining(plan, done + {plan[k].id})
  {
    var rest := Remaining(plan[1..], done);
    if k == 0 {
      RemainingIgnores(plan[1..], done, plan[0].id);
      assert ([plan[0]] + rest)[1..] == rest;
    } else {
      WithoutAt(plan[1..], done, k - 1);
      assert plan[1..][k - 1] == plan[k] && plan[0].id != plan[k].id;
      assert ([plan[0]] + rest)[1..] == rest && [] + rest == rest;
      var rest' := Remaining(plan[1..], done + {plan[k].id});
      assert [] + rest' == rest';
    }
  }

  lemma {:induction false} RemainingIgnores(plan: Plan, done: set<StepId>, id: StepId)
    requires forall i :: 0 <= i < |plan| ==> plan[i].id != id
    ensures Remaining(plan, done + {id}) == Remaining(plan, done)
  {
    if plan != [] { RemainingIgnores(plan[1..], done, id); }
  }

  function ReadySteps(remaining: seq<Step>, done: set<StepId>): (r: seq<Step>)
    ensures forall s :: s in r <==> s in remaining && Within(s, done)
  {
    if remaining == [] then []
    else (if Within(remaining[0], done) then [remaining[0]] else []) + ReadySteps(remaining[1..], done)
  }

  /** A plan in linear order always has an executable frontier. */
  lemma FrontierExists(plan: Plan, done: set<StepId>)
    requires LinearOrder(plan) && Remaining(plan, done) != []
    ensures ReadySteps(Remaining(plan, done), done) != []
  {
    var some := Remaining(plan, done)[0];
    RemainingMembers(plan, done);
    assert some in Remaining(plan, done);
    var k :| 0 <= k < |plan| && plan[k] == some;
    var first := FirstNotDone(plan, done, k);
    assert Within(plan[first], Ids(plan[..first]));
    forall x | x in Ids(plan[..first]) ensures x in done {
      var j := EarlierStep(plan, first, x);
    }
    assert plan[first] in ReadySteps(Remaining(plan, done), done);
  }

  lemma {:induction false} FirstNotDone(plan: Plan, done: set<StepId>, k: nat) returns (i: nat)
    requires k < |plan| && plan[k].id !in done
    ensures i <= k && plan[i].id !in done && forall j :: 0 <= j < i ==> plan[j].id in done
  {
    if j :| 0 <= j < k && plan[j].id !in done {
      i := FirstNotDone(plan, done, j);
    } else {
      i := k;
    }
  }

  lemma {:induction false} ReadyDistinct(plan: Plan, done: set<StepId>, ready: seq<Step>)
    requires DistinctIds(plan) && ready == ReadySteps(Remaining(plan, done), done)
    ensures DistinctIds(ready)
  {
    RemainingDistinct(plan, done);
    ReadyKeepsDistinct(Remaining(plan, done), done);
  }

  lemma {:induction false} RemainingDistinct(plan: Plan, done: set<StepId>)
    requires DistinctIds(plan)
    ensures DistinctIds(Remaining(plan, done))
  {
    if plan != [] {
      RemainingDistinct(plan[1..], done);
      RemainingMembers(plan[1..], done);
      PrependDistinct(plan[0], Remaining(plan[1..], done));
    }
  }

  lemma {:induction false} ReadyKeepsDistinct(steps: seq<Step>, done: set<StepId>)
    requires DistinctIds(steps)
    ensures DistinctIds(ReadySteps(steps, done))
  {
    if steps != [] {
      ReadyKeepsDistinct(steps[1..], done);
      PrependDistinct(steps[0], ReadySteps(steps[1..], done));
    }
  }

  lemma PrependDistinct(s: Step, rest: seq<Step>)
    requires DistinctIds(rest) && forall t :: t in rest ==> t.id != s.id
    ensures DistinctIds([s] + rest)
  {
  }

  // ---------- a continuation: what the projection of the log says ----------

  /** A step waiting for an answer counts as blocked if it has not been decided. */
  function Projected(log: seq<Event>, open: set<Option<StepId>>, s: StepId): StepStatus {
    if Some(s) in open && StatusOf(log, s) in {Pending, Running} then Blocked else StatusOf(log, s)
  }

  function Incomplete(order: seq<StepId>, log: seq<Event>): (r: seq<StepId>)
    ensures forall s :: s in r <==> s in order && StatusOf(log, s) != Passed
  {
    if order == [] then []
    else (if StatusOf(log, order[0]) != Passed then [order[0]] else []) + Incomplete(order[1..], log)
  }

  function StepById(plan: Plan, id: StepId): (s: Step)
    requires id in Ids(plan)
    ensures s in plan && s.id == id
  {
    if plan[0].id == id then plan[0]
    else
      assert id in Ids(plan[1..]) by { var i :| 0 <= i < |plan| && plan[i].id == id; assert plan[1..][i - 1].id == id; }
      StepById(plan[1..], id)
  }

  /** The steps of the given projected status, in order. */
  function Having(plan: Plan, order: seq<StepId>, log: seq<Event>, open: set<Option<StepId>>,
      status: StepStatus): (r: seq<Step>)
    requires forall x :: x in order ==> x in Ids(plan)
    ensures forall s :: s in r ==> s in plan && s.id in order && Projected(log, open, s.id) == status
    ensures forall x :: x in order && Projected(log, open, x) == status ==> StepById(plan, x) in r
  {
    if order == [] then []
    else
      (if Projected(log, open, order[0]) == status then [StepById(plan, order[0])]
        else []) + Having(plan, order[1..], log, open, status)
  }

  function KeepUnblocked(steps: seq<Step>, log: seq<Event>): (r: seq<Step>)
    ensures forall s :: s in r <==> s in steps && Unblocked(s, log)
  {
    if steps == [] then []
    else (if Unblocked(steps[0], log) then [steps[0]] else []) + KeepUnblocked(steps[1..], log)
  }

  /** The steps never started whose dependencies have all passed, in order. */
  function Frontier(plan: Plan, order: seq<StepId>, log: seq<Event>, open: set<Option<StepId>>): seq<Step>
    requires forall x :: x in order ==> x in Ids(plan)
  {
    KeepUnblocked(Having(plan, order, log, open, Pending), log)
  }

  predicate Unblocked(s: Step, log: seq<Event>) {
    forall d :: d in s.dependsOn ==> StatusOf(log, d) == Passed
  }

  lemma {:induction false} HavingDistinct(plan: Plan, order: seq<StepId>, log: seq<Event>, open: set<Option<StepId>>,
      status: StepStatus)
    requires forall x :: x in order ==> x in Ids(plan)
    requires forall i, j :: 0 <= i < |order| && 0 <= j < |order| && order[i] == order[j] ==> i == j
    ensures DistinctIds(Having(plan, order, log, open, status))
  {
    if order != [] {
      HavingDistinct(plan, order[1..], log, open, status);
      assert order[0] !in order[1..];
      PrependDistinct(StepById(plan, order[0]), Having(plan, order[1..], log, open, status));
    }
  }

  lemma {:induction false} KeepDistinct(steps: seq<Step>, log: seq<Event>)
    requires DistinctIds(steps)
    ensures DistinctIds(KeepUnblocked(steps, log))
  {
    if steps != [] {
      KeepDistinct(steps[1..], log);
      PrependDistinct(steps[0], KeepUnblocked(steps[1..], log));
    }
  }

  lemma NoneUnfinished(plan: Plan, order: seq<StepId>, log: seq<Event>)
    requires Topological(plan, order) && Incomplete(order, log) == []
    ensures !HasUnfinished(plan, log)
  {
    forall i | 0 <= i < |plan| ensures StatusOf(log, plan[i].id) == Passed {
      assert plan[i].id in Elems(order) && plan[i].id !in Incomplete(order, log);
    }
  }

  lemma SomeUnfinished(plan: Plan, order: seq<StepId>, log: seq<Event>)
    requires Topological(plan, order) && Incomplete(order, log) != []
    ensures HasUnfinished(plan, log)
  {
    var x := Incomplete(order, log)[0];
    assert x in Incomplete(order, log) && x in Elems(order);
    var i :| 0 <= i < |plan| && plan[i].id == x;
  }

  /** A continuation starts each step at most once, and only one that had never started; and
      it loses no result. */
  ghost predicate Continued(a: seq<Event>, b: seq<Event>) {
    KeepsResults(a, b) && forall s :: ContinuedStep(a, b, s)
  }

  ghost predicate ContinuedStep(a: seq<Event>, b: seq<Event>, s: StepId) {
    && Starts(a, s) <= Starts(b, s) <= Starts(a, s) + 1
    && (StatusOf(a, s) != Pending ==> Starts(b, s) == Starts(a, s) && StatusOf(b, s) != Pending)
    && (StatusOf(b, s) == Pending ==> Starts(b, s) == Starts(a, s))
  }

  lemma ContinuedTwice(a: seq<Event>, b: seq<Event>, c: seq<Event>)
    requires Continued(a, b) && Continued(b, c)
    ensures Continued(a, c)
  {
    forall s ensures ContinuedStep(a, c, s) {
      assert ContinuedStep(a, b, s) && ContinuedStep(b, c, s);
    }
  }

  ghost function Unfinished(plan: Plan, log: seq<Event>): set<StepId> {
    set s | s in Ids(plan) && StatusOf(log, s) != Passed
  }

  /** Without open questions, a continuation stalls only on a step that has all its
      dependencies, was started and did not pass. */
  lemma StallMeansStarted(plan: Plan, order: seq<StepId>, log: seq<Event>)
    requires LinearOrder(plan) && DistinctIds(plan) && Topological(plan, order)
    requires Incomplete(order, log) != [] && Frontier(plan, order, log, {}) == []
    ensures exists i :: 0 <= i < |plan| && StatusOf(log, plan[i].id) !in {Pending, Passed} && Unblocked(plan[i], log)
  {
    var x := Incomplete(order, log)[0];
    assert x in Incomplete(order, log) && x in Elems(order);
    var k := EarlierStep(plan[..], |plan|, x);
    var done := set s | s in Ids(plan) && StatusOf(log, s) == Passed;
    var i := FirstNotDone(plan, done, k);
    assert Within(plan[i], Ids(plan[..i]));
    forall d | d in plan[i].dependsOn ensures StatusOf(log, d) == Passed {
      var j := EarlierStep(plan, i, d);
      assert plan[j].id in done;
    }
    assert Unblocked(plan[i], log);
    NoFrontierStalls(plan, order, log);
  }

  /** No step that never started has all its dependencies passed. */
  predicate Stalled(plan: Plan, log: seq<Event>) {
    forall i :: 0 <= i < |plan| && StatusOf(log, plan[i].id) == Pending ==> !Unblocked(plan[i], log)
  }

  lemma NoFrontierStalls(plan: Plan, order: seq<StepId>, log: seq<Event>)
    requires DistinctIds(plan) && Topological(plan, order) && Frontier(plan, order, log, {}) == []
    ensures Stalled(plan, log)
  {
    forall i | 0 <= i < |plan| && StatusOf(log, plan[i].id) == Pending ensures !Unblocked(plan[i], log) {
      var s, pending := StepById(plan, plan[i].id), Having(plan, order, log, {}, Pending);
      assert s == plan[i] && s.id in Elems(order);
      assert Projected(log, {}, s.id) == Pending && s in pending;
      assert s in KeepUnblocked(pending, log) <==> s in pending && Unblocked(s, log);
    }
  }

  predicate HasUnfinished(plan: Plan, log: seq<Event>) {
    exists i :: 0 <= i < |plan| && StatusOf(log, plan[i].id) != Passed
  }

  lemma {:induction false} RemainingAll(plan: Plan)
    ensures Remaining(plan, {}) == plan
  {
    if plan != [] { RemainingAll(plan[1..]); }
  }

  lemma {:induction false} WithoutShorter(steps: seq<Step>, step: Step)
    requires step in steps
    ensures |Without(steps, step)| == |steps| - 1
  {
    if steps[0] != step { WithoutShorter(steps[1..], step); }
  }

  /** The steps that have started are those done, each once, and they passed. */
  ghost predicate DoneOnce(log: seq<Event>, done: set<StepId>) {
    && (forall s :: Starts(log, s) == if s in done then 1 else 0)
    && (forall s :: s in done ==> StatusOf(log, s) == Passed)
  }

  lemma IdsOfBatch(batch: seq<Step>, k: nat)
    requires DistinctIds(batch) && k < |batch|
    ensures batch[k].id !in Ids(batch[..k])
  {
  }

  lemma NothingDone(log: seq<Event>)
    requires log == [RunCreated]
    ensures DoneOnce(log, {}) && ResultsKept(log)
  {
    assert log[..0] == [];
  }

  /** A resumed call starts each step at most once, and only one in a status it may start from. */
  ghost predicate Resumed(a: seq<Event>, b: seq<Event>, may: set<StepStatus>) {
    a <= b && forall s :: ResumedStep(a, b, s, may)
  }

  ghost predicate ResumedStep(a: seq<Event>, b: seq<Event>, s: StepId, may: set<StepStatus>) {
    && Starts(a, s) <= Starts(b, s) <= Starts(a, s) + 1
    && (Starts(b, s) != Starts(a, s) ==> StatusOf(a, s) in may && StatusOf(b, s) != Pending)
    && (StatusOf(b, s) == Pending ==> StatusOf(a, s) == Pending)
  }

  lemma ResumedContinues(a: seq<Event>, b: seq<Event>, c: seq<Event>, may: set<StepStatus>)
    requires Resumed(a, b, may) && Continued(b, c) && b <= c && Pending in may
    ensures Resumed(a, c, may)
  {
    forall s ensures ResumedStep(a, c, s, may) {
      assert ResumedStep(a, b, s, may) && ContinuedStep(b, c, s);
    }
  }

  lemma UntouchedResumes(a: seq<Event>, b: seq<Event>, may: set<StepStatus>)
    requires a <= b && (forall s :: Project(b, s) == Project(a, s))
    requires forall s :: Starts(b, s) == Starts(a, s) && StatusOf(b, s) == StatusOf(a, s)
    ensures Resumed(a, b, may) && Continued(a, b)
  {
    forall s ensures ResumedStep(a, b, s, may) && ContinuedStep(a, b, s) { }
  }

  /** Events that tell nothing of steps do not matter before a resumption. */
  lemma ResumedAfter(a: seq<Event>, b: seq<Event>, c: seq<Event>, may: set<StepStatus>)
    requires a <= b && (forall s :: Starts(b, s) == Starts(a, s) && StatusOf(b, s) == StatusOf(a, s))
    requires Resumed(b, c, may)
    ensures Resumed(a, c, may)
  {
    forall s ensures ResumedStep(a, c, s, may) {
      assert ResumedStep(b, c, s, may);
    }
  }

  lemma SteadyUnfinished(plan: Plan, a: seq<Event>, b: seq<Event>)
    requires forall s :: StatusOf(b, s) == StatusOf(a, s)
    ensures Unfinished(plan, b) == Unfinished(plan, a)
  {
  }

  // ---------- what a crash or a pause left running ----------

  /** The step was running, and no question about it is open. */
  predicate Interrupted(plan: Plan, log: seq<Event>, open: set<Option<StepId>>, s: Step) {
    s in plan && StatusOf(log, s.id) == Running && Some(s.id) !in open
  }

  /** Several steps were interrupted together, and not all of them are safe in parallel. */
  ghost predicate Tangled(plan: Plan, log: seq<Event>, open: set<Option<StepId>>) {
    exists s, t :: Interrupted(plan, log, open, s) && Interrupted(plan, log, open, t) && s != t && !s.parallelSafe
  }

  /** Each interrupted step started again, once. */
  ghost predicate Restarted(plan: Plan, a: seq<Event>, b: seq<Event>, open: set<Option<StepId>>) {
    forall s :: Interrupted(plan, a, open, s) ==> Starts(b, s.id) == Starts(a, s.id) + 1
  }

  lemma HavingInterrupted(plan: Plan, order: seq<StepId>, log: seq<Event>, open: set<Option<StepId>>)
    requires DistinctIds(plan) && Topological(plan, order)
    ensures var running := Having(plan, order, log, open, Running);
            && (forall s :: s in running <==> Interrupted(plan, log, open, s))
            && (Tangled(plan, log, open) <==>
                 |running| > 1 && exists i :: 0 <= i < |running| && !running[i].parallelSafe)
  {
    var running := Having(plan, order, log, open, Running);
    HavingDistinct(plan, order, log, open, Running);
    forall s ensures s in running <==> Interrupted(plan, log, open, s) {
      if Interrupted(plan, log, open, s) {
        assert s.id in Elems(order);
        assert StepById(plan, s.id) == s;
      }
    }
    if |running| > 1 {
      forall i | 0 <= i < |running| && !running[i].parallelSafe ensures Tangled(plan, log, open) {
        var j := if i == 0 then 1 else 0;
        assert running[i] in running && running[j] in running;
      }
    }
  }

  // ---------- which step starts first ----------

  ghost predicate NothingStarts(a: seq<Event>, b: seq<Event>) {
    forall s :: Starts(b, s) == Starts(a, s)
  }

  /** Only steps that were running, and wait for no answer, started again. */
  ghost predicate OnlyReruns(a: seq<Event>, b: seq<Event>, open: set<Option<StepId>>) {
    forall s: StepId :: Starts(b, s) != Starts(a, s) ==> StatusOf(a, s) == Running && Some(s) !in open
  }

  /** Of all the steps started between the two logs, this one was first. */
  ghost predicate FirstStart(a: seq<Event>, b: seq<Event>, s: StepId) {
    exists i :: |a| <= i < |b| && b[i] == StepStarted(s) && forall j :: |a| <= j < i ==> !b[j].StepStarted?
  }

  ghost predicate StartsOnly(a: seq<Event>, b: seq<Event>, s: Option<StepId>) {
    NothingStarts(a, b) || (s.Some? && FirstStart(a, b, s.value))
  }

  lemma {:induction false} StartsGrow(a: seq<Event>, b: seq<Event>, s: StepId)
    requires a <= b
    ensures Starts(a, s) <= Starts(b, s)
    ensures forall j :: |a| <= j < |b| && b[j] == StepStarted(s) ==> Starts(a, s) < Starts(b, s)
    decreases |b|
  {
    if |a| == |b| {
      assert a == b;
    } else {
      StartsGrow(a, b[..|b| - 1], s);
    }
  }

  lemma NoStartBetween(a: seq<Event>, b: seq<Event>)
    requires a <= b && NothingStarts(a, b)
    ensures forall j :: |a| <= j < |b| ==> !b[j].StepStarted?
  {
    forall j | |a| <= j < |b| ensures !b[j].StepStarted? {
      if b[j].StepStarted? { StartsGrow(a, b, b[j].step); }
    }
  }

  /** If one step started more often and no other did, that step started first. */
  lemma {:induction false} FirstStartOf(a: seq<Event>, b: seq<Event>, s: StepId)
    requires a <= b && Starts(b, s) > Starts(a, s)
    requires forall t :: t != s ==> Starts(b, t) == Starts(a, t)
    ensures FirstStart(a, b, s)
    decreases |b|
  {
    assert |a| == |b| ==> a == b;
    var before := b[..|b| - 1];
    forall t | t != s ensures Starts(before, t) == Starts(a, t) {
      StartsGrow(a, before, t);
      StartsGrow(before, b, t);
    }
    if Starts(before, s) > Starts(a, s) {
      FirstStartOf(a, before, s);
      var i :| |a| <= i < |before| && before[i] == StepStarted(s)
        && forall j :: |a| <= j < i ==> !before[j].StepStarted?;
      assert b[i] == StepStarted(s) && forall j :: |a| <= j < i ==> b[j] == before[j];
    } else {
      StartsGrow(a, before, s);
      NoStartBetween(a, before);
      assert b[|before|] == StepStarted(s) && forall j :: |a| <= j < |before| ==> b[j] == before[j];
    }
  }

  lemma FirstStartCounts(a: seq<Event>, b: seq<Event>, s: StepId)
    requires a <= b && FirstStart(a, b, s)
    ensures Starts(a, s) < Starts(b, s)
  {
    StartsGrow(a, b, s);
  }

  lemma StartsAfter(a: seq<Event>, b: seq<Event>, c: seq<Event>, s: Option<StepId>)
    requires a <= b <= c && NothingStarts(a, b) && StartsOnly(b, c, s)
    ensures StartsOnly(a, c, s)
  {
    if !NothingStarts(b, c) {
      NoStartBetween(a, b);
      var i :| |b| <= i < |c| && c[i] == StepStarted(s.value) && forall j :: |b| <= j < i ==> !c[j].StepStarted?;
      assert forall j :: |a| <= j < |b| ==> c[j] == b[j];
      assert FirstStart(a, c, s.value);
    }
  }
}
