/**
  What the outside world sees: executions of the tool, and effects at a target that the steps
  of a run share. Every attempt of every step derives its own keys and presents them.
 */
module OutboxEffects {
  import opened SideEffects
  import opened OutboxPlan
  import opened OutboxMachine
  import opened OutboxInvariant
  import opened OutboxRecovery
  import opened SideEffectKeys

  // ---------- executions ----------

  /** However many workers run the call and wherever they crash, a call that is not safe
      to retry is executed at most once more than the operator declared any one of its
      records failed. */
  lemma AtMostOnce(c: Call, workers: nat, acts: seq<Action>, i: nat)
    requires !c.retrySafe && i < c.N
    ensures var s := Run(c, Init(c, workers), acts);
            |s.failedVerdicts| == c.N && s.executions <= 1 + s.failedVerdicts[i]
  {
    RunKeeps(c, workers, acts);
    var s := Run(c, Init(c, workers), acts);
    assert RecordInv(c, s, i);
  }

  /** The statuses of a record whose effect has happened, may have happened, or was undone. */
  const DONE: set<Status> := {Applied, Confirmed, Uncertain, Reverted}

  predicate NeverRuledFailed(acts: seq<Action>, i: nat) {
    forall k :: 0 <= k < |acts| ==> !(acts[k].Resolve? && acts[k].index == i && acts[k].verdict.VerdictFailed?)
  }

  /** Only a failure verdict on the record itself takes it back from having been done. */
  lemma StaysDone(c: Call, s: State, a: Action, i: nat)
    requires Inv(c, s) && i in s.recs && s.recs[i].status in DONE && NeverRuledFailed([a], i)
    ensures var s' := Do(c, s, a); i in s'.recs && s'.recs[i].status in DONE
  {
    assert !([a][0].Resolve? && [a][0].index == i && [a][0].verdict.VerdictFailed?);
    if a.Work? && a.worker < |s.workers| && s.workers[a.worker].Moving? && s.workers[a.worker].todo != [] {
      assert WellFormed(c, s.workers[a.worker]);
      assert WorkerMove(s.workers[a.worker].todo[0], c.retrySafe);
    }
  }

  lemma DoneMeansNoExecution(c: Call, s: State, a: Action, i: nat)
    requires OwnerInv(c, s) && i in s.recs && i < c.N && s.recs[i].status in DONE && NeverRuledFailed([a], i)
    ensures var s' := Do(c, s, a); s'.executions == s.executions && i in s'.recs && s'.recs[i].status in DONE
  {
    StaysDone(c, s, a, i);
    assert WellFormed(c, s.workers[0]);
    assert s.workers[0].Ready? ==> AllIn(Seen(s.workers[0]), {Dispatching});
  }

  /** With one owner, once a record is applied, confirmed, uncertain or reverted, the tool is
      not run again, whatever crashes, attempts and verdicts follow, unless the operator rules
      that very record failed. */
  lemma {:induction false} DoneIsNotRunAgain(c: Call, acts: seq<Action>, later: seq<Action>, i: nat)
    requires var s := Run(c, Init(c, 1), acts); i in s.recs && i < c.N && s.recs[i].status in DONE
    requires NeverRuledFailed(later, i)
    ensures var s, s' := Run(c, Init(c, 1), acts), Run(c, Init(c, 1), acts + later);
            s'.executions == s.executions && i in s'.recs && s'.recs[i].status in DONE
    decreases |later|
  {
    if later == [] {
      assert acts + later == acts;
    } else {
      var init, a := later[..|later| - 1], later[|later| - 1];
      assert (acts + later)[..|acts + later| - 1] == acts + init;
      DoneIsNotRunAgain(c, acts, init, i);
      OwnerRuns(c, acts + init);
      DoneMeansNoExecution(c, Run(c, Init(c, 1), acts + init), a, i);
    }
  }

  // ---------- one target for all steps ----------

  datatype Step = Step(name: string, intents: seq<Effect>, retrySafe: bool)

  /** A run of a plan; step names are unique in a plan. */
  datatype Job = Job(run: string, plan: string, steps: seq<Step>)

  ghost predicate ValidJob(job: Job) {
    forall i, j :: 0 <= i < |job.steps| && 0 <= j < |job.steps| && job.steps[i].name == job.steps[j].name ==> i == j
  }

  /** The call as an attempt of a step prepares it, keys included. */
  function Attempt(job: Job, j: nat): Call
    requires j < |job.steps|
  {
    PrepareCall(job.run, job.plan, job.steps[j].name, job.steps[j].intents, job.steps[j].retrySafe)
  }

  function KeyOf(job: Job, j: nat, i: nat): string
    requires j < |job.steps|
  {
    IntentKey(LogicalKey(job.run, job.plan, job.steps[j].name), i)
  }

  ghost predicate KeysOf(job: Job, j: nat, call: Call)
    requires j < |job.steps|
  {
    |call.keys| == |job.steps[j].intents| && forall i :: 0 <= i < |call.keys| ==> call.keys[i] == KeyOf(job, j, i)
  }

  /** One effect that the target has performed, and for whom. */
  datatype Performed = Performed(key: string, step: nat, intent: nat)

  /** `target` lists the effects performed; `reached` is every intent some execution reached. */
  datatype World = World(steps: seq<State>, target: seq<Performed>, reached: set<(nat, nat)>)

  /** An action on one step; if it runs the tool, the tool reaches the intents `touched`. */
  datatype Act = Act(step: nat, action: Action, touched: set<nat>)

  function Start(job: Job, workers: nat): World {
    World(seq(|job.steps|, j requires 0 <= j < |job.steps| => Init(Attempt(job, j), workers)), [], {})
  }

  predicate Executes(s: State, a: Action) {
    a.Work? && a.worker < |s.workers| && s.workers[a.worker].Ready?
  }

  predicate Knows(target: seq<Performed>, key: string) {
    exists k :: 0 <= k < |target| && target[k].key == key
  }

  /** A target that deduplicates performs an effect only for a key it does not know. */
  function PresentKey(target: seq<Performed>, key: string, j: nat, i: nat, dedups: bool): seq<Performed> {
    if dedups && Knows(target, key) then target else target + [Performed(key, j, i)]
  }

  /** The tool presents the first `n` keys of its call, as far as it reaches them. */
  function Present(target: seq<Performed>, call: Call, j: nat, n: nat, touched: set<nat>, dedups: bool): seq<Performed>
    requires n <= |call.keys|
  {
    if n == 0 then target
    else
      var before := Present(target, call, j, n - 1, touched, dedups);
      if n - 1 in touched then PresentKey(before, call.keys[n - 1], j, n - 1, dedups) else before
  }

  function DoStep(job: Job, dedups: bool, w: World, a: Act): World
    requires |w.steps| == |job.steps|
  {
    if a.step >= |w.steps| then w
    else
      var call := Attempt(job, a.step);
      var w' := w.(steps := w.steps[a.step := Do(call, w.steps[a.step], a.action)]);
      if !Executes(w.steps[a.step], a.action) then w'
      else
        w'.(target := Present(w.target, call, a.step, call.N, a.touched, dedups),
            reached := w.reached + set i | i in a.touched && i < call.N :: (a.step, i))
  }

  function RunAll(job: Job, dedups: bool, workers: nat, acts: seq<Act>): (w: World)
    ensures |w.steps| == |job.steps|
  {
    if acts == [] then Start(job, workers)
    else DoStep(job, dedups, RunAll(job, dedups, workers, acts[..|acts| - 1]), acts[|acts| - 1])
  }

  /** The actions on one step. */
  function Own(acts: seq<Act>, j: nat): seq<Action> {
    if acts == [] then []
    else Own(acts[..|acts| - 1], j) + if acts[|acts| - 1].step == j then [acts[|acts| - 1].action] else []
  }

  /** Each step runs as it would alone, so all that is known of one call holds of it. */
  lemma {:induction false} StepsRunAlone(job: Job, dedups: bool, workers: nat, acts: seq<Act>, j: nat)
    requires j < |job.steps|
    ensures RunAll(job, dedups, workers, acts).steps[j] ==
              Run(Attempt(job, j), Init(Attempt(job, j), workers), Own(acts, j))
  {
    if acts != [] {
      var init, a := acts[..|acts| - 1], acts[|acts| - 1];
      StepsRunAlone(job, dedups, workers, init, j);
      var own := Own(init, j);
      assert a.step == j ==> (own + [a.action])[..|own|] == own;
      assert a.step != j ==> own + [] == own;
    }
  }

  // ---------- what the target has performed ----------

  function Count(target: seq<Performed>, j: nat, i: nat): nat {
    if target == [] then 0
    else
      var last := target[|target| - 1];
      Count(target[..|target| - 1], j, i) + if last.step == j && last.intent == i then 1 else 0
  }

  lemma {:induction false} CountMembers(target: seq<Performed>, j: nat, i: nat)
    ensures Count(target, j, i) > 0 <==> exists k :: 0 <= k < |target| && target[k].step == j && target[k].intent == i
  {
    if target != [] { CountMembers(target[..|target| - 1], j, i); }
  }

  /** Every effect performed carries the key of the intent it was performed for. */
  ghost predicate Genuine(job: Job, target: seq<Performed>) {
    forall k :: 0 <= k < |target| ==> GenuineOne(job, target[k])
  }

  ghost predicate GenuineOne(job: Job, e: Performed) {
    && e.step < |job.steps| && e.intent < |job.steps[e.step].intents|
    && e.key == KeyOf(job, e.step, e.intent)
  }

  /** The target knows the key of an intent exactly when it has performed that very intent:
      no other step's key stands in its way, and no attempt presents a different one. */
  lemma KnownMeansPerformed(job: Job, target: seq<Performed>, j: nat, i: nat)
    requires ValidJob(job) && Genuine(job, target) && j < |job.steps| && i < |job.steps[j].intents|
    ensures Knows(target, KeyOf(job, j, i)) <==> Count(target, j, i) > 0
  {
    CountMembers(target, j, i);
    if Knows(target, KeyOf(job, j, i)) {
      var k :| 0 <= k < |target| && target[k].key == KeyOf(job, j, i);
      var e := target[k];
      assert GenuineOne(job, e);
      KeysTellIntentsApart(job.run, job.plan, job.steps[e.step].name, e.intent, job.steps[j].name, i);
    }
    if Count(target, j, i) > 0 {
      var k :| 0 <= k < |target| && target[k].step == j && target[k].intent == i;
      assert GenuineOne(job, target[k]);
    }
  }

  /** What presenting a call adds at a target that deduplicates: the intents reached that it
      has not performed yet, once each, and nothing for any other step. */
  lemma {:induction false} PresentAdds(job: Job, target: seq<Performed>, call: Call, j: nat, n: nat, touched: set<nat>,
      j': nat, i: nat)
    requires ValidJob(job) && j < |job.steps| && KeysOf(job, j, call) && n <= |call.keys|
    requires Genuine(job, target) && Count(target, j', i) <= 1
    ensures Adds(job, target, Present(target, call, j, n, touched, true), j' == j && i in touched && i < n, j', i)
  {
    if n > 0 {
      PresentAdds(job, target, call, j, n - 1, touched, j', i);
      var before := Present(target, call, j, n - 1, touched, true);
      AddsMore(job, target, before, call, j, n - 1, touched, j', i);
    }
  }

  lemma AddsMore(job: Job, target: seq<Performed>, before: seq<Performed>, call: Call, j: nat, n: nat,
      touched: set<nat>, j': nat, i: nat)
    requires ValidJob(job) && j < |job.steps| && KeysOf(job, j, call) && n < |call.keys|
    requires Count(target, j', i) <= 1 && Adds(job, target, before, j' == j && i in touched && i < n, j', i)
    ensures var after := if n in touched then PresentKey(before, call.keys[n], j, n, true) else before;
            Adds(job, target, after, j' == j && i in touched && i < n + 1, j', i)
  {
    if n in touched { PresentOne(job, before, call, j, n, j', i); }
  }

  /** The target holds genuine effects; this one once if it is `due`, else as often as before. */
  ghost predicate Adds(job: Job, before: seq<Performed>, after: seq<Performed>, due: bool, j: nat, i: nat) {
    Genuine(job, after) && Count(after, j, i) == if due then 1 else Count(before, j, i)
  }

  /** One more key presented: performed exactly if the intent has not been performed yet. */
  lemma PresentOne(job: Job, before: seq<Performed>, call: Call, j: nat, n: nat, j': nat, i: nat)
    requires ValidJob(job) && Genuine(job, before) && j < |job.steps| && KeysOf(job, j, call) && n < |call.keys|
    requires Count(before, j', i) <= 1
    ensures Adds(job, before, PresentKey(before, call.keys[n], j, n, true), j' == j && i == n, j', i)
  {
    KnownMeansPerformed(job, before, j, n);
    GenuineGrows(job, before, Performed(call.keys[n], j, n));
  }

  lemma GenuineGrows(job: Job, target: seq<Performed>, e: Performed)
    requires Genuine(job, target) && GenuineOne(job, e)
    ensures Genuine(job, target + [e])
    ensures forall j, i :: Count(target + [e], j, i) == Count(target, j, i) +
              if e.step == j && e.intent == i then 1 else 0
  {
    assert (target + [e])[..|target|] == target;
  }

  /** Against a target that ignores keys it knows, over every run of all steps, workers,
      crashes and redispatches: an intent takes effect at most once, and exactly once if any
      execution reached it. */
  lemma {:induction false} EffectivelyOnce(job: Job, workers: nat, acts: seq<Act>, j: nat, i: nat)
    requires ValidJob(job) && j < |job.steps| && i < |job.steps[j].intents|
    ensures var w := RunAll(job, true, workers, acts);
            Genuine(job, w.target) && Count(w.target, j, i) == if (j, i) in w.reached then 1 else 0
  {
    if acts != [] {
      var init, a := acts[..|acts| - 1], acts[|acts| - 1];
      EffectivelyOnce(job, workers, init, j, i);
      var w := RunAll(job, true, workers, init);
      if a.step < |job.steps| && Executes(w.steps[a.step], a.action) {
        PresentAdds(job, w.target, Attempt(job, a.step), a.step, Attempt(job, a.step).N, a.touched, j, i);
      }
    }
  }

  lemma {:induction false} PresentBounded(target: seq<Performed>, call: Call, j: nat, n: nat, touched: set<nat>,
      dedups: bool, j': nat, i: nat)
    requires n <= |call.keys|
    ensures Count(Present(target, call, j, n, touched, dedups), j', i) <= Count(target, j', i) +
              if j' == j && i < n then 1 else 0
  {
    if n > 0 {
      PresentBounded(target, call, j, n - 1, touched, dedups, j', i);
      var before := Present(target, call, j, n - 1, touched, dedups);
      var e := Performed(call.keys[n - 1], j, n - 1);
      assert (before + [e])[..|before|] == before;
    }
  }

  /** Whatever the target does with keys, an intent takes effect no more often than its step
      ran; for a step not safe to retry that is at most once more than the operator declared
      any one of its records failed. */
  lemma {:induction false} EffectsBounded(job: Job, dedups: bool, workers: nat, acts: seq<Act>, j: nat, i: nat, r: nat)
    requires j < |job.steps| && i < |job.steps[j].intents| && r < |job.steps[j].intents|
    ensures var w := RunAll(job, dedups, workers, acts);
            && Count(w.target, j, i) <= w.steps[j].executions
            && |w.steps[j].failedVerdicts| == |job.steps[j].intents|
            && (!job.steps[j].retrySafe ==> Count(w.target, j, i) <= 1 + w.steps[j].failedVerdicts[r])
  {
    CountWithinExecutions(job, dedups, workers, acts, j, i);
    StepsRunAlone(job, dedups, workers, acts, j);
    RunKeeps(Attempt(job, j), workers, Own(acts, j));
    if !job.steps[j].retrySafe { AtMostOnce(Attempt(job, j), workers, Own(acts, j), r); }
  }

  lemma {:induction false} CountWithinExecutions(job: Job, dedups: bool, workers: nat, acts: seq<Act>, j: nat, i: nat)
    requires j < |job.steps|
    ensures var w := RunAll(job, dedups, workers, acts); Count(w.target, j, i) <= w.steps[j].executions
  {
    if acts != [] {
      var init, a := acts[..|acts| - 1], acts[|acts| - 1];
      CountWithinExecutions(job, dedups, workers, init, j, i);
      var w := RunAll(job, dedups, workers, init);
      if a.step < |job.steps| && Executes(w.steps[a.step], a.action) {
        var call := Attempt(job, a.step);
        PresentBounded(w.target, call, a.step, call.N, a.touched, dedups, j, i);
      }
    }
  }
}
