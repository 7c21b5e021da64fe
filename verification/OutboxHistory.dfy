/**
  What the history of a call stands for: the step machine's counters and its mark of a passed
  step, in terms of the actions taken and the states they were taken in.
 */
module OutboxHistory {
  import opened SideEffects
  import opened OutboxMachine

  /** The action asks the tool to execute. */
  predicate Calls(s: State, a: Action) {
    a.Work? && a.worker < |s.workers| && s.workers[a.worker].Ready?
  }

  /** The operator declares the `i`-th effect, in doubt so far, not performed. */
  predicate RulesFailed(s: State, a: Action, i: nat) {
    a.Resolve? && a.index == i && a.verdict.VerdictFailed? && i in s.recs && s.recs[i].status == Uncertain
  }

  /** The action ends a worker's attempt with a success that the step's verifier confirms. */
  predicate Passes(s: State, a: Action) {
    && a.Work? && a.worker < |s.workers| && a.verified
    && var p := s.workers[a.worker];
       p.Moving? && p.todo == [] && p.next.Finished? && p.next.result.ok
  }

  /** What holds of each action of a run in the state it meets. */
  function Along(c: Call, s: State, acts: seq<Action>, p: (State, Action) -> bool): (r: seq<bool>)
    ensures |r| == |acts|
  {
    seq(|acts|, k requires 0 <= k < |acts| => p(Run(c, s, acts[..k]), acts[k]))
  }

  function Hits(h: seq<bool>): nat {
    if h == [] then 0 else Hits(h[..|h| - 1]) + if h[|h| - 1] then 1 else 0
  }

  lemma {:induction false} Tally(now: seq<nat>, hits: seq<bool>)
    requires |now| == |hits| + 1 && now[0] == 0
    requires forall k: nat :: k < |hits| ==> now[k + 1] == now[k] + if hits[k] then 1 else 0
    ensures now[|hits|] == Hits(hits)
  {
    if hits != [] {
      var n := |hits| - 1;
      Tally(now[..n + 1], hits[..n]);
    }
  }

  lemma {:induction false} EverHit(now: seq<bool>, hits: seq<bool>)
    requires |now| == |hits| + 1 && !now[0]
    requires forall k: nat :: k < |hits| ==> now[k + 1] == (now[k] || hits[k])
    ensures now[|hits|] <==> true in hits
  {
    if hits != [] {
      var n := |hits| - 1;
      EverHit(now[..n + 1], hits[..n]);
      assert hits == hits[..n] + [hits[n]];
    }
  }

  /** One action more. */
  lemma OneMore(c: Call, s: State, acts: seq<Action>, k: nat)
    requires k < |acts|
    ensures Run(c, s, acts[..k + 1]) == Do(c, Run(c, s, acts[..k]), acts[k])
  {
    assert acts[..k + 1][..k] == acts[..k];
  }

  /** The step has passed exactly if, at some point of the run, a success met a verification
      that held. */
  lemma PassedIff(c: Call, workers: nat, acts: seq<Action>)
    ensures Run(c, Init(c, workers), acts).passed <==> true in Along(c, Init(c, workers), acts, Passes)
  {
    var s, n := Init(c, workers), |acts|;
    var passed := seq(n + 1, k requires 0 <= k <= n => Run(c, s, acts[..k]).passed);
    var hits := Along(c, s, acts, Passes);
    forall k: nat | k < n ensures passed[k + 1] == (passed[k] || hits[k]) {
      OneMore(c, s, acts, k);
      DoCounts(c, Run(c, s, acts[..k]), acts[k], 0);
    }
    EverHit(passed, hits);
    assert acts[..n] == acts;
  }

  /** The executions counted are the tool calls of the run. */
  lemma ExecutionsCounted(c: Call, workers: nat, acts: seq<Action>)
    ensures Run(c, Init(c, workers), acts).executions == Hits(Along(c, Init(c, workers), acts, Calls))
  {
    var s, n := Init(c, workers), |acts|;
    var executions := seq(n + 1, k requires 0 <= k <= n => Run(c, s, acts[..k]).executions);
    var hits := Along(c, s, acts, Calls);
    forall k: nat | k < n ensures executions[k + 1] == executions[k] + if hits[k] then 1 else 0 {
      OneMore(c, s, acts, k);
      DoCounts(c, Run(c, s, acts[..k]), acts[k], 0);
    }
    Tally(executions, hits);
    assert acts[..n] == acts;
  }

  lemma {:induction false} VerdictsListed(c: Call, workers: nat, acts: seq<Action>)
    ensures |Run(c, Init(c, workers), acts).failedVerdicts| == c.N
  {
    if acts != [] { VerdictsListed(c, workers, acts[..|acts| - 1]); }
  }

  /** The failure verdicts counted for an intent are those the operator gave on it. */
  lemma VerdictsCounted(c: Call, workers: nat, acts: seq<Action>, i: nat)
    requires i < c.N
    ensures |Run(c, Init(c, workers), acts).failedVerdicts| == c.N
    ensures Run(c, Init(c, workers), acts).failedVerdicts[i] ==
              Hits(Along(c, Init(c, workers), acts, (s, a) => RulesFailed(s, a, i)))
  {
    var s, n := Init(c, workers), |acts|;
    forall k: nat | k <= n ensures |Run(c, s, acts[..k]).failedVerdicts| == c.N {
      VerdictsListed(c, workers, acts[..k]);
    }
    var verdicts := seq(n + 1, k requires 0 <= k <= n => Run(c, s, acts[..k]).failedVerdicts[i]);
    var hits := Along(c, s, acts, (s, a) => RulesFailed(s, a, i));
    forall k: nat | k < n ensures verdicts[k + 1] == verdicts[k] + if hits[k] then 1 else 0 {
      OneMore(c, s, acts, k);
      DoCounts(c, Run(c, s, acts[..k]), acts[k], i);
    }
    Tally(verdicts, hits);
    assert acts[..n] == acts;
  }

  /** What one action adds to the history. */
  lemma DoCounts(c: Call, s: State, a: Action, i: nat)
    ensures Do(c, s, a).executions == s.executions + if Calls(s, a) then 1 else 0
    ensures Do(c, s, a).passed <==> s.passed || Passes(s, a)
    ensures |Do(c, s, a).failedVerdicts| == |s.failedVerdicts|
    ensures i < |s.failedVerdicts| ==>
              Do(c, s, a).failedVerdicts[i] == s.failedVerdicts[i] + if RulesFailed(s, a, i) then 1 else 0
  {
  }
}
