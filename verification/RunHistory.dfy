/** Which event may follow which log, and what holds of every log built that way. */
module RunHistory {
  import opened Common
  import opened TaskEvents
  import opened PlanDag
  import opened StepFolds
  import opened AcceptanceFacts
  import RunStatus

  /** The acceptance gate: an arbitrary verdict on evidence, facts and the time. */
  type Gate = (set<Ref>, Facts, int) -> Decision

  ghost predicate AllPassed(plan: Plan, log: seq<Event>) {
    forall i :: 0 <= i < |plan| ==> StatusOf(log, plan[i].id) == Passed
  }

  ghost predicate DependenciesPassed(plan: Plan, log: seq<Event>, s: StepId) {
    exists i :: 0 <= i < |plan| && plan[i].id == s && forall d :: d in plan[i].dependsOn ==> StatusOf(log, d) == Passed
  }

  /** A step that may be started, or started again. */
  ghost predicate Ready(plan: Plan, log: seq<Event>, s: StepId) {
    DependenciesPassed(plan, log, s) && StatusOf(log, s) != Passed
  }

  predicate Covers(evidence: seq<Ref>, required: seq<Ref>) {
    forall r :: r in required ==> r in evidence
  }

  /** The verdict the step verifier must give to a recorded result. */
  ghost predicate PassEarned(plan: Plan, s: StepId, result: Event) {
    && result.ToolResultRecorded? && result.ok
    && exists i :: 0 <= i < |plan| && plan[i].id == s && Covers(result.evidence, plan[i].required)
  }

  function GateEvidence(log: seq<Event>): set<Ref> {
    Evidence(log) + set x | x in Rebuilt(log).evidence
  }

  /** What counts as evidence for the gate: what an ok tool result brought, and what recorded facts
      name; a failed result brings nothing. */
  lemma GateEvidenceIff(log: seq<Event>, x: Ref)
    ensures x in GateEvidence(log) <==>
              || (exists e :: e in log && e.ToolResultRecorded? && e.ok && x in e.evidence)
              || (exists e :: e in log && e.FactsRecorded? && x in e.facts.evidence)
  {
    EvidenceMembers(log, x);
    RebuiltTells(log, x);
    if x in Evidence(log) {
      var e :| e in log && x in EvidenceOf(e);
      assert e.ToolResultRecorded? && e.ok && x in e.evidence;
    }
    if e :| e in log && e.ToolResultRecorded? && e.ok && x in e.evidence { assert x in EvidenceOf(e); }
  }

  /** The gate's decision. A call also counts the results it still holds, which are all in the
      log if the log kept every result that was judged. */
  ghost predicate Judged(gate: Gate, log: seq<Event>, d: Decision, at: int) {
    exists evidence: set<Ref> {:trigger gate(evidence, Rebuilt(log), at)} ::
      && GateEvidence(log) <= evidence
      && d == gate(evidence, Rebuilt(log), at)
      && (ResultsKept(log) ==> evidence == GateEvidence(log))
  }

  /** A verdict judges the open result; there is none if a retry found its key used. */
  ghost predicate VerdictJustified(plan: Plan, before: seq<Event>, s: StepId, v: StepStatus) {
    && StatusOf(before, s) == Running
    && v in {Passed, Failed, Blocked}
    && match OpenResult(before, s)
       case Some(result) => v == Passed <==> PassEarned(plan, s, result)
       case None => Retried(before, s)
  }

  ghost predicate Justified(plan: Plan, gate: Gate, before: seq<Event>, e: Event) {
    match e
    case StepStarted(s) => Ready(plan, before, s)
    case ToolResultRecorded(s, _, _, key) =>
      StatusOf(before, s) == Running && !KeyUsed(before, s, key) && (key.Recovery? ==> key.seen <= |before|)
    case StepVerified(s, v) => VerdictJustified(plan, before, s, v)
    case FactsRecorded(_, key) => !FactsKeyUsed(before, key) && (key.RecoveryFacts? ==> key.seen <= |before|)
    case AcceptanceEvaluated(d, at) => AllPassed(plan, before) && Judged(gate, before, d, at)
    case StatusChanged(s) => s == RunStatus.Completed ==> LastEvaluation(before) == Some(Accepted)
    case RunCompleted => LastEvaluation(before) == Some(Accepted)
    case _ => true
  }

  /** Every event is justified by the log before it; so is then every prefix, the log a crash leaves. */
  ghost predicate Sound(plan: Plan, gate: Gate, log: seq<Event>) {
    forall i {:trigger Justified(plan, gate, log[..i], log[i])} :: 0 <= i < |log| ==>
        Justified(plan, gate, log[..i], log[i])
  }

  lemma SoundAppend(plan: Plan, gate: Gate, log: seq<Event>, e: Event)
    requires Sound(plan, gate, log) && Justified(plan, gate, log, e)
    ensures Sound(plan, gate, log + [e])
  {
    forall i | 0 <= i < |log + [e]| ensures Justified(plan, gate, (log + [e])[..i], (log + [e])[i]) {
      if i < |log| {
        assert (log + [e])[..i] == log[..i];
      } else {
        assert (log + [e])[..i] == log;
      }
    }
  }

  lemma SoundPrefix(plan: Plan, gate: Gate, log: seq<Event>, n: nat)
    requires Sound(plan, gate, log) && n <= |log|
    ensures Sound(plan, gate, log[..n])
  {
    forall i | 0 <= i < n ensures Justified(plan, gate, log[..n][..i], log[..n][i]) {
      assert log[..n][..i] == log[..i];
    }
  }

  // ---------- what passed stays passed ----------

  /** Only a running step has an open result. */
  lemma {:induction false} OpenMeansRunning(plan: Plan, gate: Gate, log: seq<Event>, s: StepId)
    requires Sound(plan, gate, log)
    ensures OpenResult(log, s).Some? ==> StatusOf(log, s) == Running
  {
    if log != [] {
      var n := |log| - 1;
      SoundPrefix(plan, gate, log, n);
      OpenMeansRunning(plan, gate, log[..n], s);
      assert log == log[..n] + [log[n]];
      Appended(log[..n], log[n]);
      assert Justified(plan, gate, log[..n], log[n]);
    }
  }

  lemma PassedStep(plan: Plan, gate: Gate, log: seq<Event>, e: Event, s: StepId)
    requires Sound(plan, gate, log) && Justified(plan, gate, log, e) && StatusOf(log, s) == Passed
    ensures StatusOf(log + [e], s) == Passed
  {
    Appended(log, e);
    OpenMeansRunning(plan, gate, log, s);
  }

  lemma {:induction false} PassedStays(plan: Plan, gate: Gate, a: seq<Event>, b: seq<Event>, s: StepId)
    requires Sound(plan, gate, b) && a <= b && StatusOf(a, s) == Passed
    ensures StatusOf(b, s) == Passed
    decreases |b|
  {
    if |a| == |b| {
      assert a == b;
    } else {
      var n := |b| - 1;
      SoundPrefix(plan, gate, b, n);
      PassedStays(plan, gate, a, b[..n], s);
      assert b == b[..n] + [b[n]];
      PassedStep(plan, gate, b[..n], b[n], s);
    }
  }

  lemma DependenciesStay(plan: Plan, gate: Gate, a: seq<Event>, b: seq<Event>, s: StepId)
    requires Sound(plan, gate, b) && a <= b && DependenciesPassed(plan, a, s)
    ensures DependenciesPassed(plan, b, s)
  {
    var i :| 0 <= i < |plan| && plan[i].id == s && forall d :: d in plan[i].dependsOn ==> StatusOf(a, d) == Passed;
    forall d | d in plan[i].dependsOn ensures StatusOf(b, d) == Passed {
      PassedStays(plan, gate, a, b, d);
    }
  }

  /** A step that ever started has, from then on, all its dependencies passed. */
  lemma {:induction false} StartedHasDependencies(plan: Plan, gate: Gate, log: seq<Event>, s: StepId)
    requires Sound(plan, gate, log) && (StatusOf(log, s) != Pending || OpenResult(log, s).Some?)
    ensures DependenciesPassed(plan, log, s)
  {
    var n := |log| - 1;
    SoundPrefix(plan, gate, log, n);
    var before, e := log[..n], log[n];
    assert log == before + [e];
    Appended(before, e);
    assert Justified(plan, gate, before, e);
    if e == StepStarted(s) {
    } else {
      OpenMeansRunning(plan, gate, before, s);
      StartedHasDependencies(plan, gate, before, s);
    }
    DependenciesStay(plan, gate, before, log, s);
  }

  // ---------- what a passed step and a completed run mean ----------

  /** A passed step has a recorded tool result that is ok and covers its required evidence,
      provided that the results judged for it are in the log. */
  lemma {:induction false} PassedIsBacked(plan: Plan, gate: Gate, log: seq<Event>, s: StepId)
    requires Sound(plan, gate, log) && StatusOf(log, s) == Passed && Kept(Project(log, s))
    ensures exists e :: e in log && Concerns(e, s) && PassEarned(plan, s, e)
    ensures DependenciesPassed(plan, log, s)
  {
    StartedHasDependencies(plan, gate, log, s);
    var n := |log| - 1;
    SoundPrefix(plan, gate, log, n);
    var before, e := log[..n], log[n];
    assert log == before + [e];
    Appended(before, e);
    assert Justified(plan, gate, before, e);
    var own := Project(log, s);
    if e.StepVerified? && e.step == s {
      var earlier := Project(before, s);
      assert own == earlier + [e] && own[|own| - 1] == e;
      assert 0 < |own| - 1 && own[|own| - 2] == earlier[|earlier| - 1];
      OpenIsLast(before, s);
      OpenResultIn(before, s);
    } else {
      ProjectGrows(before, log, s);
      assert forall i :: 0 <= i < |Project(before, s)| ==> Project(before, s)[i] == own[i];
      PassedIsBacked(plan, gate, before, s);
    }
  }

  /** Only a retry from a checkpoint can leave a judged result out of the log. */
  lemma {:induction false} KeptUnlessRetried(plan: Plan, gate: Gate, log: seq<Event>, s: StepId)
    requires Sound(plan, gate, log) && !Retried(log, s)
    ensures Kept(Project(log, s))
  {
    if log != [] {
      var n := |log| - 1;
      SoundPrefix(plan, gate, log, n);
      assert log == log[..n] + [log[n]];
      assert forall e :: e in log[..n] ==> e in log;
      KeptUnlessRetried(plan, gate, log[..n], s);
      Appended(log[..n], log[n]);
      assert Justified(plan, gate, log[..n], log[n]);
      OpenIsLast(log[..n], s);
    }
  }

  // ---------- keys not used yet ----------

  /** Recovery keys carry the length of a log that was shorter. */
  lemma RecoveryKeysAreOld(plan: Plan, gate: Gate, log: seq<Event>, s: StepId, seen: nat)
    requires Sound(plan, gate, log)
    ensures KeyUsed(log, s, Recovery(seen)) ==> seen < |log|
    ensures FactsKeyUsed(log, RecoveryFacts(seen)) ==> seen < |log|
  {
    if e :| e in log && (ResultUnder(e, s, Recovery(seen)) || FactsUnder(e, RecoveryFacts(seen))) {
      var i :| 0 <= i < |log| && log[i] == e;
      assert Justified(plan, gate, log[..i], log[i]);
    }
  }

  /** A pending step has no events at all, so none of its keys is used. */
  lemma {:induction false} PendingIsUntouched(plan: Plan, gate: Gate, log: seq<Event>, s: StepId)
    requires Sound(plan, gate, log) && StatusOf(log, s) == Pending
    ensures Project(log, s) == []
  {
    if log != [] {
      var n := |log| - 1;
      SoundPrefix(plan, gate, log, n);
      assert log == log[..n] + [log[n]];
      Appended(log[..n], log[n]);
      assert Justified(plan, gate, log[..n], log[n]);
      PendingIsUntouched(plan, gate, log[..n], s);
    }
  }

  lemma {:induction false} OpenResultIn(log: seq<Event>, s: StepId)
    requires OpenResult(log, s).Some?
    ensures OpenResult(log, s).value in log && Concerns(OpenResult(log, s).value, s)
  {
    if !Concerns(log[|log| - 1], s) { OpenResultIn(log[..|log| - 1], s); }
  }

  /** The steps that ever passed are exactly those whose status is passed. */
  lemma {:induction false} EverPassedIsPassed(plan: Plan, gate: Gate, log: seq<Event>, s: StepId)
    requires Sound(plan, gate, log)
    ensures StepVerified(s, Passed) in log <==> StatusOf(log, s) == Passed
  {
    if log != [] {
      var n := |log| - 1;
      SoundPrefix(plan, gate, log, n);
      EverPassedIsPassed(plan, gate, log[..n], s);
      assert log == log[..n] + [log[n]];
      Appended(log[..n], log[n]);
      if StatusOf(log[..n], s) == Passed { PassedStep(plan, gate, log[..n], log[n], s); }
    }
  }

  lemma {:induction false} EvaluationAt(log: seq<Event>) returns (j: nat)
    requires LastEvaluation(log).Some?
    ensures j < |log| && log[j].AcceptanceEvaluated? && LastEvaluation(log) == Some(log[j].decision)
    ensures forall k :: j < k < |log| ==> !log[k].AcceptanceEvaluated?
  {
    if log[|log| - 1].AcceptanceEvaluated? {
      j := |log| - 1;
    } else {
      j := EvaluationAt(log[..|log| - 1]);
    }
  }

  /** The one evaluation behind a change to completed. */
  ghost predicate AcceptedAt(plan: Plan, gate: Gate, log: seq<Event>, i: nat, j: nat) {
    && j < i <= |log|
    && log[j].AcceptanceEvaluated? && log[j].decision == Accepted
    && (forall k :: j < k < i ==> !log[k].AcceptanceEvaluated?)
    && AllPassed(plan, log[..j])
    && Judged(gate, log[..j], Accepted, log[j].at)
    && (ResultsKept(log[..j]) ==> gate(GateEvidence(log[..j]), Rebuilt(log[..j]), log[j].at) == Accepted)
  }

  /** No false completion: the latest evaluation before a change to completed accepted when
      every step had passed, and on evidence and facts that the log itself holds if it kept
      the judged results; and every step is still passed now. */
  lemma NoFalseCompletion(plan: Plan, gate: Gate, log: seq<Event>, i: nat)
    requires Sound(plan, gate, log) && i < |log|
             && (log[i] == StatusChanged(RunStatus.Completed) || log[i] == RunCompleted)
    ensures exists j: nat :: AcceptedAt(plan, gate, log, i, j)
    ensures AllPassed(plan, log)
  {
    assert Justified(plan, gate, log[..i], log[i]);
    SoundPrefix(plan, gate, log, i);
    AcceptedStatus(plan, gate, log[..i]);
    var j: nat :| AcceptedAt(plan, gate, log[..i], i, j);
    assert log[..i][..j] == log[..j];
    assert AcceptedAt(plan, gate, log, i, j);
    forall k | 0 <= k < |plan| ensures StatusOf(log, plan[k].id) == Passed {
      PassedStays(plan, gate, log[..j], log, plan[k].id);
    }
  }

  /** Whenever the latest evaluation accepted, it was entitled to. */
  lemma AcceptedStatus(plan: Plan, gate: Gate, log: seq<Event>)
    requires Sound(plan, gate, log) && LastEvaluation(log) == Some(Accepted)
    ensures exists j: nat :: AcceptedAt(plan, gate, log, |log|, j)
    ensures AllPassed(plan, log)
  {
    var j := EvaluationAt(log);
    assert Justified(plan, gate, log[..j], log[j]);
    assert AcceptedAt(plan, gate, log, |log|, j);
    forall k | 0 <= k < |plan| ensures StatusOf(log, plan[k].id) == Passed {
      PassedStays(plan, gate, log[..j], log, plan[k].id);
    }
  }

  lemma PendingKeyIsFree(plan: Plan, gate: Gate, log: seq<Event>, s: StepId, anchor: Anchor)
    requires Sound(plan, gate, log) && StatusOf(log, s) == Pending
    ensures !KeyUsed(log, s, anchor)
  {
    PendingIsUntouched(plan, gate, log, s);
    KeysAreOwn(log, s, anchor);
  }

  // ---------- events that leave steps, facts and evaluations alone ----------

  predicate Inert(e: Event) {
    !(e.StepStarted? || e.ToolResultRecorded? || e.StepVerified? || e.FactsRecorded? || e.AcceptanceEvaluated?)
  }

  ghost predicate Steady(a: seq<Event>, b: seq<Event>) {
    && a <= b
    && (forall s :: Project(b, s) == Project(a, s))
    && (forall s :: StatusOf(b, s) == StatusOf(a, s))
    && (forall s :: OpenResult(b, s) == OpenResult(a, s))
    && (forall s :: Starts(b, s) == Starts(a, s))
    && Rebuilt(b) == Rebuilt(a)
    && (forall key :: FactsKeyUsed(b, key) <==> FactsKeyUsed(a, key))
    && Evidence(b) == Evidence(a)
    && LastEvaluation(b) == LastEvaluation(a)
  }

  lemma InertAppend(log: seq<Event>, e: Event)
    requires Inert(e)
    ensures Steady(log, log + [e])
  {
    Appended(log, e);
    assert (log + [e])[..|log|] == log;
  }

  /** The log grew; of all steps only `s` gained events, namely `added`. */
  ghost predicate Worked(a: seq<Event>, b: seq<Event>, s: StepId, added: seq<Event>) {
    && a <= b
    && Project(b, s) == Project(a, s) + added
    && (forall t :: t != s ==> Project(b, t) == Project(a, t))
    && (forall t :: t != s ==> StatusOf(b, t) == StatusOf(a, t))
    && Rebuilt(b) == Rebuilt(a)
    && LastEvaluation(b) == LastEvaluation(a)
  }

  lemma StepAppend(log: seq<Event>, e: Event, s: StepId)
    requires Concerns(e, s)
    ensures Worked(log, log + [e], s, [e])
  {
    Appended(log, e);
    assert (log + [e])[..|log|] == log;
  }

  lemma SteadyTwice(a: seq<Event>, b: seq<Event>, c: seq<Event>)
    requires Steady(a, b) && Steady(b, c)
    ensures Steady(a, c)
  {
  }

  lemma SteadyWorked(a: seq<Event>, b: seq<Event>, c: seq<Event>, s: StepId, added: seq<Event>)
    requires Steady(a, b) && Worked(b, c, s, added)
    ensures Worked(a, c, s, added)
  {
  }

  lemma WorkedSteady(a: seq<Event>, b: seq<Event>, c: seq<Event>, s: StepId, added: seq<Event>)
    requires Worked(a, b, s, added) && Steady(b, c)
    ensures Worked(a, c, s, added)
  {
  }

  lemma WorkedTwice(a: seq<Event>, b: seq<Event>, c: seq<Event>, s: StepId, one: seq<Event>, two: seq<Event>)
    requires Worked(a, b, s, one) && Worked(b, c, s, two)
    ensures Worked(a, c, s, one + two)
  {
    assert Project(a, s) + one + two == Project(a, s) + (one + two);
  }

  lemma SteadyReady(plan: Plan, a: seq<Event>, b: seq<Event>, s: StepId)
    requires Steady(a, b) && Ready(plan, a, s)
    ensures Ready(plan, b, s)
  {
    var i :| 0 <= i < |plan| && plan[i].id == s && forall d :: d in plan[i].dependsOn ==> StatusOf(a, d) == Passed;
    assert forall d :: d in plan[i].dependsOn ==> StatusOf(b, d) == Passed;
  }

  lemma EarnedIff(plan: Plan, step: Step, e: Event)
    requires DistinctIds(plan) && step in plan && e.ToolResultRecorded?
    ensures PassEarned(plan, step.id, e) <==> e.ok && Covers(e.evidence, step.required)
  {
    var i :| 0 <= i < |plan| && plan[i] == step;
  }

  lemma EvidenceGrows(a: seq<Event>, b: seq<Event>)
    requires a <= b
    ensures Evidence(a) <= Evidence(b)
  {
    forall x | x in Evidence(a) ensures x in Evidence(b) {
      EvidenceMembers(a, x);
      EvidenceMembers(b, x);
    }
  }

  // ---------- several steps at work at once ----------

  function StepIds(steps: seq<Step>): (ids: seq<StepId>)
    ensures |ids| == |steps| && forall i :: 0 <= i < |steps| ==> ids[i] == steps[i].id
  {
    seq(|steps|, i requires 0 <= i < |steps| => steps[i].id)
  }

  /** The log grew; each step of a batch gained its own part and no other step anything. */
  ghost predicate Grew(a: seq<Event>, b: seq<Event>, ids: seq<StepId>, added: seq<seq<Event>>) {
    && |ids| == |added|
    && a <= b
    && (forall i {:trigger added[i]} :: 0 <= i < |ids| ==> Project(b, ids[i]) == Project(a, ids[i]) + added[i])
    && (forall s {:trigger Project(b, s)} :: s !in ids ==> Project(b, s) == Project(a, s))
    && Rebuilt(b) == Rebuilt(a)
    && LastEvaluation(b) == LastEvaluation(a)
  }

  lemma GrewNothing(a: seq<Event>, ids: seq<StepId>, none: seq<seq<Event>>)
    requires |ids| == |none| && forall i :: 0 <= i < |none| ==> none[i] == []
    ensures Grew(a, a, ids, none)
  {
  }

  lemma GrewWorked(a: seq<Event>, b: seq<Event>, c: seq<Event>, ids: seq<StepId>, added: seq<seq<Event>>, i: nat,
      more: seq<Event>)
    requires forall j, k :: 0 <= j < |ids| && 0 <= k < |ids| && ids[j] == ids[k] ==> j == k
    requires i < |ids| && Grew(a, b, ids, added) && Worked(b, c, ids[i], more)
    ensures Grew(a, c, ids, added[i := added[i] + more])
  {
    assert Project(a, ids[i]) + added[i] + more == Project(a, ids[i]) + (added[i] + more);
  }

  /** What a step of the batch has gained decides its status; the rest keep theirs. */
  lemma GrewStatus(a: seq<Event>, b: seq<Event>, ids: seq<StepId>, added: seq<seq<Event>>, s: StepId)
    requires Grew(a, b, ids, added)
    requires forall i :: 0 <= i < |ids| && added[i] != [] ==> Marks(added[i][|added[i]| - 1], ids[i])
    ensures s !in ids ==> StatusOf(b, s) == StatusOf(a, s) && Starts(b, s) == Starts(a, s)
    ensures forall i :: 0 <= i < |ids| && ids[i] == s ==> StatusOf(b, s) == LastOf(added[i], s, StatusOf(a, s))
  {
    OwnEventsDecide(a, s);
    OwnEventsDecide(b, s);
    forall i | 0 <= i < |ids| && ids[i] == s ensures StatusOf(b, s) == LastOf(added[i], s, StatusOf(a, s)) {
      GainedStatus(a, b, s, added[i]);
    }
  }

  /** The status after a step's part, if the part ends with a start or a verdict. */
  function LastOf(part: seq<Event>, s: StepId, before: StepStatus): StepStatus {
    if part == [] then before else StatusOf(part, s)
  }

  lemma {:induction false} GainedStatus(a: seq<Event>, b: seq<Event>, s: StepId, part: seq<Event>)
    requires Project(b, s) == Project(a, s) + part
    requires part != [] ==> Marks(part[|part| - 1], s)
    ensures StatusOf(b, s) == LastOf(part, s, StatusOf(a, s))
  {
    OwnEventsDecide(a, s);
    OwnEventsDecide(b, s);
    var p := Project(a, s);
    if part == [] {
      assert p + part == p;
    } else {
      assert p + part == (p + part[..|part| - 1]) + [part[|part| - 1]];
      Appended(p + part[..|part| - 1], part[|part| - 1]);
    }
  }

  lemma {:induction false} NeverStarted(plan: Plan, gate: Gate, log: seq<Event>, s: StepId)
    requires Sound(plan, gate, log) && Starts(log, s) == 0
    ensures StatusOf(log, s) == Pending
  {
    if log != [] {
      var n := |log| - 1;
      SoundPrefix(plan, gate, log, n);
      assert log == log[..n] + [log[n]];
      Appended(log[..n], log[n]);
      NeverStarted(plan, gate, log[..n], s);
      assert Justified(plan, gate, log[..n], log[n]);
    }
  }

  /** A step that ran a complete trace started once more than before. */
  lemma StartedOnce(a: seq<Event>, b: seq<Event>, s: StepId, result: Event, verdict: Event)
    requires Project(b, s) == Project(a, s) + [StepStarted(s), result, verdict]
    requires result.ToolResultRecorded? && verdict.StepVerified?
    ensures Starts(b, s) == Starts(a, s) + 1
  {
    OwnEventsDecide(a, s);
    OwnEventsDecide(b, s);
    var p := Project(a, s);
    assert p + [StepStarted(s), result, verdict] == ((p + [StepStarted(s)]) + [result]) + [verdict];
    AppendedStart(p, StepStarted(s), s);
    AppendedStart(p + [StepStarted(s)], result, s);
    AppendedStart((p + [StepStarted(s)]) + [result], verdict, s);
  }

  /** The log grew, but tells the same of every step. */
  ghost predicate SameStory(a: seq<Event>, b: seq<Event>) {
    && a <= b
    && (forall s :: Project(b, s) == Project(a, s))
    && (forall s :: StatusOf(b, s) == StatusOf(a, s))
    && (forall s :: Starts(b, s) == Starts(a, s))
    && Evidence(b) == Evidence(a)
  }

  lemma FactsAppend(log: seq<Event>, f: Facts, key: FactsKey)
    ensures SameStory(log, log + [FactsRecorded(f, key)])
    ensures Rebuilt(log + [FactsRecorded(f, key)]) == Merged(Rebuilt(log), f)
  {
    Appended(log, FactsRecorded(f, key));
    assert (log + [FactsRecorded(f, key)])[..|log|] == log;
  }

  /** Facts a process holds that the log holds too. */
  ghost predicate Held(facts: Facts, log: seq<Event>) {
    Merged(Rebuilt(log), facts) == Rebuilt(log)
  }
}
