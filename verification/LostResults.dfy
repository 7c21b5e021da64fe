/**
  A result whose key is used is not appended, but the call goes on with it: what the log then
  lacks, exactly when, and a run in which a step passes without any result of it.
 */
module LostResults {
  import opened Common
  import opened TaskEvents
  import opened PlanDag
  import opened StepFolds
  import opened AcceptanceFacts
  import opened RunHistory
  import opened RunStatus
  import opened TaskRunStore
  import opened StepOutcomes

  /** The log after one execution of a step, as far as the step is concerned. */
  function Executed(log: seq<Event>, step: Step, o: Outcome, anchor: Anchor): seq<Event> {
    log + [StepStarted(step.id)] + Recording(step, o, anchor, KeyUsed(log, step.id, anchor))
  }

  /** A recorded result that entitles the step to pass. */
  ghost predicate Backed(plan: Plan, log: seq<Event>, s: StepId) {
    exists e :: e in log && Concerns(e, s) && PassEarned(plan, s, e)
  }

  /** An execution keeps its result exactly if its key is not used. */
  lemma ExecutionKeepsIff(log: seq<Event>, step: Step, o: Outcome, anchor: Anchor)
    requires ResultsKept(log)
    ensures ResultsKept(Executed(log, step, o, anchor)) <==> !KeyUsed(log, step.id, anchor)
  {
    var s, stale, after := step.id, KeyUsed(log, step.id, anchor), Executed(log, step, o, anchor);
    var own := Project(log, s);
    var verdict := StepVerified(s, VerdictFor(step, o));
    Tells(log, step, o, anchor);
    assert Kept(own);
    if stale {
      assert Project(after, s) == own + [StepStarted(s), verdict];
      assert Project(after, s)[|own| + 1] == verdict && Project(after, s)[|own|] == StepStarted(s);
    } else {
      assert Project(after, s) == own + Trace(step, o, anchor);
      assert forall t :: t != s ==> Project(after, t) == Project(log, t);
      assert Kept(Project(after, s));
    }
  }

  lemma Tells(log: seq<Event>, step: Step, o: Outcome, anchor: Anchor)
    ensures var after, stale := Executed(log, step, o, anchor), KeyUsed(log, step.id, anchor);
            && (forall t :: t != step.id ==> Project(after, t) == Project(log, t))
            && Project(after, step.id) ==
                Project(log, step.id) + [StepStarted(step.id)] + Recording(step, o, anchor, stale)
            && Evidence(after) == Evidence(log) + if stale || !o.ok then {} else set x | x in o.evidence
  {
    var stale := KeyUsed(log, step.id, anchor);
    var started, verdict := log + [StepStarted(step.id)], StepVerified(step.id, VerdictFor(step, o));
    Appended(log, StepStarted(step.id));
    var recorded := started + ResultPart(step, o, anchor, stale);
    assert stale ==> recorded == started;
    Appended(started, ResultEvent(step, o, anchor));
    Appended(recorded, verdict);
    assert Executed(log, step, o, anchor) == recorded + [verdict];
    assert stale ==>
             Project(log, step.id) + [StepStarted(step.id)] + [verdict] ==
                 Project(log, step.id) + [StepStarted(step.id)] + Recording(step, o, anchor, stale);
    assert !stale ==>
             Project(log, step.id) + [StepStarted(step.id)] + [ResultEvent(step, o, anchor)] + [verdict] ==
                 Project(log, step.id) + [StepStarted(step.id)] + Recording(step, o, anchor, stale);
  }

  /** A step that passes is backed by the log, and its evidence is in the log, exactly if the
      key was not used or an earlier result already did as much. */
  lemma PassIsBackedIff(plan: Plan, log: seq<Event>, step: Step, o: Outcome, anchor: Anchor)
    requires DistinctIds(plan) && step in plan && VerdictFor(step, o) == Passed
    ensures var after := Executed(log, step, o, anchor);
            && StatusOf(after, step.id) == Passed
            && (Backed(plan, after, step.id) <==> !KeyUsed(log, step.id, anchor) || Backed(plan, log, step.id))
            && ((set x | x in o.evidence) <= Evidence(after) <==>
                !KeyUsed(log, step.id, anchor) || (set x | x in o.evidence) <= Evidence(log))
  {
    var after, result, verdict :=
        Executed(log, step, o, anchor), ResultEvent(step, o, anchor), StepVerified(step.id, Passed);
    var stale := KeyUsed(log, step.id, anchor);
    Tells(log, step, o, anchor);
    EarnedIff(plan, step, result);
    var recorded := log + [StepStarted(step.id)] + ResultPart(step, o, anchor, stale);
    assert after == recorded + [verdict];
    Appended(recorded, verdict);
    assert forall e :: e in after <==> e in log || e == StepStarted(step.id) || (!stale && e == result) || e == verdict;
  }

  // ---------- a run that loses a result ----------

  const TheStep := Step(0, [], ["report"], false)
  const Fails := Outcome(false, [], false, true, Some(Retry))
  const Succeeds := Outcome(true, ["report"], false, false, None)

  /** Accepts only with the evidence the step must bring. */
  const NeedsReport: Gate := (evidence: set<Ref>, facts: Facts, now: int) => if "report" in evidence then Accepted
    else Rejected

  /** The step fails and may be retried from its checkpoint. The retry fails too, and the
      process dies before the next checkpoint. */
  const Crashed: seq<Event> := [
    RunCreated, StatusChanged(Status.Running),
    StepStarted(0), ResultEvent(TheStep, Fails, FirstRun), CheckpointCreated, StepVerified(0, StepStatus.Failed),
    StatusChanged(Recovering), RunFailed, StatusChanged(Status.Running),
    StepStarted(0), ResultEvent(TheStep, Fails, FromCheckpoint(0))]

  /** The retry is made again, and the tool succeeds. */
  const RetriedAgain: seq<Event> :=
      [StatusChanged(Status.Running), StepStarted(0), CheckpointCreated, StepVerified(0, Passed)]

  /** A log that the run may have: what it tells of the step, and no evidence or facts. */
  ghost predicate Tale(log: seq<Event>, own: seq<Event>, status: StepStatus) {
    && Sound([TheStep], NeedsReport, log)
    && Project(log, 0) == own && StatusOf(log, 0) == status
    && Evidence(log) == {} && Rebuilt(log) == NoFacts
  }

  lemma Notes(log: seq<Event>, own: seq<Event>, status: StepStatus, e: Event)
    requires Tale(log, own, status) && Inert(e) && e !in {StatusChanged(Completed), RunCompleted}
    ensures Tale(log + [e], own, status)
  {
    SoundAppend([TheStep], NeedsReport, log, e);
    InertAppend(log, e);
  }

  lemma Begins(log: seq<Event>, own: seq<Event>, status: StepStatus)
    requires Tale(log, own, status) && status != Passed
    ensures Tale(log + [StepStarted(0)], own + [StepStarted(0)], StepStatus.Running)
  {
    assert [TheStep][0].id == 0;
    assert Ready([TheStep], log, 0);
    SoundAppend([TheStep], NeedsReport, log, StepStarted(0));
    Appended(log, StepStarted(0));
    assert (log + [StepStarted(0)])[..|log|] == log;
  }

  lemma FailsOnce(log: seq<Event>, own: seq<Event>, anchor: Anchor)
    requires Tale(log, own, StepStatus.Running) && !anchor.Recovery? && !KeyUsed(own, 0, anchor)
    ensures Tale(log + [ResultEvent(TheStep, Fails, anchor)], own + [ResultEvent(TheStep, Fails, anchor)],
              StepStatus.Running)
  {
    var e := ResultEvent(TheStep, Fails, anchor);
    KeysAreOwn(log, 0, anchor);
    SoundAppend([TheStep], NeedsReport, log, e);
    Appended(log, e);
    assert (log + [e])[..|log|] == log;
  }

  /** A verdict on the failed result, or a pass if a retry's result was not appended. */
  lemma Decides(log: seq<Event>, own: seq<Event>, v: StepStatus)
    requires Tale(log, own, StepStatus.Running) && own != [] && v in {StepStatus.Failed, Passed}
    requires var last := own[|own| - 1];
             if v == Passed then last == StepStarted(0) && Retried(own, 0) else last.ToolResultRecorded? && !last.ok
    ensures Tale(log + [StepVerified(0, v)], own + [StepVerified(0, v)], v)
  {
    OpenIsLast(log, 0);
    KeysAreOwn(log, 0, FirstRun);
    assert VerdictJustified([TheStep], log, 0, v);
    SoundAppend([TheStep], NeedsReport, log, StepVerified(0, v));
    Appended(log, StepVerified(0, v));
    assert (log + [StepVerified(0, v)])[..|log|] == log;
  }

  const FailedOnce: seq<Event> :=
    [StepStarted(0), ResultEvent(TheStep, Fails, FirstRun), StepVerified(0, StepStatus.Failed)]

  lemma FirstHalf() returns (log: seq<Event>)
    ensures log == Crashed[..6] && Tale(log, FailedOnce, StepStatus.Failed)
  {
    var empty: seq<Event> := [];
    Notes(empty, [], Pending, RunCreated);
    Notes([RunCreated], [], Pending, StatusChanged(Status.Running));
    log := [RunCreated] + [StatusChanged(Status.Running)];
    Begins(log, [], Pending);
    FailsOnce(log + [StepStarted(0)], [StepStarted(0)], FirstRun);
    log := log + [StepStarted(0)] + [ResultEvent(TheStep, Fails, FirstRun)];
    var own := [StepStarted(0)] + [ResultEvent(TheStep, Fails, FirstRun)];
    Notes(log, own, StepStatus.Running, CheckpointCreated);
    Decides(log + [CheckpointCreated], own, StepStatus.Failed);
    log := log + [CheckpointCreated] + [StepVerified(0, StepStatus.Failed)];
    assert own + [StepVerified(0, StepStatus.Failed)] == FailedOnce;
  }

  const FailedTwice: seq<Event> := FailedOnce + [StepStarted(0), ResultEvent(TheStep, Fails, FromCheckpoint(0))]

  lemma CrashedIsSound()
    ensures Tale(Crashed, FailedTwice, StepStatus.Running)
  {
    var log := FirstHalf();
    Notes(log, FailedOnce, StepStatus.Failed, StatusChanged(Recovering));
    log := log + [StatusChanged(Recovering)];
    Notes(log, FailedOnce, StepStatus.Failed, RunFailed);
    log := log + [RunFailed];
    Notes(log, FailedOnce, StepStatus.Failed, StatusChanged(Status.Running));
    log := log + [StatusChanged(Status.Running)];
    Begins(log, FailedOnce, StepStatus.Failed);
    FailsOnce(log + [StepStarted(0)], FailedOnce + [StepStarted(0)], FromCheckpoint(0));
    assert FailedOnce + [StepStarted(0)] + [ResultEvent(TheStep, Fails, FromCheckpoint(0))] == FailedTwice;
    assert log + [StepStarted(0)] + [ResultEvent(TheStep, Fails, FromCheckpoint(0))] == Crashed;
  }

  const Lost: seq<Event> := FailedTwice + [StepStarted(0), StepVerified(0, Passed)]

  lemma RetriedAgainIsSound()
    ensures Tale(Crashed + RetriedAgain, Lost, Passed)
  {
    CrashedIsSound();
    Notes(Crashed, FailedTwice, StepStatus.Running, StatusChanged(Status.Running));
    var log := Crashed + [StatusChanged(Status.Running)];
    Begins(log, FailedTwice, StepStatus.Running);
    var own := FailedTwice + [StepStarted(0)];
    Notes(log + [StepStarted(0)], own, StepStatus.Running, CheckpointCreated);
    assert own[4] == ResultEvent(TheStep, Fails, FromCheckpoint(0));
    assert own[4] in own;
    Decides(log + [StepStarted(0)] + [CheckpointCreated], own, Passed);
    assert log + [StepStarted(0)] + [CheckpointCreated] + [StepVerified(0, Passed)] == Crashed + RetriedAgain;
    assert own + [StepVerified(0, Passed)] == Lost;
  }

  /** No result of the step in such a log is ok. */
  lemma LostIsNotBacked(log: seq<Event>)
    requires Project(log, 0) == Lost
    ensures !Backed([TheStep], log, 0) && !ResultsKept(log)
  {
    forall e | e in log && Concerns(e, 0) ensures !PassEarned([TheStep], 0, e) {
      ProjectMembers(log, e);
    }
    assert Lost[6].StepVerified? && Lost[5] == StepStarted(0);
  }

  lemma JudgedOnMore(log: seq<Event>)
    requires Tale(log, Lost, Passed)
    ensures Judged(NeedsReport, log, Accepted, 0)
    ensures NeedsReport(GateEvidence(log) + ResultRefs([Succeeds]), Rebuilt(log), 0) == Accepted
    ensures NeedsReport(GateEvidence(log), Rebuilt(log), 0) == Rejected
  {
    LostIsNotBacked(log);
    assert Succeeds in [Succeeds] && "report" in Succeeds.evidence;
    var evidence := GateEvidence(log) + ResultRefs([Succeeds]);
    assert "report" in evidence;
    assert NeedsReport(evidence, Rebuilt(log), 0) == Accepted;
    assert GateEvidence(log) == {};
  }

  /** The second retry: its result is not appended, the step passes, and the gate accepts on
      evidence that only the process holds. */
  lemma StaleRetryPasses()
    ensures var passed := Crashed + RetriedAgain;
            var accepted := passed + [AcceptanceEvaluated(Accepted, 0)];
            && VerdictFor(TheStep, Succeeds) == Passed
            && FailureOf(TheStep, Fails).Some? && !RetryFree(Crashed, [FailureOf(TheStep, Fails)])
            && Sound([TheStep], NeedsReport, accepted)
            && StatusOf(accepted, 0) == Passed && !Backed([TheStep], accepted, 0)
            && NeedsReport(GateEvidence(passed) + ResultRefs([Succeeds]), Rebuilt(passed), 0) == Accepted
            && NeedsReport(GateEvidence(passed), Rebuilt(passed), 0) == Rejected
  {
    var passed := Crashed + RetriedAgain;
    RetriedAgainIsSound();
    JudgedOnMore(passed);
    assert AllPassed([TheStep], passed);
    SoundAppend([TheStep], NeedsReport, passed, AcceptanceEvaluated(Accepted, 0));
    Appended(passed, AcceptanceEvaluated(Accepted, 0));
    LostIsNotBacked(passed + [AcceptanceEvaluated(Accepted, 0)]);
    StaleKey();
  }

  lemma StaleKey()
    ensures FailureOf(TheStep, Fails).Some? && !RetryFree(Crashed, [FailureOf(TheStep, Fails)])
    ensures VerdictFor(TheStep, Succeeds) == Passed
  {
    assert Crashed[10] == ResultEvent(TheStep, Fails, FromCheckpoint(0));
    assert FailureOf(TheStep, Fails) == Some(Failure(Some(0), Recovering, true, Retry));
    var checkpoints := [FailureOf(TheStep, Fails)];
    assert RetryOf(checkpoints) == Some(0);
    assert Crashed[10] in Crashed && ResultUnder(Crashed[10], 0, FromCheckpoint(0));
  }
}
