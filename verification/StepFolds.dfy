/**
  What the log says about the steps of a run: each step's status is the last of its start
  and verdict events. The events of other steps do not matter, so neither does the order in
  which a parallel batch interleaves.
 */
module StepFolds {
  import opened Common
  import opened TaskEvents

  predicate Concerns(e: Event, s: StepId) {
    (e.StepStarted? || e.ToolResultRecorded? || e.StepVerified?) && e.step == s
  }

  /** The events of one step, in order. */
  function Project(log: seq<Event>, s: StepId): seq<Event> {
    if log == [] then []
    else
      var before := Project(log[..|log| - 1], s);
      if Concerns(log[|log| - 1], s) then before + [log[|log| - 1]] else before
  }

  function StatusOf(log: seq<Event>, s: StepId): StepStatus {
    if log == [] then Pending
    else if log[|log| - 1] == StepStarted(s) then Running
    else if log[|log| - 1].StepVerified? && log[|log| - 1].step == s then log[|log| - 1].verdict
    else StatusOf(log[..|log| - 1], s)
  }

  /** The result recorded since the step was last started and not verified yet. */
  function OpenResult(log: seq<Event>, s: StepId): Option<Event> {
    if log == [] then None
    else if Concerns(log[|log| - 1], s) then
      if log[|log| - 1].ToolResultRecorded? then Some(log[|log| - 1]) else None
    else OpenResult(log[..|log| - 1], s)
  }

  function Starts(log: seq<Event>, s: StepId): nat {
    if log == [] then 0
    else Starts(log[..|log| - 1], s) + if log[|log| - 1] == StepStarted(s) then 1 else 0
  }

  /** Evidence that acceptance may use: that of every tool result but the failed ones. */
  function Evidence(log: seq<Event>): set<Ref> {
    if log == [] then {}
    else Evidence(log[..|log| - 1]) + EvidenceOf(log[|log| - 1])
  }

  function EvidenceOf(e: Event): set<Ref> {
    if e.ToolResultRecorded? && e.ok then set x | x in e.evidence else {}
  }

  function LastEvaluation(log: seq<Event>): Option<Decision> {
    if log == [] then None
    else if log[|log| - 1].AcceptanceEvaluated? then Some(log[|log| - 1].decision)
    else LastEvaluation(log[..|log| - 1])
  }

  predicate ResultUnder(e: Event, s: StepId, anchor: Anchor) {
    e.ToolResultRecorded? && e.step == s && e.anchor == anchor
  }

  /** A result of the step under this key is in the log: a second one is not appended. */
  predicate KeyUsed(log: seq<Event>, s: StepId, anchor: Anchor) {
    exists e :: e in log && ResultUnder(e, s, anchor)
  }

  /** A retry from a checkpoint has recorded a result of the step. */
  predicate Retried(log: seq<Event>, s: StepId) {
    exists e :: e in log && e.ToolResultRecorded? && e.step == s && e.anchor.FromCheckpoint?
  }

  /** Among the events of one step: each verdict comes right after the result it judges. */
  predicate Kept(own: seq<Event>) {
    forall i :: 0 <= i < |own| && own[i].StepVerified? ==> 0 < i && own[i - 1].ToolResultRecorded?
  }

  /** Every result that was judged is in the log. */
  ghost predicate ResultsKept(log: seq<Event>) {
    forall s :: Kept(Project(log, s))
  }

  /** Results that were kept are still kept. */
  ghost predicate KeepsResults(a: seq<Event>, b: seq<Event>) {
    forall s :: Kept(Project(a, s)) ==> Kept(Project(b, s))
  }

  // ---------- the source's loops ----------

  /** Statuses by step; a step without events has no entry. */
  method StepStatuses(log: seq<Event>) returns (statuses: map<StepId, StepStatus>)
    ensures forall s :: s in statuses <==> exists i :: 0 <= i < |log| && Marks(log[i], s)
    ensures forall s :: StatusOf(log, s) == if s in statuses then statuses[s] else Pending
  {
    statuses := map[];
    for i := 0 to |log|
      invariant forall s :: s in statuses <==> exists k :: 0 <= k < i && Marks(log[k], s)
      invariant forall s :: StatusOf(log[..i], s) == if s in statuses then statuses[s] else Pending
    {
      assert log[..i + 1][..i] == log[..i];
      match log[i]
      case StepStarted(s) => statuses := statuses[s := Running];
      case StepVerified(s, v) => statuses := statuses[s := v];
      case _ =>
    }
    assert log[..|log|] == log;
  }

  predicate Marks(e: Event, s: StepId) {
    (e.StepStarted? || e.StepVerified?) && e.step == s
  }

  /** One step passed before the other did. */
  predicate PassedFirst(log: seq<Event>, a: StepId, b: StepId) {
    exists k :: 0 <= k < |log| && log[k] == StepVerified(a, Passed) && forall m ::
        0 <= m <= k ==> log[m] != StepVerified(b, Passed)
  }

  /** The steps that ever passed, in the order in which they first did. */
  method CompletedSteps(log: seq<Event>) returns (completed: seq<StepId>)
    ensures forall s :: s in completed <==> StepVerified(s, Passed) in log
    ensures forall i, j :: 0 <= i < j < |completed| ==> completed[i] != completed[j]
    ensures forall i, j :: 0 <= i < j < |completed| ==> PassedFirst(log, completed[i], completed[j])
  {
    completed := [];
    var seen: set<StepId> := {};
    for i := 0 to |log|
      invariant forall s :: s in completed <==> StepVerified(s, Passed) in log[..i]
      invariant forall s :: s in completed <==> s in seen
      invariant forall i, j :: 0 <= i < j < |completed| ==> completed[i] != completed[j]
      invariant forall j, k :: 0 <= j < k < |completed| ==> PassedFirst(log, completed[j], completed[k])
    {
      assert log[..i + 1] == log[..i] + [log[i]];
      forall a, b | StepVerified(a, Passed) in log[..i] && StepVerified(b, Passed) !in log[..i]
        ensures PassedFirst(log, a, b) {
        var k :| 0 <= k < i && log[..i][k] == StepVerified(a, Passed);
        assert log[k] == StepVerified(a, Passed);
        assert forall m :: 0 <= m <= k ==> log[m] in log[..i];
      }
      if log[i].StepVerified? && log[i].verdict == Passed && log[i].step !in seen {
        completed := completed + [log[i].step];
        seen := seen + {log[i].step};
      }
    }
    assert log[..|log|] == log;
  }

  // ---------- one event at a time ----------

  lemma Appended(log: seq<Event>, e: Event)
    ensures forall s :: Project(log + [e], s) == Project(log, s) + if Concerns(e, s) then [e] else []
    ensures forall s :: StatusOf(log + [e], s) == if e == StepStarted(s) then Running
            else if e.StepVerified? && e.step == s then e.verdict else StatusOf(log, s)
    ensures forall s :: OpenResult(log + [e], s) == if !Concerns(e, s) then OpenResult(log, s)
            else if e.ToolResultRecorded? then Some(e) else None
    ensures forall s :: Starts(log + [e], s) == Starts(log, s) + if e == StepStarted(s) then 1 else 0
    ensures Evidence(log + [e]) == Evidence(log) + EvidenceOf(e)
    ensures LastEvaluation(log + [e]) == if e.AcceptanceEvaluated? then Some(e.decision) else LastEvaluation(log)
  {
    assert (log + [e])[..|log|] == log;
  }

  lemma AppendedStart(log: seq<Event>, e: Event, s: StepId)
    ensures Starts(log + [e], s) == Starts(log, s) + if e == StepStarted(s) then 1 else 0
  {
    assert (log + [e])[..|log|] == log;
  }

  // ---------- a step's own events decide ----------

  /** Status, starts and open result depend on the step's own events only. */
  lemma {:induction false} OwnEventsDecide(log: seq<Event>, s: StepId)
    ensures StatusOf(log, s) == StatusOf(Project(log, s), s)
    ensures Starts(log, s) == Starts(Project(log, s), s)
    ensures OpenResult(log, s) == OpenResult(Project(log, s), s)
  {
    if log != [] {
      var before, e := log[..|log| - 1], log[|log| - 1];
      OwnEventsDecide(before, s);
      Appended(Project(before, s), e);
    }
  }

  lemma {:induction false} ProjectMembers(log: seq<Event>, e: Event)
    requires e.StepStarted? || e.ToolResultRecorded? || e.StepVerified?
    ensures e in Project(log, e.step) <==> e in log
  {
    if log != [] {
      ProjectMembers(log[..|log| - 1], e);
      assert log == log[..|log| - 1] + [log[|log| - 1]];
    }
  }

  /** Whether a key is used depends on the step's own events only. */
  lemma KeysAreOwn(log: seq<Event>, s: StepId, anchor: Anchor)
    ensures KeyUsed(log, s, anchor) <==> KeyUsed(Project(log, s), s, anchor)
    ensures Retried(log, s) <==> Retried(Project(log, s), s)
  {
    forall e: Event | e.ToolResultRecorded? && e.step == s ensures e in Project(log, s) <==> e in log {
      ProjectMembers(log, e);
    }
  }

  lemma {:induction false} ProjectGrows(a: seq<Event>, b: seq<Event>, s: StepId)
    requires a <= b
    ensures Project(a, s) <= Project(b, s)
    decreases |b|
  {
    if |a| == |b| {
      assert a == b;
    } else {
      ProjectGrows(a, b[..|b| - 1], s);
    }
  }

  /** A result missing from a log stays missing. */
  lemma KeptBefore(a: seq<Event>, b: seq<Event>)
    requires a <= b && ResultsKept(b)
    ensures ResultsKept(a)
  {
    forall s ensures Kept(Project(a, s)) {
      assert Kept(Project(b, s));
      KeptBeforeOf(a, b, s);
    }
  }

  lemma KeptBeforeOf(a: seq<Event>, b: seq<Event>, s: StepId)
    requires a <= b
    ensures Kept(Project(b, s)) ==> Kept(Project(a, s))
  {
    ProjectGrows(a, b, s);
    var p, q := Project(a, s), Project(b, s);
    assert forall i :: 0 <= i < |p| ==> p[i] == q[i];
  }

  /** An open result is the last of the step's own events. */
  lemma OpenIsLast(log: seq<Event>, s: StepId)
    ensures var own := Project(log, s);
            OpenResult(log, s) == if own != [] && own[|own| - 1].ToolResultRecorded? then Some(own[|own| - 1]) else None
  {
    OwnEventsDecide(log, s);
    var own := Project(log, s);
    if own != [] {
      assert own[|own| - 1] in own;
      OwnOnly(log, s);
    }
  }

  lemma {:induction false} OwnOnly(log: seq<Event>, s: StepId)
    ensures forall i :: 0 <= i < |Project(log, s)| ==> Concerns(Project(log, s)[i], s)
  {
    if log != [] { OwnOnly(log[..|log| - 1], s); }
  }

  lemma {:induction false} EvidenceMembers(log: seq<Event>, x: Ref)
    ensures x in Evidence(log) <==> exists e :: e in log && x in EvidenceOf(e)
  {
    if log != [] {
      EvidenceMembers(log[..|log| - 1], x);
      assert log == log[..|log| - 1] + [log[|log| - 1]];
    }
  }

  /** The evidence set the runtime collects for the gate. */
  method CollectEvidence(log: seq<Event>) returns (refs: set<Ref>)
    ensures refs == Evidence(log)
  {
    refs := {};
    for i := 0 to |log|
      invariant refs == Evidence(log[..i])
    {
      assert log[..i + 1][..i] == log[..i];
      if log[i].ToolResultRecorded? && log[i].ok { refs := refs + set x | x in log[i].evidence; }
    }
    assert log[..|log|] == log;
  }
}
