/**
  Interleavings: logs that tell the same of every step, and batches run in order or not.
 */
module BatchOrder {
  import opened TaskEvents
  import opened StepFolds

  /** The same events of each step, in any interleaving. */
  ghost predicate SameSteps(a: seq<Event>, b: seq<Event>) {
    forall s :: Project(a, s) == Project(b, s)
  }

  /** Every interleaving of the steps' events yields the same statuses, the same completed
      steps and the same evidence. */
  lemma Confluence(a: seq<Event>, b: seq<Event>)
    requires SameSteps(a, b)
    ensures forall s :: StatusOf(a, s) == StatusOf(b, s)
    ensures forall s :: StepVerified(s, Passed) in a <==> StepVerified(s, Passed) in b
    ensures Evidence(a) == Evidence(b)
  {
    forall s ensures StatusOf(a, s) == StatusOf(b, s) {
      OwnEventsDecide(a, s);
      OwnEventsDecide(b, s);
    }
    forall s ensures StepVerified(s, Passed) in a <==> StepVerified(s, Passed) in b {
      ProjectMembers(a, StepVerified(s, Passed));
      ProjectMembers(b, StepVerified(s, Passed));
    }
    EvidenceIncluded(a, b);
    EvidenceIncluded(b, a);
  }

  lemma EvidenceIncluded(a: seq<Event>, b: seq<Event>)
    requires SameSteps(a, b)
    ensures Evidence(a) <= Evidence(b)
  {
    forall x | x in Evidence(a) ensures x in Evidence(b) {
      EvidenceMembers(a, x);
      EvidenceMembers(b, x);
      var e :| e in a && x in EvidenceOf(e);
      ProjectMembers(a, e);
      ProjectMembers(b, e);
    }
  }

  // ---------- a batch, in order and not ----------

  /** All events of the batch's first step, then all of the second, and so on. */
  function InOrder(traces: seq<seq<Event>>): seq<Event> {
    if traces == [] then [] else InOrder(traces[..|traces| - 1]) + traces[|traces| - 1]
  }

  ghost predicate OwnedBy(trace: seq<Event>, s: StepId) {
    forall i :: 0 <= i < |trace| ==> Concerns(trace[i], s)
  }

  lemma {:induction false} ProjectConcat(a: seq<Event>, b: seq<Event>, s: StepId)
    ensures Project(a + b, s) == Project(a, s) + Project(b, s)
    decreases |b|
  {
    if b == [] {
      assert a + b == a;
    } else {
      assert (a + b)[..|a + b| - 1] == a + b[..|b| - 1];
      ProjectConcat(a, b[..|b| - 1], s);
    }
  }

  lemma {:induction false} ProjectOwned(trace: seq<Event>, owner: StepId, s: StepId)
    requires OwnedBy(trace, owner)
    ensures Project(trace, s) == if s == owner then trace else []
  {
    if trace != [] {
      ProjectOwned(trace[..|trace| - 1], owner, s);
      assert trace == trace[..|trace| - 1] + [trace[|trace| - 1]];
    }
  }

  /** Running the steps one after the other gives each its own trace and the rest nothing. */
  lemma {:induction false} InOrderProjects(ids: seq<StepId>, traces: seq<seq<Event>>, s: StepId)
    requires |ids| == |traces|
    requires forall i, j :: 0 <= i < |ids| && 0 <= j < |ids| && ids[i] == ids[j] ==> i == j
    requires forall i :: 0 <= i < |ids| ==> OwnedBy(traces[i], ids[i])
    ensures s !in ids ==> Project(InOrder(traces), s) == []
    ensures forall i :: 0 <= i < |ids| && ids[i] == s ==> Project(InOrder(traces), s) == traces[i]
  {
    if ids != [] {
      var n := |ids| - 1;
      InOrderProjects(ids[..n], traces[..n], s);
      ProjectConcat(InOrder(traces[..n]), traces[n], s);
      ProjectOwned(traces[n], ids[n], s);
      assert s == ids[n] ==> s !in ids[..n];
    }
  }

  /** A log in which each step of a batch appended its trace, interleaved somehow, has the
      same steps as the log of running the batch in order. */
  lemma BatchConfluence(before: seq<Event>, after: seq<Event>, ids: seq<StepId>, traces: seq<seq<Event>>)
    requires |ids| == |traces|
    requires forall i, j :: 0 <= i < |ids| && 0 <= j < |ids| && ids[i] == ids[j] ==> i == j
    requires forall i :: 0 <= i < |ids| ==> OwnedBy(traces[i], ids[i])
    requires forall i :: 0 <= i < |ids| ==> Project(after, ids[i]) == Project(before, ids[i]) + traces[i]
    requires forall s :: s !in ids ==> Project(after, s) == Project(before, s)
    ensures SameSteps(after, before + InOrder(traces))
  {
    forall s ensures Project(after, s) == Project(before + InOrder(traces), s) {
      ProjectConcat(before, InOrder(traces), s);
      InOrderProjects(ids, traces, s);
      if s in ids {
        var i :| 0 <= i < |ids| && ids[i] == s;
      } else {
        assert Project(before, s) + [] == Project(before, s);
      }
    }
  }
}
