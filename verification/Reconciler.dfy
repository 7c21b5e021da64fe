/**
  The operator's view of the outbox: a report over a run's records, and verdicts on
  uncertain ones.
 */
module Reconciler {
  import opened Common
  import opened SideEffects
  import opened OutboxPlan
  import opened OutboxMachine
  import opened OutboxInvariant
  import opened OutboxRecovery
  import opened OutboxCrashSafety
  import opened LongTaskStore

  datatype Report = Report(
    retryable: seq<RecordId>,
    pendingResultCommit: seq<RecordId>,
    manualReview: seq<RecordId>,
    confirmed: seq<RecordId>,
    reverted: seq<RecordId>)

  datatype Bin = Retryable | PendingResultCommit | ManualReview | ConfirmedBin | RevertedBin

  predicate InBin(r: Record, b: Bin) {
    match b
    case Retryable => r.entry.status in {Planned, Failed} || (r.entry.status == Dispatching && r.retrySafe)
    case PendingResultCommit => r.entry.status == Applied
    case ManualReview => r.entry.status == Uncertain || (r.entry.status == Dispatching && !r.retrySafe)
    case ConfirmedBin => r.entry.status == Confirmed
    case RevertedBin => r.entry.status == Reverted
  }

  function IdsIn(records: seq<Record>, b: Bin): seq<RecordId> {
    if records == [] then []
    else
      IdsIn(records[..|records| - 1], b) +
      if InBin(records[|records| - 1], b) then [records[|records| - 1].id] else []
  }

  function Inspect(records: seq<Record>): Report {
    Report(IdsIn(records, Retryable), IdsIn(records, PendingResultCommit), IdsIn(records, ManualReview),
        IdsIn(records, ConfirmedBin), IdsIn(records, RevertedBin))
  }

  function Ids(records: seq<Record>): seq<RecordId> {
    if records == [] then [] else Ids(records[..|records| - 1]) + [records[|records| - 1].id]
  }

  function BinOf(r: Record): Bin {
    match r.entry.status
    case Planned => Retryable
    case Failed => Retryable
    case Dispatching => if r.retrySafe then Retryable else ManualReview
    case Applied => PendingResultCommit
    case Uncertain => ManualReview
    case Confirmed => ConfirmedBin
    case Reverted => RevertedBin
  }

  function Count(ids: seq<RecordId>, id: RecordId): nat { multiset(ids)[id] }

  lemma IdsInGrows(records: seq<Record>, b: Bin, id: RecordId)
    requires records != []
    ensures var r := records[|records| - 1];
            Count(IdsIn(records, b), id) == Count(IdsIn(records[..|records| - 1], b), id) +
                if b == BinOf(r) && id == r.id then 1 else 0
  {
    assert InBin(records[|records| - 1], b) <==> b == BinOf(records[|records| - 1]);
  }

  /** The five lists are a partition: together they hold every record as often as the run
      lists it, so each record of a run is in exactly one list. */
  lemma {:induction false} InspectPartitions(records: seq<Record>, id: RecordId)
    ensures var r := Inspect(records);
            Count(r.retryable, id) + Count(r.pendingResultCommit, id) + Count(r.manualReview, id) + Count(r.confirmed,
                id) + Count(r.reverted, id)
            == Count(Ids(records), id)
  {
    if records != [] {
      InspectPartitions(records[..|records| - 1], id);
      IdsInGrows(records, Retryable, id);
      IdsInGrows(records, PendingResultCommit, id);
      IdsInGrows(records, ManualReview, id);
      IdsInGrows(records, ConfirmedBin, id);
      IdsInGrows(records, RevertedBin, id);
      assert Count(Ids(records), id) == Count(Ids(records[..|records| - 1]), id) +
               if id == records[|records| - 1].id then 1 else 0;
    }
  }

  lemma {:induction false} IdsInMembers(records: seq<Record>, b: Bin, id: RecordId)
    ensures id in IdsIn(records, b) <==> exists i :: 0 <= i < |records| && records[i].id == id && InBin(records[i], b)
  {
    if records != [] {
      var n := |records| - 1;
      IdsInMembers(records[..n], b, id);
      assert forall i :: 0 <= i < n ==> records[..n][i] == records[i];
    }
  }

  ghost predicate ListsStatus(ids: seq<RecordId>, records: seq<Record>, status: Status) {
    forall id :: id in ids <==>
        exists i :: 0 <= i < |records| && records[i].id == id && records[i].entry.status == status
  }

  /** Where a record that is neither settled nor reverted is listed: in flight it is retryable if
      its call is, and else needs review. */
  predicate OpenListed(report: Report, r: Record) {
    match r.entry.status
    case Planned => r.id in report.retryable
    case Failed => r.id in report.retryable
    case Uncertain => r.id in report.manualReview
    case Dispatching => if r.retrySafe then r.id in report.retryable else r.id in report.manualReview
    case _ => true
  }

  /** Which records each list names, by status. */
  lemma ReportLists(records: seq<Record>)
    ensures ListsStatus(Inspect(records).pendingResultCommit, records, Applied)
    ensures ListsStatus(Inspect(records).confirmed, records, Confirmed)
    ensures ListsStatus(Inspect(records).reverted, records, Reverted)
    ensures forall i :: 0 <= i < |records| ==> OpenListed(Inspect(records), records[i])
  {
    forall i | 0 <= i < |records| ensures OpenListed(Inspect(records), records[i]) {
      IdsInMembers(records, Retryable, records[i].id);
      IdsInMembers(records, ManualReview, records[i].id);
    }
    StatusLists(records, PendingResultCommit, Applied);
    StatusLists(records, ConfirmedBin, Confirmed);
    StatusLists(records, RevertedBin, Reverted);
  }

  lemma StatusLists(records: seq<Record>, b: Bin, status: Status)
    requires forall r: Record :: InBin(r, b) <==> r.entry.status == status
    ensures ListsStatus(IdsIn(records, b), records, status)
  {
    forall id ensures id in IdsIn(records, b) <==>
        exists i :: 0 <= i < |records| && records[i].id == id && records[i].entry.status == status {
      IdsInMembers(records, b, id);
    }
  }

  // ---------- what the report foretells ----------

  /** Settled records carry the result to replay, and whatever will settle one brings it. */
  ghost predicate Carried(c: Call, s: State) {
    && Inv(c, s)
    && (forall i :: i in s.recs && s.recs[i].status in SETTLED ==> s.recs[i].toolResult.Some?)
    && forall w :: 0 <= w < |s.workers| && s.workers[w].Moving? ==> Brings(s.workers[w].todo)
  }

  ghost predicate Brings(todo: seq<Move>) {
    forall j :: 0 <= j < |todo| && todo[j].to == Applied ==> todo[j].patch.toolResult.Some?
  }

  lemma SweepBrings(es: seq<Entry>, from: set<Status>, to: Status, p: Patch)
    requires to == Applied ==> p.toolResult.Some?
    ensures Brings(Sweep(es, from, to, p))
  {
    SweepAims(es, from, to, p);
  }

  lemma WorkBrings(c: Call, s: State, a: Action)
    requires Carried(c, s) && a.Work? && a.worker < |s.workers|
    ensures Do(c, s, a).workers[a.worker].Moving? ==> Brings(Do(c, s, a).workers[a.worker].todo)
  {
    match s.workers[a.worker]
    case Idle =>
    case Loading(seen) =>
      PreparePlanShape(seen, c.retrySafe);
      var moves := PreparePlan(seen, c.retrySafe).moves;
      assert forall j :: 0 <= j < |moves| ==> moves[j] in moves;
    case Ready(local) =>
      SweepBrings(local, UNSETTLED, Uncertain, NoPatch);
      var snapshot := Patch(Some(a.result), false, None);
      SweepBrings(local, {Dispatching}, Applied, snapshot);
      SweepBrings(local, {Dispatching}, Failed, snapshot);
      SweepBrings(local, {Dispatching}, Uncertain, snapshot);
    case Moving(todo, local, next) =>
      SweepBrings(local, {Planned}, Dispatching, NoPatch);
      SweepBrings(local, {Applied}, Confirmed, Patch(None, false, Some(a.eventId)));
      assert Brings(todo);
  }

  lemma RecordsCarry(c: Call, s: State, a: Action, i: nat)
    requires Carried(c, s) && i in Do(c, s, a).recs && Do(c, s, a).recs[i].status in SETTLED
    ensures Do(c, s, a).recs[i].toolResult.Some?
  {
    if a.Work? && a.worker < |s.workers| && s.workers[a.worker].Moving? && s.workers[a.worker].todo != [] {
      var todo := s.workers[a.worker].todo;
      assert WellFormed(c, s.workers[a.worker]) && Brings(todo);
      assert WorkerMove(todo[0], c.retrySafe);
    }
  }

  lemma CarriedKept(c: Call, s: State, a: Action)
    requires Carried(c, s)
    ensures Carried(c, Do(c, s, a))
  {
    var s' := Do(c, s, a);
    DoKeeps(c, s, a);
    forall i | i in s'.recs && s'.recs[i].status in SETTLED ensures s'.recs[i].toolResult.Some? {
      RecordsCarry(c, s, a, i);
    }
    forall w | 0 <= w < |s'.workers| && s'.workers[w].Moving? ensures Brings(s'.workers[w].todo) {
      OtherWorkersStay(c, s, a, w);
      if a.Work? && a.worker == w { WorkBrings(c, s, a); }
    }
  }

  lemma OtherWorkersStay(c: Call, s: State, a: Action, w: nat)
    requires w < |Do(c, s, a).workers|
    ensures |Do(c, s, a).workers| == |s.workers|
    ensures a.Resolve? || (a.Work? && a.worker != w) ==> Do(c, s, a).workers[w] == s.workers[w]
    ensures a.Crash? ==> Do(c, s, a).workers[w] in {Idle, s.workers[w]}
  {
  }

  /** In every reachable state a settled record has a result to replay. */
  lemma {:induction false} ResultsAreCarried(c: Call, workers: nat, acts: seq<Action>)
    ensures Carried(c, Run(c, Init(c, workers), acts))
  {
    if acts == [] {
      RunKeeps(c, workers, []);
    } else {
      ResultsAreCarried(c, workers, acts[..|acts| - 1]);
      CarriedKept(c, Run(c, Init(c, workers), acts[..|acts| - 1]), acts[|acts| - 1]);
    }
  }

  /** For a call with one intent, in every state that any workers, crashes and verdicts can
      reach, the report foretells the next attempt: a retryable record dispatches, an applied
      or confirmed one replays, the others block. */
  lemma InspectForetells(c: Call, workers: nat, acts: seq<Action>, r: Record)
    requires c.N == 1 && r.retrySafe == c.retrySafe
    requires var recs := Run(c, Init(c, workers), acts).recs; 0 in recs && r.entry == recs[0]
    ensures var outcome := PreparePlan([r.entry], c.retrySafe).outcome;
            && (InBin(r, Retryable) <==> outcome.Dispatch?)
            && (InBin(r, PendingResultCommit) || InBin(r, ConfirmedBin) <==> outcome.Replay?)
            && (InBin(r, ManualReview) || InBin(r, RevertedBin) <==> outcome.Block?)
  {
    ResultsAreCarried(c, workers, acts);
    if !c.retrySafe { FailuresAreCleared(c, workers, acts); }
    OneRecordForetold(r);
  }

  lemma OneRecordForetold(r: Record)
    requires r.entry.status == Failed && !r.retrySafe ==> r.entry.reconciled
    requires r.entry.status in SETTLED ==> r.entry.toolResult.Some?
    ensures var outcome := PreparePlan([r.entry], r.retrySafe).outcome;
            && (InBin(r, Retryable) <==> outcome.Dispatch?)
            && (InBin(r, PendingResultCommit) || InBin(r, ConfirmedBin) <==> outcome.Replay?)
            && (InBin(r, ManualReview) || InBin(r, RevertedBin) <==> outcome.Block?)
  {
    var v := [r.entry];
    assert v[0] == r.entry;
    var afterReset := Swept(v, {Dispatching}, Planned, NoPatch);
    var afterClear := Swept(afterReset, {Failed}, Planned, NoPatch);
    assert afterReset[0].status == if r.entry.status == Dispatching then Planned else r.entry.status;
    assert afterClear[0].status == if r.entry.status in {Dispatching, Failed} then Planned else r.entry.status;
    assert r.entry.status in SETTLED ==> ReplayResult(v) == r.entry.toolResult;
  }

  // ---------- verdicts ----------

  /** A note of white space only is no note. */
  predicate Blank(note: string) {
    forall i :: 0 <= i < |note| ==> note[i] in {' ', '\t', '\n', '\r', '\U{0b}', '\U{0c}'}
  }

  datatype ResolveError = NotAVerdict | EmptyNote | MissingResult | Refused(error: StoreError)

  class SideEffectReconciler {
    const store: InMemoryLongTaskStore

    constructor (s: InMemoryLongTaskStore)
      ensures store == s
    {
      store := s;
    }

    /** A verdict needs a note, a confirmation needs a result to replay, and only an
        uncertain record accepts one; otherwise nothing changes. */
    method ResolveUncertain(id: RecordId, status: Status, note: string, result: Option<ToolResult>)
      returns (r: Result<Record, ResolveError>)
      requires store.Valid()
      modifies store`sideEffects, store`journal
      ensures store.Valid()
      ensures r.Ok? <==>
        && status in {Confirmed, Failed, Reverted} && !Blank(note) && (status == Confirmed ==> result.Some?)
        && id in old(store.sideEffects) && old(store.sideEffects)[id].entry.status == Uncertain
      ensures r.Ok? ==>
        && r.value == old(store.sideEffects)[id].(entry :=
            Advance(old(store.sideEffects)[id].entry, status, Patch(result, true, None)))
        && store.sideEffects == old(store.sideEffects)[id := r.value]
        && r.value.entry.reconciled
        && (status == Confirmed ==> ReplayResult([r.value.entry]) == result)
      ensures r.Ok? ==> store.journal == old(store.journal) + [Moved(id, Uncertain, status, Patch(result, true, None))]
      ensures r.Err? ==> store.sideEffects == old(store.sideEffects) && store.journal == old(store.journal)
    {
      if status !in {Confirmed, Failed, Reverted} { return Err(NotAVerdict); }
      if Blank(note) { return Err(EmptyNote); }
      if status == Confirmed && result.None? { return Err(MissingResult); }
      var moved := store.TransitionSideEffect(id, Uncertain, status, Patch(result, true, None));
      if moved.Err? { return Err(Refused(moved.error)); }
      assert [moved.value.entry][0] == moved.value.entry;
      r := Ok(moved.value);
    }
  }
}
