/**
  The outbox over the durable store. Each method performs its transitions one at a time;
  its contract names the transitions, their order, and the records they leave.
 */
module Outbox {
  import opened Common
  import opened SideEffects
  import opened OutboxPlan
  import opened LongTaskStore

  datatype OutboxAction = Bypass | DispatchAction | ReplayAction | BlockAction

  datatype PreparedCall = PreparedCall(
    tool: string,
    arguments: string,
    outboxRequired: bool,
    keys: seq<string>,
    intents: seq<Effect>,
    retrySafe: bool)

  datatype Preparation = Preparation(
    action: OutboxAction,
    records: seq<Record>,
    result: Option<ToolResult>,
    retrySafe: bool)

  /** One key per intent, all different, as the registry derives them. */
  ghost predicate ValidCall(call: PreparedCall) {
    && |call.keys| == |call.intents|
    && forall i, j :: 0 <= i < j < |call.keys| ==> call.keys[i] != call.keys[j]
  }

  function NewRecord(run: string, step: string, call: PreparedCall, i: nat): Record
    requires i < |call.keys| && i < |call.intents|
  {
    var fingerprint := Fingerprint(call.tool, call.arguments, i, call.intents[i]);
    Record(RecordId(run, call.keys[i]), run, call.keys[i], call.intents[i], fingerprint, step, call.retrySafe, NewEntry)
  }

  /** A key that was used is used again for the same intent exactly if the call is the same: the
      same step, tool and arguments, and the same effect at the same place in the call. Any other
      is a conflict, whatever has become of the record. */
  lemma ConflictIff(held: Records, byKey: KeyIndex, run: string, step: string, call: PreparedCall, i: nat,
      step': string, call': PreparedCall, i': nat, entry: Entry)
    requires i < |call.keys| == |call.intents| && i' < |call'.keys| == |call'.intents|
    requires call.keys[i] == call'.keys[i'] && (run, call.keys[i]) in byKey
    requires byKey[(run, call.keys[i])] in held
    requires held[byKey[(run, call.keys[i])]] == NewRecord(run, step, call, i).(entry := entry)
    ensures Conflicts(held, byKey, NewRecord(run, step', call', i')) <==>
              !(step == step' && call.tool == call'.tool && call.arguments == call'.arguments && i == i'
                && call.intents[i] == call'.intents[i'])
  {
  }

  function Entries(records: seq<Record>): (es: seq<Entry>)
    ensures |es| == |records|
  {
    seq(|records|, i requires 0 <= i < |records| => records[i].entry)
  }

  /** The records are distinct and are what the store holds. */
  ghost predicate Mirrors(held: Records, records: seq<Record>) {
    && (forall i :: 0 <= i < |records| ==> records[i].id in held && held[records[i].id] == records[i])
    && Distinct(records)
  }

  ghost predicate Untouched(before: Records, after: Records, records: seq<Record>) {
    forall id :: id in before && (forall i :: 0 <= i < |records| ==> records[i].id != id) ==>
        id in after && after[id] == before[id]
  }

  /** The same records with new entries. */
  function Stamp(records: seq<Record>, es: seq<Entry>): (r: seq<Record>)
    requires |es| == |records|
    ensures |r| == |records|
  {
    seq(|records|, i requires 0 <= i < |records| => records[i].(entry := es[i]))
  }

  lemma StampStep(records: seq<Record>, es: seq<Entry>, i: nat)
    requires |es| == |records| && i < |records|
    ensures Stamp(records[..i + 1], es[..i + 1]) == Stamp(records[..i], es[..i]) + [records[i].(entry := es[i])]
  {
  }

  /** The store holds the first `i` records restamped, the others as they were. */
  ghost predicate Halfway(held: Records, records: seq<Record>, es: seq<Entry>, i: nat)
    requires |es| == |records|
  {
    forall k :: 0 <= k < |records| ==>
        records[k].id in held && held[records[k].id] == if k < i then records[k].(entry := es[k]) else records[k]
  }

  ghost predicate Distinct(records: seq<Record>) {
    forall i, j :: 0 <= i < j < |records| ==> records[i].id != records[j].id
  }

  lemma HalfwayStep(before: Records, held: Records, records: seq<Record>, es: seq<Entry>, i: nat)
    requires |es| == |records| && i < |records| && Distinct(records) && Halfway(held, records, es, i)
             && Untouched(before, held, records)
    ensures var held' := held[records[i].id := records[i].(entry := es[i])];
            Halfway(held', records, es, i + 1) && Untouched(before, held', records) && held'.Keys == held.Keys
  {
  }

  lemma HalfwayDone(held: Records, records: seq<Record>, es: seq<Entry>)
    requires |es| == |records| && Distinct(records) && Halfway(held, records, es, |records|)
    ensures Mirrors(held, Stamp(records, es))
  {
  }

  /** The journal lines of a list of moves over some records. */
  ghost function Lines(records: seq<Record>, moves: seq<Move>): seq<Write> {
    seq(|moves|, j requires 0 <= j < |moves| =>
      Moved(if moves[j].index < |records| then records[moves[j].index].id
        else RecordId("", ""), moves[j].from, moves[j].to, moves[j].patch))
  }

  lemma LinesConcat(records: seq<Record>, a: seq<Move>, b: seq<Move>)
    ensures Lines(records, a + b) == Lines(records, a) + Lines(records, b)
  {
  }

  lemma LinesSame(records: seq<Record>, es: seq<Entry>, moves: seq<Move>)
    requires |es| == |records|
    ensures Lines(Stamp(records, es), moves) == Lines(records, moves)
  {
  }

  function CallKey(run: string, call: PreparedCall, i: nat): (string, string)
    requires i < |call.keys|
  {
    (run, call.keys[i])
  }

  /** The entry under a key, or that of a new record. */
  function EntryUnder(held: Records, byKey: KeyIndex, k: (string, string)): Entry {
    if k in byKey && byKey[k] in held then held[byKey[k]].entry else NewEntry
  }

  /** What the call's records hold when they are read; missing ones are created. */
  ghost function Before(held: Records, byKey: KeyIndex, run: string, call: PreparedCall): (es: seq<Entry>)
    ensures |es| == |call.keys|
  {
    seq(|call.keys|, i requires 0 <= i < |call.keys| => EntryUnder(held, byKey, CallKey(run, call, i)))
  }

  /** The record cannot be saved: its key belongs to a different intent, or its id is taken. */
  ghost predicate Conflicts(held: Records, byKey: KeyIndex, r: Record) {
    if KeyOf(r) in byKey then byKey[KeyOf(r)] in held && !SameIntent(held[byKey[KeyOf(r)]], r) else r.id in held
  }

  ghost predicate OnlySaves(lines: seq<Write>) {
    forall i :: 0 <= i < |lines| ==> lines[i].Saved?
  }

  /** The records are those of the call, in the order of its intents. */
  ghost predicate BelongTo(records: seq<Record>, run: string, call: PreparedCall) {
    && |records| == |call.keys| == |call.intents|
    && forall i :: 0 <= i < |records| ==>
        KeyOf(records[i]) == CallKey(run, call, i) && records[i].effect == call.intents[i]
  }

  ghost predicate Extends(before: Records, after: Records) {
    forall id :: id in before ==> id in after && after[id] == before[id]
  }

  /** The records read so far are stored, and hold what their keys held at the start. */
  ghost predicate ReadSoFar(held: Records, byKey: KeyIndex, now: Records, run: string, call: PreparedCall,
      records: seq<Record>) {
    && |records| <= |call.keys| == |call.intents|
    && (forall k :: 0 <= k < |records| ==>
          && KeyOf(records[k]) == CallKey(run, call, k) && records[k].effect == call.intents[k]
          && records[k].id in now && now[records[k].id] == records[k]
          && records[k].entry == EntryUnder(held, byKey, CallKey(run, call, k)))
  }

  /** Saving the earlier intents has changed nothing about the later ones. */
  ghost predicate Ahead(held: Records, byKey: KeyIndex, now: Records, nowByKey: KeyIndex, run: string,
      call: PreparedCall, i: nat) {
    && Extends(held, now)
    && (forall k :: i <= k < |call.keys| ==>
          && (CallKey(run, call, k) in nowByKey <==> CallKey(run, call, k) in byKey)
          && (CallKey(run, call, k) in byKey ==>
              nowByKey[CallKey(run, call, k)] == byKey[CallKey(run, call, k)] && byKey[CallKey(run, call, k)] in held)
          && (RecordId(run, call.keys[k]) in now <==> RecordId(run, call.keys[k]) in held))
  }

  lemma StampBelongs(records: seq<Record>, es: seq<Entry>, run: string, call: PreparedCall)
    requires |es| == |records| && BelongTo(records, run, call)
    ensures BelongTo(Stamp(records, es), run, call)
    ensures Entries(Stamp(records, es)) == es
  {
    forall i | 0 <= i < |records| ensures KeyOf(Stamp(records, es)[i]) == CallKey(run, call, i) {
      assert KeyOf(records[i]) == CallKey(run, call, i);
    }
  }

  /** The journal gained some saves and then the given moves. */
  ghost predicate Wrote(before: seq<Write>, after: seq<Write>, records: seq<Record>, moves: seq<Move>) {
    && |before| + |moves| <= |after|
    && after[..|before|] == before
    && OnlySaves(after[|before|..|after| - |moves|])
    && after[|after| - |moves|..] == Lines(records, moves)
  }

  lemma WroteMore(before: seq<Write>, mid: seq<Write>, after: seq<Write>, records: seq<Record>, es: seq<Entry>,
      done: seq<Move>, more: seq<Move>)
    requires |es| == |records|
    requires Wrote(before, mid, records, done) && after == mid + Lines(Stamp(records, es), more)
    ensures Wrote(before, after, Stamp(records, es), done + more)
  {
    LinesSame(records, es, done + more);
    LinesSame(records, es, more);
    LinesConcat(records, done, more);
    var n := |after| - |done + more|;
    assert after[n..] == mid[n..] + Lines(records, more);
    assert after[|before|..n] == mid[|before|..n];
  }

  /** What a preparation has done so far: the moves `done` have brought the call's records
      to what `records` says. */
  ghost predicate Progress(start: Records, journal: seq<Write>, now: Records, nowJournal: seq<Write>, run: string,
      call: PreparedCall, records: seq<Record>, done: seq<Move>) {
    && BelongTo(records, run, call)
    && Mirrors(now, records)
    && Untouched(start, now, records)
    && Wrote(journal, nowJournal, records, done)
  }

  lemma UntouchedStamp(start: Records, mid: Records, now: Records, records: seq<Record>, es: seq<Entry>)
    requires |es| == |records| && Untouched(start, mid, records) && Untouched(mid, now, records)
    ensures Untouched(start, now, Stamp(records, es))
  {
    forall id | id in start && (forall i :: 0 <= i < |records| ==> Stamp(records, es)[i].id != id)
      ensures id in now && now[id] == start[id] {
      forall i | 0 <= i < |records| ensures records[i].id != id { assert Stamp(records, es)[i].id == records[i].id; }
    }
  }

  /** The status a dispatched record gets from a result. */
  function ResultStatus(intents: seq<Effect>, retrySafe: bool, r: ToolResult): Status {
    if r.ok then (if r.effects == intents then Applied else Uncertain)
    else if retrySafe && r.effects == [] then Failed
    else Uncertain
  }

  /** The records once a result is durable. */
  function RecordedAs(local: seq<Entry>, intents: seq<Effect>, retrySafe: bool, r: ToolResult): (es: seq<Entry>)
    ensures |es| == |local|
  {
    if r.ok && r.effects != intents then Swept(local, UNSETTLED, Uncertain, NoPatch)
    else Swept(local, {Dispatching}, ResultStatus(intents, retrySafe, r), Patch(Some(r), false, None))
  }

  /** A result settles every dispatched record the same way, and a success is kept for replay. */
  lemma RecordedFacts(local: seq<Entry>, intents: seq<Effect>, retrySafe: bool, r: ToolResult)
    requires AllIn(local, {Dispatching})
    ensures AllIn(RecordedAs(local, intents, retrySafe, r), {ResultStatus(intents, retrySafe, r)})
    ensures ResultStatus(intents, retrySafe, r) == Applied && local != [] ==>
              ReplayResult(RecordedAs(local, intents, retrySafe, r)) == Some(r)
    ensures RecordPlan(local, intents, retrySafe, r).1.ok <==> ResultStatus(intents, retrySafe, r) == Applied
  {
    var es := RecordedAs(local, intents, retrySafe, r);
    assert forall i :: 0 <= i < |local| ==> local[i].status == Dispatching;
    assert forall i :: 0 <= i < |es| && !(r.ok && r.effects != intents) ==> es[i].toolResult == Some(r);
  }

  /** The answer alone decides: applied if the tool succeeded with exactly the intended effects,
      failed if it failed without any effect and may be retried, uncertain otherwise. */
  lemma AnswerSettles(local: seq<Entry>, intents: seq<Effect>, retrySafe: bool, r: ToolResult)
    requires AllIn(local, {Dispatching}) && local != []
    ensures Settles(RecordedAs(local, intents, retrySafe, r), intents, retrySafe, r)
    ensures !AllIn(RecordedAs(local, intents, retrySafe, r), {Uncertain}) ==>
              AllCarry(RecordedAs(local, intents, retrySafe, r), r)
  {
    var es := RecordedAs(local, intents, retrySafe, r);
    assert forall i :: 0 <= i < |local| ==> local[i].status == Dispatching;
    assert es[0].status == if r.ok && r.effects == intents then Applied
      else if !r.ok && retrySafe && r.effects == [] then Failed else Uncertain;
    forall i | 0 <= i < |es| ensures es[i].status == es[0].status { assert local[i].status == Dispatching; }
  }

  /** The three ways an answer can leave the records of a call. */
  ghost predicate Settles(es: seq<Entry>, intents: seq<Effect>, retrySafe: bool, r: ToolResult) {
    && (AllIn(es, {Applied}) <==> r.ok && r.effects == intents)
    && (AllIn(es, {Failed}) <==> !r.ok && retrySafe && r.effects == [])
    && (AllIn(es, {Uncertain}) <==> (r.ok && r.effects != intents) || (!r.ok && (!retrySafe || r.effects != [])))
  }

  predicate AllCarry(es: seq<Entry>, r: ToolResult) {
    forall i :: 0 <= i < |es| ==> es[i].toolResult == Some(r)
  }

  /** A preparation reports the plan's decision and the records the plan leaves. */
  ghost predicate Decided(plan: Plan, p: Preparation, call: PreparedCall) {
    && (match plan.outcome
        case Dispatch => p.action == DispatchAction && p.result == None
        case Replay(r) => p.action == ReplayAction && p.result == Some(r)
        case Block => p.action == BlockAction && p.result == Some(BlockedResult))
    && p.retrySafe == (call.retrySafe && !plan.outcome.Block?)
    && Entries(p.records) == plan.local
  }

  /** A dispatch starts from planned records, and a replay from settled ones that all carry the
      result replayed. */
  lemma PlanFacts(seen: seq<Entry>, retrySafe: bool)
    ensures PreparePlan(seen, retrySafe).outcome.Dispatch? ==> AllIn(PreparePlan(seen, retrySafe).local, {Planned})
    ensures PreparePlan(seen, retrySafe).outcome.Replay? ==> AllIn(PreparePlan(seen, retrySafe).local, SETTLED)
    ensures forall i :: 0 <= i < |seen| && PreparePlan(seen, retrySafe).outcome.Replay? ==>
              PreparePlan(seen, retrySafe).local[i].toolResult == Some(PreparePlan(seen, retrySafe).outcome.result)
  {
  }

  class SideEffectOutbox {
    const store: InMemoryLongTaskStore?

    constructor (s: InMemoryLongTaskStore?)
      ensures store == s
    {
      store := s;
    }

    method TransitionOne(record: Record, from: set<Status>, to: Status, patch: Patch) returns (updated: Record)
      requires store != null && store.Valid() && record.id in store.sideEffects
               && store.sideEffects[record.id] == record
      requires forall s :: s in from ==> Allowed(s, to)
      modifies store`sideEffects, store`journal
      ensures store.Valid()
      ensures updated == if record.entry.status in from then record.(entry := Advance(record.entry, to, patch))
              else record
      ensures store.sideEffects == old(store.sideEffects)[record.id := updated]
      ensures store.journal == old(store.journal) +
              if record.entry.status in from then [Moved(record.id, record.entry.status, to, patch)] else []
    {
      updated := record;
      if record.entry.status in from {
        var r := store.TransitionSideEffect(record.id, record.entry.status, to, patch);
        updated := r.value;
      } else {
        assert store.sideEffects == store.sideEffects[record.id := record];
      }
    }

    /** Move, in order, every record that is in one of the statuses `from`. */
    method Transition(records: seq<Record>, from: set<Status>, to: Status, patch: Patch) returns (updated: seq<Record>)
      requires store != null && store.Valid() && Mirrors(store.sideEffects, records)
      requires forall s :: s in from ==> Allowed(s, to)
      modifies store`sideEffects, store`journal
      ensures store.Valid() && Mirrors(store.sideEffects, updated)
      ensures updated == Stamp(records, Swept(Entries(records), from, to, patch))
      ensures Untouched(old(store.sideEffects), store.sideEffects, records)
              && store.sideEffects.Keys == old(store.sideEffects).Keys
      ensures store.journal == old(store.journal) + Lines(records, Sweep(Entries(records), from, to, patch))
    {
      updated := [];
      ghost var es, before := Entries(records), store.sideEffects;
      ghost var swept := Swept(es, from, to, patch);
      for i := 0 to |records|
        invariant store.Valid()
        invariant updated == Stamp(records[..i], swept[..i])
        invariant Halfway(store.sideEffects, records, swept, i)
        invariant Untouched(before, store.sideEffects, records) && store.sideEffects.Keys == before.Keys
        invariant store.journal == old(store.journal) + SweepLines(records, es, i, from, to, patch)
      {
        JournalStep(records, es, i, from, to, patch);
        HalfwayStep(before, store.sideEffects, records, swept, i);
        var record := TransitionOne(records[i], from, to, patch);
        StampStep(records, swept, i);
        updated := updated + [record];
      }
      WholePrefixes(records, es, swept);
      HalfwayDone(store.sideEffects, records, swept);
    }

    method SaveOne(run: string, step: string, call: PreparedCall, records: seq<Record>, ghost held: Records,
        ghost byKey: KeyIndex)
      returns (r: Result<Record, StoreError>)
      requires store != null && store.Valid() && ValidCall(call) && |records| < |call.keys|
      requires ReadSoFar(held, byKey, store.sideEffects, run, call, records)
      requires Ahead(held, byKey, store.sideEffects, store.byIdempotency, run, call, |records|)
      modifies store
      ensures store.Valid()
      ensures r.Err? <==> Conflicts(held, byKey, NewRecord(run, step, call, |records|))
      ensures r.Ok? ==>
        && ReadSoFar(held, byKey, store.sideEffects, run, call, records + [r.value])
        && Ahead(held, byKey, store.sideEffects, store.byIdempotency, run, call, |records| + 1)
      ensures r.Err? ==> store.sideEffects == old(store.sideEffects)
      ensures store.journal == old(store.journal) || exists id :: store.journal == old(store.journal) + [Saved(id)]
    {
      var candidate := NewRecord(run, step, call, |records|);
      assert KeyOf(candidate) == CallKey(run, call, |records|);
      assert KeyOf(candidate) in byKey ==> store.byIdempotency[KeyOf(candidate)] == byKey[KeyOf(candidate)];
      r := store.SaveSideEffect(candidate);
    }

    /** Save or read back the record of every intent, in order. */
    method SaveIntents(run: string, step: string, call: PreparedCall) returns (r: Result<seq<Record>, StoreError>)
      requires store != null && store.Valid() && ValidCall(call)
      modifies store
      ensures store.Valid()
      ensures r.Err? <==>
                exists i :: 0 <= i < |call.keys|
                  && Conflicts(old(store.sideEffects), old(store.byIdempotency), NewRecord(run, step, call, i))
      ensures r.Ok? ==> Mirrors(store.sideEffects, r.value) && BelongTo(r.value, run, call)
      ensures r.Ok? ==> Entries(r.value) == Before(old(store.sideEffects), old(store.byIdempotency), run, call)
      ensures Extends(old(store.sideEffects), store.sideEffects)
      ensures old(store.journal) <= store.journal && OnlySaves(store.journal[|old(store.journal)|..])
    {
      var records: seq<Record> := [];
      ghost var held, byKey := store.sideEffects, store.byIdempotency;
      for i := 0 to |call.keys|
        invariant store.Valid() && |records| == i
        invariant forall k :: 0 <= k < i ==> !Conflicts(held, byKey, NewRecord(run, step, call, k))
        invariant ReadSoFar(held, byKey, store.sideEffects, run, call, records)
        invariant Ahead(held, byKey, store.sideEffects, store.byIdempotency, run, call, i)
        invariant old(store.journal) <= store.journal && OnlySaves(store.journal[|old(store.journal)|..])
      {
        var saved := SaveOne(run, step, call, records, held, byKey);
        if saved.Err? { return Err(saved.error); }
        records := records + [saved.value];
      }
      r := Ok(records);
    }

    /** One sweep of a preparation. */
    method MoveRecords(ghost start: Records, ghost journal: seq<Write>, run: string, call: PreparedCall,
        records: seq<Record>, ghost done: seq<Move>, from: set<Status>, to: Status)
      returns (updated: seq<Record>)
      requires store != null && store.Valid()
      requires Progress(start, journal, store.sideEffects, store.journal, run, call, records, done)
      requires forall s :: s in from ==> Allowed(s, to)
      modifies store`sideEffects, store`journal
      ensures store.Valid()
      ensures Entries(updated) == Swept(Entries(records), from, to, NoPatch)
      ensures Progress(start, journal, store.sideEffects, store.journal, run, call, updated,
                done + Sweep(Entries(records), from, to, NoPatch))
    {
      ghost var mid, midJournal := store.sideEffects, store.journal;
      updated := Transition(records, from, to, NoPatch);
      ghost var es := Swept(Entries(records), from, to, NoPatch);
      StampBelongs(records, es, run, call);
      LinesSame(records, es, Sweep(Entries(records), from, to, NoPatch));
      WroteMore(journal, midJournal, store.journal, records, es, done, Sweep(Entries(records), from, to, NoPatch));
      UntouchedStamp(start, mid, store.sideEffects, records, es);
    }

    /** No record is uncertain and nothing may be in flight: reset what can be redone, then
        dispatch if every record is planned. */
    method DecideAfterReset(ghost start: Records, ghost journal: seq<Write>, run: string, call: PreparedCall,
        seen: seq<Record>)
      returns (p: Preparation)
      requires store != null && store.Valid()
      requires Progress(start, journal, store.sideEffects, store.journal, run, call, seen, [])
      modifies store`sideEffects, store`journal
      ensures store.Valid()
      ensures Decided(RedoPlan(Entries(seen), call.retrySafe), p, call)
      ensures Progress(start, journal, store.sideEffects, store.journal, run, call, p.records,
                RedoPlan(Entries(seen), call.retrySafe).moves)
    {
      ghost var reset := Sweep(Entries(seen), {Dispatching}, Planned, NoPatch);
      assert [] + reset == reset;
      var records := MoveRecords(start, journal, run, call, seen, [], {Dispatching}, Planned);
      var afterReset := Entries(records);
      if Has(afterReset, Failed) && !call.retrySafe && !ManuallyCleared(afterReset) {
        return Preparation(BlockAction, records, Some(BlockedResult), false);
      }
      ghost var cleared := reset + Sweep(afterReset, {Failed}, Planned, NoPatch);
      records := MoveRecords(start, journal, run, call, records, reset, {Failed}, Planned);
      if AllIn(Entries(records), {Planned}) {
        return Preparation(DispatchAction, records, None, call.retrySafe);
      }
      records := MoveRecords(start, journal, run, call, records, cleared, UNSETTLED, Uncertain);
      return Preparation(BlockAction, records, Some(BlockedResult), false);
    }

    /** Decide what to do with a call whose records have been read: dispatch, replay or block. */
    method Decide(ghost start: Records, ghost journal: seq<Write>, run: string, call: PreparedCall, seen: seq<Record>)
      returns (p: Preparation)
      requires store != null && store.Valid()
      requires Progress(start, journal, store.sideEffects, store.journal, run, call, seen, [])
      modifies store`sideEffects, store`journal
      ensures store.Valid()
      ensures Decided(PreparePlan(Entries(seen), call.retrySafe), p, call)
      ensures Progress(start, journal, store.sideEffects, store.journal, run, call, p.records,
                PreparePlan(Entries(seen), call.retrySafe).moves)
    {
      var records := seen;
      var statuses := Entries(records);
      if AllIn(statuses, SETTLED) {
        var replay := ReplayResult(statuses);
        if replay.Some? { return Preparation(ReplayAction, records, replay, call.retrySafe); }
        assert [] + Sweep(statuses, UNSETTLED, Uncertain, NoPatch) == Sweep(statuses, UNSETTLED, Uncertain, NoPatch);
        records := MoveRecords(start, journal, run, call, records, [], UNSETTLED, Uncertain);
        return Preparation(BlockAction, records, Some(BlockedResult), false);
      }
      if Has(statuses, Uncertain) {
        return Preparation(BlockAction, records, Some(BlockedResult), false);
      }
      if Has(statuses, Dispatching) && !call.retrySafe {
        assert [] + Sweep(statuses, UNSETTLED, Uncertain, NoPatch) == Sweep(statuses, UNSETTLED, Uncertain, NoPatch);
        records := MoveRecords(start, journal, run, call, records, [], UNSETTLED, Uncertain);
        return Preparation(BlockAction, records, Some(BlockedResult), false);
      }
      p := DecideAfterReset(start, journal, run, call, seen);
    }

    /** Persist the intents of a call and decide. A crash after any of the writes listed in
        the journal leaves exactly the prefix of them. */
    method Prepare(run: string, step: string, call: PreparedCall) returns (r: Result<Preparation, StoreError>)
      requires ValidCall(call)
      requires store != null ==> store.Valid()
      modifies store
      ensures store != null ==> store.Valid()
      ensures !call.outboxRequired ==>
                r == Ok(Preparation(Bypass, [], None, false)) && (store != null ==> unchanged(store))
      ensures call.outboxRequired && store == null ==> r == Ok(Preparation(BlockAction, [], Some(BlockedResult), false))
      ensures call.outboxRequired && store != null ==>
        && (r.Err? <==>
            exists i :: 0 <= i < |call.keys|
              && Conflicts(old(store.sideEffects), old(store.byIdempotency), NewRecord(run, step, call, i)))
        && (r.Ok? ==>
              var plan := PreparePlan(Before(old(store.sideEffects), old(store.byIdempotency), run, call),
                  call.retrySafe);
              && Decided(plan, r.value, call)
              && Progress(old(store.sideEffects), old(store.journal), store.sideEffects, store.journal, run, call,
                  r.value.records, plan.moves))
    {
      if !call.outboxRequired { return Ok(Preparation(Bypass, [], None, false)); }
      if store == null { return Ok(Preparation(BlockAction, [], Some(BlockedResult), false)); }
      ghost var start, journal := store.sideEffects, store.journal;
      var saved := SaveIntents(run, step, call);
      if saved.Err? { return Err(saved.error); }
      assert Lines(saved.value, []) == [];
      assert store.journal[|journal|..|store.journal| - 0] == store.journal[|journal|..];
      var p := Decide(start, journal, run, call, saved.value);
      r := Ok(p);
    }

    /** Take every planned record to dispatching, one compare-and-set each. */
    method BeginDispatch(p: Preparation) returns (begun: Preparation)
      requires p.action.DispatchAction? ==>
                 store != null && store.Valid() && Mirrors(store.sideEffects, p.records)
                   && AllIn(Entries(p.records), {Planned})
      modifies store
      ensures !p.action.DispatchAction? ==> begun == p && (store != null ==> unchanged(store))
      ensures p.action.DispatchAction? ==>
        && store.Valid() && Mirrors(store.sideEffects, begun.records)
        && begun == Preparation(DispatchAction,
            Stamp(p.records, Swept(Entries(p.records), {Planned}, Dispatching, NoPatch)), None, p.retrySafe)
        && AllIn(Entries(begun.records), {Dispatching})
        && Untouched(old(store.sideEffects), store.sideEffects, p.records)
        && store.journal == old(store.journal) + Lines(p.records, BeginMoves(Entries(p.records)))
    {
      if !p.action.DispatchAction? { return p; }
      var records := Transition(p.records, {Planned}, Dispatching, NoPatch);
      begun := Preparation(DispatchAction, records, None, p.retrySafe);
    }

    /** Make the result of a dispatch durable. The answer alone decides: all records are applied
        iff the tool succeeded with exactly the intended effects, failed iff it failed without
        any and may be retried, and uncertain otherwise, which blocks the call. */
    method RecordResult(p: Preparation, result: ToolResult, intents: seq<Effect>)
      returns (recorded: Preparation, reported: ToolResult)
      requires p.action.DispatchAction? ==>
                 store != null && store.Valid() && Mirrors(store.sideEffects, p.records)
                   && AllIn(Entries(p.records), {Dispatching})
      modifies store
      ensures !p.action.DispatchAction? ==> recorded == p && reported == result && (store != null ==> unchanged(store))
      ensures p.action.DispatchAction? ==>
        && store.Valid() && Mirrors(store.sideEffects, recorded.records)
        && recorded.records == Stamp(p.records, RecordedAs(Entries(p.records), intents, p.retrySafe, result))
        && Untouched(old(store.sideEffects), store.sideEffects, p.records)
        && reported == RecordPlan(Entries(p.records), intents, p.retrySafe, result).1
        && store.journal ==
            old(store.journal) + Lines(p.records, RecordPlan(Entries(p.records), intents, p.retrySafe, result).0)
        && recorded.result == Some(reported)
      ensures p.action.DispatchAction? && p.records != [] ==>
        var es := Entries(recorded.records);
        && (AllIn(es, {Applied}) <==> result.ok && result.effects == intents)
        && (AllIn(es, {Failed}) <==> !result.ok && p.retrySafe && result.effects == [])
        && (AllIn(es, {Uncertain}) <==> !AllIn(es, {Applied}) && !AllIn(es, {Failed}))
        && (AllIn(es, {Uncertain}) ==>
            && recorded.action.BlockAction? && !reported.ok
            && reported.effects == result.effects && reported.evidence == result.evidence)
        && (!AllIn(es, {Uncertain}) ==> reported == result && recorded.action.DispatchAction? && AllCarry(es, result))
    {
      recorded, reported := SettleRecords(p, result, intents);
      if p.action.DispatchAction? && p.records != [] {
        AnswerSettles(Entries(p.records), intents, p.retrySafe, result);
        assert Entries(recorded.records) == RecordedAs(Entries(p.records), intents, p.retrySafe, result);
      }
    }

    method SettleRecords(p: Preparation, result: ToolResult, intents: seq<Effect>)
      returns (recorded: Preparation, reported: ToolResult)
      requires p.action.DispatchAction? ==>
                 store != null && store.Valid() && Mirrors(store.sideEffects, p.records)
                   && AllIn(Entries(p.records), {Dispatching})
      modifies store
      ensures !p.action.DispatchAction? ==> recorded == p && reported == result && (store != null ==> unchanged(store))
      ensures p.action.DispatchAction? ==>
        && store.Valid() && Mirrors(store.sideEffects, recorded.records)
        && recorded.records == Stamp(p.records, RecordedAs(Entries(p.records), intents, p.retrySafe, result))
        && Untouched(old(store.sideEffects), store.sideEffects, p.records)
        && reported == RecordPlan(Entries(p.records), intents, p.retrySafe, result).1
        && store.journal ==
            old(store.journal) + Lines(p.records, RecordPlan(Entries(p.records), intents, p.retrySafe, result).0)
        && recorded.result == Some(reported)
        && (recorded.action.DispatchAction? || recorded.action.BlockAction?)
        && (recorded.action.BlockAction? <==> ResultStatus(intents, p.retrySafe, result) == Uncertain)
      ensures p.action.DispatchAction? ==>
                (recorded.action.DispatchAction? ==> reported == result)
                && (recorded.action.BlockAction? ==>
                    !reported.ok && reported.effects == result.effects && reported.evidence == result.evidence)
    {
      if !p.action.DispatchAction? { return p, result; }
      if result.ok && result.effects != intents {
        var records := Transition(p.records, UNSETTLED, Uncertain, NoPatch);
        return Preparation(BlockAction, records, Some(Blocked(result)), false), Blocked(result);
      }
      var snapshot := Patch(Some(result), false, None);
      if result.ok {
        var records := Transition(p.records, {Dispatching}, Applied, snapshot);
        return Preparation(DispatchAction, records, Some(result), p.retrySafe), result;
      }
      if p.retrySafe && result.effects == [] {
        var records := Transition(p.records, {Dispatching}, Failed, snapshot);
        return Preparation(DispatchAction, records, Some(result), p.retrySafe), result;
      }
      var records := Transition(p.records, {Dispatching}, Uncertain, snapshot);
      return Preparation(BlockAction, records, Some(Blocked(result)), p.retrySafe), Blocked(result);
    }

    /** Confirm every applied record with the event that logged its result. */
    method ConfirmResult(p: Preparation, eventId: string) returns (confirmed: Preparation)
      requires p.records != [] ==> store != null && store.Valid() && Mirrors(store.sideEffects, p.records)
      modifies store
      ensures p.records == [] ==> confirmed == p && (store != null ==> unchanged(store))
      ensures p.records != [] ==>
        && store.Valid() && Mirrors(store.sideEffects, confirmed.records)
        && confirmed == p.(records :=
            Stamp(p.records, Swept(Entries(p.records), {Applied}, Confirmed, Patch(None, false, Some(eventId)))))
        && Untouched(old(store.sideEffects), store.sideEffects, p.records)
        && store.journal == old(store.journal) + Lines(p.records, ConfirmMoves(Entries(p.records), eventId))
    {
      if p.records == [] { return p; }
      var records := Transition(p.records, {Applied}, Confirmed, Patch(None, false, Some(eventId)));
      confirmed := p.(records := records);
    }

    /** The outbox's part of executing a step: prepare, dispatch if so decided, record, and
        after the result event is logged, confirm. `answer` is what the tool says if it runs.
        A step can go on with a successful result only over confirmed records, and the tool
        runs exactly when the preparation decides to dispatch. */
    method ExecuteCall(run: string, step: string, call: PreparedCall, answer: ToolResult, eventId: string)
      returns (r: Result<ToolResult, StoreError>, records: seq<Record>, executed: bool)
      requires ValidCall(call) && call.outboxRequired && store != null && store.Valid()
      modifies store
      ensures store.Valid()
      ensures r.Err? ==> !executed
      ensures r.Ok? ==> BelongTo(records, run, call) && Mirrors(store.sideEffects, records)
      ensures r.Ok? && r.value.ok ==> AllIn(Entries(records), {Confirmed})
      ensures r.Ok? ==>
                (executed <==> PreparePlan(Before(old(store.sideEffects), old(store.byIdempotency), run, call),
                    call.retrySafe).outcome.Dispatch?)
    {
      var p;
      r, p, executed := RunCall(run, step, call, answer);
      if r.Err? { return r, [], false; }
      records := ConfirmCall(run, call, p, eventId);
    }

    /** Up to the logging of the result. A call that needs no outbox just runs; one that needs
        an outbox is blocked where there is none. */
    method RunCall(run: string, step: string, call: PreparedCall, answer: ToolResult)
      returns (r: Result<ToolResult, StoreError>, p: Preparation, executed: bool)
      requires ValidCall(call) && (store != null ==> store.Valid())
      modifies store
      ensures store != null ==> store.Valid()
      ensures r.Err? ==> !executed
      ensures r.Ok? ==> Covered(run, call, p)
      ensures r.Ok? && r.value.ok && call.outboxRequired ==> store != null && AllIn(Entries(p.records), SETTLED)
      ensures !call.outboxRequired ==> r == Ok(answer) && executed && (store != null ==> unchanged(store))
      ensures r.Ok? && call.outboxRequired ==>
                (executed <==>
                  store != null
                  && PreparePlan(Before(old(store.sideEffects), old(store.byIdempotency), run, call),
                       call.retrySafe).outcome.Dispatch?)
    {
      executed, p := false, Preparation(Bypass, [], None, false);
      var prepared := Prepare(run, step, call);
      if prepared.Err? { return Err(prepared.error), p, false; }
      p := prepared.value;
      if !call.outboxRequired { return Ok(answer), p, true; }
      if store == null { return Ok(BlockedResult), p, false; }
      PlanFacts(Before(old(store.sideEffects), old(store.byIdempotency), run, call), call.retrySafe);
      if p.action.DispatchAction? {
        var result;
        p, result := DispatchCall(run, call, p, answer);
        return Ok(result), p, true;
      }
      r := Ok(p.result.value);
    }

    /** The records prepared are those of the call as stored, if it has an outbox. */
    ghost predicate Covered(run: string, call: PreparedCall, p: Preparation)
      reads store
    {
      if call.outboxRequired && store != null then
        BelongTo(p.records, run, call) && Mirrors(store.sideEffects, p.records)
      else p.records == []
    }

    method ConfirmCall(run: string, call: PreparedCall, p: Preparation, eventId: string) returns (records: seq<Record>)
      requires (store != null ==> store.Valid()) && Covered(run, call, p)
      modifies store
      ensures store != null ==> store.Valid()
      ensures call.outboxRequired && store != null ==>
                BelongTo(records, run, call) && Mirrors(store.sideEffects, records)
      ensures AllIn(Entries(p.records), SETTLED) ==> AllIn(Entries(records), {Confirmed})
    {
      var confirmed := ConfirmResult(p, eventId);
      records := confirmed.records;
      if call.outboxRequired && store != null {
        var swept := Swept(Entries(p.records), {Applied}, Confirmed, Patch(None, false, Some(eventId)));
        StampBelongs(p.records, swept, run, call);
      }
    }

    method DispatchCall(run: string, call: PreparedCall, p: Preparation, answer: ToolResult)
      returns (q: Preparation, result: ToolResult)
      requires store != null && store.Valid() && p.action.DispatchAction? && BelongTo(p.records, run, call)
      requires Mirrors(store.sideEffects, p.records) && AllIn(Entries(p.records), {Planned})
      modifies store
      ensures store.Valid() && Mirrors(store.sideEffects, q.records) && BelongTo(q.records, run, call)
      ensures result.ok ==> AllIn(Entries(q.records), {Applied})
    {
      var begun := BeginDispatch(p);
      StampBelongs(p.records, Swept(Entries(p.records), {Planned}, Dispatching, NoPatch), run, call);
      q, result := RecordResult(begun, answer, call.intents);
      RecordedFacts(Entries(begun.records), call.intents, begun.retrySafe, answer);
      StampBelongs(begun.records, RecordedAs(Entries(begun.records), call.intents, begun.retrySafe, answer), run, call);
    }
  }

  /** The journal lines of a sweep over the first `i` records. */
  ghost function SweepLines(records: seq<Record>, es: seq<Entry>, i: nat, from: set<Status>, to: Status,
      patch: Patch): seq<Write>
    requires i <= |es|
  {
    Lines(records, Sweep(es[..i], from, to, patch))
  }

  lemma JournalStep(records: seq<Record>, es: seq<Entry>, i: nat, from: set<Status>, to: Status, patch: Patch)
    requires |es| == |records| && i < |es|
    ensures SweepLines(records, es, i + 1, from, to, patch) ==
            SweepLines(records, es, i, from, to, patch) +
                if es[i].status in from then [Moved(records[i].id, es[i].status, to, patch)] else []
  {
    assert es[..i + 1][..i] == es[..i];
    LinesConcat(records, Sweep(es[..i], from, to, patch), if es[i].status in from then
        [Move(i, es[i].status, to, patch)] else []);
  }

  lemma WholePrefixes(records: seq<Record>, es: seq<Entry>, swept: seq<Entry>)
    requires |es| == |records| == |swept|
    ensures es[..|records|] == es && records[..|records|] == records && swept[..|records|] == swept
  {
  }
}
