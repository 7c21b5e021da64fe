/**
  The in-memory store of side-effect records: idempotent saves by run and key, and
  compare-and-set transitions. `journal` lists every durable write in order.
 */
module LongTaskStore {
  import opened Common
  import opened SideEffects

  /** The digest that names a record, taken to be injective. */
  datatype RecordId = RecordId(run: string, key: string)

  /** The digest of what a record intends, taken to be injective: the call, which of its intents, and that intent. */
  datatype Fingerprint = Fingerprint(tool: string, arguments: string, index: nat, intent: Effect)

  datatype Record = Record(
    id: RecordId,
    run: string,
    key: string,
    effect: Effect,
    fingerprint: Fingerprint,
    step: string,
    retrySafe: bool,
    entry: Entry)

  datatype StoreError =
    | DifferentIntent
    | DuplicateId
    | UnknownId
    | StatusConflict(expected: Status, found: Status)
    | IllegalTransition(from: Status, to: Status)

  datatype Write = Saved(id: RecordId) | Moved(id: RecordId, from: Status, to: Status, patch: Patch)

  predicate SameIntent(a: Record, b: Record) {
    && a.run == b.run && a.key == b.key && a.effect == b.effect && a.step == b.step
    && a.fingerprint == b.fingerprint
  }

  type Records = map<RecordId, Record>
  type RunIndex = map<string, seq<RecordId>>
  type KeyIndex = map<(string, string), RecordId>

  function KeyOf(r: Record): (string, string) { (r.run, r.key) }

  /** A run and key lead to exactly the record that carries them. */
  ghost predicate KeysAgree(records: Records, byKey: KeyIndex) {
    && (forall id {:trigger KeyOf(records[id])} :: id in records ==>
        records[id].id == id && KeyOf(records[id]) in byKey && byKey[KeyOf(records[id])] == id)
    && (forall k {:trigger byKey[k]} :: k in byKey ==> byKey[k] in records && KeyOf(records[byKey[k]]) == k)
  }

  function Listed(byRun: RunIndex, run: string): seq<RecordId> {
    if run in byRun then byRun[run] else []
  }

  /** A run lists its records once each, and no others. */
  ghost predicate RunsAgree(records: Records, byRun: RunIndex) {
    && (forall id {:trigger Listed(byRun, records[id].run)} :: id in records ==> id in Listed(byRun, records[id].run))
    && (forall run {:trigger Lists(records, run, Listed(byRun, run))} :: Lists(records, run, Listed(byRun, run)))
  }

  ghost predicate Lists(records: Records, run: string, ids: seq<RecordId>) {
    && (forall i :: 0 <= i < |ids| ==> ids[i] in records && records[ids[i]].run == run)
    && (forall i, j :: 0 <= i < j < |ids| ==> ids[i] != ids[j])
  }

  lemma InsertKeeps(records: Records, byRun: RunIndex, byKey: KeyIndex, c: Record)
    requires KeysAgree(records, byKey) && RunsAgree(records, byRun)
    requires c.id !in records && KeyOf(c) !in byKey
    ensures KeysAgree(records[c.id := c], byKey[KeyOf(c) := c.id])
    ensures RunsAgree(records[c.id := c], byRun[c.run := Listed(byRun, c.run) + [c.id]])
  {
    var records', byRun' := records[c.id := c], byRun[c.run := Listed(byRun, c.run) + [c.id]];
    forall id | id in records' ensures id in Listed(byRun', records'[id].run) {
      if id != c.id { assert id in Listed(byRun, records[id].run); }
      else { assert byRun'[c.run][|byRun'[c.run]| - 1] == id; }
    }
    forall run ensures Lists(records', run, Listed(byRun', run)) {
      assert Lists(records, run, Listed(byRun, run));
    }
    forall id | id in records'
      ensures records'[id].id == id && KeyOf(records'[id]) in byKey[KeyOf(c) := c.id]
              && byKey[KeyOf(c) := c.id][KeyOf(records'[id])] == id {
      if id != c.id { assert KeyOf(records[id]) in byKey; }
    }
  }

  lemma UpdateKeeps(records: Records, byRun: RunIndex, byKey: KeyIndex, r: Record)
    requires KeysAgree(records, byKey) && RunsAgree(records, byRun)
    requires r.id in records && KeyOf(r) == KeyOf(records[r.id])
    ensures KeysAgree(records[r.id := r], byKey) && RunsAgree(records[r.id := r], byRun)
  {
    var records' := records[r.id := r];
    forall run ensures Lists(records', run, Listed(byRun, run)) {
      assert Lists(records, run, Listed(byRun, run));
    }
    forall id | id in records'
      ensures records'[id].id == id && KeyOf(records'[id]) in byKey && byKey[KeyOf(records'[id])] == id
              && id in Listed(byRun, records'[id].run) {
      assert KeyOf(records[id]) in byKey && id in Listed(byRun, records[id].run);
    }
  }

  class InMemoryLongTaskStore {
    var sideEffects: Records
    var byRun: RunIndex
    var byIdempotency: KeyIndex
    ghost var journal: seq<Write>

    ghost predicate Valid()
      reads this
    {
      KeysAgree(sideEffects, byIdempotency) && RunsAgree(sideEffects, byRun)
    }

    constructor ()
      ensures Valid() && sideEffects == map[] && byRun == map[] && byIdempotency == map[] && journal == []
    {
      sideEffects, byRun, byIdempotency, journal := map[], map[], map[], [];
    }

    /** Saving the same intent again returns the record as it is now; a different intent
        under a used key is refused. */
    method SaveSideEffect(candidate: Record) returns (r: Result<Record, StoreError>)
      requires Valid()
      modifies this
      ensures Valid()
      ensures var k := (candidate.run, candidate.key);
              if k in old(byIdempotency) then
                && unchanged(this)
                && r == (var existing := old(sideEffects)[old(byIdempotency)[k]];
                         if SameIntent(existing, candidate) then Ok(existing) else Err(DifferentIntent))
              else if candidate.id in old(sideEffects) then unchanged(this) && r == Err(DuplicateId)
              else
                && r == Ok(candidate)
                && sideEffects == old(sideEffects)[candidate.id := candidate]
                && byIdempotency == old(byIdempotency)[k := candidate.id]
                && byRun == old(byRun)[candidate.run := Listed(old(byRun), candidate.run) + [candidate.id]]
                && journal == old(journal) + [Saved(candidate.id)]
    {
      var k := (candidate.run, candidate.key);
      if k in byIdempotency {
        var existing := sideEffects[byIdempotency[k]];
        if !SameIntent(existing, candidate) { return Err(DifferentIntent); }
        return Ok(existing);
      }
      if candidate.id in sideEffects { return Err(DuplicateId); }
      InsertKeeps(sideEffects, byRun, byIdempotency, candidate);
      sideEffects := sideEffects[candidate.id := candidate];
      byRun := byRun[candidate.run := Listed(byRun, candidate.run) + [candidate.id]];
      byIdempotency := byIdempotency[k := candidate.id];
      journal := journal + [Saved(candidate.id)];
      r := Ok(candidate);
    }

    /** A compare-and-set: the record moves only from the expected status, and only along
        a legal transition; nothing else changes. */
    method TransitionSideEffect(id: RecordId, expected: Status, status: Status, patch: Patch)
      returns (r: Result<Record, StoreError>)
      requires Valid()
      modifies this`sideEffects, this`journal
      ensures Valid()
      ensures if id !in old(sideEffects) then r == Err(UnknownId)
              else if old(sideEffects)[id].entry.status != expected then r ==
                  Err(StatusConflict(expected, old(sideEffects)[id].entry.status))
              else if !Allowed(expected, status) then r == Err(IllegalTransition(expected, status))
              else r == Ok(old(sideEffects)[id].(entry := Advance(old(sideEffects)[id].entry, status, patch)))
      ensures if r.Ok? then sideEffects == old(sideEffects)[id := r.value]
              && journal == old(journal) + [Moved(id, expected, status, patch)]
              else sideEffects == old(sideEffects) && journal == old(journal)
    {
      if id !in sideEffects { return Err(UnknownId); }
      var current := sideEffects[id];
      if current.entry.status != expected { return Err(StatusConflict(expected, current.entry.status)); }
      if !Allowed(expected, status) { return Err(IllegalTransition(expected, status)); }
      assert KeyOf(current) in byIdempotency;
      var updated := current.(entry := Advance(current.entry, status, patch));
      UpdateKeeps(sideEffects, byRun, byIdempotency, updated);
      sideEffects := sideEffects[id := updated];
      journal := journal + [Moved(id, expected, status, patch)];
      r := Ok(updated);
    }

    /** The records of a run in the order they were first saved: each once, and no other. */
    method ListSideEffects(run: string) returns (items: seq<Record>)
      requires Valid()
      ensures forall i :: 0 <= i < |items| ==>
                items[i].run == run && items[i].id in sideEffects && sideEffects[items[i].id] == items[i]
      ensures forall i, j :: 0 <= i < j < |items| ==> items[i].id != items[j].id
      ensures forall id :: id in sideEffects && sideEffects[id].run == run ==> sideEffects[id] in items
      ensures |items| == |Listed(byRun, run)| && forall i :: 0 <= i < |items| ==> items[i].id == Listed(byRun, run)[i]
    {
      items := [];
      var ids := Listed(byRun, run);
      assert Lists(sideEffects, run, ids);
      for k := 0 to |ids|
        invariant |items| == k
        invariant forall i :: 0 <= i < k ==> items[i] == sideEffects[ids[i]]
      {
        items := items + [sideEffects[ids[k]]];
      }
      forall i | 0 <= i < |items| ensures items[i].id == ids[i] {
        assert KeyOf(sideEffects[ids[i]]) in byIdempotency;
      }
      forall id | id in sideEffects && sideEffects[id].run == run ensures sideEffects[id] in items {
        assert id in Listed(byRun, sideEffects[id].run);
        var i :| 0 <= i < |ids| && ids[i] == id;
        assert items[i] == sideEffects[id];
      }
    }
  }
}
