/**
  Acceptance facts: supplied to a call, recorded as events, merged again at the gate.
  A list of facts is a dictionary's keys: each once, in order of first insertion.
 */
module AcceptanceFacts {
  import opened TaskEvents

  function Adjoin(acc: seq<Ref>, items: seq<Ref>): seq<Ref>
    decreases |items|
  {
    if items == [] then acc
    else Adjoin(if items[0] in acc then acc else acc + [items[0]], items[1..])
  }

  function Merged(a: Facts, b: Facts): Facts {
    Facts(
      Adjoin(Adjoin([], a.evidence), b.evidence),
      Adjoin(Adjoin([], a.tests), b.tests),
      Adjoin(Adjoin([], a.approvals), b.approvals),
      a.freshness + b.freshness)
  }

  function MergedAll(items: seq<Facts>): Facts {
    if items == [] then NoFacts else Merged(MergedAll(items[..|items| - 1]), items[|items| - 1])
  }

  /** Facts as any merge leaves them: no list repeats itself. */
  predicate Canonical(f: Facts) {
    Merged(NoFacts, f) == f
  }

  /** The facts a process rebuilds from the log. */
  function Rebuilt(log: seq<Event>): Facts {
    if log == [] then NoFacts
    else
      var before := Rebuilt(log[..|log| - 1]);
      var e := log[|log| - 1];
      if e.FactsRecorded? then Merged(before, e.facts) else before
  }

  predicate FactsUnder(e: Event, key: FactsKey) {
    e.FactsRecorded? && e.key == key
  }

  predicate FactsKeyUsed(log: seq<Event>, key: FactsKey) {
    exists e :: e in log && FactsUnder(e, key)
  }

  /** Empty facts leave no event, and neither do facts under a key already used. */
  function Recorded(log: seq<Event>, f: Facts, key: FactsKey): seq<Event> {
    if f == NoFacts || FactsKeyUsed(log, key) then log else log + [FactsRecorded(f, key)]
  }

  predicate NoFactsIn(log: seq<Event>) {
    forall i :: 0 <= i < |log| ==> !log[i].FactsRecorded?
  }

  // ---------- the source's loops ----------

  method InsertKeys(keys: seq<Ref>, items: seq<Ref>) returns (r: seq<Ref>)
    ensures r == Adjoin(keys, items)
  {
    r := keys;
    var i := 0;
    while i < |items|
      invariant 0 <= i <= |items|
      invariant Adjoin(r, items[i..]) == Adjoin(keys, items)
    {
      if items[i] !in r { r := r + [items[i]]; }
      i := i + 1;
    }
  }

  method Merge(items: seq<Facts>) returns (r: Facts)
    ensures r == MergedAll(items)
  {
    r := NoFacts;
    for i := 0 to |items|
      invariant r == MergedAll(items[..i])
    {
      MergedAllCanonical(items[..i]);
      assert items[..i + 1][..i] == items[..i];
      var evidence := InsertKeys(r.evidence, items[i].evidence);
      var tests := InsertKeys(r.tests, items[i].tests);
      var approvals := InsertKeys(r.approvals, items[i].approvals);
      r := Facts(evidence, tests, approvals, r.freshness + items[i].freshness);
    }
    assert items[..|items|] == items;
  }

  method FromEvents(log: seq<Event>) returns (r: Facts)
    ensures r == Rebuilt(log)
  {
    r := NoFacts;
    for i := 0 to |log|
      invariant r == Rebuilt(log[..i])
    {
      assert log[..i + 1][..i] == log[..i];
      if log[i].FactsRecorded? {
        var pair := [r, log[i].facts];
        MergedPair(r, log[i].facts);
        RebuiltCanonical(log[..i]);
        r := Merge(pair);
      }
    }
    assert log[..|log|] == log;
  }

  // ---------- keys in order of first insertion ----------

  lemma {:induction false} AdjoinAppend(acc: seq<Ref>, x: seq<Ref>, y: seq<Ref>)
    ensures Adjoin(acc, x + y) == Adjoin(Adjoin(acc, x), y)
    decreases |x|
  {
    if x == [] {
      assert x + y == y;
    } else {
      assert (x + y)[1..] == x[1..] + y;
      AdjoinAppend(if x[0] in acc then acc else acc + [x[0]], x[1..], y);
    }
  }

  lemma {:induction false} AdjoinContents(acc: seq<Ref>, items: seq<Ref>)
    ensures acc <= Adjoin(acc, items)
    ensures forall x :: x in Adjoin(acc, items) <==> x in acc || x in items
    decreases |items|
  {
    if items != [] {
      AdjoinContents(if items[0] in acc then acc else acc + [items[0]], items[1..]);
      assert items == [items[0]] + items[1..];
    }
  }

  /** Adjoining what was already deduplicated is adjoining the original. */
  lemma {:induction false} AdjoinNested(acc: seq<Ref>, p: seq<Ref>, x: seq<Ref>)
    ensures Adjoin(acc, Adjoin(p, x)) == Adjoin(Adjoin(acc, p), x)
    decreases |x|
  {
    if x != [] {
      AdjoinContents(acc, p);
      if x[0] in p {
        AdjoinNested(acc, p, x[1..]);
      } else {
        AdjoinNested(acc, p + [x[0]], x[1..]);
        AdjoinAppend(acc, p, [x[0]]);
        assert Adjoin(acc, p + [x[0]]) == Adjoin(Adjoin(acc, p), [x[0]]);
        assert [x[0]][1..] == [];
      }
    }
  }

  /** Nothing changes exactly when nothing is new. */
  lemma {:induction false} AdjoinAbsorbs(acc: seq<Ref>, items: seq<Ref>)
    ensures Adjoin(acc, items) == acc <==> forall x :: x in items ==> x in acc
    decreases |items|
  {
    AdjoinContents(acc, items);
    if items != [] && items[0] in acc {
      AdjoinAbsorbs(acc, items[1..]);
      assert items == [items[0]] + items[1..];
    }
  }

  function IndexOf(s: seq<Ref>, x: Ref): (i: nat)
    requires x in s
    ensures i < |s| && s[i] == x && x !in s[..i]
  {
    if s[0] == x then 0
    else
      var k := IndexOf(s[1..], x);
      assert s[..k + 1] == [s[0]] + s[1..][..k];
      k + 1
  }

  ghost predicate NoRepeats(s: seq<Ref>) {
    forall i, j :: 0 <= i < j < |s| ==> s[i] != s[j]
  }

  lemma {:induction false} AdjoinNoRepeats(acc: seq<Ref>, items: seq<Ref>)
    requires NoRepeats(acc)
    ensures NoRepeats(Adjoin(acc, items))
    decreases |items|
  {
    if items != [] { AdjoinNoRepeats(if items[0] in acc then acc else acc + [items[0]], items[1..]); }
  }

  /** A merged list is ordered by first insertion. */
  lemma {:induction false} FirstInsertionOrder(items: seq<Ref>, x: Ref, y: Ref)
    requires x in items && y in items
    ensures x in Adjoin([], items) && y in Adjoin([], items)
    ensures IndexOf(Adjoin([], items), x) < IndexOf(Adjoin([], items), y) <==> IndexOf(items, x) < IndexOf(items, y)
  {
    AdjoinContents([], items);
    AdjoinNoRepeats([], items);
    if x != y {
      if IndexOf(items, x) < IndexOf(items, y) {
        Earlier(items, x, y);
      } else {
        Earlier(items, y, x);
      }
    }
  }

  lemma Earlier(items: seq<Ref>, x: Ref, y: Ref)
    requires x in items && y in items && IndexOf(items, x) < IndexOf(items, y)
    ensures x in Adjoin([], items) && y in Adjoin([], items)
    ensures IndexOf(Adjoin([], items), x) < IndexOf(Adjoin([], items), y)
  {
    var m := IndexOf(items, y);
    var head, tail := items[..m], items[m..];
    assert items == head + tail;
    assert x in head by { assert head[IndexOf(items, x)] == x; }
    AdjoinAppend([], head, tail);
    AdjoinContents([], head);
    AdjoinContents([], items);
    AdjoinContents(Adjoin([], head), tail);
    AdjoinNoRepeats([], items);
    var all, front := Adjoin([], items), Adjoin([], head);
    assert all[..|front|] == front;
    assert y !in front;
    var i := IndexOf(front, x);
    assert all[i] == x;
    assert all[IndexOf(all, y)] == y && all[IndexOf(all, x)] == x;
  }

  // ---------- the merge ----------

  lemma MergedPair(a: Facts, b: Facts)
    ensures MergedAll([a, b]) == Merged(Merged(NoFacts, a), b)
  {
    assert [a, b][..1] == [a] && [a][..0] == [];
    assert MergedAll([a]) == Merged(MergedAll([]), a);
  }

  lemma MergedCanonical(a: Facts, b: Facts)
    ensures Canonical(Merged(a, b))
    ensures Merged(Merged(NoFacts, a), b) == Merged(a, b)
  {
    AdjoinTwice(a.evidence, b.evidence);
    AdjoinTwice(a.tests, b.tests);
    AdjoinTwice(a.approvals, b.approvals);
    assert map[] + a.freshness == a.freshness;
  }

  lemma AdjoinTwice(a: seq<Ref>, b: seq<Ref>)
    ensures Adjoin([], Adjoin([], a)) == Adjoin([], a)
    ensures Adjoin([], Adjoin(Adjoin([], a), b)) == Adjoin(Adjoin([], a), b)
  {
    AdjoinNested([], [], a);
    AdjoinNested([], Adjoin([], a), b);
  }

  lemma {:induction false} MergedAllCanonical(items: seq<Facts>)
    ensures Canonical(MergedAll(items))
  {
    if items != [] { MergedCanonical(MergedAll(items[..|items| - 1]), items[|items| - 1]); }
  }

  lemma {:induction false} RebuiltCanonical(log: seq<Event>)
    ensures Canonical(Rebuilt(log))
  {
    if log != [] {
      RebuiltCanonical(log[..|log| - 1]);
      if log[|log| - 1].FactsRecorded? { MergedCanonical(Rebuilt(log[..|log| - 1]), log[|log| - 1].facts); }
    }
  }

  /** Merging is associative: it does not matter which process merged what first. */
  lemma MergeAssociative(a: Facts, b: Facts, c: Facts)
    ensures Merged(Merged(a, b), c) == Merged(a, Merged(b, c))
  {
    AdjoinAssociative(a.evidence, b.evidence, c.evidence);
    AdjoinAssociative(a.tests, b.tests, c.tests);
    AdjoinAssociative(a.approvals, b.approvals, c.approvals);
    assert (a.freshness + b.freshness) + c.freshness == a.freshness + (b.freshness + c.freshness);
  }

  lemma AdjoinAssociative(a: seq<Ref>, b: seq<Ref>, c: seq<Ref>)
    ensures Adjoin(Adjoin([], Adjoin(Adjoin([], a), b)), c) == Adjoin(Adjoin([], a), Adjoin(Adjoin([], b), c))
  {
    AdjoinTwice(a, b);
    AdjoinNested(Adjoin([], a), Adjoin([], b), c);
    AdjoinNested(Adjoin([], a), [], b);
  }

  /** Nothing new: every item is already held, at the same time. */
  predicate Known(f: Facts, held: Facts) {
    && (forall x :: x in f.evidence ==> x in held.evidence)
    && (forall x :: x in f.tests ==> x in held.tests)
    && (forall x :: x in f.approvals ==> x in held.approvals)
    && (forall x :: x in f.freshness ==> x in held.freshness && held.freshness[x] == f.freshness[x])
  }

  /** Exactly when a second set of facts adds nothing. */
  lemma MergeAbsorbs(f: Facts, g: Facts)
    requires Canonical(f)
    ensures Merged(f, g) == f <==> Known(g, f)
  {
    AdjoinAbsorbs(f.evidence, g.evidence);
    AdjoinAbsorbs(f.tests, g.tests);
    AdjoinAbsorbs(f.approvals, g.approvals);
    if forall x :: x in g.freshness ==> x in f.freshness && f.freshness[x] == g.freshness[x] {
      assert f.freshness + g.freshness == f.freshness;
    } else {
      var x :| x in g.freshness && !(x in f.freshness && f.freshness[x] == g.freshness[x]);
      assert (f.freshness + g.freshness)[x] == g.freshness[x];
    }
  }

  lemma MergeIdempotent(f: Facts)
    requires Canonical(f)
    ensures Merged(f, f) == f && Merged(f, NoFacts) == f
  {
    MergeAbsorbs(f, f);
    MergeAbsorbs(f, NoFacts);
  }

  /** Facts are told by the events that recorded them, and by nothing else; the time of a reference
      is the one recorded last. */
  lemma {:induction false} RebuiltTells(log: seq<Event>, x: Ref)
    ensures x in Rebuilt(log).evidence <==> exists e :: e in log && e.FactsRecorded? && x in e.facts.evidence
    ensures x in Rebuilt(log).tests <==> exists e :: e in log && e.FactsRecorded? && x in e.facts.tests
    ensures x in Rebuilt(log).approvals <==> exists e :: e in log && e.FactsRecorded? && x in e.facts.approvals
    ensures x in Rebuilt(log).freshness <==> exists e :: e in log && Dates(e, x)
    ensures x in Rebuilt(log).freshness ==> exists i :: LastDate(log, x, i, Rebuilt(log).freshness[x])
  {
    if log != [] {
      var n := |log| - 1;
      var before, e := log[..n], log[n];
      RebuiltTells(before, x);
      assert log == before + [e];
      if e.FactsRecorded? {
        var f := Rebuilt(before);
        AdjoinContents([], f.evidence);
        AdjoinContents(Adjoin([], f.evidence), e.facts.evidence);
        AdjoinContents([], f.tests);
        AdjoinContents(Adjoin([], f.tests), e.facts.tests);
        AdjoinContents([], f.approvals);
        AdjoinContents(Adjoin([], f.approvals), e.facts.approvals);
      }
      if Dates(e, x) {
        assert LastDate(log, x, n, Rebuilt(log).freshness[x]);
      } else if x in Rebuilt(log).freshness {
        var i :| LastDate(before, x, i, Rebuilt(before).freshness[x]);
        assert LastDate(log, x, i, Rebuilt(log).freshness[x]);
      }
    }
  }

  predicate Dates(e: Event, x: Ref) {
    e.FactsRecorded? && x in e.facts.freshness
  }

  /** The last event that dates the reference. */
  ghost predicate LastDate(log: seq<Event>, x: Ref, i: int, at: int) {
    && 0 <= i < |log| && Dates(log[i], x) && log[i].facts.freshness[x] == at
    && forall j :: i < j < |log| ==> !Dates(log[j], x)
  }

  // ---------- restarting ----------

  lemma {:induction false} RebuiltSkips(log: seq<Event>, tail: seq<Event>)
    requires NoFactsIn(tail)
    ensures Rebuilt(log + tail) == Rebuilt(log)
    decreases |tail|
  {
    if tail == [] {
      assert log + tail == log;
    } else {
      assert (log + tail)[..|log + tail| - 1] == log + tail[..|tail| - 1];
      RebuiltSkips(log, tail[..|tail| - 1]);
    }
  }

  lemma RecordedRebuilt(log: seq<Event>, f: Facts, key: FactsKey)
    requires !FactsKeyUsed(log, key)
    ensures Rebuilt(Recorded(log, f, key)) == Merged(Rebuilt(log), f)
  {
    RebuiltCanonical(log);
    if f == NoFacts {
      MergeIdempotent(Rebuilt(log));
    } else {
      assert (log + [FactsRecorded(f, key)])[..|log|] == log;
    }
  }

  /** The process that supplied facts `f` and still holds them sees at the gate, in content
      and order, what a new process rebuilds from the log; unless the key was already used,
      and then exactly if the log already held those facts. */
  lemma RestartTransparency(log: seq<Event>, f: Facts, key: FactsKey, tail: seq<Event>)
    requires NoFactsIn(tail)
    ensures var now := Recorded(log, f, key) + tail;
            Merged(Rebuilt(now), Merged(Rebuilt(log), f)) == Rebuilt(now) <==>
                !FactsKeyUsed(log, key) || Known(f, Rebuilt(log))
  {
    RebuiltSkips(Recorded(log, f, key), tail);
    if FactsKeyUsed(log, key) {
      ReusedKeyLosesFacts(log, f, key);
    } else {
      RecordedRebuilt(log, f, key);
      MergedCanonical(Rebuilt(log), f);
      MergeIdempotent(Merged(Rebuilt(log), f));
    }
  }

  /** If another process records `other` meanwhile, the two still agree exactly when `other`
      re-verified nothing the first one holds under a different time: the older time wins. */
  lemma LateFreshnessIsLost(log: seq<Event>, f: Facts, key: FactsKey, other: Facts, its: FactsKey)
    requires key != its && !FactsKeyUsed(log, key) && !FactsKeyUsed(log, its)
    ensures var held := Merged(Rebuilt(log), f);
            var now := Rebuilt(Recorded(Recorded(log, f, key), other, its));
            (Merged(now, held) == now <==>
              forall x :: x in held.freshness && x in other.freshness ==> held.freshness[x] == other.freshness[x])
  {
    var held := Merged(Rebuilt(log), f);
    var logged := Recorded(log, f, key);
    RecordedRebuilt(log, f, key);
    RecordedRebuilt(logged, other, its);
    var now := Merged(held, other);
    MergedCanonical(held, other);
    MergedCanonical(Rebuilt(log), f);
    AdjoinContents(held.evidence, other.evidence);
    AdjoinContents(held.tests, other.tests);
    AdjoinContents(held.approvals, other.approvals);
    MergeAbsorbs(now, held);
    assert now.freshness == held.freshness + other.freshness;
  }

  /** Under a key already used nothing is recorded: the log then holds what the process
      holds exactly when it did before. */
  lemma ReusedKeyLosesFacts(log: seq<Event>, f: Facts, key: FactsKey)
    requires FactsKeyUsed(log, key)
    ensures var now := Recorded(log, f, key);
            && Rebuilt(now) == Rebuilt(log)
            && (Merged(Rebuilt(now), Merged(Rebuilt(log), f)) == Rebuilt(now) <==> Known(f, Rebuilt(log)))
  {
    RebuiltCanonical(log);
    MergeAssociative(Rebuilt(log), Rebuilt(log), f);
    MergeIdempotent(Rebuilt(log));
    MergeAbsorbs(Rebuilt(log), f);
  }

  /** Facts already merged in change nothing when merged in again. */
  lemma MergeTwice(a: Facts, f: Facts)
    ensures Merged(Merged(a, f), f) == Merged(a, f)
  {
    MergedCanonical(a, f);
    AdjoinContents(Adjoin([], a.evidence), f.evidence);
    AdjoinContents(Adjoin([], a.tests), f.tests);
    AdjoinContents(Adjoin([], a.approvals), f.approvals);
    MergeAbsorbs(Merged(a, f), f);
  }
}
