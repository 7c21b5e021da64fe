/** The character budget of a model's context, and the quotas the general agent gives its parts. */
module ContextBudget {
  import opened Common

  /** A part of the context; `quota` is its own character limit, if it has one. */
  datatype Input = Input(id: string, content: string, quota: Option<nat>)

  datatype Segment = Segment(id: string, content: string, original: nat, truncated: bool)

  datatype Error = DuplicateInput(id: string)

  const MARKER := "\n[...truncated by host...]"

  function Cut(value: string, limit: int): (r: string)
    ensures |r| == if limit < 0 then 0 else if |value| <= limit then |value| else limit
  {
    if |value| <= limit then value
    else if limit <= 0 then ""
    else if limit <= |MARKER| then MARKER[..limit]
    else value[..limit - |MARKER|] + MARKER
  }

  /** What a cut leaves to read: all of a text within the limit; of a longer one the beginning and
      then the whole marker, filling the limit; and as much of the marker as there is room for. */
  lemma CutShows(value: string, limit: nat)
    ensures var r := Cut(value, limit);
            && (|value| <= limit ==> r == value)
            && (|value| > limit >= |MARKER| ==>
                |r| == limit && r[limit - |MARKER|..] == MARKER && r[..limit - |MARKER|] <= value)
            && (|value| > limit && limit < |MARKER| ==> |r| == limit && r <= MARKER)
  {
  }

  function Limit(item: Input, remaining: nat): nat {
    if item.quota.Some? && item.quota.value < remaining then item.quota.value else remaining
  }

  function SegmentFor(item: Input, limit: nat): Segment {
    Segment(item.id, Cut(item.content, limit), |item.content|, |item.content| > limit)
  }

  /** The segment an item gets with `remaining` characters left: none if it would be empty. */
  function Share(item: Input, remaining: nat): (r: seq<Segment>)
    ensures Used(r) <= remaining
  {
    if Cut(item.content, Limit(item, remaining)) == "" then []
    else
      assert [SegmentFor(item, Limit(item, remaining))][..0] == [];
      [SegmentFor(item, Limit(item, remaining))]
  }

  function Used(segments: seq<Segment>): nat {
    if segments == [] then 0 else Used(segments[..|segments| - 1]) + |segments[|segments| - 1].content|
  }

  function Add(segments: seq<Segment>, item: Input, budget: nat): seq<Segment> {
    if Used(segments) > budget then segments else segments + Share(item, budget - Used(segments))
  }

  /** First come, first served. */
  function Fill(inputs: seq<Input>, budget: nat): seq<Segment> {
    if inputs == [] then [] else Add(Fill(inputs[..|inputs| - 1], budget), inputs[|inputs| - 1], budget)
  }

  lemma {:induction false} FillFits(inputs: seq<Input>, budget: nat)
    ensures Used(Fill(inputs, budget)) <= budget
  {
    if inputs != [] {
      var before := Fill(inputs[..|inputs| - 1], budget);
      FillFits(inputs[..|inputs| - 1], budget);
      UsedConcat(before, Share(inputs[|inputs| - 1], budget - Used(before)));
    }
  }

  predicate DistinctInputs(inputs: seq<Input>) {
    forall i, j :: 0 <= i < |inputs| && 0 <= j < |inputs| && inputs[i].id == inputs[j].id ==> i == j
  }

  lemma {:induction false} UsedConcat(a: seq<Segment>, b: seq<Segment>)
    ensures Used(a + b) == Used(a) + Used(b)
  {
    if b == [] {
      assert a + b == a;
    } else {
      assert (a + b)[..|a + b| - 1] == a + b[..|b| - 1];
      UsedConcat(a, b[..|b| - 1]);
    }
  }

  /** A segment shows an input: all of it, or its beginning cut short and marked, and says which. */
  ghost predicate ShowsOne(item: Input, s: Segment) {
    && s.id == item.id && s.original == |item.content| && s.content != ""
    && (s.truncated <==> |s.content| < |item.content|)
    && (item.quota.Some? ==> |s.content| <= item.quota.value)
    && (!s.truncated ==> s.content == item.content)
    && (s.truncated ==> if |s.content| < |MARKER| then s.content <= MARKER
                        else s.content[|s.content| - |MARKER|..] == MARKER
                             && s.content[..|s.content| - |MARKER|] <= item.content)
  }

  lemma ShareShows(item: Input, remaining: nat)
    ensures forall k :: 0 <= k < |Share(item, remaining)| ==> ShowsOne(item, Share(item, remaining)[k])
    ensures Share(item, remaining) == [] ==> item.content == "" || remaining == 0 || item.quota == Some(0)
  {
    CutShows(item.content, Limit(item, remaining));
  }

  /** Every segment shows one of the inputs. */
  lemma {:induction false} SegmentsShow(inputs: seq<Input>, budget: nat, k: nat)
    requires k < |Fill(inputs, budget)|
    ensures exists i :: 0 <= i < |inputs| && ShowsOne(inputs[i], Fill(inputs, budget)[k])
  {
    var n := |inputs| - 1;
    var before := Fill(inputs[..n], budget);
    if k < |before| {
      SegmentsShow(inputs[..n], budget, k);
      var i :| 0 <= i < n && ShowsOne(inputs[..n][i], before[k]);
      assert ShowsOne(inputs[i], Fill(inputs, budget)[k]);
    } else {
      FillFits(inputs[..n], budget);
      ShareShows(inputs[n], budget - Used(before));
      assert ShowsOne(inputs[n], Fill(inputs, budget)[k]);
    }
  }

  /** Builds the segments in order; it fails exactly on a repeated id, never exceeds the budget, and
      every segment shows one of the inputs. */
  method Build(inputs: seq<Input>, budget: nat) returns (r: Result<seq<Segment>, Error>)
    requires budget >= 256
    ensures r.Ok? <==> DistinctInputs(inputs)
    ensures r.Ok? ==> r.value == Fill(inputs, budget) && Used(r.value) <= budget
    ensures r.Ok? ==>
              forall k :: 0 <= k < |r.value| ==> exists i :: 0 <= i < |inputs| && ShowsOne(inputs[i], r.value[k])
  {
    r := FillSegments(inputs, budget);
    FillFits(inputs, budget);
    forall k | 0 <= k < |Fill(inputs, budget)|
      ensures exists i :: 0 <= i < |inputs| && ShowsOne(inputs[i], Fill(inputs, budget)[k]) {
      SegmentsShow(inputs, budget, k);
    }
  }

  method FillSegments(inputs: seq<Input>, budget: nat) returns (r: Result<seq<Segment>, Error>)
    requires budget >= 256
    ensures r.Ok? <==> DistinctInputs(inputs)
    ensures r.Ok? ==> r.value == Fill(inputs, budget)
  {
    var remaining, segments, seen := budget, [], {};
    for i := 0 to |inputs|
      invariant Filled(inputs[..i], budget, seen, segments, remaining)
    {
      NextId(inputs, i);
      if inputs[i].id in seen { return Err(DuplicateInput(inputs[i].id)); }
      FilledMore(inputs, i, budget, seen, segments, remaining);
      seen := seen + {inputs[i].id};
      segments, remaining := Take(inputs[i], segments, remaining);
    }
    assert inputs[..|inputs|] == inputs;
    r := Ok(segments);
  }

  /** The builder's state after some inputs, none of them repeated. */
  ghost predicate Filled(inputs: seq<Input>, budget: nat, seen: set<string>, segments: seq<Segment>, remaining: int) {
    && DistinctInputs(inputs) && seen == Ids(inputs)
    && segments == Fill(inputs, budget) && remaining == budget - Used(segments)
  }

  lemma FilledMore(inputs: seq<Input>, i: nat, budget: nat, seen: set<string>, segments: seq<Segment>, remaining: int)
    requires i < |inputs| && Filled(inputs[..i], budget, seen, segments, remaining) && inputs[i].id !in seen
    ensures remaining >= 0
    ensures var share := Share(inputs[i], remaining);
            Filled(inputs[..i + 1], budget, seen + {inputs[i].id}, segments + share, remaining - Used(share))
  {
    NextId(inputs, i);
    FillFits(inputs[..i], budget);
    FillNext(inputs[..i], inputs[i], budget);
    assert inputs[..i + 1] == inputs[..i] + [inputs[i]];
    UsedConcat(segments, Share(inputs[i], remaining));
  }

  lemma FillNext(before: seq<Input>, item: Input, budget: nat)
    ensures Fill(before + [item], budget) == Add(Fill(before, budget), item, budget)
  {
    assert (before + [item])[..|before|] == before;
  }

  function Ids(inputs: seq<Input>): (r: set<string>)
  {
    set item | item in inputs :: item.id
  }

  lemma NextId(inputs: seq<Input>, i: nat)
    requires i < |inputs| && DistinctInputs(inputs[..i])
    ensures inputs[i].id in Ids(inputs[..i]) ==> !DistinctInputs(inputs)
    ensures inputs[i].id !in Ids(inputs[..i]) ==> DistinctInputs(inputs[..i + 1])
    ensures Ids(inputs[..i + 1]) == Ids(inputs[..i]) + {inputs[i].id}
  {
    var before := inputs[..i];
    assert inputs[..i + 1] == before + [inputs[i]];
    if inputs[i].id in Ids(before) {
      var item :| item in before && item.id == inputs[i].id;
      var k :| 0 <= k < i && before[k] == item;
      assert inputs[k].id == inputs[i].id;
    } else {
      forall k | 0 <= k < i ensures inputs[k].id != inputs[i].id {
        assert before[k] in before;
      }
    }
  }

  /** One item's turn: it takes what its quota and the remaining budget allow. */
  method Take(item: Input, segments: seq<Segment>, remaining: nat) returns (segments': seq<Segment>, remaining': nat)
    ensures segments' == segments + Share(item, remaining)
    ensures remaining' == remaining - Used(Share(item, remaining))
            && Used(segments') == Used(segments) + Used(Share(item, remaining))
  {
    UsedConcat(segments, Share(item, remaining));
    segments', remaining' := segments, remaining;
    if item.content == "" || remaining <= 0 { return; }
    var limit := Limit(item, remaining);
    var content := Cut(item.content, limit);
    if content == "" { return; }
    var segment := Segment(item.id, content, |item.content|, |item.content| > limit);
    assert [segment][..0] == [];
    segments', remaining' := segments + [segment], remaining - |content|;
  }

  // ---------- when the parts do not disturb each other ----------

  /** Each part cut to its own quota, whatever the other parts are. */
  function Own(inputs: seq<Input>): seq<Segment> {
    if inputs == [] then []
    else
      var item := inputs[|inputs| - 1];
      Own(inputs[..|inputs| - 1]) + OwnShare(item)
  }

  function OwnShare(item: Input): seq<Segment> {
    if item.quota.None? then [SegmentFor(item, |item.content|)]
    else if Cut(item.content, item.quota.value) == "" then []
    else [SegmentFor(item, item.quota.value)]
  }

  function Total(quotas: seq<nat>): nat {
    if quotas == [] then 0 else Total(quotas[..|quotas| - 1]) + quotas[|quotas| - 1]
  }

  /** The given contents under the given quotas. */
  ghost predicate Under(inputs: seq<Input>, quotas: seq<nat>) {
    |inputs| == |quotas| && forall i :: 0 <= i < |inputs| ==> inputs[i].quota == Some(quotas[i])
  }

  ghost predicate Undisturbed(quotas: seq<nat>, budget: nat) {
    forall inputs :: DistinctInputs(inputs) && Under(inputs, quotas) ==> Fill(inputs, budget) == Own(inputs)
  }

  lemma {:induction false} OwnFits(inputs: seq<Input>, quotas: seq<nat>, budget: nat)
    requires Under(inputs, quotas) && Total(quotas) <= budget
    ensures Fill(inputs, budget) == Own(inputs) && Used(Own(inputs)) <= Total(quotas)
  {
    if inputs != [] {
      var n := |inputs| - 1;
      OwnFits(inputs[..n], quotas[..n], budget);
      OwnNext(inputs, quotas[n], budget);
    }
  }

  lemma OwnNext(inputs: seq<Input>, quota: nat, budget: nat)
    requires inputs != [] && inputs[|inputs| - 1].quota == Some(quota)
    requires Fill(inputs[..|inputs| - 1], budget) == Own(inputs[..|inputs| - 1])
    requires Used(Own(inputs[..|inputs| - 1])) + quota <= budget
    ensures Fill(inputs, budget) == Own(inputs) && Used(Own(inputs)) <= Used(Own(inputs[..|inputs| - 1])) + quota
  {
    OwnAdded(Own(inputs[..|inputs| - 1]), inputs[|inputs| - 1], quota, budget);
  }

  lemma OwnAdded(before: seq<Segment>, item: Input, quota: nat, budget: nat)
    requires item.quota == Some(quota) && Used(before) + quota <= budget
    ensures Add(before, item, budget) == before + OwnShare(item)
    ensures Used(before + OwnShare(item)) <= Used(before) + quota
  {
    OneUsed(item, budget - Used(before));
    UsedConcat(before, OwnShare(item));
  }

  lemma OneUsed(item: Input, remaining: nat)
    requires item.quota.Some?
    ensures Used(Share(item, remaining)) <= item.quota.value
    ensures item.quota.value <= remaining ==>
              Share(item, remaining) == OwnShare(item)
  {
    var s := SegmentFor(item, Limit(item, remaining));
    assert [s][..0] == [];
  }

  function Filler(n: nat): string {
    seq(n, _ => 'x')
  }

  function Fillers(quotas: seq<nat>): (r: seq<Input>)
    ensures Under(r, quotas) && DistinctInputs(r)
  {
    var r := seq(|quotas|, i requires 0 <= i < |quotas| => Input(Filler(i), Filler(quotas[i]), Some(quotas[i])));
    assert forall i :: 0 <= i < |r| ==> |r[i].id| == i;
    r
  }

  lemma {:induction false} FillersUse(quotas: seq<nat>)
    ensures Used(Own(Fillers(quotas))) == Total(quotas)
  {
    if quotas != [] {
      var n := |quotas| - 1;
      FillersUse(quotas[..n]);
      assert Fillers(quotas)[..n] == Fillers(quotas[..n]);
      var item := Fillers(quotas)[n];
      var last := if Cut(item.content, quotas[n]) == "" then [] else [SegmentFor(item, quotas[n])];
      assert Own(Fillers(quotas)) == Own(Fillers(quotas[..n])) + last;
      UsedConcat(Own(Fillers(quotas[..n])), last);
      assert [SegmentFor(item, quotas[n])][..0] == [];
    }
  }

  /** The parts never disturb each other exactly when their quotas fit the budget together. */
  lemma UndisturbedIff(quotas: seq<nat>, budget: nat)
    ensures Undisturbed(quotas, budget) <==> Total(quotas) <= budget
  {
    if Total(quotas) <= budget {
      forall inputs | DistinctInputs(inputs) && Under(inputs, quotas) ensures Fill(inputs, budget) == Own(inputs) {
        OwnFits(inputs, quotas, budget);
      }
    } else {
      FillersUse(quotas);
      FillFits(Fillers(quotas), budget);
      assert Fill(Fillers(quotas), budget) != Own(Fillers(quotas));
    }
  }

  // ---------- the general agent's quotas ----------

  function AtLeast(a: nat, b: int): nat { if b < a then a else b }

  /** Host request, recent conversation, skills, conversation summary, recalled memory. */
  function Quotas(budget: nat, conversation: bool, skills: bool): seq<nat> {
    if conversation && skills then
      var host, recent, skill, summary :=
          AtLeast(256, budget * 20 / 100), budget * 40 / 100, budget * 20 / 100, budget * 12 / 100;
      [host, recent, skill, summary, AtLeast(0, budget - host - recent - skill - summary)]
    else if conversation then
      var host, recent, summary := AtLeast(256, budget * 25 / 100), budget * 45 / 100, budget * 15 / 100;
      [host, recent, 0, summary, AtLeast(0, budget - host - recent - summary)]
    else if skills then
      var host, skill := AtLeast(256, budget / 2), budget * 35 / 100;
      [host, 0, skill, 0, AtLeast(0, budget - host - skill)]
    else
      var host := AtLeast(256, budget * 2 / 3);
      [host, 0, 0, 0, AtLeast(0, budget - host)]
  }

  /** `q` is the given percentage of the budget, rounded down. */
  predicate Percent(q: nat, percent: nat, budget: nat) {
    100 * q <= percent * budget < 100 * (q + 1)
  }

  /** The shares by part: of the budget in percent, and at least 256 characters for the host's
      request, two thirds if there is nothing but it; the rest is for recalled memory. */
  lemma QuotaShares(budget: nat, conversation: bool, skills: bool)
    requires budget >= 256
    ensures var q := Quotas(budget, conversation, skills);
            && |q| == 5 && q[0] >= 256
            && (conversation && skills ==>
                && (q[0] == 256 || Percent(q[0], 20, budget)) && Percent(q[1], 40, budget) && Percent(q[2], 20, budget)
                && Percent(q[3], 12, budget))
            && (conversation && !skills ==>
                && (q[0] == 256 || Percent(q[0], 25, budget)) && Percent(q[1], 45, budget) && q[2] == 0
                && Percent(q[3], 15, budget))
            && (!conversation && skills ==>
                && (q[0] == 256 || Percent(q[0], 50, budget)) && q[1] == 0 && Percent(q[2], 35, budget) && q[3] == 0)
            && (!conversation && !skills ==>
                && (q[0] == 256 || 3 * q[0] <= 2 * budget < 3 * (q[0] + 1)) && q[1] == q[2] == q[3] == 0)
            && (q[0] + q[1] + q[2] + q[3] <= budget ==> q[0] + q[1] + q[2] + q[3] + q[4] == budget)
            && (q[0] + q[1] + q[2] + q[3] >= budget ==> q[4] == 0)
  {
  }

  lemma TotalOfFive(a: nat, b: nat, c: nat, d: nat, e: nat)
    ensures Total([a, b, c, d, e]) == a + b + c + d + e
  {
    var all := [a, b, c, d, e];
    assert all[..4] == [a, b, c, d] && all[..4][..3] == [a, b, c] && all[..4][..3][..2] == [a, b]
           && all[..4][..3][..2][..1] == [a];
    assert Total([]) == 0 && Total([a]) == a;
    assert Total([a, b]) == a + b;
    assert Total([a, b, c]) == a + b + c;
    assert Total([a, b, c, d]) == a + b + c + d;
  }

  /** The budgets for which the quotas add up to the budget, arm by arm; below them they
      exceed it. */
  predicate Divides(budget: nat, conversation: bool, skills: bool) {
    if conversation && skills then budget >= 907 && budget != 910
    else if conversation then budget >= 637
    else if skills then budget >= 393
    else true
  }

  lemma QuotasAddUpIff(budget: nat, conversation: bool, skills: bool)
    requires budget >= 256
    ensures var q := Quotas(budget, conversation, skills);
            && |q| == 5 && (Total(q) == budget <==> Divides(budget, conversation, skills))
            && (Total(q) <= budget <==> Divides(budget, conversation, skills))
  {
    var q := Quotas(budget, conversation, skills);
    TotalOfFive(q[0], q[1], q[2], q[3], q[4]);
    assert q == [q[0], q[1], q[2], q[3], q[4]];
    AllFour(budget);
    HalfAndThird(budget);
    TwoFifths(budget);
  }

  lemma AllFour(budget: nat)
    requires budget >= 256
    ensures AtLeast(256, budget * 20 / 100) + budget * 40 / 100 + budget * 20 / 100 + budget * 12 / 100 <= budget <==>
              budget >= 907 && budget != 910
  {
  }

  lemma TwoFifths(budget: nat)
    requires budget >= 256
    ensures AtLeast(256, budget * 25 / 100) + budget * 45 / 100 + budget * 15 / 100 <= budget <==> budget >= 637
  {
  }

  lemma HalfAndThird(budget: nat)
    requires budget >= 256
    ensures AtLeast(256, budget / 2) + budget * 35 / 100 <= budget <==> budget >= 393
    ensures AtLeast(256, budget * 2 / 3) <= budget
  {
  }

  /** In each arm, every part of every request gets what its own quota gives it, regardless
      of the other parts, exactly for these budgets; for 1280 and more in all arms. */
  lemma PartsUndisturbedIff(budget: nat, conversation: bool, skills: bool)
    requires budget >= 256
    ensures Undisturbed(Quotas(budget, conversation, skills), budget) <==> Divides(budget, conversation, skills)
    ensures budget >= 1280 ==>
              Undisturbed(Quotas(budget, conversation, skills), budget)
                && Total(Quotas(budget, conversation, skills)) == budget
  {
    QuotasAddUpIff(budget, conversation, skills);
    UndisturbedIff(Quotas(budget, conversation, skills), budget);
  }
}
