/**
  The window of recent turns and the rolling summary: which turns are kept, when older ones
  are compacted, and what every history of recorded turns then satisfies.
 */
module ConversationWindow {
  import opened TokenEstimate
  import opened ConversationTypes

  datatype Policy = Policy(retention: int, targetRounds: int, extraRounds: int, maxRecentTokens: int,
      maxSummaryTokens: int)

  function Threshold(p: Policy): int { p.targetRounds + p.extraRounds }

  predicate ValidPolicy(p: Policy) {
    && p.retention >= 1 && p.targetRounds >= 1 && p.extraRounds >= 1
    && p.targetRounds < p.retention && Threshold(p) <= p.retention
    && p.maxRecentTokens >= 128 && p.maxSummaryTokens >= 64
  }

  function Cost(t: Turn): (n: nat)
    ensures n >= 12
  {
    Estimate(t.user) + Estimate(t.assistant) + 12
  }

  function Tokens(turns: seq<Turn>): nat {
    if turns == [] then 0 else Tokens(turns[..|turns| - 1]) + Cost(turns[|turns| - 1])
  }

  // ---------- the recent suffix ----------

  /** How many of the latest turns are kept, taken greedily from the newest. */
  function KeptCount(turns: seq<Turn>, rounds: int, tokens: int): (k: nat)
    ensures k <= |turns|
  {
    if turns == [] || rounds <= 0 || Cost(turns[|turns| - 1]) > tokens then 0
    else 1 + KeptCount(turns[..|turns| - 1], rounds - 1, tokens - Cost(turns[|turns| - 1]))
  }

  function Kept(turns: seq<Turn>, rounds: int, tokens: int): seq<Turn> {
    turns[|turns| - KeptCount(turns, rounds, tokens)..]
  }

  /** The tokens of the last `k` turns. */
  function SuffixTokens(turns: seq<Turn>, k: nat): nat
    requires k <= |turns|
  {
    if k == 0 then 0 else Cost(turns[|turns| - 1]) + SuffixTokens(turns[..|turns| - 1], k - 1)
  }

  lemma {:induction false} SuffixTokensAre(turns: seq<Turn>, k: nat)
    requires k <= |turns|
    ensures SuffixTokens(turns, k) == Tokens(turns[|turns| - k..])
  {
    if k > 0 {
      var m := |turns| - k;
      var rest, suffix := turns[..|turns| - 1], turns[m..];
      SuffixTokensAre(rest, k - 1);
      assert |rest| - (k - 1) == m;
      assert suffix[..|suffix| - 1] == rest[m..];
      assert suffix[|suffix| - 1] == turns[|turns| - 1];
    }
  }

  ghost predicate SuffixFits(turns: seq<Turn>, k: int, rounds: int, tokens: int) {
    0 <= k <= |turns| && k <= rounds && SuffixTokens(turns, k) <= tokens
  }

  lemma {:induction false} KeptFits(turns: seq<Turn>, rounds: int, tokens: int)
    requires rounds >= 0 && tokens >= 0
    ensures SuffixFits(turns, KeptCount(turns, rounds, tokens), rounds, tokens)
  {
    if turns != [] && rounds > 0 && Cost(turns[|turns| - 1]) <= tokens {
      KeptFits(turns[..|turns| - 1], rounds - 1, tokens - Cost(turns[|turns| - 1]));
    }
  }

  lemma {:induction false} KeptIsMaximal(turns: seq<Turn>, rounds: int, tokens: int, k: int)
    requires SuffixFits(turns, k, rounds, tokens)
    ensures k <= KeptCount(turns, rounds, tokens)
    decreases |turns|
  {
    if k > 0 { KeptIsMaximal(turns[..|turns| - 1], rounds - 1, tokens - Cost(turns[|turns| - 1]), k - 1); }
  }

  /** The greedy choice is the longest suffix within both limits. */
  lemma KeptIsLongest(turns: seq<Turn>, rounds: int, tokens: int)
    requires rounds >= 0 && tokens >= 0
    ensures SuffixFits(turns, KeptCount(turns, rounds, tokens), rounds, tokens)
    ensures forall k :: SuffixFits(turns, k, rounds, tokens) ==> k <= KeptCount(turns, rounds, tokens)
    ensures Tokens(Kept(turns, rounds, tokens)) <= tokens
  {
    KeptFits(turns, rounds, tokens);
    SuffixTokensAre(turns, KeptCount(turns, rounds, tokens));
    forall k | SuffixFits(turns, k, rounds, tokens) ensures k <= KeptCount(turns, rounds, tokens) {
      KeptIsMaximal(turns, rounds, tokens, k);
    }
  }

  /** Nothing is left out exactly when everything fits. */
  lemma KeptAllIff(turns: seq<Turn>, rounds: int, tokens: int)
    requires rounds >= 0 && tokens >= 0
    ensures KeptCount(turns, rounds, tokens) == |turns| <==> |turns| <= rounds && Tokens(turns) <= tokens
  {
    KeptIsLongest(turns, rounds, tokens);
    SuffixTokensAre(turns, |turns|);
    assert turns[|turns| - |turns|..] == turns;
    assert SuffixFits(turns, |turns|, rounds, tokens) <==> |turns| <= rounds && Tokens(turns) <= tokens;
  }

  /** One more turn taken, or the walk ends. */
  lemma KeptStep(turns: seq<Turn>, i: nat, rounds: int, tokens: int)
    requires 0 < i <= |turns|
    ensures KeptCount(turns[..i], rounds, tokens)
         == if rounds <= 0 || Cost(turns[i - 1]) > tokens then 0
           else 1 + KeptCount(turns[..i - 1], rounds - 1, tokens - Cost(turns[i - 1]))
  {
    assert turns[..i][..i - 1] == turns[..i - 1];
  }

  lemma KeptEnds(turns: seq<Turn>, i: nat, rounds: int, tokens: int)
    requires i <= |turns| && (i == 0 || rounds <= 0 || Cost(turns[i - 1]) > tokens)
    ensures KeptCount(turns[..i], rounds, tokens) == 0
  {
  }

  // ---------- recording and compacting ----------

  /** What the replaceable summarizer does when it is called. */
  datatype Summarizer = Unavailable | Raises | Returns(summary: string, inputTokens: nat, outputTokens: nat)

  datatype Outcome = Quiet | Compacted(c: Compaction) | Failed(error: Error)

  /** The turns not summarized yet. */
  function Pending(id: string, s: Session, retention: nat): seq<Turn> {
    ListedFrom(id, s, retention, Through(s))
  }

  predicate Triggered(p: Policy, pending: seq<Turn>) {
    Tokens(pending) > p.maxRecentTokens || |pending| >= Threshold(p)
  }

  /** How many pending turns a compaction summarizes: all but the recent ones it keeps. */
  function SourceCount(p: Policy, pending: seq<Turn>): nat {
    |pending| - KeptCount(pending, p.targetRounds, p.maxRecentTokens)
  }

  /** A triggered compaction always has something to summarize, and what it leaves fits. */
  lemma SomethingToSummarize(p: Policy, pending: seq<Turn>)
    requires ValidPolicy(p) && Triggered(p, pending)
    ensures 1 <= SourceCount(p, pending) <= |pending|
    ensures |pending| - SourceCount(p, pending) <= p.targetRounds
    ensures Tokens(pending[SourceCount(p, pending)..]) <= p.maxRecentTokens
  {
    KeptAllIff(pending, p.targetRounds, p.maxRecentTokens);
    KeptIsLongest(pending, p.targetRounds, p.maxRecentTokens);
  }

  function NewCompaction(p: Policy, id: string, s: Session, retention: nat, key: string,
      summarizer: Summarizer): Compaction
    requires summarizer.Returns?
  {
    var pending := Pending(id, s, retention);
    Compaction(key, id, Through(s) + SourceCount(p, pending), summarizer.summary,
      if Tokens(pending) > p.maxRecentTokens then TokenThreshold else RoundThreshold,
      SourceCount(p, pending), summarizer.inputTokens, summarizer.outputTokens)
  }

  /** What compaction does to a session just after a turn was appended. */
  function CompactSession(p: Policy, id: string, s: Session, retention: nat, key: string,
      summarizer: Summarizer): (Session, Outcome) {
    if !Triggered(p, Pending(id, s, retention)) then (s, Quiet)
    else if !summarizer.Returns? || summarizer.summary == "" then (s, Failed(SummarizerFailed))
    else if summarizer.outputTokens > p.maxSummaryTokens then (s, Failed(SummaryTooLong))
    else if key == "" then (s, Failed(InvalidCompaction))
    else if HasId(s, key) then (s, Failed(ConflictingId))
    else
      var c := NewCompaction(p, id, s, retention, key, summarizer);
      (s.(compactions := s.compactions + [c]), Compacted(c))
  }

  datatype Call = Call(user: string, assistant: string, summarizer: Summarizer, key: string)

  function Appended(s: Session, call: Call): Session {
    s.(turns := s.turns + [Exchange(call.user, call.assistant)])
  }

  function RecordExchange(p: Policy, id: string, s: Session, retention: nat, call: Call): (Session, Outcome) {
    CompactSession(p, id, Appended(s, call), retention, call.key, call.summarizer)
  }

  function Recorded(p: Policy, id: string, retention: nat, calls: seq<Call>): Session {
    if calls == [] then NoSession
    else RecordExchange(p, id, Recorded(p, id, retention, calls[..|calls| - 1]), retention, calls[|calls| - 1]).0
  }

  // ---------- what every history satisfies ----------

  /** Where the `k`-th compaction's source starts. */
  function Start(s: Session, k: nat): nat
    requires k < |s.compactions|
  {
    if k == 0 then 0 else s.compactions[k - 1].through
  }

  /** Source ranges are adjacent, not empty, and lie within the recorded turns. */
  ghost predicate Partitioned(s: Session) {
    && (forall k :: 0 <= k < |s.compactions| ==> SourceOf(s, k))
    && Through(s) <= |s.turns|
  }

  ghost predicate SourceOf(s: Session, k: nat)
    requires k < |s.compactions|
  {
    s.compactions[k].through == Start(s, k) + s.compactions[k].sourceCount && s.compactions[k].sourceCount >= 1
  }

  lemma CompactKeepsPartition(p: Policy, id: string, s: Session, retention: nat, key: string, summarizer: Summarizer)
    requires ValidPolicy(p) && Partitioned(s)
    ensures Partitioned(CompactSession(p, id, s, retention, key, summarizer).0)
  {
    var pending := Pending(id, s, retention);
    var s' := CompactSession(p, id, s, retention, key, summarizer).0;
    if s' != s {
      SomethingToSummarize(p, pending);
      forall k | 0 <= k < |s'.compactions| ensures SourceOf(s', k) {
        if k < |s.compactions| { assert SourceOf(s, k); }
      }
    }
  }

  /** After any recorded turns and any summarizer failures, the compactions' sources are
      adjacent ranges from the first turn up to the summarized prefix. */
  lemma {:induction false} HistoryIsPartitioned(p: Policy, id: string, retention: nat, calls: seq<Call>)
    requires ValidPolicy(p)
    ensures Partitioned(Recorded(p, id, retention, calls))
    ensures |Recorded(p, id, retention, calls).turns| == |calls|
  {
    if calls != [] {
      var before := Recorded(p, id, retention, calls[..|calls| - 1]);
      HistoryIsPartitioned(p, id, retention, calls[..|calls| - 1]);
      RecordKeepsPartition(p, id, before, retention, calls[|calls| - 1]);
    }
  }

  lemma RecordKeepsPartition(p: Policy, id: string, s: Session, retention: nat, call: Call)
    requires ValidPolicy(p) && Partitioned(s)
    ensures Partitioned(RecordExchange(p, id, s, retention, call).0)
    ensures |RecordExchange(p, id, s, retention, call).0.turns| == |s.turns| + 1
  {
    var appended := Appended(s, call);
    forall k | 0 <= k < |appended.compactions| ensures SourceOf(appended, k) { assert SourceOf(s, k); }
    CompactKeepsPartition(p, id, appended, retention, call.key, call.summarizer);
  }

  /** Each summarized turn is a source of exactly one compaction, and no other turn is. */
  lemma {:induction false} SummarizedOnce(s: Session, q: nat)
    requires Partitioned(s) && q >= 1
    ensures q <= Through(s) <==> exists k: nat :: k < |s.compactions| && Start(s, k) < q <= s.compactions[k].through
    ensures forall j: nat, k: nat :: j < |s.compactions| && k < |s.compactions| ==>
              Start(s, j) < q <= s.compactions[j].through && Start(s, k) < q <= s.compactions[k].through ==> j == k
  {
    if q <= Through(s) { SourceExists(s, q, |s.compactions|); }
    forall j: nat, k: nat | j < k < |s.compactions| ensures s.compactions[j].through <= Start(s, k) {
      Advances(s, j, k - 1);
    }
    forall k: nat | k < |s.compactions| ensures s.compactions[k].through <= Through(s) {
      Advances(s, k, |s.compactions| - 1);
    }
  }

  lemma {:induction false} SourceExists(s: Session, q: nat, n: nat)
    requires Partitioned(s) && 1 <= n <= |s.compactions| && 1 <= q <= s.compactions[n - 1].through
    ensures exists k: nat :: k < n && Start(s, k) < q <= s.compactions[k].through
  {
    if q <= Start(s, n - 1) { SourceExists(s, q, n - 1); }
  }

  lemma {:induction false} Advances(s: Session, j: nat, k: nat)
    requires Partitioned(s) && j <= k < |s.compactions|
    ensures s.compactions[j].through <= s.compactions[k].through
    decreases k
  {
    if j < k {
      Advances(s, j, k - 1);
      assert SourceOf(s, k);
    }
  }

  /** A successful compaction leaves at most the target number of rounds, within the token
      limit; after any recording that did not fail, the whole pending window fits. */
  lemma WindowBound(p: Policy, id: string, s: Session, retention: nat, call: Call)
    requires ValidPolicy(p)
    ensures var (s', outcome) := RecordExchange(p, id, s, retention, call);
            var pending := Pending(id, s', retention);
            && (outcome.Compacted? ==> |pending| <= p.targetRounds)
            && (!outcome.Failed? ==> Tokens(pending) <= p.maxRecentTokens && |pending| < Threshold(p))
  {
    var appended := Appended(s, call);
    var pending := Pending(id, appended, retention);
    if RecordExchange(p, id, s, retention, call).1.Compacted? {
      SomethingToSummarize(p, pending);
      PendingAfter(p, id, appended, retention, call.key, call.summarizer);
    }
  }

  lemma PendingAfter(p: Policy, id: string, s: Session, retention: nat, key: string, summarizer: Summarizer)
    requires ValidPolicy(p) && CompactSession(p, id, s, retention, key, summarizer).1.Compacted?
    ensures var pending := Pending(id, s, retention);
            Pending(id, CompactSession(p, id, s, retention, key, summarizer).0, retention) ==
                pending[SourceCount(p, pending)..]
  {
    var pending := Pending(id, s, retention);
    SomethingToSummarize(p, pending);
    var s' := s.(compactions := s.compactions + [NewCompaction(p, id, s, retention, key, summarizer)]);
    assert CompactSession(p, id, s, retention, key, summarizer).0 == s';
    ListedLater(id, s, s', retention, Through(s), SourceCount(p, pending));
  }

  lemma ListedLater(id: string, s: Session, s': Session, retention: nat, after: nat, more: nat)
    requires s'.turns == s.turns && more <= |ListedFrom(id, s, retention, after)|
    ensures ListedFrom(id, s', retention, after + more) == ListedFrom(id, s, retention, after)[more..]
  {
  }

  /** A recording fails exactly when compaction is due and the summarizer, its summary's
      size, or the new id does not serve. */
  lemma FailureIff(p: Policy, id: string, s: Session, retention: nat, call: Call)
    ensures var appended := Appended(s, call);
            RecordExchange(p, id, s, retention, call).1.Failed? <==>
              && Triggered(p, Pending(id, appended, retention))
              && !(call.summarizer.Returns? && call.summarizer.summary != ""
                && call.summarizer.outputTokens <= p.maxSummaryTokens && call.key != "" && !HasId(s, call.key))
  {
    var appended := Appended(s, call);
    assert HasId(appended, call.key) <==> HasId(s, call.key);
  }
}
