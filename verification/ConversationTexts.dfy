/**
  What the limits of the recent window mean for what was said: the texts of the turns, joined or
  one by one, without reference to how a turn is priced.
 */
module ConversationTexts {
  import opened TokenEstimate
  import opened ConversationTypes
  import opened ConversationWindow

  /** All that was said, one text after the other. */
  function Joined(es: seq<Exchange>): string {
    if es == [] then "" else Joined(es[..|es| - 1]) + (es[|es| - 1].user + es[|es| - 1].assistant)
  }

  /** The estimates of all texts one by one, and twelve tokens for every exchange. */
  function Separately(es: seq<Exchange>): nat {
    if es == [] then 0
    else Separately(es[..|es| - 1]) + Estimate(es[|es| - 1].user) + Estimate(es[|es| - 1].assistant) + 12
  }

  /** What no summary covers yet. */
  function Unsummarized(s: Session): seq<Exchange> {
    if Through(s) <= |s.turns| then s.turns[Through(s)..] else []
  }

  /** Joining saves at most one token a text, and costs nothing. */
  lemma {:induction false} JoinedCosts(es: seq<Exchange>)
    ensures Estimate(Joined(es)) + 12 * |es| <= Separately(es) <= Estimate(Joined(es)) + 14 * |es|
  {
    if es != [] {
      var last := es[|es| - 1];
      JoinedCosts(es[..|es| - 1]);
      EstimateConcat(last.user, last.assistant);
      EstimateConcat(Joined(es[..|es| - 1]), last.user + last.assistant);
    }
  }

  ghost predicate SaidIn(turns: seq<Turn>, es: seq<Exchange>) {
    && |turns| == |es|
    && forall i :: 0 <= i < |es| ==> turns[i].user == es[i].user && turns[i].assistant == es[i].assistant
  }

  lemma {:induction false} TokensAre(turns: seq<Turn>, es: seq<Exchange>)
    requires SaidIn(turns, es)
    ensures Tokens(turns) == Separately(es)
  {
    if es != [] {
      var n := |es| - 1;
      assert forall i :: 0 <= i < n ==> turns[..n][i] == turns[i] && es[..n][i] == es[i];
      TokensAre(turns[..n], es[..n]);
    }
  }

  lemma PendingSays(id: string, s: Session, retention: nat)
    ensures SaidIn(Pending(id, s, retention), Unsummarized(s))
    ensures Tokens(Pending(id, s, retention)) == Separately(Unsummarized(s))
  {
    var pending, es := Pending(id, s, retention), Unsummarized(s);
    assert |pending| == |es|;
    forall i | 0 <= i < |es| ensures pending[i].user == es[i].user && pending[i].assistant == es[i].assistant {
      assert pending[i] == TurnAt(id, s, retention, Through(s) + i);
    }
    TokensAre(pending, es);
  }

  /** The price of exchanges as one text. */
  function Price(es: seq<Exchange>): nat {
    Estimate(Joined(es)) + 12 * |es|
  }

  /** Whether a session's unsummarized texts keep the limits of the policy. */
  predicate KeepsLimits(p: Policy, s: Session) {
    Price(Unsummarized(s)) <= p.maxRecentTokens && |Unsummarized(s)| < p.targetRounds + p.extraRounds
  }

  /** When compaction is due, in terms of the texts. */
  lemma DueTexts(p: Policy, turns: seq<Turn>, es: seq<Exchange>)
    requires SaidIn(turns, es)
    ensures Price(es) > p.maxRecentTokens ==> Triggered(p, turns)
    ensures |es| >= p.targetRounds + p.extraRounds ==> Triggered(p, turns)
    ensures |es| < p.targetRounds + p.extraRounds && Separately(es) <= p.maxRecentTokens ==> !Triggered(p, turns)
    ensures !Triggered(p, turns) ==> Price(es) <= p.maxRecentTokens && |es| < p.targetRounds + p.extraRounds
  {
    TokensAre(turns, es);
    JoinedCosts(es);
  }

  lemma QuietIffNotDue(p: Policy, id: string, s: Session, retention: nat, call: Call)
    ensures var (s', outcome) := RecordExchange(p, id, s, retention, call);
            && s'.turns == s.turns + [Exchange(call.user, call.assistant)]
            && (outcome.Quiet? <==> !Triggered(p, Pending(id, Appended(s, call), retention)))
            && (!outcome.Compacted? ==> s'.compactions == s.compactions)
  {
  }

  /** Recording an exchange, in terms of the texts: a text too long or a round too many is never
      left alone, and what is within both limits is; what is left unsummarized keeps both limits
      unless compaction failed. */
  lemma RecordingTexts(p: Policy, id: string, s: Session, retention: nat, call: Call)
    requires ValidPolicy(p)
    ensures var (s', outcome) := RecordExchange(p, id, s, retention, call);
            var es := Unsummarized(Appended(s, call));
            && (!outcome.Failed? ==> KeepsLimits(p, s'))
            && (Price(es) > p.maxRecentTokens ==> !outcome.Quiet?)
            && (|es| >= p.targetRounds + p.extraRounds ==> !outcome.Quiet?)
            && (|es| < p.targetRounds + p.extraRounds && Separately(es) <= p.maxRecentTokens ==> outcome.Quiet?)
  {
    var (s', outcome) := RecordExchange(p, id, s, retention, call);
    var appended := Appended(s, call);
    PendingSays(id, appended, retention);
    DueTexts(p, Pending(id, appended, retention), Unsummarized(appended));
    QuietIffNotDue(p, id, s, retention, call);
    WindowBound(p, id, s, retention, call);
    PendingSays(id, s', retention);
    DueTexts(p, Pending(id, s', retention), Unsummarized(s'));
  }

  lemma CompactionIs(p: Policy, id: string, s: Session, retention: nat, call: Call)
    requires RecordExchange(p, id, s, retention, call).1.Compacted?
    ensures var (s', outcome) := RecordExchange(p, id, s, retention, call);
            && call.summarizer.Returns? && s'.compactions == s.compactions + [outcome.c]
            && outcome.c.summary == call.summarizer.summary && outcome.c.id == call.key && outcome.c.session == id
            && (outcome.c.reason == TokenThreshold <==>
                Tokens(Pending(id, Appended(s, call), retention)) > p.maxRecentTokens)
            && Triggered(p, Pending(id, Appended(s, call), retention))
            && outcome == CompactSession(p, id, Appended(s, call), retention, call.key, call.summarizer).1
  {
  }

  /** A compaction appends what the summarizer returned, under the caller's id, and leaves as they
      are the latest exchanges: the target number, fewer only if one more would not fit. */
  lemma CompactionTexts(p: Policy, id: string, s: Session, retention: nat, call: Call)
    requires ValidPolicy(p) && RecordExchange(p, id, s, retention, call).1.Compacted?
    ensures var (s', outcome) := RecordExchange(p, id, s, retention, call);
            && call.summarizer.Returns? && s'.compactions == s.compactions + [outcome.c]
            && outcome.c.summary == call.summarizer.summary && outcome.c.id == call.key && outcome.c.session == id
            && (outcome.c.reason == TokenThreshold <==> Separately(Unsummarized(Appended(s, call))) > p.maxRecentTokens)
            && LatestKept(p, Unsummarized(Appended(s, call)), Unsummarized(s'))
  {
    var appended, s' := Appended(s, call), RecordExchange(p, id, s, retention, call).0;
    var pending := Pending(id, appended, retention);
    CompactionIs(p, id, s, retention, call);
    PendingAfter(p, id, appended, retention, call.key, call.summarizer);
    PendingSays(id, appended, retention);
    PendingSays(id, s', retention);
    QuietIffNotDue(p, id, s, retention, call);
    KeptTexts(p, pending, Unsummarized(appended), Unsummarized(s'));
  }

  /** The latest exchanges, the target number, or fewer if one more would not fit. */
  ghost predicate LatestKept(p: Policy, before: seq<Exchange>, after: seq<Exchange>) {
    && |after| < |before| && |after| <= p.targetRounds && after == before[|before| - |after|..]
    && (|after| == p.targetRounds || Separately(before[|before| - |after| - 1..]) > p.maxRecentTokens)
  }

  lemma KeptTexts(p: Policy, pending: seq<Turn>, before: seq<Exchange>, after: seq<Exchange>)
    requires ValidPolicy(p) && Triggered(p, pending) && SaidIn(pending, before)
    requires SaidIn(pending[SourceCount(p, pending)..], after)
    ensures LatestKept(p, before, after)
  {
    SomethingToSummarize(p, pending);
    var n := SourceCount(p, pending);
    forall i | 0 <= i < |after| ensures after[i] == before[n..][i] {
      assert pending[n..][i] == pending[n + i];
    }
    assert after == before[n..];
    var k := |after| + 1;
    KeptIsLongest(pending, p.targetRounds, p.maxRecentTokens);
    assert !SuffixFits(pending, k, p.targetRounds, p.maxRecentTokens);
    SuffixTokensAre(pending, k);
    var m := |pending| - k;
    forall i | 0 <= i < k
      ensures pending[m..][i].user == before[m..][i].user && pending[m..][i].assistant == before[m..][i].assistant {
      assert pending[m..][i] == pending[m + i] && before[m..][i] == before[m + i];
    }
    TokensAre(pending[m..], before[m..]);
  }
}
