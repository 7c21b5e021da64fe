/** The conversation manager over the in-memory store: recording, compacting and preparing. */
module ConversationManager {
  import opened Common
  import opened TokenEstimate
  import opened ConversationTypes
  import opened ConversationWindow
  import opened ConversationTexts
  import opened InMemoryConversations

  datatype Context = Context(summary: string, recent: seq<Turn>, through: nat, stored: nat, omitted: nat)

  datatype Update = Update(turn: Turn, outcome: Outcome)

  predicate Acceptable(id: string, call: Call) {
    ValidSessionId(id) && call.user != "" && call.assistant != ""
  }

  ghost predicate Prepared(p: Policy, id: string, s: Session, retention: nat, c: Context) {
    var pending := Pending(id, s, retention);
    && c.recent == Kept(pending, Threshold(p), p.maxRecentTokens)
    && c.through == Through(s)
    && c.omitted == |pending| - |c.recent|
    && c.stored == |Listed(id, s, retention, 0, false)|
    && if s.compactions == [] then c.summary == "" else
         var summary := s.compactions[|s.compactions| - 1].summary;
         Truncation(summary, p.maxSummaryTokens, c.summary, Estimate(summary) > p.maxSummaryTokens)
  }

  /** In a prepared context the summarized prefix, the omitted turns and the recent ones make
      up all turns; the recent ones are the longest suffix within both limits; and nothing is
      omitted exactly when the whole window fits. */
  lemma PreparedContext(p: Policy, id: string, s: Session, retention: nat, c: Context)
    requires ValidPolicy(p) && Partitioned(s) && Prepared(p, id, s, retention, c)
    ensures var all, pending := Listed(id, s, retention, 0, true), Pending(id, s, retention);
            && |all| == |s.turns| == c.through + c.omitted + |c.recent|
            && c.recent == all[c.through + c.omitted..]
            && (forall k :: SuffixFits(pending, k, Threshold(p), p.maxRecentTokens) ==> k <= |c.recent|)
            && |c.recent| <= Threshold(p) && Tokens(c.recent) <= p.maxRecentTokens
            && (c.omitted == 0 <==> |pending| <= Threshold(p) && Tokens(pending) <= p.maxRecentTokens)
  {
    var all, pending := Listed(id, s, retention, 0, true), Pending(id, s, retention);
    PendingIsTail(id, s, retention);
    KeptIsLongest(pending, Threshold(p), p.maxRecentTokens);
    KeptAllIff(pending, Threshold(p), p.maxRecentTokens);
    var kept := KeptCount(pending, Threshold(p), p.maxRecentTokens);
    assert c.omitted == |pending| - kept && pending[c.omitted..] == all[c.through + c.omitted..];
  }

  /** The recent turns of a prepared context are the latest exchanges, word for word, and within
      the limit as one text. */
  lemma PreparedTexts(p: Policy, id: string, s: Session, retention: nat, c: Context)
    requires ValidPolicy(p) && Partitioned(s) && Prepared(p, id, s, retention, c)
    ensures c.through + c.omitted <= |s.turns|
    ensures var recent := s.turns[c.through + c.omitted..];
            SaidIn(c.recent, recent) && Estimate(Joined(recent)) + 12 * |recent| <= p.maxRecentTokens
  {
    PreparedContext(p, id, s, retention, c);
    var all, recent := Listed(id, s, retention, 0, true), s.turns[c.through + c.omitted..];
    forall i | 0 <= i < |recent|
      ensures c.recent[i].user == recent[i].user && c.recent[i].assistant == recent[i].assistant {
      assert c.recent[i] == all[c.through + c.omitted + i] == TurnAt(id, s, retention, c.through + c.omitted + i);
    }
    TokensAre(c.recent, recent);
    JoinedCosts(recent);
  }

  /** The turns not summarized yet are the last of all turns. */
  lemma PendingIsTail(id: string, s: Session, retention: nat)
    requires Partitioned(s)
    ensures var all := Listed(id, s, retention, 0, true);
            |all| == |s.turns| && Through(s) <= |all| && Pending(id, s, retention) == all[Through(s)..]
  {
  }

  /** The summary keeps its limit, cut down if it has to be. */
  lemma SummaryKeepsLimit(p: Policy, id: string, s: Session, retention: nat, c: Context)
    requires ValidPolicy(p) && Prepared(p, id, s, retention, c)
    ensures Estimate(c.summary) <= p.maxSummaryTokens
  {
  }

  /** A recording that did not fail is followed by a context that omits nothing. */
  lemma NothingOmitted(p: Policy, id: string, retention: nat, calls: seq<Call>, call: Call, s: Session,
      outcome: Outcome, c: Context)
    requires ValidPolicy(p)
    requires (s, outcome) == RecordExchange(p, id, Recorded(p, id, retention, calls), retention, call)
    requires !outcome.Failed? && Prepared(p, id, s, retention, c)
    ensures c.omitted == 0
  {
    var before := Recorded(p, id, retention, calls);
    HistoryIsPartitioned(p, id, retention, calls);
    RecordKeepsPartition(p, id, before, retention, call);
    WindowBound(p, id, before, retention, call);
    PreparedContext(p, id, s, retention, c);
  }

  class ConversationManager {
    const store: InMemoryConversationStore
    const policy: Policy

    constructor (store: InMemoryConversationStore, policy: Policy)
      requires ValidPolicy(policy)
      ensures this.store == store && this.policy == policy
    {
      this.store, this.policy := store, policy;
    }

    /** Greedy selection from the newest turn backwards. */
    method SelectRecent(turns: seq<Turn>, maxRounds: int, maxTokens: int) returns (r: seq<Turn>)
      requires maxRounds >= 0 && maxTokens >= 0
      ensures r == Kept(turns, maxRounds, maxTokens)
    {
      r := [];
      var used, i := 0, |turns|;
      assert turns[..i] == turns;
      while i > 0 && |r| < maxRounds && used + Cost(turns[i - 1]) <= maxTokens
        invariant Selecting(turns, maxRounds, maxTokens, i, used, r)
        decreases i
      {
        SelectsOne(turns, maxRounds, maxTokens, i, used, r);
        used := used + Cost(turns[i - 1]);
        r := [turns[i - 1]] + r;
        i := i - 1;
      }
      KeptEnds(turns, i, maxRounds - |r|, maxTokens - used);
    }

    /** The turns from `i` on are taken, and the others are still to be walked. */
    ghost predicate Selecting(turns: seq<Turn>, maxRounds: int, maxTokens: int, i: int, used: int, r: seq<Turn>) {
      && 0 <= i <= |turns| && |r| == |turns| - i && r == turns[i..]
      && KeptCount(turns, maxRounds, maxTokens) == |r| + KeptCount(turns[..i], maxRounds - |r|, maxTokens - used)
    }

    lemma SelectsOne(turns: seq<Turn>, maxRounds: int, maxTokens: int, i: int, used: int, r: seq<Turn>)
      requires Selecting(turns, maxRounds, maxTokens, i, used, r)
      requires i > 0 && |r| < maxRounds && used + Cost(turns[i - 1]) <= maxTokens
      ensures Selecting(turns, maxRounds, maxTokens, i - 1, used + Cost(turns[i - 1]), [turns[i - 1]] + r)
    {
      KeptStep(turns, i, maxRounds - |r|, maxTokens - used);
      PrependSuffix(turns, i);
    }

    lemma PrependSuffix(turns: seq<Turn>, i: nat)
      requires 0 < i <= |turns|
      ensures [turns[i - 1]] + turns[i..] == turns[i - 1..]
    {
    }

    /** A bounded snapshot of the session, which is left as it is. */
    method Prepare(id: string) returns (r: Result<Context, Error>)
      requires store.Valid() && ValidPolicy(policy)
      ensures r.Err? <==> !ValidSessionId(id)
      ensures r.Ok? ==> Prepared(policy, id, At(store.world, id), store.retention, r.value)
    {
      var latest := store.LatestCompaction(id);
      if latest.Err? { return Err(latest.error); }
      var through := if latest.value.Some? then latest.value.value.through else 0;
      var pending := List(id, through, true);
      var selected := SelectRecent(pending, Threshold(policy), policy.maxRecentTokens);
      var hot := List(id, 0, false);
      var summary, cut := "", false;
      if latest.value.Some? { summary, cut := TruncateTokens(latest.value.value.summary, policy.maxSummaryTokens); }
      r := Ok(Context(summary, selected, through, |hot|, |pending| - |selected|));
    }

    method List(id: string, after: nat, archived: bool) returns (r: seq<Turn>)
      requires store.Valid() && ValidSessionId(id)
      ensures r == Listed(id, At(store.world, id), store.retention, after, archived)
    {
      var listed := store.ListTurns(id, after, archived);
      r := listed.value;
    }

    /** Appends one exchange, then compacts if due. A failed compaction is reported, not raised. */
    method RecordTurn(id: string, call: Call) returns (r: Result<Update, Error>)
      requires store.Valid() && ValidPolicy(policy)
      modifies store
      ensures store.Valid()
      ensures !Acceptable(id, call) ==> r.Err? && store.world == old(store.world)
      ensures Acceptable(id, call) ==>
        var (s, outcome) := RecordExchange(policy, id, At(old(store.world), id), store.retention, call);
        r.Ok? && r.value.outcome == outcome && r.value.turn.sequence == |s.turns|
          && store.world == old(store.world)[id := s]
      ensures Acceptable(id, call) ==>
        && r.Ok? && (!r.value.outcome.Failed? ==> KeepsLimits(policy, At(store.world, id)))
        && QuietAsDue(id, At(old(store.world), id), call, r.value.outcome)
    {
      r := AppendAndCompact(id, call);
      if Acceptable(id, call) { RecordingTexts(policy, id, At(old(store.world), id), store.retention, call); }
    }

    /** Nothing is compacted only if the unsummarized texts with the new ones are within the limits,
        as one text; and then for sure if they are within them one by one. */
    predicate QuietAsDue(id: string, before: Session, call: Call, outcome: Outcome) {
      var es := Unsummarized(Appended(before, call));
      && (outcome.Quiet? ==>
          Estimate(Joined(es)) + 12 * |es| <= policy.maxRecentTokens && |es| < policy.targetRounds + policy.extraRounds)
      && (|es| < policy.targetRounds + policy.extraRounds && Separately(es) <= policy.maxRecentTokens ==>
          outcome.Quiet?)
    }

    method AppendAndCompact(id: string, call: Call) returns (r: Result<Update, Error>)
      requires store.Valid() && ValidPolicy(policy)
      modifies store
      ensures store.Valid()
      ensures !Acceptable(id, call) ==> r.Err? && store.world == old(store.world)
      ensures Acceptable(id, call) ==>
        var (s, outcome) := RecordExchange(policy, id, At(old(store.world), id), store.retention, call);
        r.Ok? && r.value.outcome == outcome && r.value.turn.sequence == |s.turns|
          && store.world == old(store.world)[id := s]
    {
      var turn := store.AppendTurn(id, call.user, call.assistant);
      if turn.Err? { return Err(turn.error); }
      assert store.world == old(store.world)[id := Appended(At(old(store.world), id), call)];
      var outcome := MaybeCompact(id, call.key, call.summarizer);
      r := Ok(Update(turn.value, outcome));
    }

    method MaybeCompact(id: string, key: string, summarizer: Summarizer) returns (outcome: Outcome)
      requires store.Valid() && ValidPolicy(policy) && ValidSessionId(id) && id in store.world
      modifies store
      ensures store.Valid()
      ensures var (s, o) := CompactSession(policy, id, At(old(store.world), id), store.retention, key, summarizer);
              store.world == old(store.world)[id := s] && outcome == o
    {
      ghost var s := At(store.world, id);
      assert store.world[id := s] == store.world;
      var latest := store.LatestCompaction(id);
      var through := if latest.value.Some? then latest.value.value.through else 0;
      var pending := List(id, through, true);
      if !Triggered(policy, pending) { return Quiet; }
      if !summarizer.Returns? { return Failed(SummarizerFailed); }
      var c := Draft(pending, through, id, s, key, summarizer);
      if summarizer.summary == "" { return Failed(SummarizerFailed); }
      if summarizer.outputTokens > policy.maxSummaryTokens { return Failed(SummaryTooLong); }
      NotYetStored(s, c);
      var stored := store.AppendCompaction(c);
      outcome := if stored.Ok? then Compacted(c) else Failed(stored.error);
    }

    /** The compaction of everything before the first kept turn. */
    method Draft(pending: seq<Turn>, through: nat, id: string, ghost s: Session, key: string, summarizer: Summarizer)
      returns (c: Compaction)
      requires ValidPolicy(policy) && summarizer.Returns?
      requires through == Through(s) && pending == Pending(id, s, store.retention) && Triggered(policy, pending)
      ensures c == NewCompaction(policy, id, s, store.retention, key, summarizer) && c.through > Through(s)
              && c.sourceCount >= 1
    {
      var kept := SelectRecent(pending, policy.targetRounds, policy.maxRecentTokens);
      SomethingToSummarize(policy, pending);
      var firstKept := if kept != [] then kept[0].sequence else pending[|pending| - 1].sequence + 1;
      var source := Before(pending, firstKept, through);
      // The fallback to the first pending turn is never needed.
      assert |source| == SourceCount(policy, pending) && source != [];
      var reason := if Tokens(pending) > policy.maxRecentTokens then TokenThreshold else RoundThreshold;
      c := Compaction(key, id, source[|source| - 1].sequence, summarizer.summary, reason, |source|,
          summarizer.inputTokens, summarizer.outputTokens);
    }

    lemma NotYetStored(s: Session, c: Compaction)
      requires c.through > Through(s) && Proper(c.session, s)
      ensures c !in s.compactions
    {
      forall i | 0 <= i < |s.compactions| ensures s.compactions[i].through <= Through(s) { }
    }

    /** The turns before a sequence number, of turns numbered on from `through`. */
    method Before(turns: seq<Turn>, sequence: nat, ghost through: nat) returns (r: seq<Turn>)
      requires forall i :: 0 <= i < |turns| ==> turns[i].sequence == through + i + 1
      requires through < sequence <= through + |turns| + 1
      ensures r == turns[..sequence - through - 1]
    {
      r := [];
      for i := 0 to |turns|
        invariant r == turns[..if i < sequence - through - 1 then i else sequence - through - 1]
      {
        if turns[i].sequence < sequence { r := r + [turns[i]]; }
      }
    }
  }
}
