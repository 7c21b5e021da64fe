/**
  The lease on a run: claimed by one worker at a time, renewed, released into a new state,
  and counted. Any number of workers claim, renew and finish, early or late.
 */
module RunLeases {
  import opened Common
  import opened RunStatus

  datatype LeaseState = Available | Active | Backoff | Released | DeadLetter

  /** `token` identifies a claim; it is absent unless the lease is active. */
  datatype Lease = Lease(
    state: LeaseState,
    owner: nat,
    token: Option<nat>,
    expires: int,
    attempts: nat,
    budget: nat,
    nextAttempt: int,
    version: nat)

  const EXECUTABLE: set<Status> := {Created, Running, Recovering}

  function NewLease(budget: nat): Lease {
    Lease(Available, 0, None, 0, 0, budget, 0, 0)
  }

  predicate ActiveAt(l: Lease, now: int) {
    l.state == Active && l.expires > now
  }

  predicate ClaimableAt(l: Lease, now: int) {
    match l.state
    case DeadLetter => false
    case Active => !ActiveAt(l, now)
    case Backoff => l.nextAttempt <= now
    case Available => true
    case Released => true
  }

  /** Every claim counts; its token is new. */
  function Claim(l: Lease, owner: nat, seconds: nat, now: int): Lease {
    l.(state := Active, owner := owner, token := Some(l.version + 1), expires := now + seconds,
       attempts := l.attempts + 1, nextAttempt := 0, version := l.version + 1)
  }

  function Closed(l: Lease, state: LeaseState, nextAttempt: int): Lease {
    l.(state := state, owner := 0, token := None, expires := 0, nextAttempt := nextAttempt, version := l.version + 1)
  }

  /** The store's claim: the lease afterwards, and whether the claim succeeded. */
  function ClaimRun(l: Lease, status: Status, owner: nat, seconds: nat, now: int): (Lease, bool) {
    if status !in EXECUTABLE || !ClaimableAt(l, now) then (l, false)
    else if l.attempts >= l.budget then (Closed(l, DeadLetter, 0), false)
    else (Claim(l, owner, seconds, now), true)
  }

  predicate Holds(l: Lease, owner: nat, token: nat) {
    l.state == Active && l.owner == owner && l.token == Some(token)
  }

  function Heartbeat(l: Lease, status: Status, owner: nat, token: nat, seconds: nat, now: int): Option<Lease> {
    if status !in EXECUTABLE || !Holds(l, owner, token) || !ActiveAt(l, now) then None
    else Some(l.(expires := now + seconds, version := l.version + 1))
  }

  function Release(l: Lease, owner: nat, token: nat, state: LeaseState, nextAttempt: int): Option<Lease> {
    if state == Active || !Holds(l, owner, token) then None else Some(Closed(l, state, nextAttempt))
  }

  // ---------- what a worker releases into ----------

  datatype Policy = Policy(baseBackoff: nat, maxBackoff: nat)

  /** How an execution ended: with a run status, and whether its failure can be retried; or
      with an exception. */
  datatype Finish = Returned(status: Status, retryable: bool) | Raised

  function Pow2(n: nat): (r: nat)
    ensures r >= 1
  {
    if n == 0 then 1 else 2 * Pow2(n - 1)
  }

  function Min(a: nat, b: nat): nat { if a < b then a else b }

  /** The backoff after the `n`-th claim. */
  function Delay(p: Policy, n: nat): nat {
    if n == 0 then 0 else Min(p.maxBackoff, p.baseBackoff * Pow2(n - 1))
  }

  /** The state released into, and the backoff if there is one. `claimed` is the lease as claimed. */
  function ReleaseFor(p: Policy, claimed: Lease, f: Finish): (LeaseState, Option<nat>) {
    var retry := if claimed.attempts >= claimed.budget then (DeadLetter, None)
      else (Backoff, Some(Delay(p, claimed.attempts)));
    match f
    case Raised => retry
    case Returned(status, retryable) =>
      if status == Completed || status in {WaitingUser, Paused, Cancelled} then (Released, None)
      else if status == Recovering && retryable then retry
      else (DeadLetter, None)
  }

  // ---------- any number of workers ----------

  /** `claims` are the leases as claimed, in order; `backoffs` the claims that were backed off. */
  datatype State = State(lease: Lease, status: Status, now: int, claims: seq<Lease>, backoffs: seq<nat>)

  datatype Action =
    | Pass(seconds: nat)
    | Write(status: Status)
    | TryClaim(owner: nat, seconds: nat)
    | Renew(claim: nat, seconds: nat)
    | End(claim: nat, finish: Finish)

  function Init(budget: nat): State {
    State(NewLease(budget), Created, 0, [], [])
  }

  function Do(p: Policy, s: State, a: Action): State {
    match a
    case Pass(seconds) => s.(now := s.now + seconds)
    case Write(status) => s.(status := status)
    case TryClaim(owner, seconds) =>
      var (l, ok) := ClaimRun(s.lease, s.status, owner, seconds, s.now);
      s.(lease := l, claims := if ok then s.claims + [l] else s.claims)
    case Renew(i, seconds) =>
      if i >= |s.claims| || s.claims[i].token.None? then s
      else
        var renewed := Heartbeat(s.lease, s.status, s.claims[i].owner, s.claims[i].token.value, seconds, s.now);
        if renewed.Some? then s.(lease := renewed.value) else s
    case End(i, f) =>
      if i >= |s.claims| || s.claims[i].token.None? then s
      else
        var (state, delay) := ReleaseFor(p, s.claims[i], f);
        var next := if delay.Some? then s.now + delay.value else 0;
        var released := Release(s.lease, s.claims[i].owner, s.claims[i].token.value, state, next);
        if released.None? then s
        else s.(lease := released.value, backoffs := if state == Backoff then s.backoffs + [s.claims[i].attempts]
          else s.backoffs)
  }

  function Run(p: Policy, s: State, acts: seq<Action>): State {
    if acts == [] then s else Do(p, Run(p, s, acts[..|acts| - 1]), acts[|acts| - 1])
  }

  ghost predicate Inv(s: State, budget: nat) {
    && s.lease.budget == budget && s.lease.attempts == |s.claims| <= budget
    && (s.lease.state == Active <==> s.lease.token.Some?)
    && (forall i :: 0 <= i < |s.claims| ==> ClaimAt(s, i, budget))
    && (s.lease.state == Active ==>
        |s.claims| > 0 && s.lease.token == s.claims[|s.claims| - 1].token
          && s.lease.owner == s.claims[|s.claims| - 1].owner)
    && (forall k :: 0 <= k < |s.backoffs| ==> 1 <= s.backoffs[k] <= |s.claims| && s.backoffs[k] < budget)
    && (forall j, k :: 0 <= j < k < |s.backoffs| ==> s.backoffs[j] < s.backoffs[k])
    && (s.lease.state == Active ==> forall k :: 0 <= k < |s.backoffs| ==> s.backoffs[k] < |s.claims|)
  }

  ghost predicate ClaimAt(s: State, i: nat, budget: nat)
    requires i < |s.claims|
  {
    && s.claims[i].attempts == i + 1 && s.claims[i].budget == budget && s.claims[i].token.Some?
    && s.claims[i].token.value <= s.lease.version
    && (i + 1 < |s.claims| && s.claims[i + 1].token.Some? ==> s.claims[i].token.value < s.claims[i + 1].token.value)
  }

  lemma {:induction false} TokensGrow(s: State, budget: nat, i: nat, j: nat)
    requires i < j < |s.claims| && forall k :: 0 <= k < |s.claims| ==> ClaimAt(s, k, budget)
    ensures s.claims[i].token.Some? && s.claims[j].token.Some? && s.claims[i].token.value < s.claims[j].token.value
    decreases j
  {
    assert ClaimAt(s, j, budget) && ClaimAt(s, j - 1, budget) && ClaimAt(s, i, budget);
    if i < j - 1 { TokensGrow(s, budget, i, j - 1); }
  }

  /** Only the latest claim can hold the lease. */
  lemma HolderIsLatest(s: State, budget: nat, i: nat)
    requires Inv(s, budget) && i < |s.claims|
    requires s.claims[i].token.Some? && Holds(s.lease, s.claims[i].owner, s.claims[i].token.value)
    ensures i == |s.claims| - 1
  {
    if i < |s.claims| - 1 { TokensGrow(s, budget, i, |s.claims| - 1); }
  }

  lemma InvStep(p: Policy, s: State, a: Action, budget: nat)
    requires Inv(s, budget)
    ensures Inv(Do(p, s, a), budget)
  {
    var s' := Do(p, s, a);
    forall i | 0 <= i < |s'.claims| ensures ClaimAt(s', i, budget) {
      if i < |s.claims| { assert ClaimAt(s, i, budget); }
    }
    if a.End? && a.claim < |s.claims| && s' != s {
      assert ClaimAt(s, a.claim, budget);
      HolderIsLatest(s, budget, a.claim);
    }
  }

  lemma {:induction false} InvHolds(p: Policy, budget: nat, acts: seq<Action>)
    ensures Inv(Run(p, Init(budget), acts), budget)
  {
    if acts != [] {
      InvHolds(p, budget, acts[..|acts| - 1]);
      InvStep(p, Run(p, Init(budget), acts[..|acts| - 1]), acts[|acts| - 1], budget);
    }
  }

  /** A lease names an owner, a token and an expiry only while it is held, and a next attempt
      only while it is backed off. */
  ghost predicate Plain(l: Lease) {
    && (l.state != Active ==> l.owner == 0 && l.token == None && l.expires == 0)
    && (l.state != Backoff ==> l.nextAttempt == 0)
  }

  lemma {:induction false} PlainHolds(p: Policy, budget: nat, acts: seq<Action>)
    ensures Plain(Run(p, Init(budget), acts).lease)
  {
    if acts != [] {
      var before := acts[..|acts| - 1];
      PlainHolds(p, budget, before);
      PlainStep(p, Run(p, Init(budget), before), acts[|acts| - 1]);
    }
  }

  lemma PlainStep(p: Policy, s: State, a: Action)
    requires Plain(s.lease)
    ensures Plain(Do(p, s, a).lease)
    ensures Do(p, s, a).lease == s.lease || Do(p, s, a).lease.version == s.lease.version + 1
  {
  }

  // ---------- the results ----------

  /** In every run each change of the lease is one version, and a lease that nobody holds says
      nothing of its last holder. */
  lemma LeaseIsPlain(p: Policy, budget: nat, acts: seq<Action>, a: Action)
    ensures var l, l' := Run(p, Init(budget), acts).lease, Do(p, Run(p, Init(budget), acts), a).lease;
            && (l' == l || l'.version == l.version + 1)
            && (l.state != Active ==> l.owner == 0 && l.token == None && l.expires == 0)
            && (l.state != Backoff ==> l.nextAttempt == 0)
  {
    PlainHolds(p, budget, acts);
    PlainStep(p, Run(p, Init(budget), acts), a);
  }

  /** In every run there are at most as many executions as the retry budget, and every
      backoff follows a claim that leaves some of it. */
  lemma RetryBudget(p: Policy, budget: nat, acts: seq<Action>)
    ensures var s := Run(p, Init(budget), acts);
            && |s.claims| == s.lease.attempts <= budget
            && forall k :: 0 <= k < |s.backoffs| ==> s.backoffs[k] < budget
  {
    InvHolds(p, budget, acts);
  }

  /** An execution that ended with an exception or a failure. */
  predicate Fails(f: Finish) {
    f.Raised? || f.status in {Recovering, Failed, AcceptanceFailed, Created, Running}
  }

  /** Once the budget is spent, the next claim that would succeed, and the holder's failure,
      dead-letter the run; and a dead-lettered lease never changes again. */
  lemma SpentBudgetDeadLetters(p: Policy, budget: nat, acts: seq<Action>, a: Action)
    ensures var s := Run(p, Init(budget), acts);
            var l := Do(p, s, a).lease;
            && (s.lease.attempts == budget && a.TryClaim? && s.status in EXECUTABLE && ClaimableAt(s.lease, s.now) ==>
                l.state == DeadLetter)
            && (s.lease.attempts == budget && l.state == Backoff ==> s.lease.state == Backoff)
            && (s.lease.attempts == budget && s.lease.state == Active ==>
                a.End? && a.claim + 1 == |s.claims| && Fails(a.finish) ==> l.state == DeadLetter)
            && (s.lease.state == DeadLetter ==> l == s.lease)
  {
    InvHolds(p, budget, acts);
    var s := Run(p, Init(budget), acts);
    if a.End? && a.claim < |s.claims| {
      assert ClaimAt(s, a.claim, budget);
      if Do(p, s, a) != s { HolderIsLatest(s, budget, a.claim); }
    }
  }

  /** In every run exactly the latest claim can be renewed, as long as it is held, not expired and
      the run may be executed; a renewal moves the expiry and nothing else. */
  lemma RenewIff(p: Policy, budget: nat, acts: seq<Action>, i: nat, seconds: nat)
    ensures var s := Run(p, Init(budget), acts);
            var renewed := i + 1 == |s.claims| && s.lease.state == Active && s.lease.expires > s.now
              && s.status in {Created, Running, Recovering};
            Do(p, s, Renew(i, seconds)) ==
              if renewed then s.(lease := s.lease.(expires := s.now + seconds, version := s.lease.version + 1)) else s
  {
    InvHolds(p, budget, acts);
    var s := Run(p, Init(budget), acts);
    if i < |s.claims| {
      assert ClaimAt(s, i, budget);
      if i + 1 < |s.claims| { TokensGrow(s, budget, i, |s.claims| - 1); }
    }
  }

  /** Until it expires a claim is exclusive, and a worker whose claim was taken over can
      neither renew nor release the lease. */
  lemma OneHolder(p: Policy, budget: nat, acts: seq<Action>, a: Action)
    ensures var s := Run(p, Init(budget), acts);
            && (ActiveAt(s.lease, s.now) && a.TryClaim? ==> Do(p, s, a) == s)
            && (a.Renew? && a.claim + 1 < |s.claims| ==> Do(p, s, a) == s)
            && (a.End? && a.claim + 1 < |s.claims| ==> Do(p, s, a) == s)
  {
    InvHolds(p, budget, acts);
    var s := Run(p, Init(budget), acts);
    var i := if a.Renew? || a.End? then a.claim else 0;
    if i + 1 < |s.claims| {
      assert ClaimAt(s, i, budget);
      TokensGrow(s, budget, i, |s.claims| - 1);
    }
  }

  // ---------- how long the backoffs take ----------

  lemma {:induction false} DelayGrows(p: Policy, m: nat, n: nat)
    requires m <= n
    ensures Delay(p, m) <= Delay(p, n)
    decreases n
  {
    if m < n {
      DelayGrows(p, m, n - 1);
      if n >= 2 { Doubles(p.baseBackoff, n - 2); }
    }
  }

  lemma Doubles(base: nat, k: nat)
    ensures base * Pow2(k) <= base * Pow2(k + 1)
  {
    assert base * Pow2(k + 1) == base * Pow2(k) + base * Pow2(k);
  }

  function TotalDelay(p: Policy, ns: seq<nat>): nat {
    if ns == [] then 0 else TotalDelay(p, ns[..|ns| - 1]) + Delay(p, ns[|ns| - 1])
  }

  /** The delays of the first `m` claims. */
  function DelaysUpTo(p: Policy, m: nat): nat {
    if m == 0 then 0 else DelaysUpTo(p, m - 1) + Delay(p, m)
  }

  lemma {:induction false} UpToBounds(p: Policy, m: nat)
    ensures DelaysUpTo(p, m) <= m * p.maxBackoff
    ensures DelaysUpTo(p, m) <= p.baseBackoff * (Pow2(m) - 1)
  {
    if m > 0 {
      UpToBounds(p, m - 1);
      Distribute(p.baseBackoff, Pow2(m - 1));
      OneMore(m, p.maxBackoff);
    }
  }

  lemma Distribute(b: nat, w: nat)
    ensures b * (w - 1) + b * w == b * (2 * w - 1)
  {
  }

  lemma OneMore(m: nat, x: nat)
    requires m >= 1
    ensures m * x == (m - 1) * x + x
  {
  }

  lemma {:induction false} TotalWithin(p: Policy, ns: seq<nat>, m: nat)
    requires forall j, k :: 0 <= j < k < |ns| ==> ns[j] < ns[k]
    requires forall k :: 0 <= k < |ns| ==> 1 <= ns[k] <= m
    ensures TotalDelay(p, ns) <= DelaysUpTo(p, m)
    decreases m
  {
    if ns != [] {
      var n := |ns| - 1;
      if ns[n] == m {
        TotalWithin(p, ns[..n], m - 1);
      } else {
        TotalWithin(p, ns, m - 1);
      }
    }
  }

  /** In every run the backoffs never shrink, each is as the formula says for its claim, and
      together they take at most the smaller of the two closed bounds. */
  lemma BackoffBounds(p: Policy, budget: nat, acts: seq<Action>)
    requires budget >= 1
    ensures var s := Run(p, Init(budget), acts);
            && (forall j, k :: 0 <= j < k < |s.backoffs| ==> Delay(p, s.backoffs[j]) <= Delay(p, s.backoffs[k]))
            && TotalDelay(p, s.backoffs) <= (budget - 1) * p.maxBackoff
            && TotalDelay(p, s.backoffs) <= p.baseBackoff * (Pow2(budget - 1) - 1)
  {
    InvHolds(p, budget, acts);
    var s := Run(p, Init(budget), acts);
    forall j, k | 0 <= j < k < |s.backoffs| ensures Delay(p, s.backoffs[j]) <= Delay(p, s.backoffs[k]) {
      DelayGrows(p, s.backoffs[j], s.backoffs[k]);
    }
    TotalBounds(p, s.backoffs, budget);
  }

  lemma TotalBounds(p: Policy, ns: seq<nat>, budget: nat)
    requires budget >= 1 && forall j, k :: 0 <= j < k < |ns| ==> ns[j] < ns[k]
    requires forall k :: 0 <= k < |ns| ==> 1 <= ns[k] < budget
    ensures TotalDelay(p, ns) <= (budget - 1) * p.maxBackoff
    ensures TotalDelay(p, ns) <= p.baseBackoff * (Pow2(budget - 1) - 1)
  {
    TotalWithin(p, ns, budget - 1);
    UpToBounds(p, budget - 1);
  }

  // ---------- what the end of an execution does ----------

  /** A failure that may be tried again: an exception, or a recoverable failure. */
  predicate Retryable(f: Finish) {
    f.Raised? || (f.status == Recovering && f.retryable)
  }

  /** An end that leaves nothing to do for a worker. */
  predicate Parks(f: Finish) {
    f.Returned? && f.status in {Completed, WaitingUser, Paused, Cancelled}
  }

  /** In every run, when the holder of the lease ends: a retryable failure below the budget backs
      off until the base delay, doubled for every claim before this one and capped, has passed;
      a finished, waiting, paused or cancelled run is released; anything else is dead-lettered. */
  lemma EndDecides(p: Policy, budget: nat, acts: seq<Action>, f: Finish)
    requires Run(p, Init(budget), acts).lease.state == Active
    ensures var s := Run(p, Init(budget), acts);
            var n := |s.claims|;
            n >= 1 && var l := Do(p, s, End(n - 1, f)).lease;
            && (l.state == Backoff <==> Retryable(f) && n < budget)
            && (l.state == Released <==> Parks(f))
            && (l.state == DeadLetter <==> !Parks(f) && !(Retryable(f) && n < budget))
            && (l.state == Backoff ==>
                l.nextAttempt == s.now + Min(p.maxBackoff, p.baseBackoff * Pow2(n - 1)))
            && l.token.None? && l.attempts == n
  {
    InvHolds(p, budget, acts);
    var s := Run(p, Init(budget), acts);
    assert ClaimAt(s, |s.claims| - 1, budget);
    ReleaseDecides(p, s.claims[|s.claims| - 1], f);
    HolderReleases(p, s, budget, f);
  }

  lemma HolderReleases(p: Policy, s: State, budget: nat, f: Finish)
    requires Inv(s, budget) && s.lease.state == Active
    ensures var n := |s.claims| - 1;
            && n >= 0
            && var (state, delay) := ReleaseFor(p, s.claims[n], f);
               Do(p, s, End(n, f)).lease == Closed(s.lease, state, if delay.Some? then s.now + delay.value else 0)
  {
    assert ClaimAt(s, |s.claims| - 1, budget);
  }

  lemma ReleaseDecides(p: Policy, claimed: Lease, f: Finish)
    requires claimed.attempts >= 1
    ensures var (state, delay) := ReleaseFor(p, claimed, f);
            && (state == Backoff <==> Retryable(f) && claimed.attempts < claimed.budget)
            && (state == Released <==> Parks(f))
            && (state == DeadLetter <==> !Parks(f) && !(Retryable(f) && claimed.attempts < claimed.budget))
            && (state == Backoff ==> delay == Some(Min(p.maxBackoff, p.baseBackoff * Pow2(claimed.attempts - 1))))
  {
  }

  /** The delay of a first failure is the base delay, and each later one is twice the one before,
      both up to the cap. */
  lemma DelaysDouble(p: Policy, n: nat)
    ensures Delay(p, 1) == Min(p.maxBackoff, p.baseBackoff)
    ensures n >= 1 ==> Delay(p, n + 1) == Min(p.maxBackoff, 2 * Delay(p, n))
  {
    if n >= 1 { assert p.baseBackoff * Pow2(n) == 2 * (p.baseBackoff * Pow2(n - 1)); }
  }

  /** Rounds of one worker: it claims the run, the execution fails, and time passes. */
  function Rounds(owner: nat, seconds: nat, f: Finish, waits: seq<nat>): seq<Action> {
    if waits == [] then []
    else
      var n := |waits| - 1;
      Rounds(owner, seconds, f, waits[..n]) + [TryClaim(owner, seconds), End(n, f), Pass(waits[n])]
  }

  /** Every round ends only when its backoff, if there is one, is over. */
  ghost predicate WaitsLongEnough(p: Policy, budget: nat, owner: nat, seconds: nat, f: Finish, waits: seq<nat>) {
    forall k :: 0 < k <= |waits| ==>
      var s := Run(p, Init(budget), Rounds(owner, seconds, f, waits[..k]));
      s.lease.state == Backoff ==> s.lease.nextAttempt <= s.now
  }

  /** After `n` rounds every attempt was used that the budget allows, and the lease waits for the
      next one as long as one is left. */
  predicate AfterRounds(s: State, budget: nat, n: nat) {
    && |s.claims| == (if n < budget then n else budget) && s.status == Created
    && s.lease.state == if n == 0 then Available else if n < budget then Backoff else DeadLetter
  }

  /** Retryable failures, each claimed again once its time has come, are executed exactly as often
      as the budget says; the last of these failures dead-letters the run, and no claim succeeds
      after that. */
  lemma FailuresUseTheBudget(p: Policy, budget: nat, owner: nat, seconds: nat, f: Finish, waits: seq<nat>)
    requires budget >= 1 && Retryable(f) && WaitsLongEnough(p, budget, owner, seconds, f, waits)
    ensures var s := Run(p, Init(budget), Rounds(owner, seconds, f, waits));
            && |s.claims| == (if |waits| < budget then |waits| else budget)
            && s.status == Created
            && s.lease.state == if waits == [] then Available else if |waits| < budget then Backoff else DeadLetter
  {
    RoundsGo(p, budget, owner, seconds, f, waits, |waits|);
    assert waits[..|waits|] == waits;
  }

  lemma {:induction false} RoundsGo(p: Policy, budget: nat, owner: nat, seconds: nat, f: Finish, waits: seq<nat>,
      n: nat)
    requires budget >= 1 && Retryable(f) && WaitsLongEnough(p, budget, owner, seconds, f, waits) && n <= |waits|
    ensures AfterRounds(Run(p, Init(budget), Rounds(owner, seconds, f, waits[..n])), budget, n)
  {
    if n > 0 {
      var before := Rounds(owner, seconds, f, waits[..n - 1]);
      var s := Run(p, Init(budget), before);
      RoundsGo(p, budget, owner, seconds, f, waits, n - 1);
      InvHolds(p, budget, before);
      RoundsMore(p, budget, owner, seconds, f, waits, n - 1);
      OneRound(p, budget, s, n - 1, owner, seconds, f, waits[n - 1]);
    }
  }

  /** One round more, and what it may rely on. */
  lemma RoundsMore(p: Policy, budget: nat, owner: nat, seconds: nat, f: Finish, waits: seq<nat>, n: nat)
    requires WaitsLongEnough(p, budget, owner, seconds, f, waits) && n < |waits|
    ensures var s := Run(p, Init(budget), Rounds(owner, seconds, f, waits[..n]));
            && Run(p, Init(budget), Rounds(owner, seconds, f, waits[..n + 1])) ==
                 Run(p, s, [TryClaim(owner, seconds), End(n, f), Pass(waits[n])])
            && (n > 0 && s.lease.state == Backoff ==> s.lease.nextAttempt <= s.now)
  {
    assert waits[..n + 1][..n] == waits[..n];
    RunConcat(p, Init(budget), Rounds(owner, seconds, f, waits[..n]),
      [TryClaim(owner, seconds), End(n, f), Pass(waits[n])]);
  }

  lemma OneRound(p: Policy, budget: nat, s: State, n: nat, owner: nat, seconds: nat, f: Finish, wait: nat)
    requires Inv(s, budget) && budget >= 1 && Retryable(f) && AfterRounds(s, budget, n)
    requires n > 0 && s.lease.state == Backoff ==> s.lease.nextAttempt <= s.now
    ensures AfterRounds(Run(p, s, [TryClaim(owner, seconds), End(n, f), Pass(wait)]), budget, n + 1)
  {
    var acts := [TryClaim(owner, seconds), End(n, f), Pass(wait)];
    var s1 := Do(p, s, acts[0]);
    var s2 := Do(p, s1, acts[1]);
    RunNext(p, s, acts, 0);
    RunNext(p, s, acts, 1);
    RunNext(p, s, acts, 2);
    assert acts[..0] == [] && acts[..3] == acts;
    if n < budget {
      assert |s1.claims| == n + 1 && s1.claims[n] == s1.lease;
    } else {
      assert s1 == s;
    }
  }

  /** When a claim succeeds, and what it is worth: the run may be executed, nobody holds the lease
      or its time is over, a backoff has passed, and an attempt is left; it then lasts until
      `seconds` have passed. A renewal counts from the time it is made. */
  lemma ClaimsIff(l: Lease, status: Status, owner: nat, seconds: nat, now: int)
    ensures var (claimed, ok) := ClaimRun(l, status, owner, seconds, now);
            && (ok <==> status in {Created, Running, Recovering} && l.attempts < l.budget && Free(l, now))
            && (ok ==> claimed.state == Active && claimed.owner == owner && claimed.expires == now + seconds)
            && (ok ==> claimed.attempts == l.attempts + 1 && claimed.token.Some?)
            && (ok && claimed.token.Some? ==>
                forall later: int, more: nat ::
                  var renewed := Heartbeat(claimed, status, owner, claimed.token.value, more, later);
                  && (renewed.Some? <==> later < now + seconds)
                  && (renewed.Some? ==> renewed.value.expires == later + more))
  {
    match l.state
    case Available =>
    case Active =>
    case Backoff =>
    case Released =>
    case DeadLetter =>
  }

  /** Nobody holds the lease, or no longer, and there is nothing to wait for. */
  predicate Free(l: Lease, now: int) {
    l.state in {Available, Released} || (l.state == Active && l.expires <= now)
      || (l.state == Backoff && l.nextAttempt <= now)
  }

  // ---------- claims that never failed count too ----------

  lemma {:induction false} RunConcat(p: Policy, s: State, a: seq<Action>, b: seq<Action>)
    ensures Run(p, s, a + b) == Run(p, Run(p, s, a), b)
    decreases |b|
  {
    if b == [] {
      assert a + b == a;
    } else {
      assert (a + b)[..|a + b| - 1] == a + b[..|b| - 1];
      RunConcat(p, s, a, b[..|b| - 1]);
    }
  }

  /** An operator pauses the run while a worker has it, and later resumes it. */
  function Park(i: nat): seq<Action> {
    [TryClaim(1, 30), Write(Paused), End(i, Returned(Paused, false)), Write(Running)]
  }

  function ParkTimes(n: nat): seq<Action> {
    if n == 0 then [] else ParkTimes(n - 1) + Park(n - 1)
  }

  lemma ParkOnce(p: Policy, s: State, budget: nat)
    requires Inv(s, budget) && |s.claims| < budget && s.status in EXECUTABLE && s.lease.state in {Available, Released}
    ensures var s' := Run(p, s, Park(|s.claims|));
            Inv(s', budget) && |s'.claims| == |s.claims| + 1 && s'.status == Running && s'.lease.state == Released
              && s'.backoffs == s.backoffs
  {
    var acts := Park(|s.claims|);
    var s1 := Do(p, s, acts[0]);
    var s2 := Do(p, s1, acts[1]);
    var s3 := Do(p, s2, acts[2]);
    ParkRuns(p, s, acts, s1, s2, s3);
    InvStep(p, s, acts[0], budget);
    InvStep(p, s1, acts[1], budget);
    InvStep(p, s2, acts[2], budget);
    InvStep(p, s3, acts[3], budget);
  }

  lemma ParkRuns(p: Policy, s: State, acts: seq<Action>, s1: State, s2: State, s3: State)
    requires |acts| == 4 && s1 == Do(p, s, acts[0]) && s2 == Do(p, s1, acts[1]) && s3 == Do(p, s2, acts[2])
    ensures Run(p, s, acts) == Do(p, s3, acts[3])
  {
    assert acts[..0] == [] && acts[..4] == acts;
    RunNext(p, s, acts, 0);
    RunNext(p, s, acts, 1);
    RunNext(p, s, acts, 2);
    RunNext(p, s, acts, 3);
  }

  lemma RunNext(p: Policy, s: State, acts: seq<Action>, n: nat)
    requires n < |acts|
    ensures Run(p, s, acts[..n + 1]) == Do(p, Run(p, s, acts[..n]), acts[n])
  {
    assert acts[..n + 1][..n] == acts[..n];
  }

  lemma {:induction false} ParkedTimes(p: Policy, budget: nat, n: nat)
    requires n <= budget
    ensures var s := Run(p, Init(budget), ParkTimes(n));
            Inv(s, budget) && |s.claims| == n && s.status in EXECUTABLE && s.lease.state in {Available, Released}
              && s.backoffs == []
  {
    if n > 0 {
      ParkedTimes(p, budget, n - 1);
      ParkOnce(p, Run(p, Init(budget), ParkTimes(n - 1)), budget);
      RunConcat(p, Init(budget), ParkTimes(n - 1), Park(n - 1));
    }
  }

  /** In every run, a claim dead-letters a lease that is not dead-lettered yet exactly when the
      run could otherwise be claimed and as many claims were made before as the budget has,
      whatever became of them: attempts are never given back. */
  lemma ClaimDeadLettersIff(p: Policy, budget: nat, acts: seq<Action>, owner: nat, seconds: nat)
    requires Run(p, Init(budget), acts).lease.state != DeadLetter
    ensures var s := Run(p, Init(budget), acts);
            Do(p, s, TryClaim(owner, seconds)).lease.state == DeadLetter <==>
              s.status in EXECUTABLE && ClaimableAt(s.lease, s.now) && |s.claims| == budget
  {
    InvHolds(p, budget, acts);
  }

  /** So a run that was only paused and resumed, and never failed, is dead-lettered by the claim
      after the budget is spent, while its status still has it listed for the workers. */
  lemma ParkedRunsDeadLetter(p: Policy, budget: nat)
    ensures var s := Run(p, Init(budget), ParkTimes(budget));
            var s' := Do(p, s, TryClaim(1, 30));
            s'.lease.state == DeadLetter && s'.status in EXECUTABLE && s.backoffs == []
  {
    ParkedTimes(p, budget, budget);
    ClaimDeadLettersIff(p, budget, ParkTimes(budget), 1, 30);
  }
}
