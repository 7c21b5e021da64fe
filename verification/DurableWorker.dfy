/** The worker's tick: the first candidate that is not passed over is claimed, run and released. */
module DurableWorker {
  import opened Common
  import opened RunStatus
  import opened RunLeases

  type RunId = string

  datatype TickStatus = NoCandidate | Processed | LeaseLost | DeadLettered

  datatype Tick = Tick(status: TickStatus, run: Option<RunId>)

  /** The lease a run has, or the one a first claim would start from. */
  function LeaseOf(leases: map<RunId, Lease>, run: RunId, budget: nat): Lease {
    if run in leases then leases[run] else NewLease(budget)
  }

  /** A candidate that a tick passes over: it cannot be claimed and is not dead-lettered. */
  predicate Skipped(l: Lease, status: Status, now: int) {
    l.state != DeadLetter && (status !in EXECUTABLE || !ClaimableAt(l, now))
  }

  // ---------- one tick as a function of what the worker finds ----------

  datatype Config = Config(id: nat, seconds: nat, budget: nat, policy: Policy)

  predicate PassedOver(c: Config, leases: map<RunId, Lease>, statuses: map<RunId, Status>, run: RunId, now: int) {
    run in statuses && Skipped(LeaseOf(leases, run, c.budget), statuses[run], now)
  }

  /** The first candidate that is not passed over, if there is one. */
  function ChosenAt(c: Config, leases: map<RunId, Lease>, statuses: map<RunId, Status>, candidates: seq<RunId>,
      now: int): (r: Option<nat>)
    ensures r.Some? ==> r.value < |candidates| && !PassedOver(c, leases, statuses, candidates[r.value], now)
    ensures forall k :: 0 <= k < (if r.Some? then r.value else |candidates|) ==>
              PassedOver(c, leases, statuses, candidates[k], now)
  {
    if candidates == [] then None
    else
      var n := |candidates| - 1;
      var before := ChosenAt(c, leases, statuses, candidates[..n], now);
      if before.Some? then before
      else if PassedOver(c, leases, statuses, candidates[n], now) then None
      else Some(n)
  }

  /** The leases after a scan: the chosen run is claimed, or dead-lettered, or left so. */
  function Scanned(c: Config, leases: map<RunId, Lease>, statuses: map<RunId, Status>, candidates: seq<RunId>,
      now: int): map<RunId, Lease>
    requires forall x :: x in candidates ==> x in statuses
  {
    var chosen := ChosenAt(c, leases, statuses, candidates, now);
    if chosen.None? then leases
    else
      var run := candidates[chosen.value];
      var was := LeaseOf(leases, run, c.budget);
      var l := RunLeases.ClaimRun(was, statuses[run], c.id, c.seconds, now).0;
      if l != was then leases[run := l] else leases
  }

  /** The run that a scan claims, with its lease as claimed. */
  function Claimed(c: Config, leases: map<RunId, Lease>, statuses: map<RunId, Status>, candidates: seq<RunId>,
      now: int): Option<(RunId, Lease)>
    requires forall x :: x in candidates ==> x in statuses
  {
    var chosen := ChosenAt(c, leases, statuses, candidates, now);
    if chosen.None? then None
    else
      var run := candidates[chosen.value];
      var (l, ok) := RunLeases.ClaimRun(LeaseOf(leases, run, c.budget), statuses[run], c.id, c.seconds, now);
      if ok then Some((run, l)) else None
  }

  // ---------- any workers on any runs ----------

  /** One access to the leases, by any worker. */
  datatype Event =
    | Scan(config: Config, statuses: map<RunId, Status>, candidates: seq<RunId>, now: int)
    | Beat(run: RunId, owner: nat, token: nat, status: Status, seconds: nat, now: int)
    | Close(run: RunId, owner: nat, token: nat, state: LeaseState, nextAttempt: int)

  predicate Listable(e: Event) {
    e.Scan? ==> forall x :: x in e.candidates ==> x in e.statuses
  }

  function Accessed(leases: map<RunId, Lease>, e: Event): map<RunId, Lease>
    requires Listable(e)
  {
    match e
    case Scan(c, statuses, candidates, now) => Scanned(c, leases, statuses, candidates, now)
    case Beat(run, owner, token, status, seconds, now) =>
      var l := if run in leases then Heartbeat(leases[run], status, owner, token, seconds, now) else None;
      if l.Some? then leases[run := l.value] else leases
    case Close(run, owner, token, state, nextAttempt) =>
      var l := if run in leases then Release(leases[run], owner, token, state, nextAttempt) else None;
      if l.Some? then leases[run := l.value] else leases
  }

  function After(leases: map<RunId, Lease>, events: seq<Event>): map<RunId, Lease>
    requires forall e :: e in events ==> Listable(e)
  {
    if events == [] then leases
    else
      assert events[|events| - 1] in events;
      Accessed(After(leases, events[..|events| - 1]), events[|events| - 1])
  }

  /** A renewal by the holder lasts: whatever any worker's scan finds before the new expiry, the
      claim stays as renewed, and no other run's lease is touched by renewing it. */
  lemma RenewalLasts(leases: map<RunId, Lease>, run: RunId, owner: nat, token: nat, status: Status, seconds: nat,
      now: int, scan: Event)
    requires run in leases && Holds(leases[run], owner, token) && leases[run].expires > now
    requires status in {Created, Running, Recovering}
    requires scan.Scan? && Listable(scan) && scan.now < now + seconds
    ensures var renewed := Accessed(leases, Beat(run, owner, token, status, seconds, now));
            && renewed == leases[run := leases[run].(expires := now + seconds, version := leases[run].version + 1)]
            && SameLease(renewed, Accessed(renewed, scan), run)
  {
  }

  // ---------- what dead-lettered runs do to the ones listed after them ----------

  /** The first run is listed, and the other not before it. */
  ghost predicate ListedBefore(candidates: seq<RunId>, d: RunId, x: RunId) {
    exists i :: 0 <= i < |candidates| && candidates[i] == d && x !in candidates[..i]
  }

  ghost predicate SameLease(a: map<RunId, Lease>, b: map<RunId, Lease>, x: RunId) {
    (x in b <==> x in a) && (x in a ==> b[x] == a[x])
  }

  /** The run was not claimed: its lease is the same unless its holder renewed or closed it. */
  ghost predicate NotClaimed(a: map<RunId, Lease>, b: map<RunId, Lease>, x: RunId) {
    && (x in b <==> x in a)
    && (x in a ==> b[x].attempts == a[x].attempts && b[x].token in {a[x].token, None})
    && (x in a && a[x].state != Active ==> b[x] == a[x])
  }

  lemma ScanStopsAtDeadLetter(leases: map<RunId, Lease>, e: Event, d: RunId, x: RunId)
    requires e.Scan? && Listable(e) && d in leases && leases[d].state == DeadLetter
    requires d != x && ListedBefore(e.candidates, d, x)
    ensures SameLease(leases, Accessed(leases, e), d) && SameLease(leases, Accessed(leases, e), x)
  {
    var i :| 0 <= i < |e.candidates| && e.candidates[i] == d && x !in e.candidates[..i];
    var chosen := ChosenAt(e.config, leases, e.statuses, e.candidates, e.now);
    assert !PassedOver(e.config, leases, e.statuses, d, e.now);
    assert chosen.Some? && chosen.value <= i;
    if chosen.value < i { assert e.candidates[..i][chosen.value] == e.candidates[chosen.value]; }
  }

  /** A dead-lettered run that stays listed hides every run listed after it, for good: over any
      accesses of any workers, whatever the times, the statuses and the other candidates, its
      lease never changes and the runs after it are never claimed. */
  lemma {:induction false} DeadLetterBlocksScan(leases: map<RunId, Lease>, events: seq<Event>, d: RunId, x: RunId)
    requires d in leases && leases[d].state == DeadLetter && d != x
    requires forall e :: e in events ==> Listable(e) && (e.Scan? ==> ListedBefore(e.candidates, d, x))
    ensures SameLease(leases, After(leases, events), d) && NotClaimed(leases, After(leases, events), x)
  {
    if events != [] {
      DeadLetterBlocksScan(leases, events[..|events| - 1], d, x);
      var last := events[|events| - 1];
      assert last in events;
      if last.Scan? { ScanStopsAtDeadLetter(After(leases, events[..|events| - 1]), last, d, x); }
    }
  }

  /** When nothing before it can be claimed, a run that can be is reached exactly if none of
      those before it is dead-lettered. */
  lemma ReachedIff(c: Config, leases: map<RunId, Lease>, statuses: map<RunId, Status>, candidates: seq<RunId>, now: int,
      k: nat)
    requires k < |candidates| && forall i :: 0 <= i <= k ==> candidates[i] in statuses
    requires statuses[candidates[k]] in EXECUTABLE && ClaimableAt(LeaseOf(leases, candidates[k], c.budget), now)
    requires forall i :: 0 <= i < k ==>
               statuses[candidates[i]] !in EXECUTABLE || !ClaimableAt(LeaseOf(leases, candidates[i], c.budget), now)
    ensures ChosenAt(c, leases, statuses, candidates, now) == Some(k) <==>
              forall i :: 0 <= i < k ==> LeaseOf(leases, candidates[i], c.budget).state != DeadLetter
  {
    assert !PassedOver(c, leases, statuses, candidates[k], now);
    assert forall i :: 0 <= i < k ==>
      (PassedOver(c, leases, statuses, candidates[i], now) <==>
          LeaseOf(leases, candidates[i], c.budget).state != DeadLetter);
  }

  // ---------- when a claim is lost ----------

  /** A scan that finds the run's lease expired and takes it: claims it, or dead-letters it. */
  predicate TakesOver(leases: map<RunId, Lease>, e: Event, run: RunId)
    requires Listable(e)
  {
    && e.Scan? && run in leases && leases[run].state == Active && ClaimableAt(leases[run], e.now)
    && var chosen := ChosenAt(e.config, leases, e.statuses, e.candidates, e.now);
       chosen.Some? && e.candidates[chosen.value] == run
  }

  /** The claim with this token is gone for good. */
  predicate Beyond(l: Lease, token: nat) {
    l.version >= token && (l.state == Active ==> l.token.Some? && l.token.value > token)
  }

  lemma TakenOver(leases: map<RunId, Lease>, e: Event, run: RunId, owner: nat, token: nat)
    requires Listable(e) && run in leases && Holds(leases[run], owner, token) && token <= leases[run].version
    requires !(e.Close? && e.run == run && e.owner == owner && e.token == token)
    ensures var after := Accessed(leases, e);
            run in after && if TakesOver(leases, e, run) then Beyond(after[run], token)
                            else Holds(after[run], owner, token) && token <= after[run].version
  {
  }

  lemma StaysBeyond(leases: map<RunId, Lease>, e: Event, run: RunId, token: nat)
    requires Listable(e) && run in leases && Beyond(leases[run], token)
    ensures run in Accessed(leases, e) && Beyond(Accessed(leases, e)[run], token)
  {
  }

  /** Some scan among these took the lease over. */
  predicate Overtaken(leases: map<RunId, Lease>, events: seq<Event>, run: RunId)
    requires forall e :: e in events ==> Listable(e)
  {
    if events == [] then false
    else
      var init, last := events[..|events| - 1], events[|events| - 1];
      assert last in events;
      Overtaken(leases, init, run) || TakesOver(After(leases, init), last, run)
  }

  /** Whatever other workers do, a holder keeps its claim until it closes it itself, unless a
      scan found the lease expired and took it over; then the claim is lost for good. */
  lemma {:induction false} LeaseLostIff(leases: map<RunId, Lease>, events: seq<Event>, run: RunId, owner: nat,
      token: nat)
    requires run in leases && Holds(leases[run], owner, token) && token <= leases[run].version
    requires forall e :: e in events ==>
               Listable(e) && !(e.Close? && e.run == run && e.owner == owner && e.token == token)
    ensures var after := After(leases, events);
            && run in after && (Holds(after[run], owner, token) <==> !Overtaken(leases, events, run))
            && if Overtaken(leases, events, run) then Beyond(after[run], token) else token <= after[run].version
  {
    if events != [] {
      var init, last := events[..|events| - 1], events[|events| - 1];
      assert last in events;
      LeaseLostIff(leases, init, run, owner, token);
      if Overtaken(leases, init, run) {
        StaysBeyond(After(leases, init), last, run, token);
      } else {
        TakenOver(After(leases, init), last, run, owner, token);
      }
    }
  }

  class LeaseStore {
    var statuses: map<RunId, Status>
    var leases: map<RunId, Lease>

    constructor ()
      ensures statuses == map[] && leases == map[]
    {
      statuses, leases := map[], map[];
    }

    /** A lease is stored only when it changes. */
    method ClaimRun(run: RunId, owner: nat, seconds: nat, budget: nat, now: int) returns (claimed: Option<Lease>)
      requires run in statuses
      modifies this`leases
      ensures var (l, ok) := RunLeases.ClaimRun(LeaseOf(old(leases), run, budget), statuses[run], owner, seconds, now);
              && claimed == (if ok then Some(l) else None)
              && leases == if l != LeaseOf(old(leases), run, budget) then old(leases)[run := l] else old(leases)
    {
      claimed := None;
      var current := LeaseOf(leases, run, budget);
      if statuses[run] in EXECUTABLE && ClaimableAt(current, now) {
        if current.attempts >= current.budget {
          leases := leases[run := Closed(current, DeadLetter, 0)];
        } else {
          var l := Claim(current, owner, seconds, now);
          leases := leases[run := l];
          claimed := Some(l);
        }
      }
    }

    method ReleaseLease(run: RunId, owner: nat, token: nat, state: LeaseState, nextAttempt: int)
      returns (released: Option<Lease>)
      modifies this`leases
      ensures released == if run in old(leases) then Release(old(leases)[run], owner, token, state, nextAttempt)
              else None
      ensures leases == if released.Some? then old(leases)[run := released.value] else old(leases)
    {
      released := if run in leases then Release(leases[run], owner, token, state, nextAttempt) else None;
      if released.Some? { leases := leases[run := released.value]; }
    }

    /** What other workers do to the leases meanwhile. */
    method OthersAct(events: seq<Event>)
      requires forall e :: e in events ==> Listable(e)
      modifies this`leases
      ensures leases == After(old(leases), events)
    {
      for k := 0 to |events|
        invariant leases == After(old(leases), events[..k])
      {
        assert events[..k + 1][..k] == events[..k];
        leases := Accessed(leases, events[k]);
      }
      assert events[..|events|] == events;
    }
  }

  class DurableWorker {
    const store: LeaseStore
    const config: Config

    constructor (store: LeaseStore, config: Config)
      requires config.seconds > 0 && config.budget > 0 && config.policy.baseBackoff > 0 && config.policy.maxBackoff > 0
      ensures this.store == store && this.config == config
    {
      this.store, this.config := store, config;
    }

    /** The candidates before the chosen one are left alone; it is claimed, executed and
        released, or found or left dead-lettered. Other workers do `others` while it is
        executed; if the claim is lost by then, the release changes nothing. */
    method RunOnce(candidates: seq<RunId>, now: int, others: seq<Event>, later: int, finish: Finish)
      returns (tick: Tick)
      requires forall c :: c in candidates ==> c in store.statuses
      requires forall e :: e in others ==> Listable(e)
      modifies store`leases
      ensures var chosen := ChosenAt(config, old(store.leases), store.statuses, candidates, now);
              && (tick.status == NoCandidate <==> chosen.None?)
              && tick.run == if chosen.Some? then Some(candidates[chosen.value]) else None
      ensures var scanned := Scanned(config, old(store.leases), store.statuses, candidates, now);
              match Claimed(config, old(store.leases), store.statuses, candidates, now)
              case None => store.leases == scanned && (tick.status == DeadLettered <==> tick.run.Some?)
              case Some((run, l)) =>
                var before := After(scanned, others);
                && l.token.Some? && l.attempts >= 1 && store.leases == Ended(config, before, run, l, later, finish)
                && (tick.status == LeaseLost <==> !(run in before && Holds(before[run], config.id, l.token.value)))
                && (tick.status == DeadLettered <==>
                    tick.status != LeaseLost && !Parks(finish) && !(Retryable(finish) && l.attempts < l.budget))
                && (tick.status != LeaseLost ==>
                    run in store.leases && EndsAs(store.leases[run], config.policy, l, later, finish))
    {
      for k := 0 to |candidates|
        invariant store.leases == old(store.leases)
        invariant ChosenAt(config, store.leases, store.statuses, candidates[..k], now) == None
      {
        var run := candidates[k];
        assert run in candidates;
        assert candidates[..k + 1][..k] == candidates[..k];
        ghost var chosen := ChosenAt(config, store.leases, store.statuses, candidates[..k + 1], now);
        if chosen.Some? { ChosenEarly(config, store.leases, store.statuses, candidates, now, k); }
        var claimed := store.ClaimRun(run, config.id, config.seconds, config.budget, now);
        if claimed.Some? {
          store.OthersAct(others);
          tick := ReleaseClaimed(run, claimed.value, later, finish);
          return;
        }
        if run in store.leases && store.leases[run].state == DeadLetter {
          return Tick(DeadLettered, Some(run));
        }
      }
      assert candidates[..|candidates|] == candidates;
      return Tick(NoCandidate, None);
    }

    method ReleaseClaimed(run: RunId, claimed: Lease, later: int, finish: Finish) returns (tick: Tick)
      requires claimed.token.Some? && claimed.attempts >= 1
      modifies store`leases
      ensures store.leases == Ended(config, old(store.leases), run, claimed, later, finish)
      ensures var held := run in old(store.leases) && Holds(old(store.leases)[run], config.id, claimed.token.value);
              && tick == Tick(if !held then LeaseLost
                              else if Parks(finish)
                                || (Retryable(finish) && claimed.attempts < claimed.budget) then Processed
                              else DeadLettered, Some(run))
              && (held ==> run in store.leases && EndsAs(store.leases[run], config.policy, claimed, later, finish))
    {
      ReleaseDecides(config.policy, claimed, finish);
      var (state, delay) := ReleaseFor(config.policy, claimed, finish);
      var next := if delay.Some? then later + delay.value else 0;
      var released := store.ReleaseLease(run, config.id, claimed.token.value, state, next);
      tick := Tick(if released.None? then LeaseLost else if state == DeadLetter then DeadLettered
        else Processed, Some(run));
    }
  }

  /** The lease after an execution that ended at `later`: it backs off after a failure that may be
      retried below the budget, until the base delay, doubled for every earlier claim and capped,
      has passed; a run with nothing to do is released; any other is dead-lettered. */
  predicate EndsAs(l: Lease, p: RunLeases.Policy, claimed: Lease, later: int, finish: Finish)
    requires claimed.attempts >= 1
  {
    if Parks(finish) then l.state == Released
    else if Retryable(finish) && claimed.attempts < claimed.budget then
      l.state == Backoff && l.nextAttempt == later + Min(p.maxBackoff, p.baseBackoff * Pow2(claimed.attempts - 1))
    else l.state == DeadLetter
  }

  /** What the end of an execution at `later` does to the leases. */
  function Ended(c: Config, leases: map<RunId, Lease>, run: RunId, claimed: Lease, later: int,
      finish: Finish): map<RunId, Lease>
    requires claimed.token.Some?
  {
    var (state, delay) := ReleaseFor(c.policy, claimed, finish);
    Accessed(leases, Close(run, c.id, claimed.token.value, state, if delay.Some? then later + delay.value else 0))
  }

  lemma ChosenEarly(c: Config, leases: map<RunId, Lease>, statuses: map<RunId, Status>, candidates: seq<RunId>,
      now: int, k: nat)
    requires k < |candidates| && !PassedOver(c, leases, statuses, candidates[k], now)
    requires ChosenAt(c, leases, statuses, candidates[..k], now) == None
    ensures ChosenAt(c, leases, statuses, candidates, now) == Some(k)
  {
    assert forall i :: 0 <= i < k ==> candidates[..k][i] == candidates[i];
    var r := ChosenAt(c, leases, statuses, candidates, now);
    assert forall i :: 0 <= i < k ==> PassedOver(c, leases, statuses, candidates[i], now);
  }
}
