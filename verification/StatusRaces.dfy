/**
  Runtimes and operator controls racing for the status of one run. Each reads the status
  and later compares-and-sets it; any number of both interleave at those accesses.
 */
module StatusRaces {
  import opened RunStatus

  /** A runtime about to write `target` over the status it read. */
  datatype RuntimePhase = RIdle | RRead(current: Status, target: Status)

  /** A control: precondition checked; status reread; first write lost; status read for the second write. */
  datatype ControlPhase =
    | CIdle
    | CChecked(action: Control)
    | CReread(action: Control, current: Status)
    | CLost(action: Control)
    | CRetry(action: Control, latest: Status)

  datatype State = State(status: Status, runtimes: seq<RuntimePhase>, controls: seq<ControlPhase>)

  datatype Action =
    | RuntimeRead(runtime: nat, target: Status)
    | RuntimeWrite(runtime: nat)
    | ControlCheck(control: nat, action: Control)
    | ControlStep(control: nat)

  function Init(runtimes: nat, controls: nat): State {
    State(Created, seq(runtimes, _ => RIdle), seq(controls, _ => CIdle))
  }

  /** The runtime leaves a paused or cancelled run alone. */
  function RuntimeReads(s: State, r: nat, target: Status): State
    requires r < |s.runtimes|
  {
    if s.status in STOPPED && s.status != target then s
    else s.(runtimes := s.runtimes[r := RRead(s.status, target)])
  }

  function RuntimeWrites(s: State, r: nat): State
    requires r < |s.runtimes| && s.runtimes[r].RRead?
  {
    var p := s.runtimes[r];
    s.(status := if s.status == p.current then p.target else s.status, runtimes := s.runtimes[r := RIdle])
  }

  function WithControl(s: State, k: nat, p: ControlPhase): State
    requires k < |s.controls|
  {
    s.(controls := s.controls[k := p])
  }

  function ControlSteps(s: State, k: nat): State
    requires k < |s.controls|
  {
    match s.controls[k]
    case CIdle => s
    case CChecked(a) => WithControl(s, k, CReread(a, s.status))
    case CReread(a, current) =>
      if s.status == current then WithControl(s.(status := ControlTarget(a)), k, CIdle)
      else WithControl(s, k, CLost(a))
    case CLost(a) =>
      if ControlAllowed(a, s.status) then WithControl(s, k, CRetry(a, s.status)) else WithControl(s, k, CIdle)
    case CRetry(a, latest) =>
      if s.status == latest then WithControl(s.(status := ControlTarget(a)), k, CIdle)
      else WithControl(s, k, CIdle)
  }

  /** One atomic access; an action that is not enabled changes nothing. */
  function Do(s: State, a: Action): (s': State)
    ensures |s'.runtimes| == |s.runtimes| && |s'.controls| == |s.controls|
  {
    match a
    case RuntimeRead(r, target) =>
      if r < |s.runtimes| && s.runtimes[r].RIdle? && target in RUNTIME_WRITES then RuntimeReads(s, r, target) else s
    case RuntimeWrite(r) => if r < |s.runtimes| && s.runtimes[r].RRead? then RuntimeWrites(s, r) else s
    case ControlCheck(k, c) =>
      if k < |s.controls| && s.controls[k].CIdle? && ControlAllowed(c, s.status) then WithControl(s, k, CChecked(c))
        else s
    case ControlStep(k) => if k < |s.controls| then ControlSteps(s, k) else s
  }

  function Run(s: State, acts: seq<Action>): (s': State)
    ensures |s'.runtimes| == |s.runtimes| && |s'.controls| == |s.controls|
  {
    if acts == [] then s else Do(Run(s, acts[..|acts| - 1]), acts[|acts| - 1])
  }

  /** One more action after a run that led to `s`. */
  lemma Then(start: State, acts: seq<Action>, s: State, a: Action)
    requires Run(start, acts) == s
    ensures Run(start, acts + [a]) == Do(s, a)
  {
    assert (acts + [a])[..|acts|] == acts;
  }

  /** Runtimes hold only statuses they may overwrite, and controls retry only where their
      action is allowed. */
  ghost predicate Inv(s: State) {
    && (forall r :: 0 <= r < |s.runtimes| && s.runtimes[r].RRead? ==>
        s.runtimes[r].current !in STOPPED && s.runtimes[r].target in RUNTIME_WRITES)
    && (forall k :: 0 <= k < |s.controls| && s.controls[k].CRetry? ==>
        ControlAllowed(s.controls[k].action, s.controls[k].latest))
  }

  lemma {:induction false} InvHolds(s: State, acts: seq<Action>)
    requires Inv(s)
    ensures Inv(Run(s, acts))
  {
    if acts != [] { InvHolds(s, acts[..|acts| - 1]); }
  }

  /** The control, if any, whose write an action performs. */
  predicate CommitsControl(s: State, a: Action, c: Control) {
    && a.ControlStep? && a.control < |s.controls|
    && ((s.controls[a.control] == CReread(c, s.status)) || s.controls[a.control] == CRetry(c, s.status))
  }

  /** Under every interleaving of runtimes and controls, a paused run changes status only by
      a committed resume or cancel, and a cancelled one only by a committed control. */
  lemma StoppedLeftOnlyByOperator(runtimes: nat, controls: nat, acts: seq<Action>, a: Action)
    ensures var s := Run(Init(runtimes, controls), acts);
            Do(s, a).status != s.status ==>
              && (s.status == Paused ==> CommitsControl(s, a, Resume) || CommitsControl(s, a, Cancel))
              && (s.status == Cancelled ==> CommitsControl(s, a, Pause) || CommitsControl(s, a, Resume))
  {
    InvHolds(Init(runtimes, controls), acts);
  }

  /** What a committed control leaves: a paused run, a cancelled one, or after a resume one that
      a worker may execute. */
  lemma CommittedControls(runtimes: nat, controls: nat, acts: seq<Action>, a: Action)
    ensures var s := Run(Init(runtimes, controls), acts);
            && (CommitsControl(s, a, Pause) ==> Do(s, a).status == Paused)
            && (CommitsControl(s, a, Cancel) ==> Do(s, a).status == Cancelled)
            && (CommitsControl(s, a, Resume) ==> Do(s, a).status in {Created, Running, Recovering})
  {
  }

  /** A control that takes its steps alone: its check, its reading, its write. */
  function Alone(k: nat, c: Control): seq<Action> {
    [ControlCheck(k, c), ControlStep(k), ControlStep(k)]
  }

  /** What a control taken alone makes of a status. */
  function Controlled(c: Control, status: Status): Status {
    if ControlAllowed(c, status) then ControlTarget(c) else status
  }

  /** It takes effect exactly if it is allowed. */
  lemma ActsAlone(s: State, k: nat, c: Control)
    requires k < |s.controls| && s.controls[k].CIdle?
    ensures Run(s, Alone(k, c)) == s.(status := Controlled(c, s.status))
  {
    var checked, reread := WithControl(s, k, CChecked(c)), WithControl(s, k, CReread(c, s.status));
    assert s.controls[k := CIdle] == s.controls;
    assert Alone(k, c) == [] + [ControlCheck(k, c)] + [ControlStep(k)] + [ControlStep(k)];
    if ControlAllowed(c, s.status) {
      Then(s, [], s, ControlCheck(k, c));
      Then(s, [] + [ControlCheck(k, c)], checked, ControlStep(k));
      assert Do(checked, ControlStep(k)) == reread;
      Then(s, [] + [ControlCheck(k, c)] + [ControlStep(k)], reread, ControlStep(k));
      assert Do(reread, ControlStep(k)).controls == s.controls;
    } else {
      Then(s, [], s, ControlCheck(k, c));
      Then(s, [] + [ControlCheck(k, c)], s, ControlStep(k));
      Then(s, [] + [ControlCheck(k, c)] + [ControlStep(k)], s, ControlStep(k));
    }
  }

  /** A pause and then a resume, nothing else happening, bring a running run back to running. */
  lemma PauseThenResume(s: State, k: nat, paused: State, resumed: State)
    requires k < |s.controls| && s.controls[k].CIdle?
    requires paused == Run(s, Alone(k, Pause)) && resumed == Run(paused, Alone(k, Resume))
    ensures s.status in {Created, Running, Recovering} ==>
              paused == s.(status := Paused) && resumed == s.(status := Running)
  {
    ActsAlone(s, k, Pause);
    ActsAlone(paused, k, Resume);
  }

  /** A cancel leaves nothing to resume. */
  lemma CancelThenResume(s: State, k: nat, cancelled: State, resumed: State)
    requires k < |s.controls| && s.controls[k].CIdle?
    requires cancelled == Run(s, Alone(k, Cancel)) && resumed == Run(cancelled, Alone(k, Resume))
    ensures resumed == cancelled && resumed.status in TERMINAL
  {
    ActsAlone(s, k, Cancel);
    ActsAlone(cancelled, k, Resume);
  }

  /** Whether a control left alone from here on still takes effect: its first write needs the
      status it has read, and if that is lost it needs to be allowed where it reads again. */
  predicate TakesEffect(s: State, k: nat)
    requires k < |s.controls|
  {
    match s.controls[k]
    case CIdle => false
    case CChecked(_) => true
    case CReread(a, current) => s.status == current || ControlAllowed(a, s.status)
    case CLost(a) => ControlAllowed(a, s.status)
    case CRetry(_, latest) => s.status == latest
  }

  function Finishing(k: nat): seq<Action> {
    [ControlStep(k), ControlStep(k), ControlStep(k)]
  }

  /** A control under way finishes within three steps if left alone, and with that outcome. */
  lemma FinishesAlone(s: State, k: nat)
    requires k < |s.controls| && !s.controls[k].CIdle?
    ensures Run(s, Finishing(k)) ==
              s.(status := if TakesEffect(s, k) then ControlTarget(s.controls[k].action) else s.status,
                 controls := s.controls[k := CIdle])
  {
    var a := ControlStep(k);
    var s1 := Do(s, a);
    var s2 := Do(s1, a);
    assert Finishing(k) == [] + [a] + [a] + [a];
    Then(s, [], s, a);
    Then(s, [] + [a], s1, a);
    Then(s, [] + [a] + [a], s2, a);
    StepsOn(s, k);
    if !s1.controls[k].CIdle? { StepsOn(s1, k); }
    if !s2.controls[k].CIdle? { StepsOn(s2, k); }
  }

  /** One step of a control under way keeps its prospects, and brings it nearer to the end. */
  lemma StepsOn(s: State, k: nat)
    requires k < |s.controls| && !s.controls[k].CIdle?
    ensures var t, phase := Do(s, ControlStep(k)), s.controls[k];
            && t == s.(status := t.status, controls := s.controls[k := t.controls[k]])
            && (t.controls[k].CIdle? ==>
                 t.status == if TakesEffect(s, k) then ControlTarget(phase.action) else s.status)
            && (!t.controls[k].CIdle? ==>
                 && t.status == s.status && t.controls[k].action == phase.action
                 && (TakesEffect(t, k) <==> TakesEffect(s, k))
                 && Left(t.controls[k], t.status) < Left(phase, s.status))
            && Left(phase, s.status) <= 3
  {
  }

  /** How many steps are left. */
  function Left(p: ControlPhase, status: Status): nat {
    match p
    case CIdle => 0
    case CChecked(_) => 2
    case CReread(_, current) => if status == current then 1 else 3
    case CLost(_) => 2
    case CRetry(_, _) => 1
  }

  // ---------- when a terminal status holds for good ----------

  /** A control that can still overwrite the status it finds: it has passed its check and
      not read the status yet, or it has read exactly this status. */
  ghost predicate InFlight(s: State, k: nat) {
    && k < |s.controls|
    && (s.controls[k].CChecked? || (s.controls[k].CReread? && s.controls[k].current == s.status))
    && ControlTarget(s.controls[k].action) != s.status
  }

  predicate ControlOnly(acts: seq<Action>) {
    forall i :: 0 <= i < |acts| ==> acts[i].ControlCheck? || acts[i].ControlStep?
  }

  /** No control is in flight, and none can come into flight. */
  ghost predicate Settled(s: State) {
    Inv(s) && s.status in TERMINAL && forall k :: !InFlight(s, k)
  }

  lemma {:induction false} SettledHolds(s: State, acts: seq<Action>)
    requires Settled(s) && (s.status == Cancelled || ControlOnly(acts))
    ensures Settled(Run(s, acts)) && Run(s, acts).status == s.status
  {
    if acts != [] {
      var init := acts[..|acts| - 1];
      SettledHolds(s, init);
      var t, a := Run(s, init), acts[|acts| - 1];
      assert forall k :: !InFlight(t, k);
      InvHolds(t, [a]);
      assert Run(t, [a]) == Do(t, a) by { assert [a][..0] == []; }
      assert a.ControlStep? && a.control < |t.controls| ==> !InFlight(t, a.control);
      forall k ensures !InFlight(Do(t, a), k) {
        assert !InFlight(t, k);
      }
    }
  }

  lemma InFlightOverwrites(s: State, k: nat)
    requires InFlight(s, k)
    ensures exists acts :: ControlOnly(acts) && Run(s, acts).status != s.status
  {
    var step := ControlStep(k);
    var one, two := [step], [step, step];
    assert one[..0] == [] && two[..1] == one;
    assert Run(s, []) == s;
    assert Run(s, one) == Do(Run(s, []), step);
    assert Run(s, two) == Do(Run(s, one), step);
    if s.controls[k].CReread? {
      assert ControlOnly(one) && Run(s, one).status != s.status;
    } else {
      assert ControlOnly(two) && Run(s, two).status != s.status;
    }
  }

  /** A terminal status survives every further control exactly when no control that passed
      its check earlier is still in flight. */
  lemma TerminalHoldsExactly(runtimes: nat, controls: nat, acts: seq<Action>)
    requires Run(Init(runtimes, controls), acts).status in TERMINAL
    ensures var s := Run(Init(runtimes, controls), acts);
            (forall later :: ControlOnly(later) ==> Run(s, later).status == s.status) <==> (forall k :: !InFlight(s, k))
  {
    var s := Run(Init(runtimes, controls), acts);
    InvHolds(Init(runtimes, controls), acts);
    if forall k :: !InFlight(s, k) {
      forall later | ControlOnly(later) ensures Run(s, later).status == s.status { SettledHolds(s, later); }
    } else {
      var k :| InFlight(s, k);
      InFlightOverwrites(s, k);
    }
  }

  /** For a cancelled run the same condition holds against runtimes too. */
  lemma CancelledHoldsExactly(runtimes: nat, controls: nat, acts: seq<Action>)
    requires Run(Init(runtimes, controls), acts).status == Cancelled
    ensures var s := Run(Init(runtimes, controls), acts);
            (forall later :: Run(s, later).status == Cancelled) <==> (forall k :: !InFlight(s, k))
  {
    var s := Run(Init(runtimes, controls), acts);
    InvHolds(Init(runtimes, controls), acts);
    if forall k :: !InFlight(s, k) {
      forall later ensures Run(s, later).status == Cancelled { SettledHolds(s, later); }
    } else {
      var k :| InFlight(s, k);
      InFlightOverwrites(s, k);
    }
  }

  /** A runtime that is free or about to write can overwrite any terminal status but cancelled. */
  lemma RuntimeOverwrites(s: State)
    requires Inv(s) && s.runtimes != [] && s.status in TERMINAL && s.status != Cancelled
    ensures exists acts :: Run(s, acts).status != s.status
  {
    var target := if s.status == Failed then Completed else Failed;
    var read, write := RuntimeRead(0, target), RuntimeWrite(0);
    var one, two, three := [write], [write, read], [write, read, write];
    assert one[..0] == [] && two[..1] == one && three[..2] == two;
    assert Run(s, []) == s;
    assert Run(s, one) == Do(s, write);
    assert Run(s, two) == Do(Run(s, one), read);
    assert Run(s, three) == Do(Run(s, two), write);
    if Run(s, one).status == s.status {
      assert Run(s, one).runtimes[0].RIdle?;
      assert Run(s, two).runtimes[0] == RRead(s.status, target);
      assert Run(s, three).status == target;
    }
  }

  /** A terminal status survives everything, further calls of runtimes included, exactly when
      no such control is in flight and the run is cancelled or no runtime is left to act:
      completed, failed and not accepted are protected from controls only. */
  lemma FinalExactly(runtimes: nat, controls: nat, acts: seq<Action>)
    requires Run(Init(runtimes, controls), acts).status in TERMINAL
    ensures var s := Run(Init(runtimes, controls), acts);
            (forall later :: Run(s, later).status == s.status) <==>
              (forall k :: !InFlight(s, k)) && (s.status == Cancelled || runtimes == 0)
  {
    var s := Run(Init(runtimes, controls), acts);
    InvHolds(Init(runtimes, controls), acts);
    if k :| InFlight(s, k) {
      InFlightOverwrites(s, k);
    } else if s.status == Cancelled {
      forall later ensures Run(s, later).status == s.status { SettledHolds(s, later); }
    } else if runtimes == 0 {
      forall later ensures Run(s, later).status == s.status { HoldsWithoutRuntimes(s, later); }
    } else {
      RuntimeOverwrites(s);
    }
  }

  lemma {:induction false} HoldsWithoutRuntimes(s: State, acts: seq<Action>)
    requires Settled(s) && s.runtimes == []
    ensures Settled(Run(s, acts)) && Run(s, acts).status == s.status
  {
    if acts != [] {
      var init := acts[..|acts| - 1];
      HoldsWithoutRuntimes(s, init);
      var t, a := Run(s, init), acts[|acts| - 1];
      assert [a][..0] == [] && Run(t, [a]) == Do(Run(t, []), a);
      if a.ControlCheck? || a.ControlStep? { SettledHolds(t, [a]); }
    }
  }

  // ---------- one control at a time ----------

  /** While the only control is past its check, the run is not cancelled, and neither was it
      when the control read its status. */
  ghost predicate Serial(s: State) {
    && Inv(s) && |s.controls| == 1
    && match s.controls[0]
       case CIdle => true
       case CChecked(a) => s.status != Cancelled
       case CReread(a, current) => s.status != Cancelled && current != Cancelled
       case CLost(a) => s.status != Cancelled
       case CRetry(a, latest) => s.status != Cancelled && latest != Cancelled
  }

  lemma {:induction false} SerialHolds(s: State, acts: seq<Action>)
    requires Serial(s)
    ensures Serial(Run(s, acts))
  {
    InvHolds(s, acts);
    if acts != [] {
      SerialHolds(s, acts[..|acts| - 1]);
      InvHolds(s, acts[..|acts| - 1]);
    }
  }

  /** With operator actions taken one at a time, cancellation is final under every
      interleaving with any number of runtimes. */
  lemma SerialCancelIsFinal(runtimes: nat, acts: seq<Action>, later: seq<Action>)
    requires Run(Init(runtimes, 1), acts).status == Cancelled
    ensures Run(Run(Init(runtimes, 1), acts), later).status == Cancelled
  {
    SerialHolds(Init(runtimes, 1), acts);
    var s := Run(Init(runtimes, 1), acts);
    forall k ensures !InFlight(s, k) {}
    SettledHolds(s, later);
  }

  /** A pause that checked the status before the runtime completed the run overwrites the
      completion, even when operator actions are taken one at a time. */
  lemma PauseOverwritesCompleted()
    ensures exists acts, later ::
              Run(Init(1, 1), acts).status == Completed && Run(Run(Init(1, 1), acts), later).status == Paused
  {
    var acts := CompletesUnderPause();
    var s := State(Completed, [RIdle], [CChecked(Pause)]);
    Then(s, [], s, ControlStep(0));
    var t := State(Completed, [RIdle], [CReread(Pause, Completed)]);
    Then(s, [] + [ControlStep(0)], t, ControlStep(0));
    var later := [] + [ControlStep(0)] + [ControlStep(0)];
    assert Run(Run(Init(1, 1), acts), later).status == Paused;
  }

  lemma CompletesUnderPause() returns (acts: seq<Action>)
    ensures Run(Init(1, 1), acts) == State(Completed, [RIdle], [CChecked(Pause)])
  {
    var s0 := State(Created, [RIdle], [CIdle]);
    assert Init(1, 1) == s0;
    Then(s0, [], s0, RuntimeRead(0, Running));
    acts := [] + [RuntimeRead(0, Running)];
    Then(s0, acts, State(Created, [RRead(Created, Running)], [CIdle]), RuntimeWrite(0));
    acts := acts + [RuntimeWrite(0)];
    Then(s0, acts, State(Running, [RIdle], [CIdle]), RuntimeRead(0, Completed));
    acts := acts + [RuntimeRead(0, Completed)];
    Then(s0, acts, State(Running, [RRead(Running, Completed)], [CIdle]), ControlCheck(0, Pause));
    acts := acts + [ControlCheck(0, Pause)];
    Then(s0, acts, State(Running, [RRead(Running, Completed)], [CChecked(Pause)]), RuntimeWrite(0));
    acts := acts + [RuntimeWrite(0)];
  }

  /** Two controls at once can revive a cancelled run: the pause had checked first. */
  lemma ConcurrentPauseRevivesCancelled()
    ensures exists acts, later ::
              Run(Init(0, 2), acts).status == Cancelled && Run(Run(Init(0, 2), acts), later).status == Paused
  {
    var acts := CancelsUnderPause();
    var s := State(Cancelled, [], [CChecked(Pause), CIdle]);
    Then(s, [], s, ControlStep(0));
    var t := State(Cancelled, [], [CReread(Pause, Cancelled), CIdle]);
    Then(s, [] + [ControlStep(0)], t, ControlStep(0));
    var later := [] + [ControlStep(0)] + [ControlStep(0)];
    assert Run(Run(Init(0, 2), acts), later).status == Paused;
  }

  lemma CancelsUnderPause() returns (acts: seq<Action>)
    ensures Run(Init(0, 2), acts) == State(Cancelled, [], [CChecked(Pause), CIdle])
  {
    var s0 := Init(0, 2);
    var s1 := WithControl(s0, 0, CChecked(Pause));
    var s2 := WithControl(s1, 1, CChecked(Cancel));
    var s3 := WithControl(s2, 1, CReread(Cancel, Created));
    Then(s0, [], s0, ControlCheck(0, Pause));
    acts := [] + [ControlCheck(0, Pause)];
    Then(s0, acts, s1, ControlCheck(1, Cancel));
    acts := acts + [ControlCheck(1, Cancel)];
    Then(s0, acts, s2, ControlStep(1));
    acts := acts + [ControlStep(1)];
    Then(s0, acts, s3, ControlStep(1));
    acts := acts + [ControlStep(1)];
    assert Run(s0, acts) == WithControl(s3.(status := Cancelled), 1, CIdle);
    assert Run(s0, acts).controls == [CChecked(Pause), CIdle];
  }
}
