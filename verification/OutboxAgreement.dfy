/**
  The outbox and the step log agree: a step passes only over confirmed records.
 */
module OutboxAgreement {
  import opened Common
  import opened SideEffects
  import opened OutboxPlan
  import opened OutboxMachine
  import opened OutboxInvariant

  predicate IsConfirmed(recs: map<nat, Entry>, i: nat) {
    i in recs && recs[i].status == Confirmed
  }

  /** What a worker believes confirmed is confirmed. */
  ghost predicate Believes(recs: map<nat, Entry>, local: seq<Entry>) {
    forall i :: 0 <= i < |local| && local[i].status == Confirmed ==> IsConfirmed(recs, i)
  }

  /** A worker heading for a passed step has every record confirmed, or still has to
      confirm it itself. */
  ghost predicate Heading(c: Call, recs: map<nat, Entry>, p: Phase) {
    match p
    case Idle => true
    case Loading(seen) => Believes(recs, seen)
    case Ready(local) => Believes(recs, local) && AllIn(local, {Dispatching})
    case Moving(todo, local, next) =>
      && Believes(recs, local)
      && match next
         case Prepared(o) => o.Replay? ==> todo == [] && AllIn(local, SETTLED)
         case Begun => (forall i :: 0 <= i < |local| ==> local[i].status == Dispatching || InTodo(todo, i))
           && (forall j :: 0 <= j < |todo| ==> todo[j].to == Dispatching)
         case Recorded(r) => r.ok ==>
           && (forall j :: 0 <= j < |todo| ==> todo[j].to == Applied)
           && forall i :: 0 <= i < |local| ==> local[i].status == Applied || InTodo(todo, i)
         case Finished(r) => r.ok ==>
           && (forall j :: 0 <= j < |todo| ==> todo[j].to == Confirmed)
           && forall i :: 0 <= i < |local| ==> local[i].status == Confirmed || InTodo(todo, i)
  }

  ghost predicate AllConfirmed(c: Call, recs: map<nat, Entry>) {
    forall i :: 0 <= i < c.N ==> IsConfirmed(recs, i)
  }

  ghost predicate AgreeInv(c: Call, s: State) {
    && Inv(c, s)
    && (forall w :: 0 <= w < |s.workers| ==> Heading(c, s.recs, s.workers[w]))
    && (s.passed ==> AllConfirmed(c, s.recs))
  }

  /** Confirmed records stay confirmed under every action. */
  lemma ConfirmedStays(c: Call, s: State, a: Action, i: nat)
    requires Inv(c, s) && IsConfirmed(s.recs, i)
    ensures IsConfirmed(Do(c, s, a).recs, i)
  {
    if a.Work? && a.worker < |s.workers| {
      assert WellFormed(c, s.workers[a.worker]);
      if s.workers[a.worker].Moving? && s.workers[a.worker].todo != [] {
        assert WorkerMove(s.workers[a.worker].todo[0], c.retrySafe);
      }
    }
  }

  lemma HeadingKept(c: Call, before: map<nat, Entry>, after: map<nat, Entry>, p: Phase)
    requires Heading(c, before, p)
    requires forall i :: IsConfirmed(before, i) ==> IsConfirmed(after, i)
    ensures Heading(c, after, p)
  {
    assert !p.Idle? ==> Believes(after, if p.Loading? then p.seen else p.local);
  }

  lemma {:induction false} SweepCoversAll(local: seq<Entry>, from: set<Status>, to: Status, p: Patch)
    ensures forall i :: 0 <= i < |local| && local[i].status in from ==> InTodo(Sweep(local, from, to, p), i)
    ensures forall j :: 0 <= j < |Sweep(local, from, to, p)| ==> Sweep(local, from, to, p)[j].to == to
  {
    forall i | 0 <= i < |local| && local[i].status in from ensures InTodo(Sweep(local, from, to, p), i) {
      SweepCovers(local, from, to, p, i);
    }
    forall j | 0 <= j < |Sweep(local, from, to, p)| ensures Sweep(local, from, to, p)[j].to == to {
      SweepMoves(local, from, to, p, Sweep(local, from, to, p)[j]);
    }
  }

  /** The worker that acts is again heading for a confirmed step. */
  lemma MoveHeads(c: Call, s: State, w: nat, todo: seq<Move>, local: seq<Entry>, next: Next)
    requires AgreeInv(c, s) && w < |s.workers| && s.workers[w] == Moving(todo, local, next) && todo != []
    ensures Heading(c, MoveStep(s, w, todo, local, next).recs, MoveStep(s, w, todo, local, next).workers[w])
  {
    var s' := MoveStep(s, w, todo, local, next);
    var m := todo[0];
    assert Heading(c, s.recs, s.workers[w]) && WellFormed(c, s.workers[w]);
    if s'.workers[w] != Idle {
      assert WorkerMove(m, c.retrySafe);
      assert Believes(s'.recs, s'.workers[w].local);
      forall i | 0 <= i < |local| && i != m.index && InTodo(todo, i) ensures InTodo(todo[1..], i) {
        InTodoTail(todo, i);
      }
    }
  }

  lemma LoadHeads(c: Call, s: State, w: nat, seen: seq<Entry>)
    requires AgreeInv(c, s) && w < |s.workers| && s.workers[w] == Loading(seen)
    ensures Heading(c, LoadStep(c, s, w, seen).recs, LoadStep(c, s, w, seen).workers[w])
  {
    assert Heading(c, s.recs, s.workers[w]);
  }

  lemma StageHeads(c: Call, s: State, w: nat, local: seq<Entry>, next: Next, verified: bool, eventId: string)
    requires AgreeInv(c, s) && w < |s.workers| && s.workers[w] == Moving([], local, next)
    ensures var s' := StageStep(s, w, local, next, verified, eventId);
            && Heading(c, s'.recs, s'.workers[w])
            && (s'.passed ==> AllConfirmed(c, s'.recs))
  {
    assert Heading(c, s.recs, s.workers[w]) && WellFormed(c, s.workers[w]);
    assert forall i :: !InTodo([], i);
    SweepCoversAll(local, {Applied}, Confirmed, Patch(None, false, Some(eventId)));
    SweepCoversAll(local, {Planned}, Dispatching, NoPatch);
  }

  lemma ExecuteHeads(c: Call, s: State, w: nat, local: seq<Entry>, result: ToolResult)
    requires AgreeInv(c, s) && w < |s.workers| && s.workers[w] == Ready(local)
    ensures var s' := ExecuteStep(c, s, w, local, result);
            Heading(c, s'.recs, s'.workers[w])
  {
    assert Heading(c, s.recs, s.workers[w]);
    SweepCoversAll(local, {Dispatching}, Applied, Patch(Some(result), false, None));
  }

  lemma ActorHeads(c: Call, s: State, a: Action)
    requires AgreeInv(c, s) && a.Work? && a.worker < |s.workers|
    ensures var s' := Do(c, s, a);
            && Heading(c, s'.recs, s'.workers[a.worker])
            && (s'.passed && !s.passed ==> AllConfirmed(c, s'.recs))
  {
    var w := a.worker;
    match s.workers[w]
    case Idle =>
    case Loading(seen) => LoadHeads(c, s, w, seen);
    case Ready(local) => ExecuteHeads(c, s, w, local, a.result);
    case Moving(todo, local, next) =>
      if todo != [] { MoveHeads(c, s, w, todo, local, next); }
      else { StageHeads(c, s, w, local, next, a.verified, a.eventId); }
  }

  lemma OthersUnchanged(c: Call, s: State, a: Action)
    ensures var s' := Do(c, s, a);
            && |s'.workers| == |s.workers|
            && (forall w :: 0 <= w < |s.workers| && !(a.Work? && w == a.worker) ==>
                s'.workers[w] in {Idle, s.workers[w]})
            && (s'.passed && !s.passed ==> a.Work? && a.worker < |s.workers|)
  {
  }

  lemma DoAgrees(c: Call, s: State, a: Action)
    requires AgreeInv(c, s)
    ensures AgreeInv(c, Do(c, s, a))
  {
    var s' := Do(c, s, a);
    DoKeeps(c, s, a);
    forall i | IsConfirmed(s.recs, i) ensures IsConfirmed(s'.recs, i) { ConfirmedStays(c, s, a, i); }
    if a.Work? && a.worker < |s.workers| { ActorHeads(c, s, a); }
    OthersUnchanged(c, s, a);
    forall w | 0 <= w < |s'.workers|
      ensures Heading(c, s'.recs, s'.workers[w])
    {
      if s'.workers[w] != Idle && !(a.Work? && w == a.worker) {
        HeadingKept(c, s.recs, s'.recs, s.workers[w]);
      }
    }
  }

  lemma {:induction false} RunAgrees(c: Call, s: State, acts: seq<Action>)
    requires AgreeInv(c, s)
    ensures AgreeInv(c, Run(c, s, acts))
  {
    if acts != [] {
      RunAgrees(c, s, acts[..|acts| - 1]);
      DoAgrees(c, Run(c, s, acts[..|acts| - 1]), acts[|acts| - 1]);
    }
  }

  lemma InitAgrees(c: Call, workers: nat)
    ensures AgreeInv(c, Init(c, workers))
  {
    RunKeeps(c, workers, []);
  }

  /** Once the step's passed verification is in the log, all its records are confirmed,
      and no later action of any worker or operator changes that. */
  lemma PassedMeansConfirmed(c: Call, workers: nat, acts: seq<Action>, later: seq<Action>, i: nat)
    requires i < c.N
    requires Run(c, Init(c, workers), acts).passed
    ensures var s := Run(c, Run(c, Init(c, workers), acts), later);
            s.passed && IsConfirmed(s.recs, i)
  {
    InitAgrees(c, workers);
    RunAgrees(c, Init(c, workers), acts);
    PassedStays(c, Run(c, Init(c, workers), acts), later);
    RunAgrees(c, Run(c, Init(c, workers), acts), later);
  }

  lemma {:induction false} PassedStays(c: Call, s: State, later: seq<Action>)
    requires s.passed
    ensures Run(c, s, later).passed
  {
    if later != [] { PassedStays(c, s, later[..|later| - 1]); }
  }

  /** An uncertain record keeps its step from passing until the operator speaks about
      that very record. */
  lemma {:induction false} UncertainNeedsVerdict(c: Call, workers: nat, acts: seq<Action>, later: seq<Action>, i: nat)
    requires i < c.N && i in Run(c, Init(c, workers), acts).recs
    requires Run(c, Init(c, workers), acts).recs[i].status == Uncertain
    requires forall a :: a in later ==> !(a.Resolve? && a.index == i)
    ensures var s := Run(c, Run(c, Init(c, workers), acts), later);
            !s.passed && i in s.recs && s.recs[i].status == Uncertain
  {
    InitAgrees(c, workers);
    RunAgrees(c, Init(c, workers), acts);
    var s0 := Run(c, Init(c, workers), acts);
    RunAgrees(c, s0, later);
    if later != [] {
      var init, a := later[..|later| - 1], later[|later| - 1];
      assert a in later && forall b :: b in init ==> b in later;
      UncertainNeedsVerdict(c, workers, acts, init, i);
      var s := Run(c, s0, init);
      RunAgrees(c, s0, init);
      if a.Work? && a.worker < |s.workers| && s.workers[a.worker].Moving? && s.workers[a.worker].todo != [] {
        assert WellFormed(c, s.workers[a.worker]);
        assert WorkerMove(s.workers[a.worker].todo[0], c.retrySafe);
      }
    }
    assert Run(c, s0, later).passed ==> IsConfirmed(Run(c, s0, later).recs, i);
  }
}
