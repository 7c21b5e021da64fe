/**
  One logical tool call executed by any number of worker processes that share
  the durable records. Every store access, and the external execution, is one
  atomic step; steps of all processes interleave freely, any process may crash
  between two of its steps, and an operator may resolve uncertain records.
 */
module OutboxMachine {
  import opened SideEffects
  import opened OutboxPlan

  /** A prepared call: one key and one effect per intent. */
  datatype Call = Call(keys: seq<string>, intents: seq<Effect>, retrySafe: bool) {
    const N: nat := |intents|

    ghost predicate Valid() {
      && |keys| == |intents|
      && forall i, j :: 0 <= i < j < |keys| ==> keys[i] != keys[j]
    }
  }

  datatype Next =
    | Prepared(outcome: Outcome)
    | Begun
    | Recorded(result: ToolResult)
    | Finished(result: ToolResult)

  /** Where a worker is. `local` is what it last read of each record. */
  datatype Phase =
    | Idle
    | Loading(seen: seq<Entry>)
    | Moving(todo: seq<Move>, local: seq<Entry>, next: Next)
    | Ready(local: seq<Entry>)

  /** `recs` is durable; `workers` is volatile; the rest is history kept for the statements. */
  datatype State = State(
    recs: map<nat, Entry>,
    workers: seq<Phase>,
    passed: bool,
    executions: nat,
    failedVerdicts: seq<nat>)

  datatype Action =
    /** One step of a worker. The tool's answer and the verifier's are used only by the steps
        that ask for them. */
    | Work(worker: nat, result: ToolResult, verified: bool, eventId: string)
    | Crash(worker: nat)
    | Resolve(index: nat, verdict: Verdict)

  function Init(c: Call, workers: nat): State {
    State(map[], seq(workers, _ => Idle), false, 0, seq(c.N, _ => 0))
  }

  function WithWorker(s: State, w: nat, p: Phase): State
    requires w < |s.workers|
  {
    s.(workers := s.workers[w := p])
  }

  /** Save the intent of the next record, or read it back when it already exists. */
  function LoadStep(c: Call, s: State, w: nat, seen: seq<Entry>): State
    requires w < |s.workers|
  {
    if |seen| < c.N then
      var s' := if |seen| in s.recs then s else s.(recs := s.recs[|seen| := NewEntry]);
      WithWorker(s', w, Loading(seen + [s'.recs[|seen|]]))
    else
      var plan := PreparePlan(seen, c.retrySafe);
      WithWorker(s, w, Moving(plan.moves, seen, Prepared(plan.outcome)))
  }

  /** A compare-and-set; a conflict raises, which ends the attempt. */
  function MoveStep(s: State, w: nat, todo: seq<Move>, local: seq<Entry>, next: Next): State
    requires w < |s.workers| && todo != []
  {
    var m := todo[0];
    if m.index < |local| && m.index in s.recs && s.recs[m.index].status == m.from && Allowed(m.from, m.to) then
      var e := Advance(s.recs[m.index], m.to, m.patch);
      WithWorker(s.(recs := s.recs[m.index := e]), w, Moving(todo[1..], local[m.index := e], next))
    else
      WithWorker(s, w, Idle)
  }

  /** All transitions of a stage are done: go on with the next stage. */
  function StageStep(s: State, w: nat, local: seq<Entry>, next: Next, verified: bool, eventId: string): State
    requires w < |s.workers|
  {
    match next
    case Prepared(Dispatch) => WithWorker(s, w, Moving(BeginMoves(local), local, Begun))
    case Prepared(Replay(r)) => WithWorker(s, w, Moving(ConfirmMoves(local, eventId), local, Finished(r)))
    case Prepared(Block) => WithWorker(s, w, Moving(ConfirmMoves(local, eventId), local, Finished(BlockedResult)))
    case Begun => WithWorker(s, w, Ready(local))
    case Recorded(r) => WithWorker(s, w, Moving(ConfirmMoves(local, eventId), local, Finished(r)))
    case Finished(r) => WithWorker(s.(passed := s.passed || (r.ok && verified)), w, Idle)
  }

  /** The external execution; its result is not durable yet. */
  function ExecuteStep(c: Call, s: State, w: nat, local: seq<Entry>, result: ToolResult): State
    requires w < |s.workers|
  {
    var (moves, r) := RecordPlan(local, c.intents, c.retrySafe, result);
    WithWorker(s.(executions := s.executions + 1), w, Moving(moves, local, Recorded(r)))
  }

  function WorkStep(c: Call, s: State, a: Action): State
    requires a.Work? && a.worker < |s.workers|
  {
    match s.workers[a.worker]
    case Idle => WithWorker(s, a.worker, Loading([]))
    case Loading(seen) => LoadStep(c, s, a.worker, seen)
    case Moving(todo, local, next) =>
      if todo != [] then MoveStep(s, a.worker, todo, local, next)
      else StageStep(s, a.worker, local, next, a.verified, a.eventId)
    case Ready(local) => ExecuteStep(c, s, a.worker, local, a.result)
  }

  function ResolveStep(s: State, i: nat, v: Verdict): State
    requires i in s.recs && i < |s.failedVerdicts|
  {
    s.(recs := s.recs[i := Advance(s.recs[i], VerdictStatus(v), VerdictPatch(v))],
       failedVerdicts := if v.VerdictFailed? then s.failedVerdicts[i := s.failedVerdicts[i] + 1] else s.failedVerdicts)
  }

  /** One action; an action that is not enabled changes nothing. */
  function Do(c: Call, s: State, a: Action): State {
    match a
    case Work(w, _, _, _) => if w < |s.workers| then WorkStep(c, s, a) else s
    case Crash(w) => if w < |s.workers| then WithWorker(s, w, Idle) else s
    case Resolve(i, v) =>
      if i in s.recs && i < |s.failedVerdicts| && s.recs[i].status == Uncertain then ResolveStep(s, i, v) else s
  }

  function Run(c: Call, s: State, acts: seq<Action>): State {
    if acts == [] then s else Do(c, Run(c, s, acts[..|acts| - 1]), acts[|acts| - 1])
  }
}
