/**
  One step, with its outbox: what the verdict in the log says about the records of the
  step's side effects.
 */
module StepExecution {
  import opened Common
  import opened TaskEvents
  import opened PlanDag
  import opened StepFolds
  import opened RunHistory
  import opened StepOutcomes
  import Runs = TaskRunStore
  import opened Lifecycle
  import Effects = SideEffects
  import Decisions = OutboxPlan
  import opened Outbox
  import Durable = LongTaskStore

  /** What a tool reports beside its result. */
  datatype Advice = Advice(needsConfirmation: bool, recoverable: bool, action: Option<Runs.RecoveryAction>)

  datatype StepError = OutboxRefused(refused: Durable.StoreError) | StatusRefused(cause: Error)

  function OutcomeOf(result: Effects.ToolResult, advice: Advice): Outcome {
    Outcome(result.ok, result.evidence, advice.needsConfirmation, advice.recoverable, advice.action)
  }

  /** Starts the step, runs its call through the outbox, logs the result, confirms the records
      and judges the step. Once the log says that the step passed, every record of its call is
      stored as confirmed; and the verdict is a pass exactly if the reported result is ok and
      brings the required evidence. */
  method ExecuteStep(runtime: HarnessRuntime, outbox: SideEffectOutbox, run: string, step: Step, name: string,
      call: PreparedCall, answer: Effects.ToolResult, advice: Advice, anchor: Anchor, eventId: string)
    returns (r: Result<Execution, StepError>, records: seq<Durable.Record>)
    requires runtime.Open() && step in runtime.store.plan
    requires Ready(runtime.store.plan, runtime.store.events, step.id) && runtime.MayRecord(step.id, anchor)
    requires ValidCall(call) && (outbox.store != null ==> outbox.store.Valid())
    modifies runtime.store, outbox.store
    ensures runtime.Open() && (outbox.store != null ==> outbox.store.Valid())
    ensures var log, stale := runtime.store.events, old(KeyUsed(runtime.store.events, step.id, anchor));
            match r
            case Ok(e) => TookPlace(old(runtime.store.events), log, step, e.outcome, anchor, stale)
            case Err(StatusRefused(_)) => exists o :: TookPlace(old(runtime.store.events), log, step, o, anchor, stale)
            case Err(OutboxRefused(_)) => Worked(old(runtime.store.events), log, step.id, [StepStarted(step.id)])
    ensures StatusOf(runtime.store.events, step.id) == Passed && call.outboxRequired ==>
              && outbox.store != null
              && BelongTo(records, run, call) && Mirrors(outbox.store.sideEffects, records)
              && Decisions.AllIn(Entries(records), {Effects.Confirmed})
    ensures r.Ok? ==>
              (StatusOf(runtime.store.events, step.id) == Passed <==>
                r.value.outcome.ok && Covers(r.value.outcome.evidence, step.required))
  {
    ghost var before := runtime.store.events;
    ghost var stale := KeyUsed(before, step.id, anchor);
    records := [];
    runtime.StartStep(step);
    ghost var started := runtime.store.events;
    StartKeepsKeys(before, started, step.id, anchor);
    var result, p, executed := outbox.RunCall(run, name, call, answer);
    if result.Err? { return Err(OutboxRefused(result.error)), []; }
    var o := OutcomeOf(result.value, advice);
    runtime.RecordResult(step, o, anchor);
    ghost var recorded := runtime.store.events;
    records := outbox.ConfirmCall(run, call, p, eventId);
    var execution := runtime.JudgeStep(step, o, anchor);
    Finished(before, started, recorded, runtime.store.events, step, o, anchor, stale);
    r := if execution.Ok? then Ok(execution.value) else Err(StatusRefused(execution.error));
  }

  /** The log gained one whole execution of the step, the result missing if its key was used. */
  ghost predicate TookPlace(a: seq<Event>, b: seq<Event>, step: Step, o: Outcome, anchor: Anchor, stale: bool) {
    Worked(a, b, step.id, [StepStarted(step.id)] + Recording(step, o, anchor, stale))
  }

  lemma Finished(a: seq<Event>, b: seq<Event>, c: seq<Event>, d: seq<Event>, step: Step, o: Outcome, anchor: Anchor,
      stale: bool)
    requires Worked(a, b, step.id, [StepStarted(step.id)])
    requires Worked(b, c, step.id, ResultPart(step, o, anchor, stale))
    requires Worked(c, d, step.id, [StepVerified(step.id, VerdictFor(step, o))])
    ensures TookPlace(a, d, step, o, anchor, stale)
    ensures StatusOf(d, step.id) == VerdictFor(step, o)
  {
    var s, verdict := step.id, StepVerified(step.id, VerdictFor(step, o));
    WorkedTwice(b, c, d, s, ResultPart(step, o, anchor, stale), [verdict]);
    WorkedTwice(a, b, d, s, [StepStarted(s)], Recording(step, o, anchor, stale));
    GainedStatus(c, d, s, [verdict]);
    Appended([], verdict);
    assert [] + [verdict] == [verdict];
  }
}
