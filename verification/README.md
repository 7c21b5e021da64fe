# A model of re-zlAgent's durable runtime

re-zlAgent runs plans of tool steps durably: every step's intent, result and verdict goes to a
store, a crash may come between any two writes, several workers and operators act at once, and a
run is complete only when an acceptance gate says so. This project models that behaviour in Dafny
and proves what it is for.

- **Side-effect outbox** (`SideEffects`, `OutboxPlan`, `OutboxMachine`, `OutboxInvariant`,
  `OutboxEffects`, `OutboxAgreement`, `OutboxRecovery`, `OutboxDecisions`, `OutboxCrashSafety`,
  `OutboxVerdicts`, `OutboxMixing`, `OutboxAnswers`, `OutboxHistory`, `SideEffectKeys`, `LongTaskStore`, `Outbox`, `Reconciler`). The decisions of the outbox are
  functions from the records read to a list of single transitions. A step machine runs those
  transitions one at a time for any number of workers, with crashes and operator verdicts
  anywhere; the theorems are about all its runs. The classes perform the same transitions on a
  mutable store, and a journal in their contracts fixes the order of every write, so a crash
  leaves a prefix of it.
- **Run lifecycle** (`TaskEvents`, `PlanDag`, `PlanProgress`, `StepFolds`, `BatchOrder`,
  `AcceptanceFacts`, `RunHistory`, `TaskRunStore`, `StepOutcomes`, `BatchTraces`, `Lifecycle`,
  `StepExecution`, `LostResults`, `RunStatus`, `StatusRaces`, `RunControl`). The store of a run is a class whose every write keeps an invariant, so the
  invariant holds at every crash. Operators interfere between any two accesses of the runtime:
  status, events, checkpoints and answered questions change under it. Tools answer anything;
  parallel steps interleave anyhow. Results and facts carry
  their idempotency keys, and a used key appends nothing.
- **Leases and retries** (`RunLeases`, `DurableWorker`). Claims, renewals, releases and backoff,
  first as a machine with any number of workers, then as the worker's tick over its candidates.
- **Conversations** (`TokenEstimate`, `ConversationTypes`, `InMemoryConversations`,
  `SqliteConversations`, `StoreAgreement`, `ConversationWindow`, `ConversationTexts`, `ConversationManager`). Two stores over the same
  abstract sessions, the recent window, and the rolling compaction over whole histories.
- **Fork tree and context budget** (`Branches`, `ContextBudget`).

Where a promise does not hold of the code, the code is kept, and a lemma marked *Finding* below
shows it, together with the exact condition under which the promise holds. The main ones:
logging a blocked call confirms its applied siblings, which freezes the call for good; a crash
between two commits of one result needs manual review although the call is safe to retry; a retry
made twice from one checkpoint can pass a step without any ok result of it in the log; a pause can
overwrite a completed run; a dead-lettered run hides every candidate behind it; paused runs use up
the retry budget; a fork tree larger than the listing limit is cut without notice.

The source documents a pause as acting on runs that are not terminal and can be paused
(`src/re_zlagent/harness/runtime/control.py:74-84`), but rereads the status before its first write
without checking it again (lines 388-394); the model follows the code.

All times are integers, ids of runs and steps are numbers where only their order matters, and
digests are injective. `dafny verify dfyconfig.toml` checks everything.

## Model

| member | source | states |
|---|---|---|
| OutboxEffects.AtMostOnce | src/re_zlagent/harness/runtime/outbox.py:108-327 | However many workers run a call and wherever they crash between two store transitions, a call that is not safe to retry runs at most one time more than the operator declared any one of its records failed |
| OutboxInvariant.RunKeeps | src/re_zlagent/harness/runtime/lifecycle.py:953-1012 | Every record counts every execution that happened or is under way, in every reachable state; the invariant behind at-most-once |
| OutboxEffects.DoneIsNotRunAgain | src/re_zlagent/harness/runtime/outbox.py:141-221 | With one owner, once a record is applied, confirmed, uncertain or reverted the tool is not run again in any later run, whatever crashes and is attempted, unless the operator rules that very record failed |
| OutboxEffects.EffectivelyOnce | src/re_zlagent/harness/runtime/lifecycle.py:943-976 | Against a target that ignores keys it has seen, over every run of all steps, attempts, workers and crashes, each attempt deriving its keys anew: an intent takes effect exactly once if any execution reached it and never otherwise |
| OutboxEffects.KnownMeansPerformed | src/re_zlagent/harness/tools/registry.py:316-319 | The target knows the key of an intent exactly when it has performed that very intent: no key of another step or attempt stands for it |
| OutboxEffects.StepsRunAlone | src/re_zlagent/harness/runtime/lifecycle.py:943-976 | Each step of a shared run goes through the states it would go through alone |
| OutboxEffects.EffectsBounded | src/re_zlagent/harness/runtime/outbox.py:552-577 | Whatever the target does with keys, an intent takes effect no more often than its step ran; for a step not safe to retry, at most once more than any one of its records was ruled failed |
| SideEffectKeys.KeysTellIntentsApart | src/re_zlagent/harness/runtime/lifecycle.py:943-945 | Within a run and a plan, equal keys mean the same intent of the same step, whatever characters ids contain |
| SideEffectKeys.PreparedCallsAreValid | src/re_zlagent/harness/tools/registry.py:316-319 | The registry gives the intents of a call pairwise different keys |
| OutboxAgreement.PassedMeansConfirmed | src/re_zlagent/harness/runtime/lifecycle.py:953-1078 | Once the passed verification of a step is logged, all records of its intents are confirmed, and stay so under every later action |
| OutboxAgreement.ConfirmedStays | src/re_zlagent/harness/runtime/outbox.py:336-357 | No action of any worker or operator takes a record out of confirmed |
| OutboxAgreement.UncertainNeedsVerdict | src/re_zlagent/harness/runtime/outbox.py:728-759 | An uncertain record keeps its step from passing until the operator rules on that very record |
| OutboxRecovery.OwnerNeverConflicts | src/re_zlagent/harness/runtime/outbox.py:503-518 | With one owner at a time no compare-and-set of the outbox fails, whatever crashed before |
| OutboxRecovery.ExecutionStartsClean | src/re_zlagent/harness/runtime/outbox.py:230-248 | When the tool is about to run, every record of the call is dispatching |
| OutboxRecovery.CrashRecovery | src/re_zlagent/harness/runtime/outbox.py:141-221 | For a retry-safe call after any crashes: the next attempt dispatches iff nothing was applied, replays the recorded success iff everything was, and blocks iff an outcome is uncertain or the crash fell between two commits |
| OutboxAnswers.AnswerDecidesRecords | src/re_zlagent/harness/runtime/outbox.py:257-327 | In every reachable state of one owner about to run the tool, after the answer and its undisturbed transitions every record is applied iff the tool succeeded with exactly the intended effects, failed iff it failed without any and may be retried, and uncertain otherwise |
| OutboxAnswers.AnswerDecidesNext | src/re_zlagent/harness/runtime/outbox.py:108-221 | What the next attempt does if the process dies right then: it replays a success, dispatches after a failure without effects that may be retried, and blocks otherwise |
| OutboxAnswers.DoubtIsNotRunAgain | src/re_zlagent/harness/runtime/outbox.py:292-316 | After an answer that leaves doubt, such as a failure that reports effects, no later action of anybody runs the tool unless the operator rules every record failed |
| OutboxAnswers.RecordsRemember | src/re_zlagent/harness/tasking/long_task.py:363-385 | No action of anybody makes a record forget that it was ruled on, that it has a result or that an event logged it, and its attempts count its dispatches |
| OutboxAnswers.ConfirmedHasReason | src/re_zlagent/harness/runtime/outbox.py:336-357 | In every reachable state a confirmed record names the event that logged its result, or an operator confirmed it |
| OutboxHistory.PassedIff | src/re_zlagent/harness/runtime/lifecycle.py:1013-1078 | In every run the step has passed iff some attempt ended in a success while the verifier held |
| OutboxHistory.ExecutionsCounted | src/re_zlagent/harness/runtime/lifecycle.py:976-991 | The executions that the bounds speak of are exactly the tool calls made in the run |
| OutboxHistory.VerdictsCounted | src/re_zlagent/harness/runtime/outbox.py:728-759 | The failure verdicts that the bounds speak of are exactly those the operator gave on the intent while it was in doubt |
| OutboxDecisions.BlockIsStable | src/re_zlagent/harness/runtime/outbox.py:108-221 | For every vector of records, after a block a second preparation blocks again and moves nothing, before and after the block is logged |
| OutboxDecisions.ReplayIsStable | src/re_zlagent/harness/runtime/outbox.py:580-597 | For every vector, a replay repeats with the same result and moves nothing |
| OutboxDecisions.PlanApplies | src/re_zlagent/harness/runtime/outbox.py:520-577 | The transitions of a preparation, performed one by one, leave exactly the records the preparation reports |
| OutboxVerdicts.FrozenIff | src/re_zlagent/harness/runtime/outbox.py:141-221 | A vector blocks under every sequence of preparations, interruptions, loggings and verdicts exactly if it is frozen, a condition on its statuses; any other has a way to a dispatch or a replay |
| OutboxVerdicts.FrozenForever | src/re_zlagent/harness/runtime/outbox.py:108-221 | A frozen vector stays frozen, and blocks, whatever is prepared, interrupted, logged and ruled |
| OutboxMixing.CrashesMixIff | src/re_zlagent/harness/runtime/outbox.py:257-327 | Finding: with one owner, crashes alone can put an applied record beside an uncertain one iff the call has three intents or more, safe to retry or not |
| OutboxMixing.CrashesFreezeIff | src/re_zlagent/harness/runtime/outbox.py:141-221 | Finding: crashes alone can freeze a retry-safe call of one owner for good iff it has three intents or more |
| OutboxVerdicts.BlockFreezesSiblings | src/re_zlagent/harness/runtime/lifecycle.py:1007-1012 | Finding: for every vector with an uncertain record, after the block is logged and every uncertain record ruled failed, the next preparation dispatches iff no record was applied, confirmed or reverted, and none in flight or failed uncleared unless the call is safe to retry |
| OutboxVerdicts.UnloggedSiblingsRecover | src/re_zlagent/harness/runtime/outbox.py:336-357 | Without the logging, two rounds of the same verdicts lead to a dispatch iff no record was confirmed or reverted and no failure is left uncleared unless the call is safe to retry: applied siblings come back |
| OutboxDecisions.StageRuns | src/re_zlagent/harness/runtime/outbox.py:503-518 | The step machine and the list-of-transitions form agree: an undisturbed owner performs a stage in one step per transition |
| OutboxCrashSafety.SingleIntentRecovers | src/re_zlagent/harness/runtime/outbox.py:141-221 | A retry-safe call with one intent and an honest tool never needs manual review, wherever it crashed |
| OutboxCrashSafety.CrashDuringCommit | src/re_zlagent/harness/runtime/outbox.py:257-327 | Finding: after a successful execution and a crash behind the j-th of N commits, the next attempt dispatches iff j is 0, replays iff j is N, and otherwise blocks although the call is retry-safe |
| OutboxCrashSafety.FailuresAreCleared | src/re_zlagent/harness/runtime/outbox.py:194-201 | For calls not safe to retry the guard against failures nobody has cleared is never taken: such records fail only by a verdict |
| SideEffects.ReachedFrom | src/re_zlagent/harness/tasking/long_task.py:331-373 | From where each status of a record can be reached: the transition table read backwards |
| OutboxPlan.PreparePlanShape | src/re_zlagent/harness/runtime/outbox.py:108-221 | Every transition of a preparation is a legal one for a worker, starts from what was read, and no record moves twice |
| Outbox.PlanFacts | src/re_zlagent/harness/runtime/outbox.py:108-221 | A dispatch starts from planned records only; a replay from settled ones, with the result that all of them carry |
| Outbox.RecordedFacts | src/re_zlagent/harness/runtime/outbox.py:257-327 | Recording a result settles every dispatched record the same way; a success is kept for replay |
| Outbox.ConflictIff | src/re_zlagent/harness/storage/long_task_store.py:249-267 | A call conflicts with a record under its key iff step, effect or arguments differ |
| Outbox.SideEffectOutbox.Prepare | src/re_zlagent/harness/runtime/outbox.py:108-221 | Persisting and deciding: the reported decision and records, the stored records, and the journal of every single write in order; a conflicting key is refused |
| Outbox.SideEffectOutbox.BeginDispatch | src/re_zlagent/harness/runtime/outbox.py:230-248 | Every planned record goes to dispatching, one compare-and-set each, and nothing else changes |
| Outbox.SideEffectOutbox.RecordResult | src/re_zlagent/harness/runtime/outbox.py:257-327 | The answer alone decides: all records are applied iff the tool succeeded with exactly the intended effects, failed iff it failed without any and may be retried, uncertain otherwise; then the call is blocked and the reported result keeps effects and evidence |
| Outbox.SideEffectOutbox.ConfirmResult | src/re_zlagent/harness/runtime/outbox.py:336-357 | Every applied record is confirmed with the event that logged its result |
| Outbox.SideEffectOutbox.ExecuteCall | src/re_zlagent/harness/runtime/lifecycle.py:953-1012 | The tool runs exactly when the preparation dispatches, and a success is passed on only over confirmed records |
| LongTaskStore.InMemoryLongTaskStore.SaveSideEffect | src/re_zlagent/harness/storage/long_task_store.py:187-202 | Saving is idempotent by run and key; a different intent under a used key, or a used id, is refused; both indexes stay exact |
| LongTaskStore.InMemoryLongTaskStore.TransitionSideEffect | src/re_zlagent/harness/storage/long_task_store.py:228-247 | A compare-and-set along legal transitions only; nothing else changes |
| LongTaskStore.InMemoryLongTaskStore.ListSideEffects | src/re_zlagent/harness/storage/long_task_store.py:220-226 | The records of a run, exactly in first-save order |
| Reconciler.InspectPartitions | src/re_zlagent/harness/runtime/outbox.py:684-726 | The five lists of the report hold every record of the run exactly as often as the store lists it, in exactly one list |
| Reconciler.ReportLists | src/re_zlagent/harness/runtime/outbox.py:684-726 | Which records each list of the report names, by status: one in flight is retryable iff its call is safe to retry |
| Reconciler.InspectForetells | src/re_zlagent/harness/runtime/outbox.py:684-726 | In every state that any workers, crashes and verdicts reach, the report on a one-intent call predicts the next preparation: retryable dispatches, applied and confirmed replay, the others block |
| Reconciler.SideEffectReconciler.ResolveUncertain | src/re_zlagent/harness/runtime/outbox.py:728-759 | A verdict needs a note that is not blank, a result if it confirms, and an uncertain record; otherwise neither records nor journal change |
| StatusRaces.StoppedLeftOnlyByOperator | src/re_zlagent/harness/runtime/lifecycle.py:1632-1674 | Under every interleaving of runtimes and controls, paused is left only by a committed resume or cancel, cancelled only by a committed control |
| StatusRaces.TerminalHoldsExactly | src/re_zlagent/harness/runtime/control.py:381-425 | A terminal status survives all later controls iff no control that passed its check earlier is still in flight |
| StatusRaces.CancelledHoldsExactly | src/re_zlagent/harness/runtime/control.py:174-221 | Cancelled survives runtimes and controls iff no such control is in flight |
| StatusRaces.FinalExactly | src/re_zlagent/harness/runtime/lifecycle.py:1632-1674 | Finding: a terminal status survives everything, later calls of runtimes included, iff no such control is in flight and the run is cancelled or has no runtime: completed, failed and not accepted are not protected from runtimes |
| StatusRaces.SerialCancelIsFinal | src/re_zlagent/harness/runtime/control.py:74-221 | With controls taken one at a time, cancellation is final under every interleaving with any number of runtimes |
| StatusRaces.CommittedControls | src/re_zlagent/harness/runtime/control.py:381-425 | Under every interleaving a committed pause leaves paused, a cancel cancelled, and a resume a status that a worker may execute |
| StatusRaces.FinishesAlone | src/re_zlagent/harness/runtime/control.py:381-425 | In every state a control under way and left alone finishes, and takes effect iff the status is still the one it read or, after a lost write, one it is allowed in |
| StatusRaces.PauseThenResume | src/re_zlagent/harness/runtime/control.py:74-171 | A pause and then a resume bring any run that could be executed to running, and a running one back to exactly its state |
| StatusRaces.CancelThenResume | src/re_zlagent/harness/runtime/control.py:150-221 | A cancel leaves nothing to resume |
| StatusRaces.PauseOverwritesCompleted | src/re_zlagent/harness/runtime/control.py:388-394 | Finding: a pause that checked before the runtime completed the run overwrites completed |
| StatusRaces.ConcurrentPauseRevivesCancelled | src/re_zlagent/harness/runtime/control.py:388-394 | Finding: two concurrent controls can revive a cancelled run |
| RunControl.RunControlService.Act | src/re_zlagent/harness/runtime/control.py:74-221 | One control alone: from which statuses each is accepted, that a pause leaves paused, a resume running and a cancel cancelled; the whole new state, equal to what the race machine does when this control steps alone |
| RunControl.RunControlService.SetStatus | src/re_zlagent/harness/runtime/control.py:381-425 | The double compare-and-set over possibly stale reads: exactly when it writes, which status each control writes, and which error it gives |
| RunHistory.NoFalseCompletion | src/re_zlagent/harness/runtime/lifecycle.py:1724-1809 | Every change to completed follows an evaluation, the latest one, that accepted when every step had passed; on evidence and facts the log itself holds if it kept every result that was judged; every step is still passed now |
| RunHistory.AcceptedStatus | src/re_zlagent/harness/runtime/lifecycle.py:1733-1775 | Whenever the latest evaluation accepted, all steps are passed, and the gate accepts what the log held then if it kept every judged result |
| RunHistory.GateEvidenceIff | src/re_zlagent/harness/runtime/lifecycle.py:1746-1775 | What counts as evidence for the gate: what ok tool results brought and recorded facts name, and nothing of failed results |
| RunHistory.PassedStays | src/re_zlagent/harness/progress/reader.py:105-118 | In every log the runtime can write, a passed step stays passed |
| RunHistory.PassedIsBacked | src/re_zlagent/harness/tasking/plan.py:173-220 | A passed step whose judged results the log kept has a recorded tool result that is ok and covers its required evidence; its dependencies passed |
| RunHistory.KeptUnlessRetried | src/re_zlagent/harness/runtime/lifecycle.py:527-545 | Only a result recorded by a retry from a checkpoint can cost the log a later result of its step |
| RunHistory.RecoveryKeysAreOld | src/re_zlagent/harness/runtime/lifecycle.py:385-422 | The key of a recovery carries the length of the log it found, so it is never used already |
| LostResults.ExecutionKeepsIff | src/re_zlagent/harness/runtime/lifecycle.py:992-1007 | An execution leaves every judged result in the log iff the key of its own result is not used |
| LostResults.PassIsBackedIff | src/re_zlagent/harness/tasking/events.py:108-111 | A step that passes is backed by a result in the log iff its key was not used or an earlier result already earned the pass; its evidence is in the log iff the key was not used or the log held it already |
| LostResults.StaleRetryPasses | src/re_zlagent/harness/runtime/lifecycle.py:527-545 | Finding: a retry from a checkpoint fails, the process dies before the next checkpoint, and the same retry is made again and succeeds: the step passes with no ok result in the log, and the gate accepts on evidence that only the process holds |
| RunHistory.StartedHasDependencies | src/re_zlagent/harness/runtime/lifecycle.py:244-253 | A step that ever started has all its dependencies passed |
| RunHistory.EverPassedIsPassed | src/re_zlagent/harness/progress/reader.py:89-103 | The steps that ever passed are exactly those whose folded status is passed |
| StepFolds.StepStatuses | src/re_zlagent/harness/progress/reader.py:105-118 | The loop computes the fold, with no entry exactly for steps without events |
| StepFolds.CompletedSteps | src/re_zlagent/harness/progress/reader.py:89-103 | Exactly the steps with a passed verdict, each once, in the order of their first pass |
| StepFolds.OwnEventsDecide | src/re_zlagent/harness/progress/reader.py:105-118 | The status and number of starts of a step depend on its own events only |
| BatchOrder.Confluence | src/re_zlagent/harness/progress/reader.py:89-118 | Logs with the same events per step, in any interleaving, give the same statuses, completed steps and evidence |
| BatchOrder.BatchConfluence | src/re_zlagent/harness/runtime/lifecycle.py:823-859 | A batch whose steps append their traces in any interleaving yields, per step, the log of running it in order |
| BatchTraces.BatchIsOrderFree | src/re_zlagent/harness/runtime/lifecycle.py:823-897 | Statuses, completed steps and evidence after a batch equal those of running it in order, also when some steps fail |
| Lifecycle.HarnessRuntime.SetStatus | src/re_zlagent/harness/runtime/lifecycle.py:1632-1674 | Unless an operator intervened or had stopped the run, the write succeeds and is announced; a stopped run is returned, another change is an error |
| Lifecycle.HarnessRuntime.FinishStep | src/re_zlagent/harness/runtime/lifecycle.py:992-1078 | One result event, unless its key is used already, and one verdict, passed iff the tool is ok and covers the evidence; which status, event, question and checkpoint follow from what the tool returned; missing evidence is never offered for a retry |
| StepOutcomes.RecommendIff | src/re_zlagent/harness/tasking/recovery.py:48-147 | What is recommended after a failed tool: when the user is asked, when the run recovers, when it fails, and which failures may be resumed |
| StepExecution.ExecuteStep | src/re_zlagent/harness/runtime/lifecycle.py:922-1078 | One step with its outbox, in the order of its writes: if the log says that the step passed, every record of its call is stored as confirmed; it passes iff the reported result is ok and covers the evidence |
| Lifecycle.HarnessRuntime.ExecutionBatch | src/re_zlagent/harness/runtime/lifecycle.py:861-878 | The longest parallel-safe prefix within the limit, or the first step alone |
| Lifecycle.HarnessRuntime.ExecuteBatch | src/re_zlagent/harness/runtime/lifecycle.py:823-859 | Under every interleaving each step of the batch appends exactly its trace, result included, and no other step anything; the reports match the log |
| Lifecycle.HarnessRuntime.Run | src/re_zlagent/harness/runtime/lifecycle.py:213-297 | Never an empty frontier or unfinished acceptance; each step starts at most once, exactly once if it gets to a decision; every judged result is in the log; undisturbed it ends in a decision over passed steps or with the failure of a step that it started and that did not pass |
| Lifecycle.HarnessRuntime.Submit | src/re_zlagent/harness/runtime/lifecycle.py:299-360 | A malformed plan or an existing run is refused and nothing changes |
| Lifecycle.HarnessRuntime.ContinueRemainingPlan | src/re_zlagent/harness/runtime/lifecycle.py:740-821 | Terminates; starts only steps that never started, each at most once, and none while a question is open; loses no result; undisturbed it ends with a decision over passed steps, the failure of a step it started, a wait for an open question, or, if no step can start, as failed |
| Lifecycle.HarnessRuntime.ResumeIncompleteRun | src/re_zlagent/harness/runtime/lifecycle.py:362-454 | Undisturbed, each step that was running and waits for no answer starts again, once, and then the rest is continued; but several of which one is not parallel-safe fail the run and nothing starts; no passed step runs again, no result is lost, and while a question is open nothing else starts |
| Lifecycle.HarnessRuntime.ResumeFromCheckpoint | src/re_zlagent/harness/runtime/lifecycle.py:456-558 | If the latest checkpoint allows no retry nothing starts; otherwise the first step started is the one it names, and no passed step starts; once something starts, the log loses a result iff that retry had recorded one before, which a recovering run rules out; undisturbed it ends in a failure, a decision or a question, or had nothing to retry |
| Lifecycle.HarnessRuntime.FinishAcceptance | src/re_zlagent/harness/runtime/lifecycle.py:1724-1916 | Fails iff a step has not passed; otherwise, undisturbed: completed iff accepted, waiting with a question asked iff blocked on the user, not accepted and terminal with a failure iff rejected; and the event that tells so |
| Lifecycle.HarnessRuntime.Evaluate | src/re_zlagent/harness/runtime/lifecycle.py:1746-1775 | The gate sees the evidence and facts of the log and the results the call still holds, all of which are in the log if it kept the judged results |
| PlanProgress.FrontierExists | src/re_zlagent/harness/runtime/lifecycle.py:249-259 | A plan in linear order always has an executable frontier |
| PlanProgress.WithoutIsDone | src/re_zlagent/harness/runtime/lifecycle.py:268-272 | Removing a step from the remaining list is the same as marking it done |
| PlanProgress.StallMeansStarted | src/re_zlagent/harness/runtime/lifecycle.py:778-784 | With no open question a continuation stalls only if some step with all dependencies passed was started and did not pass |
| PlanDag.TopologicalIds | src/re_zlagent/harness/tasking/plan.py:113-129 | A topological order of all steps, or none exactly for a cyclic graph |
| PlanDag.LinearIsAcyclic | src/re_zlagent/harness/tasking/plan.py:90-105 | A plan in linear order has known dependencies and no cycle |
| PlanDag.Validate | src/re_zlagent/harness/runtime/lifecycle.py:1602-1604 | Accepts exactly the plans with distinct ids in linear order, and says which check failed |
| TaskRunStore.Store.Append | src/re_zlagent/harness/tasking/events.py:108-127 | An event under a used key is not appended, any other is; the log stays sound and the latest checkpoint retryable |
| AcceptanceFacts.MergeAssociative | src/re_zlagent/harness/runtime/lifecycle.py:1316-1333 | Merging facts is associative, in content and order |
| AcceptanceFacts.MergeAbsorbs | src/re_zlagent/harness/runtime/lifecycle.py:1316-1333 | Merging changes nothing iff every item is there already with the same freshness |
| AcceptanceFacts.FirstInsertionOrder | src/re_zlagent/harness/runtime/lifecycle.py:1316-1333 | A merged list is ordered by first insertion |
| AcceptanceFacts.Merge | src/re_zlagent/harness/runtime/lifecycle.py:1316-1333 | The loop over the items computes the fold of the merge |
| AcceptanceFacts.FromEvents | src/re_zlagent/harness/runtime/lifecycle.py:1284-1314 | The loop over the log computes the facts a restart rebuilds |
| AcceptanceFacts.RebuiltTells | src/re_zlagent/harness/runtime/lifecycle.py:1284-1314 | What a restart knows: exactly the items of recorded facts, and of each freshness the time recorded last |
| AcceptanceFacts.RestartTransparency | src/re_zlagent/harness/runtime/lifecycle.py:1239-1253 | The facts a recording process uses at the gate equal, in content and order, those rebuilt from the log, iff their key was not used or the log already held them |
| AcceptanceFacts.LateFreshnessIsLost | src/re_zlagent/harness/runtime/lifecycle.py:1746-1749 | Finding: if facts were recorded under another key meanwhile, the process and the log agree iff no held freshness differs from the newer one; the older time wins |
| AcceptanceFacts.ReusedKeyLosesFacts | src/re_zlagent/harness/tasking/events.py:108-111 | Finding: under a used key nothing is recorded, and process and log agree iff the log held the facts already |
| RunLeases.RetryBudget | src/re_zlagent/harness/tasking/worker.py:99-133 | In every run of any workers there are at most as many executions as the retry budget, and a backoff only follows a claim below it |
| RunLeases.SpentBudgetDeadLetters | src/re_zlagent/harness/runtime/worker.py:219-318 | Once the budget is spent the next claim, or the failure of the holder, dead-letters the run; a dead-lettered lease never changes |
| RunLeases.OneHolder | src/re_zlagent/harness/tasking/worker.py:76-97 | Until it expires a claim is exclusive; a worker whose claim was taken over can neither renew nor release |
| RunLeases.BackoffBounds | src/re_zlagent/harness/runtime/worker.py:263-266 | Over every run backoffs never shrink, and together take at most (budget-1)*max and base*(2^(budget-1)-1) |
| RunLeases.EndDecides | src/re_zlagent/harness/runtime/worker.py:219-318 | In every run, what the holder's end does: an exception or a recoverable failure with budget left backs off for the minimum of the maximum and the base doubled per earlier claim; completed, waiting, paused or cancelled releases; every other end dead-letters |
| RunLeases.DelaysDouble | src/re_zlagent/harness/runtime/worker.py:263-266 | The first delay is the base, each next one double the last, up to the maximum |
| RunLeases.FailuresUseTheBudget | src/re_zlagent/harness/runtime/worker.py:248-276 | Consecutive retryable failures, each claimed again once its time has come, are executed exactly as often as the budget has attempts, and only then dead-lettered |
| RunLeases.RenewIff | src/re_zlagent/harness/tasking/worker.py:135-155 | In every run exactly the latest claim can be renewed, while held, not expired and the run may be executed; a renewal moves the expiry only |
| RunLeases.LeaseIsPlain | src/re_zlagent/harness/tasking/worker.py:157-194 | In every run each change of a lease is one version, and a lease that nobody holds names no owner, token or expiry, nor a next attempt unless it is backed off |
| RunLeases.ClaimDeadLettersIff | src/re_zlagent/harness/runtime/worker.py:104-117 | In every run, a claim dead-letters a lease iff the run could otherwise be claimed and as many claims were made before as the budget has, whatever became of them |
| RunLeases.ClaimsIff | src/re_zlagent/harness/tasking/worker.py:76-133 | A claim succeeds iff the run may be executed, budget is left and nobody holds the lease or must be waited for; it can then be renewed exactly until it expires |
| RunLeases.ParkedRunsDeadLetter | src/re_zlagent/harness/runtime/worker.py:235-247 | Finding: attempts are never given back, so a run that was only paused and resumed is dead-lettered once the budget is spent, while its status still has it listed |
| DurableWorker.LeaseStore.ClaimRun | src/re_zlagent/harness/storage/memory.py:152-185 | The lease after a claim, whether it succeeded, and that no other run changes |
| DurableWorker.DurableWorker.RunOnce | src/re_zlagent/harness/runtime/worker.py:93-136 | The leases after a tick and the report of it, whatever other workers do while the run executes: the first candidate not passed over is claimed, and by its end released, backed off with the doubled delay, or dead-lettered, or it is found dead-lettered; if the claim is lost by then, that is reported and nothing changes |
| DurableWorker.DeadLetterBlocksScan | src/re_zlagent/harness/runtime/worker.py:106-117 | Finding: over any accesses of any workers, times and statuses, a dead-lettered run that stays listed keeps its lease, and no run listed after it is claimed |
| DurableWorker.ReachedIff | src/re_zlagent/harness/runtime/worker.py:93-136 | A claimable run with nothing claimable before it is reached iff none of those before it is dead-lettered |
| DurableWorker.LeaseLostIff | src/re_zlagent/harness/storage/memory.py:152-239 | Over any accesses of any workers, a holder that has not released its claim still holds it iff no scan found it expired and took the run over; a claim once lost stays lost |
| DurableWorker.RenewalLasts | src/re_zlagent/harness/runtime/worker.py:93-136 | A renewal by the holder lasts against every scan of any worker before the new expiry, and touches no other run |
| TokenEstimate.EstimateConcat | src/re_zlagent/harness/model/budget.py:50-55 | The estimate of a concatenation is the sum of the estimates or one less |
| TokenEstimate.EstimateMonotone | src/re_zlagent/harness/model/budget.py:50-55 | A longer prefix never costs less |
| TokenEstimate.EstimateSplits | src/re_zlagent/harness/model/budget.py:50-55 | Only the numbers of ASCII and other characters matter: one token for up to four of the former, one for each of the latter |
| TokenEstimate.LongestPrefix | src/re_zlagent/harness/conversation/manager.py:361-377 | The binary search finds the longest prefix within the limit |
| TokenEstimate.TruncateTokens | src/re_zlagent/harness/conversation/manager.py:354-378 | Text within the limit is kept; otherwise the longest prefix that leaves room for the marker, within the limit for every limit of at least 0 |
| TokenEstimate.TruncationIsNearlyLongest | src/re_zlagent/harness/conversation/manager.py:370-378 | No prefix four characters longer would fit together with the marker |
| TokenEstimate.TruncationLosesIff | src/re_zlagent/harness/conversation/manager.py:370-378 | For every limit above 11 and text above it, a longer prefix would fit with the marker iff the next character is ASCII or the ASCII characters kept do not fill their last token |
| TokenEstimate.TruncationCanLose | src/re_zlagent/harness/conversation/manager.py:370-378 | Finding: with the default summary limit of 800 a long ASCII summary loses three characters that would fit |
| StoreAgreement.StoresAgree | src/re_zlagent/harness/conversation/sqlite.py:137-201 | Every history of appends gets the same answers and sessions from both stores as long as no compaction id crosses sessions |
| StoreAgreement.LookupsAgreeIff | src/re_zlagent/harness/conversation/store.py:121-143 | One compaction gets the same answer from both stores iff its id is not one of another session |
| StoreAgreement.StoresDisagree | src/re_zlagent/harness/conversation/sqlite.py:142-152 | Finding: reusing an id in another session is accepted in memory and refused by SQLite |
| ConversationTypes.HotTurns | src/re_zlagent/harness/conversation/store.py:67-110 | Exactly as many of the latest turns as the retention says are hot, and listed unless archived ones are asked for |
| ConversationTypes.CompactionAnswers | src/re_zlagent/harness/conversation/store.py:121-143 | Which compactions are taken: complete ones, there already word for word, or with an unused id and reaching further than all earlier ones |
| InMemoryConversations.InMemoryConversationStore.AppendTurn | src/re_zlagent/harness/conversation/store.py:67-91 | The session gains the exchange; archive flags as the retention demands; blank content is refused |
| InMemoryConversations.InMemoryConversationStore.ListTurns | src/re_zlagent/harness/conversation/store.py:93-110 | The session as listed: in order, after a sequence, archived only on request |
| InMemoryConversations.InMemoryConversationStore.AppendCompaction | src/re_zlagent/harness/conversation/store.py:121-143 | Idempotent by id in the session, refused for a conflicting id or a prefix that does not advance |
| SqliteConversations.SqliteConversationStore.AppendTurn | src/re_zlagent/harness/conversation/sqlite.py:40-98 | Inserting and updating rows keeps the tables equal to the same session with the same archive flags |
| SqliteConversations.SqliteConversationStore.ListTurns | src/re_zlagent/harness/conversation/sqlite.py:100-119 | The query answers as the in-memory store does for the same session |
| SqliteConversations.SqliteConversationStore.LatestCompaction | src/re_zlagent/harness/conversation/sqlite.py:121-135 | The row with the greatest prefix is the last compaction appended |
| SqliteConversations.SqliteConversationStore.AppendCompaction | src/re_zlagent/harness/conversation/sqlite.py:137-201 | As in memory, but ids are looked up in all sessions |
| ConversationWindow.KeptIsLongest | src/re_zlagent/harness/conversation/manager.py:310-326 | The greedy selection is the longest suffix within both limits |
| ConversationWindow.SomethingToSummarize | src/re_zlagent/harness/conversation/manager.py:264-276 | A triggered compaction has something to summarize, so the fallback is never needed, and what it leaves fits |
| ConversationWindow.HistoryIsPartitioned | src/re_zlagent/harness/conversation/manager.py:238-300 | After any recorded turns and summarizer failures, the compactions' sources are adjacent ranges from the first turn to the summarized prefix |
| ConversationWindow.SummarizedOnce | src/re_zlagent/harness/conversation/manager.py:284-296 | Each turn up to the summarized prefix is a source of exactly one compaction, no other turn of any |
| ConversationWindow.WindowBound | src/re_zlagent/harness/conversation/manager.py:48-63 | A compaction leaves at most the target rounds; after any recording that did not fail the pending window fits both limits |
| ConversationWindow.FailureIff | src/re_zlagent/harness/conversation/manager.py:238-300 | A recording fails exactly when compaction is due and the summarizer, the size of its summary, or the new id does not serve |
| ConversationTexts.RecordingTexts | src/re_zlagent/harness/conversation/manager.py:238-262 | Over the texts: after a recording that did not fail, all user and assistant texts not summarized, joined, cost at most the limit; a recording that breaks it is never quiet, and one whose separate texts are within both limits always is |
| ConversationTexts.CompactionTexts | src/re_zlagent/harness/conversation/manager.py:264-300 | A compaction appends the summarizer's summary and keeps the latest exchanges word for word: the target number, fewer only if one more would not fit |
| ConversationManager.PreparedContext | src/re_zlagent/harness/conversation/manager.py:174-209 | Prefix, omitted and recent turns make up all turns; recent is the longest fitting suffix; nothing is omitted iff the window fits |
| ConversationManager.PreparedTexts | src/re_zlagent/harness/conversation/manager.py:174-209 | The recent turns of a prepared context are the latest exchanges word for word, and within the limit as one text |
| ConversationManager.SummaryKeepsLimit | src/re_zlagent/harness/conversation/manager.py:354-378 | The summary of a prepared context keeps its token limit |
| ConversationManager.NothingOmitted | src/re_zlagent/harness/conversation/manager.py:174-236 | After any history, a recording that did not fail is followed by a context that omits nothing |
| ConversationManager.ConversationManager.RecordTurn | src/re_zlagent/harness/conversation/manager.py:211-236 | The whole new session and outcome, and over the texts: unless compaction failed, all user and assistant texts not summarized keep both limits together; quiet exactly when neither was reached; a failed compaction is reported and changes nothing else |
| ConversationManager.ConversationManager.Prepare | src/re_zlagent/harness/conversation/manager.py:174-209 | The context of the session as it is; the store is not changed |
| Branches.RootId | src/re_zlagent/harness/runtime/branches.py:122-144 | The root, the missing parent, or a cycle: each exactly when the ancestor chain ends there, breaks there, or never ends |
| Branches.Project | src/re_zlagent/harness/runtime/branches.py:86-113 | Every descendant once, children complete and sorted; fails exactly when there are too many; the cycle check never fires |
| Branches.Build | src/re_zlagent/harness/runtime/branches.py:69-120 | The tree of the selected run among the listed ones, or exactly one of four errors |
| Branches.AnswerIff | src/re_zlagent/harness/runtime/branches.py:69-144 | Each answer is given iff its condition holds |
| Branches.SelectedOnce | src/re_zlagent/harness/runtime/branches.py:105-112 | The selected run occurs exactly once in the tree |
| Branches.SmallStoreIsExact | src/re_zlagent/harness/runtime/branches.py:73-77 | With no more runs stored than listed, all of them are seen and there are never too many |
| Branches.BuiltTreeIsWholeIff | src/re_zlagent/harness/runtime/branches.py:69-120 | A tree that is built holds every stored descendant of its root, each once, iff all of them are among the listed runs or the selected one |
| Branches.RefusedIff | src/re_zlagent/harness/runtime/branches.py:86-113 | Too large a tree is refused only if it is the whole window of the listed runs and the selected one, one more than the limit |
| Branches.LargeTreeIsCut | src/re_zlagent/harness/runtime/branches.py:73-77 | Finding: with more runs stored than listed, a tree with more nodes than allowed is answered without its unlisted descendants |
| Branches.HiddenParentIff | src/re_zlagent/harness/runtime/branches.py:122-144 | An intact lineage looks broken iff one of its ancestors is not among the listed runs |
| Branches.LargeStoreHidesParents | src/re_zlagent/harness/runtime/branches.py:73-77 | Finding: such a lineage, beyond the listing limit |
| ContextBudget.Build | src/re_zlagent/harness/context.py:149-181 | The segments in order within the budget, each showing one input whole or its beginning cut and marked; fails exactly on a repeated id |
| ContextBudget.CutShows | src/re_zlagent/harness/context.py:184-192 | What a cut leaves to read: the whole text within the limit, else its beginning and the whole marker, or as much of the marker as fits |
| ContextBudget.UndisturbedIff | src/re_zlagent/harness/context.py:149-192 | Every part gets its own truncation whatever the others are, for all inputs with distinct ids, iff the quotas fit the budget together |
| ContextBudget.QuotasAddUpIff | src/re_zlagent/harness/agent/general.py:504-544 | In each arm the quotas sum to the budget iff it is in an explicit range |
| ContextBudget.QuotaShares | src/re_zlagent/harness/agent/general.py:504-544 | The share of each part in each arm, in percent of the budget, with at least 256 characters for the host's request |
| ContextBudget.PartsUndisturbedIff | src/re_zlagent/harness/agent/general.py:504-599 | In each arm the parts are independent exactly for those budgets, and for 1280 and more in all arms |

## Left out

- Command line, gateway, dispatcher and operator output: they reshape what the services above return.
- Model and MCP clients, GitHub download, zip extraction and subprocesses: network and library behaviour.
- SQL text, threads, locks and timestamps: tables are maps, concurrency is interleaved atomic steps, time is an integer.
- SHA-256, JSON text and UUIDs: digests are injective, ids are parameters, and metadata that only passes through is dropped.
- Stripping of surrounding white space and Unicode white space in conversation content, session ids and the notes of verdicts: contents are taken as already stripped, a session id must not begin or end with a space, and blank means spaces, tabs and line ends.
- Results of calls without declared intents (`record_unplanned_result`): they always block and are quarantined.
- Alternative-tool recovery and resuming from an explicitly chosen old checkpoint: they execute a step outside its plan entry or after it passed.
- Resuming after a user's approval: the same retry of a failed step as from the latest checkpoint, with facts added.
- Facts supplied to a retry from a checkpoint: a worker supplies none; what reusing such a key does is stated by `AcceptanceFacts.RestartTransparency`.
- Checkpoint contents other than the failure, and the link from a checkpoint to its source event: only the failed step and what policy may do with it matter here.
- Sibling steps that keep running after one of their batch raised an exception: the model lets the batch finish and then raises.
- Two runtimes executing the same run at once: `Lifecycle` has one runtime act on a run at a time, as leases intend. The outbox machine allows any number, and the lemmas about logs (`RunHistory`, `StepFolds`, `AcceptanceFacts`) hold whoever wrote them.
- Which tool is parallel-safe, the planner, intents and the acceptance rules: a flag of the step and an arbitrary gate.
- The timing of the heartbeat loop: a renewal may happen at any moment or never.
- Memory stores, skills, redaction, health snapshots, evaluation reports: outside the durable core; none of them changes a run, a record or a session.
- Outbox.SideEffectOutbox.Prepare: its contract is that of a preparation without a competing worker between its own accesses; competition is the subject of `OutboxMachine`.
- DurableWorker.DurableWorker.RunOnce: the scan over the candidates is one access; other workers act between the claim and the release, not between two candidates of one scan.
- RunControl.RunControlService.Act: its contract is that of a control without a runtime in between; interleavings are the subject of `StatusRaces`.
- Lifecycle.HarnessRuntime.ResumeIncompleteRun: does not say which of several errors a caller sees when operators intervene, because their writes are arbitrary.
- Branches.Build: forking itself, statuses and checkpoints of nodes are not modelled; the tree shows ids, parents and the selected mark.
