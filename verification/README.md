# OrchestraAI run control plane, verified

A Dafny model of the control plane that runs agent tasks: the life of a run
under retries, cancellations, deadlines and recovery; the event bus and its
reconnecting clients; single-use approvals; durable collections; and the money
and rate arithmetic. The guarantees are whole-run ones: they hold for every
sequence of operations, every interleaving and every answer of the environment.

`dafny verify dfyconfig.toml` checks the project.

| file | what it models |
|---|---|
| `RunStates.dfy` | the transition table and the state machine object |
| `Checkpoints.dfy`, `Recovery.dfy` | sealed checkpoints, the bounded keyed store, recovery plans and their execution |
| `Lifecycle.dfy` | one run: each function is one stretch of code between two awaits |
| `LifecycleSafety.dfy`, `StepOrder.dfy` | what every stretch keeps, and the order of completed steps |
| `Outcomes.dfy` | what each stretch of a loop leads to, and exactly when a run completes, fails, is cancelled or goes on |
| `RunStore.dfy` | the run model's view of checkpoints agrees with the store |
| `Orchestrator.dfy` | the registry of runs, its actions, theorems over every sequence of them, and the object |
| `Endings.dfy`, `History.dfy` | exactly which actions end or reopen a run, and how long a retired run is remembered |
| `LiveRuns.dfy`, `Scenarios.dfy` | what takes the live runs over their bound, and behaviours that reach the states in which a promise fails |
| `EventBus.dfy`, `EventClient.dfy`, `EventTraces.dfy` | logs, pruning, replay with gaps, the client that follows a run, and what an event carries from emit to replay |
| `Json.dfy`, `CanonicalJson.dfy`, `CanonicalForm.dfy` | JSON over UTF-16 text, the canonical print, and the proof that it is canonical |
| `Approvals.dfy`, `ApprovalStore.dfy`, `ApprovalTraces.dfy` | the approval store as a value, the object, and exactly when a check is granted over a trace |
| `Privacy.dfy` | redaction |
| `Serialization.dfy`, `EventStore.dfy`, `Retention.dfy`, `IntelligenceDoc.dfy` | the size-bounded writing loop, the durable event log, per-tenant retention, document compaction |
| `Idempotency.dfy` | the keyed store with eviction, and the shared backend with expiry |
| `Money.dfy`, `Routing.dfy`, `CostAccounting.dfy`, `RateLimiter.dfy` | rounding, model selection, budget movement, fixed-window limiting |

Objects that the program updates in place are classes whose methods are proved
against functions on a value of their state; the theorems are about those
functions. Where the environment decides (providers, tools, clocks, a failing
write, the decision rules of recovery) the model takes a parameter, so results
hold for every choice. A run is a loop suspended at one of ten awaits; creating
(before and after its await), starting, resuming, timing out, cancelling (before
and after its 25 ms wait) and retrying are the actions that interleave.

Money is `real`; rounding is the floor of 1000000 x + 1/2, over 1000000.
Digests are injective. Text is a sequence of UTF-16 code units.

## Where the code differs from what it says

- A denied or cancelled approval is said to be settled, but a gate check after
  its expiry turns it into EXPIRED (`Approvals.SettledChangesOnlyByLateCheck`).
- A deadline is handled as a failure, but abort is already set, so the run ends
  CANCELLED (`LifecycleSafety.InterruptionsKeepSound`).
- An altered checkpoint is said to fail validation, but one without an integrity
  field is not checked (`Checkpoints.StrippedSealIsNotChecked`).
- A resumed run is said to continue after its last completed step; it starts over when
  the checkpoint of that step was evicted and the last tool record was never
  started (`StepOrder.GoesBackIff`, reached by `Scenarios.FinishedStepRepeats`).
- An unknown reliability is said to give no retry cost, but a null one is priced
  as certain failure (`Routing.NullReliabilityIsCertainFailure`); the model router
  coerces null the same way (`backend/src/impl/model-router.js:675`).
- Unknown provider pricing is said never to be zero, but a null provider price
  with a known retry cost counts as zero (`Routing.NullProviderIsFree`). The model
  router never builds that input, since it gives no retry cost without a provider
  cost (`backend/src/impl/model-router.js:680-681`).
- Replay is said never to lose events silently; with a cursor of zero, or when
  the whole log was pruned, it does (`EventBus.LossIsReportedIff`, with
  `EventBus.ShiftedOutSilently` and `EventBus.PrunedSilently`).
- The idempotency store is said to be bounded and to evict finished records
  first; an empty key breaks both (`Idempotency.SizeBoundedIff`,
  `Idempotency.EmptyKeyExceedsBound`, `Idempotency.UnfinishedEvictedDespiteFinishedIff`).
- The number of live runs is said to be bounded; creations that overlap at their
  await and retries of retired runs exceed the bound (`LiveRuns.BehaviourBoundedIff`,
  `Scenarios.OverlappingCreationsOverfill`, `Scenarios.RefusedRetryOverfills`).
- A FAILED run is said to stay retryable after it is retired; once the history has
  trimmed it, no retry of it is let through (`Endings.HowRunsReopen`, with
  `History.RetiredRunStays` for how long it is kept).
- A null charge is said never to become a charge of zero, but it is turned into the
  number zero before that is checked (`CostAccounting.NullChargeIsFree`).
- Event batches are merged so that no writer replaces the log of another; where the
  log in between is too large, halving it costs an event that one append of both
  batches would keep (`EventStore.SizedAppendsComposeIff`, `EventStore.HalvingEarlyLosesAnEvent`).
- The budget follows the provider's charge only where the cost could be
  calculated (`CostAccounting.BoundHoldsIff`, `CostAccounting.UnpricedCallPaysTwice`).
- Restored control records round-trip only under the condition of
  `Checkpoints.CaptureRestoreCapture`.

## Model

| member | source | states |
|---|---|---|
| `RunStates.StateMachine.constructor` | backend/src/core/state-machine.js:43-47 | A new machine is in its initial state with a one-entry history. |
| `RunStates.StateMachine.Transition` | backend/src/core/state-machine.js:58-82 | Changes state exactly along an edge of the table and leaves everything alone otherwise; the history stays a path of the table, linked entry to entry, of at most 100 entries, ending in the current state. |
| `RunStates.StateMachine.Reset` | backend/src/core/state-machine.js:96-99 | Restarts the history at the given state. |
| `RunStates.ValidateSequence` | backend/src/core/state-machine.js:101-111 | Accepts exactly the sequences all of whose steps are edges, and otherwise reports the first step that is not, after a prefix that is a path. |
| `Checkpoints.TamperingIsDetected` | backend/src/checkpoint/checkpoint-manager.js:100-133 | Under the seal of a usable checkpoint another one is usable, at any time and horizon, if and only if it passes the other checks and agrees on every covered part (run, type, step, snapshot). |
| `Checkpoints.UsableIff` | backend/src/checkpoint/checkpoint-manager.js:100-133 | A checkpoint validates if and only if it passes the other checks and carries no seal or its own. |
| `Checkpoints.StrippedSealIsNotChecked` | backend/src/checkpoint/checkpoint-manager.js:126 | The integrity check is skipped when the field is missing: a usable checkpoint stays usable with any other snapshot and no seal. |
| `Checkpoints.OwnCheckpointUsableUntilStale` | backend/src/checkpoint/checkpoint-manager.js:100-132 | A checkpoint the store made and completed is usable by its own run exactly until it is older than the horizon, and is reported stale exactly afterwards. |
| `Checkpoints.CaptureRestoreCapture` | backend/src/checkpoint/checkpoint-manager.js:467-497 | Capturing a restored capture gives the capture back, despite the 300-entry and 4000-character cuts, exactly when the live record has no latency entry of its own that the capture lacks. |
| `Checkpoints.CaptureKeepsNewest` | backend/src/checkpoint/checkpoint-manager.js:467-481 | A capture holds exactly the newest 300 messages and turns in order (all of them if there are fewer), the first 4000 characters of the last user message, and everything else unchanged. |
| `Checkpoints.RestoreGivesBack` | backend/src/checkpoint/checkpoint-manager.js:484-497 | A restored record equals what was captured, field by field, except for latency entries that only the live record has, which stay. |
| `Checkpoints.IndexAnswers` | backend/src/checkpoint/checkpoint-manager.js:145-147 | Under the store invariant the key index answers for a key exactly when some run holds a checkpoint with it. |
| `Checkpoints.CreateKeepsInvariant` | backend/src/checkpoint/checkpoint-manager.js:142-164 | Creating, with eviction of the oldest, keeps: index = keys of all held checkpoints over all runs, no key shared, each run holds the newest of what it was given in order. |
| `Checkpoints.ClearKeepsInvariant` | backend/src/checkpoint/checkpoint-manager.js:234-240 | Clearing a run keeps the same invariant. |
| `Checkpoints.CompleteKeepsKeys` | backend/src/checkpoint/checkpoint-manager.js:208-215 | Completing a checkpoint changes no key. |
| `Checkpoints.CheckpointManager.constructor` | backend/src/checkpoint/checkpoint-manager.js:136-140 | An empty store satisfies the invariant. |
| `Checkpoints.CheckpointManager.CreateCheckpoint` | backend/src/checkpoint/checkpoint-manager.js:142-164 | A key already held is reported as duplicate and nothing changes; otherwise the run holds the newest of its old list and the new checkpoint. |
| `Checkpoints.CheckpointManager.GetLastCompletedCheckpoint` | backend/src/checkpoint/checkpoint-manager.js:184-193 | Returns the newest held completed checkpoint (of the type asked for), and nothing only when there is none. |
| `Checkpoints.CheckpointManager.MarkCheckpointCompleted` | backend/src/checkpoint/checkpoint-manager.js:208-215 | Completes the first checkpoint with the id and nothing else; an unknown id changes nothing. |
| `Checkpoints.CheckpointManager.ClearRun` | backend/src/checkpoint/checkpoint-manager.js:234-240 | Removes the run and exactly its keys from the index. |
| `Checkpoints.FindById` | backend/src/checkpoint/checkpoint-manager.js:166-169 | The first held checkpoint with the id, or nothing when no held checkpoint has it. |
| `Recovery.ContinuesIff` | backend/src/checkpoint/checkpoint-manager.js:262-334 | A recovery plan continues if and only if there are rules, and either the checkpoint is usable and the rules answer Skip, Resume or Retry for its step, or there is no completed checkpoint and nothing was started or the rules answer one of those three: what is left to a user, or to be rolled back, never continues. |
| `Recovery.DecisionsKeepTheirAction` | backend/src/checkpoint/checkpoint-manager.js:283-299 | On a usable checkpoint Skip, Resume, Retry and MarkUnknown each give their own action, every other answer gives a question to the operator, and the cursor is the checkpoint's step. |
| `Recovery.PlansContinueOnlyFromSoundState` | backend/src/checkpoint/checkpoint-manager.js:262-334 | For every decision function: a plan that continues has a usable checkpoint and starts at exactly its step, or there is no completed checkpoint; stale, foreign, unreadable ones and ones that fail their seal never continue. |
| `Recovery.RuntimeState.ApplySnapshot` | backend/src/checkpoint/checkpoint-manager.js:393-463 | Writes a well-shaped snapshot field by field and rejects an ill-shaped one before writing anything. |
| `Recovery.LookupFindsItself` | backend/src/checkpoint/checkpoint-manager.js:166-169 | With distinct ids, looking a held checkpoint up by its id finds that checkpoint. |
| `Recovery.RecoveryService.RecoverFromCheckpoint` | backend/src/checkpoint/checkpoint-manager.js:336-366 | Never restores a checkpoint that does not validate against the manager's own horizon; on refusal every field of the run is unchanged. |
| `Recovery.RecoveryService.FindSource` | backend/src/core/recovery-service.js:82-84 | The plan is made from the requested checkpoint or from the newest completed one. |
| `Recovery.RecoveryService.Recover` | backend/src/core/recovery-service.js:80-126 | Goes on if and only if the rules let it, in the sense of ContinuesIff, on what the store holds; any refused or invalid plan leaves status, spend, cursor and conversation untouched; a restoring plan puts the run at exactly the step of the validated checkpoint. |
| `LifecycleSafety.ResumeKeepsSound` | backend/src/core/orchestrator.js:961-1372 | Every stretch of the agent loop between two awaits, whatever the environment answers, keeps the run invariant: machine = status, end records balance, one loop, states that fit the await. |
| `LifecycleSafety.AdvanceKeepsSound` | backend/src/core/orchestrator.js:961-1372 | The same for resuming a loop together with the checkpoints recorded meanwhile and the handlers of its promise. |
| `LifecycleSafety.StartKeepsSound` | backend/src/core/orchestrator.js:845-902 | Starting a run that passes the guards keeps the run invariant. |
| `LifecycleSafety.RetryKeepsSound` | backend/src/core/orchestrator.js:2302-2412 | A retry that proceeds keeps the run invariant. |
| `LifecycleSafety.InterruptionsKeepSound` | backend/src/core/orchestrator.js:936-957 | A deadline always ends the run CANCELLED (abort is set before the failure is handled), and both halves of a cancellation keep the invariant. |
| `LifecycleSafety.FallbackIsRecorded` | backend/src/core/orchestrator.js:2149-2255 | The record counts a forced end exactly when the machine refuses the transition. |
| `Outcomes.StartGoes` | backend/src/core/orchestrator.js:845-991 | A new run that is started waits for its context with its deadline armed, or its loop has thrown because its time is used up. |
| `Outcomes.StretchFollowsTable` | backend/src/core/orchestrator.js:961-1372 | For every one of the ten awaits and every answer of the environment: the run's state, where the loop waits next, its step count, whether the run is retired, the completed steps and the live cursor, with every transition carried out, are those of a table. |
| `Outcomes.CompletesIff` | backend/src/core/orchestrator.js:1006-1371 | The table completes a run exactly when a persisted step had met the completion contract, or when the loop is left, not stopped, with an answer if the steps are used up. |
| `Outcomes.FailsIff` | backend/src/core/orchestrator.js:893-899 | It fails a run exactly when a loop that has thrown settles and no stop was asked for. |
| `Outcomes.CancelsIff` | backend/src/core/orchestrator.js:893-1037 | It cancels a run exactly when a stop was asked for and the loop is about to go round again, or has thrown. |
| `Outcomes.ThrowsIff` | backend/src/core/orchestrator.js:961-1372 | A loop throws exactly when what it awaits throws (for a model call, an error that is neither retried nor met by a stop), when the tool budget is spent, when no other model is found, or at the step limit without an answer. |
| `Outcomes.BeginsStepIff` | backend/src/core/orchestrator.js:1006-1016 | A step begins exactly at the top of an iteration with steps left and within the budget, or once a cheaper model was found. |
| `Outcomes.StepsAreCounted` | backend/src/core/orchestrator.js:1006-1018 | A step that begins has the next number and moves the live cursor by one; no other stretch moves either. |
| `Outcomes.RunsToolsIff` | backend/src/core/orchestrator.js:1244-1340 | Tools run exactly when an answer calls for them or the assist does, and then until there are no more; the model is asked again exactly after the last. |
| `Outcomes.FinishesStepIff` | backend/src/core/orchestrator.js:1340-1371 | A step is finished exactly when the answer calls for nothing more; it is recorded exactly when its checkpoint is, and persisted as final exactly when the completion contract is met. |
| `Outcomes.StretchSetsFlags` | backend/src/core/orchestrator.js:845-1372 | No stretch touches the stop that was asked for; a model is set exactly where one is selected; the deadline is disarmed and `running` cleared exactly when the run is retired or its loop settles; a checkpoint, completed and with the loop's own step, is recorded exactly when a step is finished and captured. |
| `Outcomes.SelectsModelIff` | backend/src/core/orchestrator.js:989-996 | The model is selected exactly once the context is built. |
| `Outcomes.FailsOverIff` | backend/src/core/orchestrator.js:1160-1243 | Another model is looked for exactly after a retryable model error without a stop. |
| `Outcomes.StepIsOverIff` | backend/src/core/orchestrator.js:1160-1371 | A step is over, with another to come, exactly when it was persisted as not final or another model was found; with none to come, exactly after a final answer or a stop. |
| `Outcomes.PersistedRunEndsIff` | backend/src/core/orchestrator.js:1366-1371 | A live run whose finished step has been persisted becomes COMPLETED, with one more end recorded, if and only if the completion contract was met; otherwise it stays EXECUTING, no end recorded, about to go round again. |
| `StepOrder.PushNewest` | backend/src/checkpoint/checkpoint-manager.js:142-164 | After recording a checkpoint the newest completed one is that checkpoint, the same as before, or evicted. |
| `StepOrder.ResumeQuietOrCompletes` | backend/src/core/orchestrator.js:1160-1372 | Every stretch of a loop either completes no step, records no checkpoint and moves its step count by at most one within the budget, or completes exactly its own step with its checkpoint. |
| `StepOrder.ResumedLoopRefusedOnlyWhenCancelled` | backend/src/core/orchestrator.js:195-219 | A resumed loop is refused a transition only when its run is already CANCELLED. |
| `StepOrder.RetryProceedsIff` | backend/src/core/orchestrator.js:2326-2387 | A retry proceeds exactly when recovery evaluates, may continue on the checkpoint it finds, and a checkpoint to restore fits. |
| `StepOrder.AskingNeverReopens` | backend/src/core/orchestrator.js:2326-2387 | Rules that never answer Skip, Resume or Retry reopen a run only where there is no checkpoint to restore and nothing was started. |
| `StepOrder.NamedRetryContinuesThere` | backend/src/core/orchestrator.js:2326-2412 | A retry that names a held, completed and valid checkpoint continues right after its step, with a model exactly if the checkpoint had one. |
| `StepOrder.RetryContinuesAfterLastDone` | backend/src/core/orchestrator.js:2326-2412 | A retry without an explicit checkpoint continues right after the last completed step while that step's checkpoint is held. |
| `StepOrder.LostCheckpointCursor` | backend/src/core/orchestrator.js:2326-2412 | Once that checkpoint has been evicted, a retry restores nothing and continues at the live cursor, or at step zero when its last tool record was never started. |
| `StepOrder.RetryRepeatsIff` | backend/src/core/orchestrator.js:2326-2412 | A retry without an explicit checkpoint starts before the last completed step if and only if the newest completed checkpoint is no longer held and the last tool record was never started. |
| `StepOrder.GoesBackIff` | backend/src/core/orchestrator.js:2326-2412 | Any proceeding retry, with or without an explicit checkpoint, starts before the last completed step if and only if it restores an older checkpoint, or restores none and the last tool record was never started. |
| `StepOrder.GoingBackRepeats` | backend/src/core/orchestrator.js:2388-2412 | Such a retry re-enters a step that is not after the last completed one, and a plain answer of the model completes that step again. |
| `StepOrder.LostRetryRedoesStepOne` | backend/src/checkpoint/checkpoint-manager.js:305-320 | Without a checkpoint to restore, the step completed again is step one. |
| `StepOrder.AdvanceKeepsOrder` | backend/src/core/orchestrator.js:1344-1347 | Resuming a loop keeps completed step numbers strictly increasing and within the step budget. |
| `RunStore.StoringIsPushing` | backend/src/checkpoint/checkpoint-manager.js:142-164 | What the store does with a new checkpoint is what the run model records. |
| `RunStore.NewestCompletedAgrees` | backend/src/checkpoint/checkpoint-manager.js:184-193 | The checkpoint automatic recovery takes from the store is the newest completed one of the run model, and both have none together. |
| `RunStore.VerdictAgrees` | backend/src/checkpoint/checkpoint-manager.js:100-133 | The validation verdict is one that the run model lets recovery see, for every checkpoint. |
| `Orchestrator.EvictKeepsNewest` | backend/src/core/orchestrator.js:2131-2145 | Trimming the history leaves exactly its newest entries, as many as allowed, and exactly what was held of each. |
| `Orchestrator.RetiredIsNewest` | backend/src/core/orchestrator.js:2119-2147 | Retiring a live run makes it the newest entry; what the history then holds too much of goes, oldest first, and nothing else changes. |
| `Orchestrator.EvictKeepsListing` | backend/src/core/orchestrator.js:2119-2147 | The eviction loop of the history leaves at most the allowed number of entries, a duplicate-free listing of exactly what remains. |
| `Orchestrator.PerformKeepsInvariant` | backend/src/core/orchestrator.js:845-2412 | Every action (create, start, loop step, deadline, both halves of cancel, retry) keeps the invariant of the whole registry. |
| `Orchestrator.AtMostOneLoop` | backend/src/core/orchestrator.js:845-957 | Over every interleaving a run has at most one live loop, and a live loop implies `running` or a run already COMPLETED or CANCELLED. |
| `Orchestrator.RunEndRecordedOncePerEpisode` | backend/src/core/orchestrator.js:2149-2255 | Over every interleaving, run-end records = accepted retries + 1 if the run is terminal. |
| `Orchestrator.RegistryIsConsistent` | backend/src/core/orchestrator.js:2119-2147 | In every reachable state active ids = control ids, active and terminal maps are disjoint, the order list is a bounded duplicate-free listing of the terminal map, and every run that has not ended is active. |
| `History.RetiredRunStays` | backend/src/core/orchestrator.js:2119-2147 | In every behaviour a retired run stays in the history, with its final status, until it is retried or as many others as the history keeps have been retired after it. |
| `History.JustRetiredIsNewest` | backend/src/core/orchestrator.js:2119-2147 | A run that an action has just retired has no entry after it. |
| `Orchestrator.MachineAndStatusAgree` | backend/src/core/orchestrator.js:195-219 | In every reachable state the machine agrees with the status, neither force-the-state fallback was ever reached, and a loop entered from CREATED or RETRYING was refused a transition only after its run was cancelled. |
| `Orchestrator.LiveRunHasDeadline` | backend/src/core/orchestrator.js:936-957 | In every reachable state a run that executes and was not asked to stop has its deadline armed, and none is armed on an ended run. |
| `Orchestrator.FinishedStepsNeverRepeat` | backend/src/core/orchestrator.js:2302-2412 | Over a run's whole life completed step numbers strictly increase, whatever its retries name, lose or are refused, as long as no accepted retry goes back. |
| `Orchestrator.PlainRetriesNeverRepeat` | backend/src/core/orchestrator.js:2302-2412 | In particular when each retry names no checkpoint and either finds the newest completed one or has a started tool record. |
| `Orchestrator.StepsStayWithinBudget` | backend/src/core/orchestrator.js:1006-1035 | In every behaviour, with no condition on retries, every completed step and every step a loop works on lies between 1 and maxSteps. |
| `Orchestrator.EndedStaysEnded` | backend/src/core/orchestrator.js:2149-2255 | No action changes a COMPLETED or CANCELLED status. |
| `Orchestrator.EndedForever` | backend/src/core/orchestrator.js:2149-2255 | A COMPLETED or CANCELLED run keeps its status under every continuation. |
| `Endings.HowRunsEnd` | backend/src/core/orchestrator.js:893-1043 | In every behaviour a live run enters COMPLETED exactly when its loop is resumed after a final answer or left with an answer, FAILED exactly when a thrown loop settles and no stop was asked for, and CANCELLED exactly by a stopped loop, its timer or the end of a cancellation. |
| `Endings.HowRunsReopen` | backend/src/core/orchestrator.js:2302-2412 | In every behaviour a FAILED run leaves that state exactly when a retry of it is let through: the run is held, not over budget, and recovery proceeds. |
| `Endings.HowRunsAppear` | backend/src/core/orchestrator.js:464-562 | A run appears exactly when a creation that had passed the check goes on, new and live. |
| `Orchestrator.DeadlineEndsRun` | backend/src/core/orchestrator.js:936-950 | When a deadline fires, in any reachable state, the run is CANCELLED. |
| `Orchestrator.CancelEndsRun` | backend/src/core/orchestrator.js:2257-2279 | Once an accepted cancellation's wait is over, in any reachable state, the run is terminal. |
| `LiveRuns.RetiredAtOnceIff` | backend/src/core/orchestrator.js:2388-2412 | A retried run is retired before its first await if and only if it has a model, no step left to run and an answer. |
| `LiveRuns.LiveRunsBoundedIff` | backend/src/core/orchestrator.js:430-436 | An action on a registry within the bound on live runs leaves it within the bound if and only if it does not overfill it: at the bound, a creation that passed the check earlier inserts its run, or a retired FAILED run within its budget is retried and is not retired again at once. |
| `LiveRuns.BehaviourBoundedIff` | backend/src/core/orchestrator.js:430-522 | In a whole behaviour the number of live runs stays within the bound if and only if no action overfills the registry. |
| `Scenarios.OverlappingCreationsOverfill` | backend/src/core/orchestrator.js:429-522 | Creations that overlap at their await make any number of runs live at once, whatever the bound. |
| `Scenarios.RefusedRetryOverfills` | backend/src/core/orchestrator.js:2302-2320 | With the bound just reached, a retry of a retired FAILED run exceeds it even when it is refused. |
| `Scenarios.ReachesFailed` | backend/src/checkpoint/checkpoint-manager.js:156-163 | A behaviour, for every bound on checkpoints, in which a run completes step one, loses its checkpoint to that bound, fails and is retired. |
| `Scenarios.FinishedStepRepeats` | backend/src/core/orchestrator.js:2302-2412 | A behaviour that goes on from there and completes step one a second time. |
| `Scenarios.ReachesCompleted` | backend/src/core/orchestrator.js:1366-1371 | A behaviour in which the answer of step one is final: the run is COMPLETED and retired with that one step. |
| `Orchestrator.Orchestrator.constructor` | backend/src/core/orchestrator.js:92-130 | The empty registry satisfies the invariant. |
| `Orchestrator.Orchestrator.CreateRun` | backend/src/core/orchestrator.js:429-464 | A creation up to its await passes the check exactly when fewer than maxConcurrent runs are live. |
| `Orchestrator.Orchestrator.CreationContinues` | backend/src/core/orchestrator.js:464-562 | After the await the run enters both live maps in CREATED, whatever their number. |
| `Orchestrator.Orchestrator.RetireRun` | backend/src/core/orchestrator.js:2119-2147 | Moves a live run to the history: afterwards the order is exactly the newest entries, at most as many as allowed, of the old order with this run appended, each with what was held of it; a run that is not live is left alone. |
| `Orchestrator.Orchestrator.StartRun` | backend/src/core/orchestrator.js:845-902 | Accepts exactly when the guards pass, and otherwise changes nothing. |
| `Orchestrator.Orchestrator.ResumeSuspended` | backend/src/core/orchestrator.js:961-1043 | Resumes a suspended loop to its next await and keeps the registry invariant; a live run is then COMPLETED exactly after a final answer or a loop left with an answer, FAILED exactly when a thrown loop settled without a stop, and CANCELLED exactly when a stopped loop would have gone round again or had thrown. |
| `Orchestrator.Orchestrator.DeadlineElapsed` | backend/src/core/orchestrator.js:936-950 | A timer that fires leaves its run CANCELLED. |
| `Orchestrator.Orchestrator.CancelRun` | backend/src/core/orchestrator.js:2257-2279 | Accepts exactly the runs that have not ended; it asks the run to stop, disarms its deadline and changes no other run. |
| `Orchestrator.Orchestrator.CancelWaitOver` | backend/src/core/orchestrator.js:2257-2279 | After the 25 ms wait the run is terminal. |
| `Orchestrator.Orchestrator.RetryRun` | backend/src/core/orchestrator.js:2302-2412 | Accepts exactly the held FAILED runs within their budget whose recovery proceeds; a refusal changes no run. |
| `EventBus.PrivacyIsSane` | backend/src/privacy.js:27-45 | The runtime's privacy rules are an instance of the rewriting the bus is proved for. |
| `EventBus.PruneSpares` | backend/src/events/event-bus.js:57-72 | Pruning never removes the newest log nor one with live subscribers. |
| `EventBus.PruneStopsAtBound` | backend/src/events/event-bus.js:57-72 | Pruning drops, whole, the oldest logs that nobody watches, one by one while there are too many and never below the bound; it stops there, at an unnamed run, or by moving a watched one to the back. Within the bound it changes nothing. |
| `EventBus.EmitIsLogged` | backend/src/events/event-bus.js:74-95 | An emit puts its event at the end of the run's log, which loses its oldest one exactly when full, and changes no other log that remains. |
| `EventBus.SequenceNeverGoesBackwards` | backend/src/events/event-bus.js:89-95 | The per-run sequence check of an emit never fails. |
| `EventBus.EmitKeepsInvariant` | backend/src/events/event-bus.js:74-116 | Emitting keeps every log a bounded non-empty end of its run's strictly increasing history, with clean payloads. |
| `EventBus.SetPrivacyModeKeepsInvariant` | backend/src/events/event-bus.js:118-126 | Changing the mode rewrites the log to fixpoints of the new mode and keeps the rest. |
| `EventBus.SubscribeKeepsInvariant` | backend/src/events/event-bus.js:128-141 | Subscribing, with shedding of the oldest, keeps the invariant, the subscriber bound included. |
| `EventBus.UnsubscribeKeepsInvariant` | backend/src/events/event-bus.js:167-175 | Unsubscribing keeps the invariant. |
| `EventBus.RemoveAllSplits` | backend/src/events/event-bus.js:97-116 | Dropping dead connections leaves the others in their order. |
| `EventBus.RemoveAllOfOne` | backend/src/events/event-bus.js:97-116 | A connection is dropped exactly if it is dead. |
| `EventBus.ClearRunKeepsInvariant` | backend/src/events/event-bus.js:233-238 | Clearing a run keeps the invariant. |
| `EventBus.ReplayCompleteIffNothingEvicted` | backend/src/events/event-bus.js:194-202 | A replay returns the whole later history exactly when no event after the cursor was evicted. |
| `EventBus.NoGapNoLoss` | backend/src/events/event-bus.js:194-202 | For a cursor past zero and a held log, no gap means no loss, despite the shared sequence, buffer shifts and pruning. |
| `EventBus.GapIff` | backend/src/events/event-bus.js:194-202 | A gap is reported exactly when the log is held, the cursor is past zero and every retained event comes later than the one right after it; the reported bounds are the first and the last retained event. |
| `EventBus.SilentLoss` | backend/src/events/event-bus.js:194-202 | The two uncovered cases: with cursor zero, or with the whole log gone, events are lost with no gap reported. |
| `EventBus.LossIsReportedIff` | backend/src/events/event-bus.js:194-202 | For every bus in the invariant, a replay is complete or reports a gap if and only if the log is held and the cursor is past zero, or nothing after the cursor was evicted. |
| `EventBus.ShiftedOutSilently` | backend/src/events/event-bus.js:85-88 | Two emits into a buffer of one: a replay from zero lacks the first event and reports no gap. |
| `EventBus.PrunedSilently` | backend/src/events/event-bus.js:57-72 | A log pruned by another run's emit: a replay from its first event lacks the second and reports no gap. |
| `EventBus.EventBus.constructor` | backend/src/events/event-bus.js:41-51 | An empty bus satisfies the invariant. |
| `EventBus.EventBus.PruneRunsIfNeeded` | backend/src/events/event-bus.js:57-72 | The loop drops the oldest logs, or moves a watched one to the back and stops. |
| `EventBus.EventBus.EmitEvent` | backend/src/events/event-bus.js:74-116 | Returns and logs, last, an event with the next global number that carries the payload itself, null for none and a marker for an unserializable one, cleaned exactly if the run has a mode; earlier retained events of the run and other logs are unchanged. |
| `EventBus.EventBus.SetMode` | backend/src/events/event-bus.js:118-126 | Rewrites each payload of the run's log to the new mode and nothing else: no stamp, no other log. |
| `EventBus.EventBus.SubscribeTo` | backend/src/events/event-bus.js:128-165 | Adds the connection, loses nobody but the oldest of a full set, and returns the buffer. |
| `EventBus.EventBus.UnsubscribeFrom` | backend/src/events/event-bus.js:167-175 | Removes the connection, and the set when it becomes empty. |
| `EventBus.EventBus.GetEventsSinceWithGap` | backend/src/events/event-bus.js:194-202 | Returns the retained events after the cursor, and without a gap on a held log the whole later history. |
| `EventBus.EventBus.Clear` | backend/src/events/event-bus.js:233-238 | Removes log, sequence, mode and subscribers of the run. |
| `EventClient.ClientAppliesExactHistory` | backend/src/events/event-contract.js:11-16 | Over every sequence of emits, evictions, prunings, clears, losses, reconnects and resyncs, a client that drops old frames and resyncs on gap has applied exactly the events of its run's full history between its baseline and its cursor, each once and in order. |
| `EventClient.ConnectKeepsQueue` | backend/src/services/sse-service.js:40-64 | What a reconnect replays joins up with what the client has applied, or a gap frame comes first. |
| `EventClient.ReconnectCatchesUp` | backend/src/services/sse-service.js:40-64 | From any reachable state, a client that reconnects while its run's log is held and receives what is then in flight has reached the end of the run's history. |
| `EventClient.ListenerCatchesUp` | backend/src/events/event-bus.js:97-116 | So does a client that stayed connected, whatever was emitted meanwhile. |
| `EventClient.LoggedPayloadsAreClean` | backend/src/events/event-bus.js:74-126 | After any mix of emits and mode changes every logged payload of a run with a mode is a fixpoint of that mode. |
| `EventTraces.RetainedIsWhatWasEmitted` | backend/src/events/event-bus.js:30-126 | After any actions the retained log of a run is the end of everything it ever emitted, number, kind and payload, each payload as emitted and rewritten by the modes in force then and set since, and by nothing else. |
| `EventTraces.ReplayIsWhatWasEmitted` | backend/src/events/event-bus.js:194-202 | A replay past the start, of a held log and without a gap, is exactly what the run emitted after the cursor, payloads included. |
| `CanonicalForm.EscapeReadable` | backend/src/execution/approvals.js:27 | Escaped strings (section 7 of RFC 8259, lone surrogates escaped) followed by a quote are uniquely readable. |
| `CanonicalJson.EscapeReadsBack` | backend/src/execution/approvals.js:27 | A unicode escape is four hexadecimal digits whose value is the unit. |
| `CanonicalJson.PlainIff` | backend/src/execution/approvals.js:27 | A unit alone prints as itself exactly when it is no control character, quote, backslash or half of a surrogate pair; exactly a high and a low half together print as a pair. |
| `CanonicalForm.Readable` | backend/src/execution/approvals.js:26-31 | Unique readability of the canonical print at every depth: with a delimiter after it, a print determines the value up to key order and where it ends. |
| `CanonicalForm.SamePrints` | backend/src/execution/approvals.js:26-31 | Values equal up to key order print equally. |
| `CanonicalForm.PrintIsCanonical` | backend/src/execution/approvals.js:26-31 | Two values print equally if and only if they are equal up to object key order at every depth (an array of one undefined prints like an empty array). |
| `ApprovalStore.FingerprintBindsParams` | backend/src/execution/approvals.js:47-51 | Two parameter values get the same fingerprint exactly when they are equal up to key order, falsy parameters counting as an empty object. |
| `ApprovalStore.FalsyCountsAsEmpty` | backend/src/execution/approvals.js:47-51 | Exactly undefined, null, false, zero and the empty string count as an empty object. |
| `Approvals.OldFormIff` | backend/src/execution/approvals.js:34-46 | The old fingerprint is used exactly for a proposed action that is neither empty nor an empty object, and never meets the new one. |
| `Approvals.PerformKeepsInvariant` | backend/src/execution/approvals.js:110-264 | Every operation keeps: records earned by their log, uses justified and unique, pending bounded. |
| `Approvals.UsedAtMostOnce` | backend/src/execution/approvals.js:189-224 | Over any trace and clock no approval is used twice. |
| `Approvals.PendingBounded` | backend/src/execution/approvals.js:110-140 | Over any trace at most maxPending approvals of a run are pending. |
| `Approvals.SettledChangesOnlyByLateCheck` | backend/src/execution/approvals.js:158-224 | A denied or cancelled approval changes state exactly when a gate check of its own run and action comes after its expiry, and then to EXPIRED; an expired one stays expired. |
| `Approvals.DenialCanBecomeExpiry` | backend/src/execution/approvals.js:198-204 | A concrete trace in which a denied approval becomes EXPIRED. |
| `Approvals.ApprovedOnlyExpires` | backend/src/execution/approvals.js:158-224 | An approved approval only ever expires, and a use never reverts. |
| `Approvals.PeekPromisesGrant` | backend/src/execution/approvals.js:227-258 | A gate check is granted if and only if a peek with the same arguments reports the record and it is not one that matches only through its own stored proposed action while the caller gives a falsy one. |
| `Approvals.RefusalIsTrue` | backend/src/execution/approvals.js:189-224 | The reason given for a refusal is true of the record: no record, other run, other action, too late, that status, already used, or other parameters. |
| `ApprovalTraces.SweepChangesIff` | backend/src/execution/approvals.js:158-168 | A sweep changes a record if and only if it is pending or approved and its time has come, and then only to EXPIRED. |
| `ApprovalTraces.GrantedIff` | backend/src/execution/approvals.js:189-224 | Over any trace with a clock that does not go back, a gate check is granted if and only if the approval was requested for the same run, action and parameter print, then approved before its expiry as the first decision on it, not cleared or used since, and the check comes before the expiry. |
| `ApprovalTraces.GrantedForSameParams` | backend/src/execution/approvals.js:189-224 | The same for real parameters: they need to be equal exactly up to the order of object keys. |
| `Approvals.PeekThenConsumeSucceeds` | backend/src/execution/approvals.js:189-258 | In every reachable store a non-null peek implies that an immediate consume succeeds. |
| `ApprovalStore.EveryUseIsEarned` | backend/src/execution/approvals.js:189-224 | Over any trace every successful use was preceded by its own request and then its own approval, has the same run, action and canonically equal parameters, and comes before expiry. |
| `ApprovalStore.ApprovalStore.constructor` | backend/src/execution/approvals.js:104-108 | An empty store satisfies the invariant. |
| `ApprovalStore.ApprovalStore.RequestApproval` | backend/src/execution/approvals.js:110-140 | Refuses exactly a missing run or action and a run with maxPending pending approvals, changing nothing; otherwise adds one pending record under a new id with the run, action, fingerprint and expiry asked for, the default lifetime if none was, and leaves the others alone. |
| `ApprovalStore.ApprovalStore.SweepExpired` | backend/src/execution/approvals.js:158-168 | Expires exactly the pending and approved records with now >= expiresAt, and leaves every other record as it is. |
| `ApprovalStore.ApprovalStore.SettleApproval` | backend/src/execution/approvals.js:170-183 | Decides exactly a pending record that has not expired. |
| `ApprovalStore.ApprovalStore.CheckAndConsume` | backend/src/execution/approvals.js:189-224 | Answers as GrantedIff says over traces, with a true reason for a refusal, and marks a granted record used. |
| `ApprovalStore.ApprovalStore.Peek` | backend/src/execution/approvals.js:227-258 | Finds the first usable record without using it; what it finds would be granted, and no earlier record would be (none at all if it finds nothing). |
| `ApprovalStore.ApprovalStore.ClearApprovals` | backend/src/execution/approvals.js:260-264 | Deletes exactly the records of the run. |
| `Privacy.SanitizeIdempotent` | backend/src/privacy.js:27-45 | Sanitizing twice is sanitizing once, in each mode and for every set of key rules. |
| `Privacy.VisibleDataOnly` | backend/src/privacy.js:27-45 | Two values sanitize equally if and only if they are equal outside secret and hidden keys, where hidden content shows only whether it is an array. |
| `Privacy.SecretIff` | backend/src/privacy.js:16 | A key is secret if and only if some part of it, compared without letter case, is one of the secret words. |
| `Privacy.LowerIff` | backend/src/privacy.js:16 | Keys are compared alike exactly when they differ in letter case only. |
| `Privacy.NothingSecretSurvives` | backend/src/privacy.js:27-45 | In what sanitizing returns, every value under a secret key is the marker and every value under a content key, outside the standard mode, is the marker or an empty array. |
| `Privacy.RedactedIsLeftAlone` | backend/src/privacy.js:27-45 | A value of that kind is returned unchanged, so sanitizing replaces nothing else. |
| `Privacy.PersistedTwice` | backend/src/privacy.js:47-51 | Persisting persisted events again changes nothing. |
| `Privacy.PersistedIsRedacted` | backend/src/privacy.js:47-51 | Nothing is persisted under zero retention, and otherwise every event, in order, redacted. |
| `EventStore.AppendHolds` | backend/src/persistence.js:278-287 | An append leaves exactly the newest of what belongs in the log, in order of number, as many as it may hold: of each number the last stored envelope, or else the first new one. |
| `EventStore.AppendComposes` | backend/src/persistence.js:278-287 | append(append(S,A),B) = append(S,A+B) for the merge that keeps the newest: truncating to a count early never changes the final log, first-writer ties included. |
| `EventStore.AppendIsIdempotent` | backend/src/persistence.js:278-287 | Appending the same batch again changes nothing. |
| `EventStore.AppendsCommute` | backend/src/persistence.js:278-287 | For immutable envelopes two writers may append in either order. |
| `EventStore.AppendEvents` | backend/src/persistence.js:278-287 | The map-and-sort loops compute that append, malformed entries skipped, newest 500 kept, and the result is saved within the byte limit. |
| `EventStore.SaveEvents` | backend/src/persistence.js:267-273 | What is written fits and has the newest ten events; nothing is written only when even those are too large. |
| `EventStore.SaveGivesUpOnlyAtTen` | backend/src/persistence.js:192-217 | The six attempts never run out before ten events are left. |
| `EventStore.SizedAppendsComposeIff` | backend/src/persistence.js:267-287 | With the byte limit, when the log in between fits as it is: two appends are one append of both batches if and only if the final log can be written or the first append changed nothing. |
| `EventStore.SizedAppendsAgreeOnNewest` | backend/src/persistence.js:267-287 | Whatever is halved on the way, as long as everything is written, both end with the same newest ten events. |
| `EventStore.HalvingEarlyLosesAnEvent` | backend/src/persistence.js:267-273 | A concrete log in which halving early leaves one event fewer than a single append. |
| `Retention.SurvivorsOfTenant` | backend/src/persistence.js:55-68 | The survivors of a tenant are exactly the last `cap` of its own entries, whatever other tenants do. |
| `Retention.OrderPreserved` | backend/src/persistence.js:55-68 | The survivors keep their global order. |
| `Retention.RetainIsIdempotent` | backend/src/persistence.js:55-68 | A second pass changes nothing. |
| `Retention.RetainPerTenant` | backend/src/persistence.js:55-68 | The bucket loops compute exactly that retention. |
| `IntelligenceDoc.PruneCompacts` | backend/src/persistence.js:96-135 | With caps of at least one, compaction brings the overflow of any nested document to zero. |
| `IntelligenceDoc.PruneKeepsCompact` | backend/src/persistence.js:96-135 | Compaction is the identity when the overflow is already zero. |
| `IntelligenceDoc.PruneIsIdempotent` | backend/src/persistence.js:116-135 | Compacting twice is compacting once. |
| `IntelligenceDoc.PruneKeepsEnds` | backend/src/persistence.js:116-135 | Every array over its cap keeps exactly its newest entries, as many as the cap, every other one keeps all, item by item, and objects keep their keys. |
| `IntelligenceDoc.CompactsEverythingIffPositive` | backend/src/persistence.js:119-127 | Every document is compacted if and only if no cap is zero (slicing from minus zero keeps everything). |
| `Serialization.SerializePrunable` | backend/src/persistence.js:192-217 | The loop stops within six prunings and returns a text that fits or nothing. |
| `Serialization.SerializingTries` | backend/src/persistence.js:192-217 | What is written is the first of the value and its successive prunings that fits; the loop gives up only when nothing smaller is offered or six prunings are used up. |
| `IntelligenceDoc.AtMostOneEffectivePrune` | backend/src/persistence.js:351-360 | For the intelligence document the loop prunes at most once with effect: the document, its halved form, or nothing. |
| `IntelligenceDoc.HalvedCapsArePositive` | backend/src/persistence.js:353-355 | Halved caps are at least ten, so halving always compacts. |
| `IntelligenceDoc.SaveIntelligence` | backend/src/persistence.js:351-361 | The compact document is written if it fits, else its halved form if that is smaller and fits, and otherwise nothing. |
| `Idempotency.UnfinishedEvictedOnlyAsLastResort` | backend/src/idempotency.js:89-104 | An unfinished record is evicted only when no finished one is held, except beside an oldest finished one under the empty key; a finished victim that was found by age is the oldest. |
| `Idempotency.UnfinishedEvictedDespiteFinishedIff` | backend/src/idempotency.js:89-104 | An eviction takes an unfinished record although a finished one is held if and only if the oldest finished one has the empty key and the first record is unfinished and has another key. |
| `Idempotency.UnfinishedEvictedBesideEmptyKey` | backend/src/idempotency.js:89-104 | A concrete store in which that happens. |
| `Idempotency.EvictStopsAtBound` | backend/src/idempotency.js:89-104 | Eviction changes nothing within the bound, never goes below it, and what stays is unchanged. |
| `Idempotency.PerformWrites` | backend/src/idempotency.js:111-162 | A begin records its own state and a completion or failure its own verdict, every other record that stays is unchanged, and records are given up only down to the bound. |
| `Idempotency.ExecuteKeepsOneWinner` | backend/src/idempotency.js:89-162 | From any restored store and over any operations, two fresh begins of one key have an eviction or clear of that key between them. |
| `Idempotency.OperationBoundedIff` | backend/src/idempotency.js:89-162 | An operation on a store within the bound leaves it within the bound if and only if it does not overfill it: it adds a record to a full store whose first key is empty and in which no finished record, or only the empty key's, comes out as oldest. |
| `Idempotency.SizeBoundedIff` | backend/src/idempotency.js:89-162 | Over a whole history the store never holds more than max records if and only if no operation overfills it. |
| `Idempotency.SizeBounded` | backend/src/idempotency.js:89-104 | In particular the bound holds throughout when no empty key is ever finished. |
| `Idempotency.EmptyKeyExceedsBound` | backend/src/idempotency.js:100-101 | A finished record under an empty key in first place stops eviction, and the bound is exceeded. |
| `Idempotency.IdempotencyStore.constructor` | backend/src/idempotency.js:30-42 | An empty store satisfies the invariant. |
| `Idempotency.IdempotencyStore.EvictIfNeeded` | backend/src/idempotency.js:89-104 | The nested loops evict oldest finished records first, then first keys. |
| `Idempotency.IdempotencyStore.BeginOnce` | backend/src/idempotency.js:111-128 | Exactly the caller that finds no record wins; an empty key is refused. |
| `Idempotency.IdempotencyStore.FinishWith` | backend/src/idempotency.js:130-162 | Records the outcome, creating the record when there is none. |
| `Idempotency.IdempotencyStore.Clear` | backend/src/idempotency.js:225-228 | Forgets all records. |
| `Idempotency.WinnersAreApart` | backend/src/idempotency.js:233-277 | No interleaving of begins and of the separate reads and writes of complete and fail, across instances, yields two winners less than one TTL apart. |
| `Idempotency.BeginWinsIff` | backend/src/idempotency.js:233-277 | Over every interleaving a begin wins if and only if everything ever written for its key, by winners and by completions and failures, has expired. |
| `Idempotency.UnderwayIsUnfinished` | backend/src/idempotency.js:257-270 | A completion or failure writes exactly if it has read and not yet written, counted over the whole interleaving. |
| `Idempotency.CellIsLastWritten` | backend/src/idempotency.js:233-277 | Over every interleaving, what the shared store holds of a key is what the last act that could write it wrote: the verdict of the last completion or failure since the last winner, else the winner's own state, with its own expiry. |
| `Idempotency.FinishedStaysFinished` | backend/src/idempotency.js:257-270 | A finished operation stays finished until its record expires, and no late write shortens that. |
| `Routing.ProviderCostKnownIffPriced` | backend/src/decisions/routing-objective.js:36-49 | A provider cost is given exactly when every rate it needs is known, and is never negative. |
| `Routing.EveryTokenAtItsRate` | backend/src/decisions/routing-objective.js:36-49 | A provider cost is, within half a millionth, every thousand tokens at its own rate, at most the input counting as cached and negative counts as nothing. |
| `Routing.AttemptsBounded` | backend/src/decisions/routing-objective.js:58-60 | Between one and n+1 attempts are expected. |
| `Routing.AttemptsAntitone` | backend/src/decisions/routing-objective.js:58-60 | The more reliable, the fewer expected attempts. |
| `Routing.AttemptsAreGeometric` | backend/src/decisions/routing-objective.js:50-60 | The loop's sum is the geometric series: r times it is 1-(1-r)^(n+1). |
| `Routing.EstimateRetryCost` | backend/src/decisions/routing-objective.js:54-63 | The accumulating loop computes the retry cost from that sum. |
| `Routing.RetryCostAntitone` | backend/src/decisions/routing-objective.js:54-63 | Retry cost never rises with reliability and is never negative. |
| `Routing.RetryCostKnownIff` | backend/src/decisions/routing-objective.js:54-57 | A retry cost is given if and only if the provider cost is known and the reliability is null or lies in 0..1. |
| `Routing.RetriesAreCapped` | backend/src/decisions/routing-objective.js:54-63 | More than five retries are priced as five and fewer than none as none; otherwise the cost is, within half a millionth, the price of the attempts after the first. |
| `Routing.NullReliabilityIsCertainFailure` | backend/src/decisions/routing-objective.js:50-63 | A null reliability is priced like certain failure: one provider cost for each of the at most five retries. |
| `Routing.NullProviderIsFree` | backend/src/decisions/routing-objective.js:109-126 | Over all inputs of computeObjective, a candidate without a provider price gets an objective if and only if that price is null and its retry cost is known: null counts as zero. |
| `Routing.TotalIsTheSum` | backend/src/decisions/routing-objective.js:105-126 | The expected total is, within half a millionth, the sum of provider price, retries, switching, continuation and latency, a negative switching cost counting as none. |
| `Routing.SuccessIsBestKnown` | backend/src/decisions/routing-objective.js:93-102 | The success used is the predicted one if known, else the task fit, else the quality, cut to between 0.05 and 1. |
| `Routing.ObjectiveIsPerSuccess` | backend/src/decisions/routing-objective.js:127-133 | The objective is the total, divided by the success, within half a millionth, where that is known. |
| `Routing.SelectionWins` | backend/src/decisions/routing-objective.js:155-166 | With distinct ids the selection is the unique candidate that strictly precedes all it competes with; an excluded model wins only if all are excluded. |
| `Routing.SelectionIsCheapest` | backend/src/decisions/routing-objective.js:155-166 | Among those not excluded, if any, no candidate has a lower objective than the selected one, unpriced ones last; among equals none has a higher score, and then none a smaller id. |
| `Routing.SelectionIgnoresOrder` | backend/src/decisions/routing-objective.js:155-166 | The order of the candidate list does not matter. |
| `Routing.ImprovedWinnerStays` | backend/src/decisions/routing-objective.js:155-166 | A winner whose objective does not rise, with id and score fixed, stays the winner. |
| `Routing.ObjectiveAntitone` | backend/src/decisions/routing-objective.js:93-145 | The objective never rises with a lower retry cost or a higher predicted success. |
| `Routing.RaisedWinnerStays` | backend/src/decisions/routing-objective.js:54-166 | With retries priced from reliability, raising the winner's reliability or predicted success keeps it the winner. |
| `Money.RoundingIsClose` | backend/src/cost/breakdown.js:19-21 | Rounding moves an amount by at most 0.0000005 USD. |
| `Money.RoundingIsNearest` | backend/src/cost/breakdown.js:19-21 | The rounded amount is the nearest whole number of millionths, the upper one of two. |
| `CostAccounting.CallMovesByCanonicalCost` | backend/src/core/orchestrator.js:1634-1681 | A call whose cost could be calculated (observed usage, registry pricing) moves the budget by its canonical cost within 0.0000005 USD. |
| `CostAccounting.BoundHoldsIff` | backend/src/core/orchestrator.js:1646-1681 | A charged call stays within that bound if and only if its cost could be calculated or its default-priced estimate is itself within the bound. |
| `CostAccounting.UnpricedCallPaysTwice` | backend/src/core/orchestrator.js:1664-1681 | A charged call of a registry-unpriced model moves the budget by the charge plus its default-priced estimate. |
| `CostAccounting.NullChargeIsFree` | backend/src/core/orchestrator.js:1640-1641 | A null charge is booked as a canonical cost of zero, and the budget then stays put within 0.0000005 USD if and only if the cost could be calculated or its estimate is within that bound. |
| `CostAccounting.EveryTokenAtItsRate` | backend/src/cost/cost-estimator.js:60-80 | For a listed model and reported counts a thousand times the cost is cached input at the cached rate, the rest of the input at the input rate, output and reasoning at the output rate. |
| `CostAccounting.DefaultsFillTheGaps` | backend/src/cost/cost-estimator.js:36-51 | A missing rate is the default one; a model with neither an input nor an output rate is not priced by the registry at all. |
| `CostAccounting.MissingCountsAreFilled` | backend/src/core/orchestrator.js:1634-1681 | Input that was not reported is taken from the prompt; anything else missing or negative counts as nothing. |
| `CostAccounting.CanonicalIsChargeOrEstimate` | backend/src/economics/canonical-record.js:63-108 | The canonical cost is the charge where one is not negative, else the estimate where usage and pricing are known, within half a millionth, and otherwise unknown. |
| `CostAccounting.DriftGrowsLinearly` | backend/src/core/orchestrator.js:1634-1681 | N such calls drift by at most N times the bound. |
| `CostAccounting.Budget.RecordCall` | backend/src/core/orchestrator.js:1660-1681 | The categories plus the reconciliation entry sum to the movement; the canonical cost is the provider charge, else the calculated cost, else unknown. |
| `RateLimiter.BucketCountsItsWindow` | backend/server.js:1064-1066 | A bucket counts exactly the requests since it was started. |
| `RateLimiter.FirstOfWindowAccepted` | backend/server.js:1064-1072 | Exactly the first `limit` requests of each bucket window are accepted. |
| `RateLimiter.AtMostTwiceTheLimit` | backend/server.js:1058-1073 | At most 2*limit requests of a key are accepted in any half-open 60 s span. |
| `RateLimiter.SameAnswer` | backend/server.js:1069-1071 | A map without some expired buckets answers like the full one, before and after pruning. |
| `RateLimiter.RateLimiter.AllowRequest` | backend/server.js:1058-1073 | The answer is the one the key's own requests determine, as if no bucket were ever deleted. |
| `RateLimiter.RateLimiter.Prune` | backend/server.js:1069-1071 | Deletes exactly the expired buckets. |
| `RateLimiter.RateLimiter.BurstBounded` | backend/server.js:1058-1073 | In every reachable state no key got more than 2*limit requests through in any 60 s span. |

## Left out

- Providers, router, context, cache, memory, tools, queue, locks and Postgres: their answers are parameters of the loop's stretches, or they do not appear.
- HTTP routing, authentication, file system calls, logging, prompts and the user interface; timers are actions that may happen at any time.
- Pausing and continuing a run, forking and duplicating runs (which insert a run without the bound check), cleaning up runs, and the direct status write of server shutdown: they are other entry points into the same maps.
- How the configuration of a run is resolved and how its id is generated: each run has some configuration, and a new id is one not used before.
- A retry is one action from its guards to the first await of the new loop: the recovery call inside it awaits only promises that are already settled, so no timer and no other request comes in between. A second caller in the same tick, and the flag that refuses a second retry, are not modelled.
- Checkpoints in the run model carry step, completion and whether a model is selected; their seals, keys and ages are in `Checkpoints.dfy`, where recovery on them is proved.
- Recovery evidence from workspace hashes, and the rules themselves: the rules are an arbitrary function of the evidence.
- Recovery.RuntimeState.ApplySnapshot: writes only the status, model, spend and step counts of a snapshot; its other sections are not modelled.
- EventClient.ClientAppliesExactHistory: follows the written contract, where a gap is answered by a snapshot before the next frame; the frontend hook fetches the snapshot asynchronously and may apply frames meanwhile.
- Reloading a run's log from disk into the bus, and the restart of the global sequence with the process.
- Run ids are compared as wholes; special object keys such as `__proto__` and values with their own serialization (dates, big integers) do not occur.
- Redaction of persisted snapshots and run summaries, beyond the redaction function they share with events.
- In-place changes inside the intelligence document: compaction is modelled on values, so sharing between the input and the result is not captured.
- Byte-size pruning of snapshots, evaluations and the run index; the loop itself and its use for event logs and the intelligence document are modelled.
- Merging the persisted run index with live runs, upserting one summary, and garbage collection of files.
- The remote mirror of an idempotency record carries its state but not its result; persistence and quarantine of the idempotency file.
- Model ids are compared by their place in collation order, taken as distinct for distinct ids.
- The distributed rate check against a shared store.
- Floating-point effects.
