# HARIS durable runtime: a verified model

HARIS runs network mitigations as a crash-tolerant saga over compare-and-swap repositories. This project
models its durable core in Dafny and proves what the design promises: at-most-once provider mutations, no
false success, a spend ceiling, bounded reconciliation, fenced outbox claims, replay that equals live state,
convergent evidence, a tamper-evident audit chain, and the guarantees of the smaller decision components.

## How the model is built

- **Repositories and services are classes** that update their fields in place. Each method is proved against a
  pure function of the stored value, on which the lemmas about whole runs rest; the handlers that callers see
  promise besides, in predicates over the world before and after, what they charge, call, decide and leave alone.
- **A handler is cut at its awaits.** Between two awaits it runs alone, so one segment is one atomic step; an
  exception keeps the writes made before it. `Execution`, `Reconciliation` and `Decisions` hold the segments,
  `ExecutionService`, `ReconciliationService` and `DecisionService` the imperative form of the same segments.
- **Runs** interleave segments of any number of handlers with crashes, restarts, decisions, operator moves and
  lease changes. In `ExecutionRuns` an answer may resume a handler with any snapshot at all, which covers every
  schedule and more. `ActionClaims` goes finer: there every single repository operation, provider call and
  provider answer is a step of its own, and every guard is dropped.
- **Guards and tables** are stated on the stored fields wherever a contract or a theorem rests on them: what a provider
  call needs in `CallConditions`, what an answer or a verdict is on record as in the outcome modules, transitions once
  more from their targets, sums as counts.
- **Time** is a nondecreasing integer (a real in the playbooks), **money** is integer cents (75 and 20), and
  **SHA-256** is an injective function, written as a datatype constructor or as the hashed text itself.
- **The provider** answers anything. Its calls are recorded in a journal that no decision reads. Two facts of its
  contract are used: without a resource identity `reconcile` answers UNKNOWN, and `mitigation_improved` holds
  exactly for VERIFIED_IMPROVED.

| area | files |
|---|---|
| at-most-once claims | `DurableCore`, `ActionClaims` |
| executor | `Execution`, `CallConditions`, `ExecutionService`, `ExecutionSegments`, `ExecutionOutcomes`, `ExecutionStarts`, `ExecutionRuns`, `HandlerContinuity` |
| reconciler | `Reconciliation`, `ReconciliationService`, `ReconciliationOutcomes`, `ReconciliationRuns`, `ReconcilerContinuity`, `ReconciliationSurroundings` |
| decisions | `Decisions`, `DecisionService`, `LateDecisions` |
| restart | `PlatformLifecycle`, `RestartClosings`, `StrandedReads`, `RestartRefusals`, `ReconcilerRefusal` |
| incidents, recovery, outbox | `IncidentRepository`, `RecoveryConsistency`, `OutboxRepository` |
| events | `PlatformEvents`, `PlatformReplay`, `ReplayEquivalence`, `InboundProcessing`, `IngestionRuns`, `EvidenceConvergence` |
| audit history | `AuditChain` |
| rate limiter | `RateLimiter`, `RateLimiterRefinement` |
| planning | `Playbooks`, `PlaybookProperties`, `PlaybookArbitration`, `Triage`, `TriageProperties`, `TriageOrder` |
| shared | `Options`, `Seqs`, `StableSort` |

Where the code and its own words disagree the code is followed:

- The rate limiter calls itself a fixed-window limiter; the code is a sliding log, and that is what is modelled.
- `verify_projection_integrity` treats any difference between replay and live state as corruption. The two also
  differ after an event reopens a correlation whose incidents were all closed; `ReplayRebuilds` says exactly when.
- Not every reachable state reconstructs after a restart. A closed incident must leave no lease, no unfinished command,
  no PENDING read and no recovery in progress, and the steps that close one do not see to that: a verified rollback
  keeps the lease, a block or a BLOCK decision can leave a READY command, a verified mitigation one of another plan, and
  an operator closes the incident as it stands. `StepCloses` says that these are all the steps that close an incident;
  `RollbackReconstructs`, `BlockReconstructs`, `MitigationReconstructs`, `DecisionReconstructs` and
  `OperatorReconstructs` say of each when the restart after it is refused, and `LateRollbackReconstructs` when a later
  rollback spoils an incident that was closed cleanly.
- No mitigation that the reconciler completes survives a restart: the read that found the resource is stored as PENDING
  and nothing but the test-only clean-up ever finalises it. `ReconcilerStrandsItsRead` says so of every run,
  `PendingForGood` of every other way to close such an incident.
- A decision is not idempotent once its incident has moved on: delivered again during the mitigation it stores
  commands of a plan that the incident never takes up. `DeliveryChangesNothingExactly` says when a delivery changes
  nothing, and `LateDecisionStops` that the stored commands, and all others of the incident, are never executed.
- The core takes a missing channel time for 0, so its projection of negative times depends on the order of arrival;
  `CoreConvergesExactly` says exactly when it does not.
- A High congestion does not always leave its cell with an active incident: an ingestor that planned with an incident
  which an operator closes before its transaction opens none. `HighOpensIncident` says exactly when, `CancelledMeanwhile`
  gives the run.
- The rate limiter's promise depends on its table: it holds for `n` keys exactly when `n` is at most `maxKeys`.
- The executor reads VERIFIED_RESOURCE as IMPROVED, the reconciler as INSUFFICIENT_EVIDENCE; both are kept.
- An acknowledged outbox row goes back to pending when something raises between `ack` and the end of the consumer's
  `try` block; `AckedForGood` says that nothing else revives it.

## Model

| member | source | states |
|---|---|---|
| ActionClaims.AtMostOnce | durable_execution.py:599-613 | in every reachable interleaving of workers, crashes and restarts: rollbacks <= executions <= attempts <= 1 for every command, the rollback after the execution, and neither for a READY command |
| ActionClaims.StepKeepsInv | durable_execution.py:802-929 | every single repository operation keeps: one holder per claim, snapshots are past values, no claim spent twice |
| DurableCore.ActionRepository.CreateOrGet | durable_core.py:320-324 | one command per idempotency key; a known key returns the stored command and changes nothing |
| DurableCore.ActionRepository.Update | durable_core.py:335-338 | compare-and-swap: stores exactly when the version matches, and bumps it |
| DurableCore.ActionRepository.MarkRestartUnknown | durable_core.py:326-331 | every SENT command becomes OUTCOME_UNKNOWN with a new version, nothing else changes |
| ExecutionRuns.AuthorityAtEveryCall | durable_execution.py:680-724 | every `execute` call of every run ends one step that began with the command READY; in its world the command is SENT, the incident MITIGATING or VERIFYING under its plan and allowed by WARDEN, the request at most `rollbackSeconds` old, confidence, blast radius and device count within the limits, the latest trust record clean and within its TTL where one is asked for, no plan newer and older ones for the resource ended, the mode writable, the lease live, and the step has charged exactly 75, 20 or 0 cents |
| ExecutionRuns.ExecutedOnce | durable_execution.py:802-929 | two `execute` calls of a run are never for the same command |
| ExecutionRuns.SpendCeiling | durable_execution.py:635-654 | in every reachable state the ledger holds charges of 75 and 20 cents, `75 * guaranteed + 20 * others` of an incident stays within the ceiling, and no command was charged twice |
| ExecutionRuns.LedgerIsTheBill | durable_execution.py:842-899 | money and calls never part: in every reachable state the ledger is, entry by entry, the bill of the `execute` calls made so far |
| ExecutionRuns.NoFalseSuccess | durable_execution.py:973-1024 | SUCCESS only after the executor was answered VERIFIED_IMPROVED or VERIFIED_RESOURCE for that command, or the reconciler VERIFIED_IMPROVED; ROLLED_BACK only after a verified rollback of it |
| ExecutionRuns.ResolvedHasCause | durable_execution.py:1026-1051 | an incident becomes RESOLVED only in a step where all commands of a plan are SUCCESS and VERIFIED_IMPROVED had been answered for it before, or after a verified rollback for it |
| ExecutionRuns.StepStaysFiled | durable_core.py:318-324 | the filing of commands that runs rely on is kept by every step, so it restricts nothing |
| HandlerContinuity.HandleContinues | durable_execution.py:802-1198 | a complete `execute_ready_action`, whatever it is told and wherever its process dies, never unsettles a settled command, renews no attempt, changes the plan of no incident, lets none fall back and leaves the reconciler's records alone |
| ExecutionSegments.StartCalls | durable_execution.py:802-929 | the start of `execute_ready_action` either calls the provider with all of that authority and one charge at its price, or charges, calls and resolves nothing |
| ExecutionSegments.AfterVerifyEarns | durable_execution.py:973-1024 | the end of a verification ends commands and resolves incidents only on evidence already on record, its own included: VERIFIED_IMPROVED and VERIFIED_RESOURCE prove the command, only the first shows an improvement |
| ExecutionSegments.AfterVerifyRollbackEarns | durable_execution.py:1153-1198 | the end of a verified rollback marks only commands of that rollback and resolves only its incident |
| ExecutionSegments.BeginRollbackKeeps | durable_execution.py:1053-1125 | `_rollback` up to the provider neither charges, executes nor resolves, and readies no command again |
| ExecutionSegments.FinishReverifyEarns | durable_reconciliation.py:643-705 | the same for a re-verification, which nothing but VERIFIED_IMPROVED proves |
| ExecutionSegments.DecideKeeps | durable_reasoning.py:599-616 | a decision creates only fresh READY commands of its plan and resolves nothing, also when the process dies half-way |
| CallConditions.EligibleExactly | durable_execution.py:656-724 | the eligibility check holds if and only if all of these conditions do, said on the fields of the command, its incident, the other commands, the trust records and the ledger |
| ExecutionService.DurableActionExecutionService.ExecuteReadyAction | durable_execution.py:802-929 | by the state of the command: an uncertain one is read, an acknowledged one verified with its incident VERIFYING, a refuted one rolled back, others left alone; a READY one reaches `adapter.execute` if and only if everything is in order at each look, the lease lasts and the charge is possible, and otherwise is left FAILED, OUTCOME_UNKNOWN, SENT or READY as the failing look says, and blocked when the first look refuses it |
| ExecutionService.DurableActionExecutionService.PersistBlock | durable_execution.py:773-782 | a blocked READY command fails and any other is untouched, an APPROVED incident is blocked and any other is untouched, a row reports it, and nothing is charged, called or resolved |
| ExecutionService.DurableActionExecutionService.EnsureOwnership | durable_execution.py:739-761 | keeps a live lease of the incident, takes a free or expired one for 300 seconds, refuses exactly another incident's live one |
| ExecutionService.DurableActionExecutionService.RecordCostOnce | durable_execution.py:635-654 | charges a command at most once, 75 cents for a guaranteed session, 20 for any other, nothing for the rest; a charge filed for another incident is a conflict |
| ExecutionService.DurableActionExecutionService.AfterExecute | durable_execution.py:901-929 | an overtaken snapshot changes nothing; otherwise the answer alone decides between ACKNOWLEDGED with its resource, FAILED with a record of no improvement, and OUTCOME_UNKNOWN, and only the first goes on to a verification |
| ExecutionService.DurableActionExecutionService.AfterReconcile | durable_execution.py:941-971 | a safe read acknowledges, fails or leaves uncertain, never calls the provider to act, and resolves nothing |
| ExecutionService.DurableActionExecutionService.AfterVerify | durable_execution.py:973-1024 | the record and the incident show the verdict; proven the command is SUCCESS, refuted ROLLBACK_REQUIRED, otherwise RECONCILIATION_REQUIRED, unless it was overtaken; a refuted one goes on to `adapter.rollback` exactly when it may; whatever becomes SUCCESS or RESOLVED has its evidence on record |
| ExecutionService.DurableActionExecutionService.MaybeResolve | durable_execution.py:1026-1051 | with all plan commands SUCCESS and an improvement on record a VERIFYING incident is resolved as VERIFIED_IMPROVED, none of its leases is left and every other lease stays; otherwise nothing changes |
| ExecutionService.DurableActionExecutionService.BeginRollback | durable_execution.py:1053-1125 | `adapter.rollback` is reached if and only if mode and adapter allow it, the command has a resource and a kind that can be undone, its undoing command is new or READY, the recovery no further than RELEASING and the lease live; then the one undoing command is SENT; a rollback that cannot be made is a FAILED recovery and an ESCALATED incident; nothing is charged or resolved |
| ExecutionService.DurableActionExecutionService.AfterRollback | durable_execution.py:1126-1152 | the answer alone decides the rollback command; an unknown one leaves the recovery PARTIAL and the incident no longer VERIFYING, an explicit failure FAILED, a refusal as it was; nothing is resolved |
| ExecutionService.DurableActionExecutionService.AfterVerifyRollback | durable_execution.py:1153-1198 | a verified rollback ends both commands and the incident on its own evidence, and completes every recovery that has not failed, a PARTIAL one too; an unverified one resolves nothing and leaves it PARTIAL |
| ExecutionService.OwnershipRepository.Acquire | durable_core.py:347-355 | an expired or released lease is taken for 300 seconds, an expired one with a new version; exactly a live one of another owner is refused |
| ExecutionService.OwnershipRepository.ReleaseAll | durable_execution.py:1047-1051 | exactly the leases that the incident holds are released |
| ExecutionService.CostLedger.Append | durable_core.py:451-462 | one entry per ledger identity; a different entry under it is a conflict |
| ExecutionService.CostLedger.IncidentTotal | durable_core.py:466-466 | the loop computes the incident's total |
| ReconciliationRuns.NeverMutates | durable_reconciliation.py:299-439 | a reconciler call never calls `execute` or `rollback` |
| ReconciliationSurroundings.ReconciliationBounded | durable_reconciliation.py:113-158 | among complete handlers, decisions, restarts, calls for other commands and operators: at most two adapter reads of the reconciler for each allowed attempt plus one for each call that died, at most `maxAttempts` attempts, and after `2 * maxAttempts + 1` due calls that ran to their end the command is settled or escalated; reads that the executor's handlers make are not counted |
| ReconciliationSurroundings.SettledForGood | durable_reconciliation.py:320-329 | and then it stays so, with no further read and no further record |
| ReconciliationSurroundings.AttemptsStaySpaced | durable_reconciliation.py:97-106 | attempt k + 1 is at least the sum of the first k backoffs after attempt 1, and that sum fits before the deadline, which bounds the attempts arithmetically |
| ReconciliationSurroundings.HandlerLeavesAlone | durable_execution.py:802-1198 | a complete handler of the executor leaves alone what the reconciler relies on between two calls |
| ReconciliationRuns.CallSpends | durable_reconciliation.py:299-439 | one call keeps the records numbered, spaced and in time order, pays every read out of the budget, leaves less budget or nothing to do when due, and changes nothing when not due |
| ReconciliationService.DurableActionReconciliationService.ReconcileAction | durable_reconciliation.py:299-354 | a call does nothing while another incident holds the resource, the command needs no reconciliation or was escalated; it escalates when time or attempts are used up, reads if and only if a read is due and possible, and verifies if and only if that is; it writes no command but its own and tells the provider nothing |
| ReconciliationService.DurableActionReconciliationService.FinishRead | durable_reconciliation.py:374-439 | on record under its attempt number an available resource is PROVIDER_AVAILABLE, a coming one WAITING_FOR_PROVIDER, a known one that is gone PROVIDER_NOT_FOUND; only the first acknowledges an uncertain command and goes on to its verification, only the last fails it and hands the incident to an operator, and otherwise OUTCOME_UNKNOWN becomes RECONCILIATION_REQUIRED |
| ReconciliationService.DurableActionReconciliationService.FinishReverify | durable_reconciliation.py:605-705 | the re-verification is on record and displayed; VERIFIED_IMPROVED makes the command SUCCESS, no improvement or a degradation ROLLBACK_REQUIRED with the row that asks for the rollback, anything else RECONCILIATION_REQUIRED; what follows has its evidence on record |
| ReconciliationService.DurableActionReconciliationService.SaveTerminalEscalation | durable_reconciliation.py:235-266 | the terminal marker is written once; it marks the incident for manual reconciliation and moves one that was being worked on to ESCALATED |
| Decisions.DecideOnce | durable_reasoning.py:403-426 | a decision delivered again while its incident still stands where it left it, whatever it says, changes nothing |
| Decisions.DeliveryChangesNothingExactly | durable_reasoning.py:527-616 | in any world a delivery changes nothing if and only if the incident is unknown, decided or stale, or every planned command is known and the handler dies or cannot walk to its target |
| LateDecisions.LateDecisionStops | durable_reasoning.py:527-616 | in every run a decision delivered during mitigation or verification changes nothing exactly then; else it only stores commands, and the provider is never again told to execute anything for that incident |
| LateDecisions.OvertakenStops | durable_execution.py:680-724 | once a newer plan than the incident's has commands, nothing more is executed for the incident, however the handlers interleave |
| DecisionService.DurableReasoningService.HandleDurableIncidentReady | durable_reasoning.py:540-632 | changes nothing exactly when the incident is unknown, decided or stale, or nothing new is planned and the walk is not possible; when it takes effect the incident shows the verdict under the next plan version, with its row; it charges, calls and resolves nothing |
| DecisionService.DurableReasoningService.CreateCommands | durable_reasoning.py:540-601 | the creation loop: one `create_or_get` for each planned action |
| PlatformLifecycle.ReconstructPlatformState | platform_lifecycle.py:138-223 | repairs every active incident, leaves no command SENT, changes nothing else, and accepts exactly the states whose leases, unfinished commands, PENDING verifications and recoveries in progress belong to active incidents and whose views agree |
| PlatformLifecycle.RollbackReconstructs | durable_execution.py:1153-1198 | after a verified rollback the restart accepts if and only if the incident held no lease, had no other unfinished command and no PENDING read |
| PlatformLifecycle.BlockReconstructs | durable_execution.py:773-782 | after a block of an APPROVED incident it accepts if and only if the incident held no lease, was not recovering, had no PENDING read and no unfinished command besides the blocked one |
| PlatformLifecycle.MitigationReconstructs | durable_execution.py:1026-1051 | after a verified mitigation it accepts if and only if the incident was not recovering, no command of it, of whatever plan, was unfinished, and no read of it was PENDING |
| RestartClosings.DecisionReconstructs | durable_reasoning.py:540-616 | a decision that closes an incident is a BLOCK, and after it the restart accepts if and only if the incident held no lease, was not recovering, and had no PENDING read and no unfinished command, such as an interrupted authorisation stores |
| RestartClosings.OperatorReconstructs | durable_core.py:304-311 | the same for an operator's transition to a closed state |
| RestartClosings.StepCloses | durable_core.py:94-103 | in every run an incident is closed only by a block on the way to the provider, an IMPROVED verification of either service, a verified rollback, a BLOCK decision or an operator, each of which gains nothing for any other incident |
| RestartClosings.ClosingReconstructs | platform_lifecycle.py:138-172 | after every closing step of every run, from a state that a restart accepts, it accepts if and only if nothing is left of the incident |
| RestartClosings.LateRollbackReconstructs | durable_execution.py:1053-1125 | a rollback started for a closed incident makes the restart refuse if and only if it creates its rollback command, whatever becomes of that |
| StrandedReads.PendingForGood | platform_lifecycle.py:169-172 | in every run among the surroundings of the reconciler a PENDING read stays so, and whenever its incident is closed, by whatever step, the restart is refused |
| StrandedReads.ReconcilerStrandsItsRead | durable_reconciliation.py:211-233 | whenever a call of the reconciler resolves an incident, it is that of its command, and every later restart is refused |
| ReconcilerRefusal.ReconcilerSuccessStrandsRead | durable_reconciliation.py:387-411 | for all identities, every instant, all settings that allow mutations and every valid retry policy there is a run in which the reconciler proves the mitigation, nothing but its read is left of the incident, and the restart is refused |
| RestartRefusals.RollbackStrandsLease | durable_execution.py:1185-1193 | for all identities, every instant and all settings that allow mutations there is a run to a verified rollback after which the restart is refused |
| RestartRefusals.BlockStrandsSibling | durable_execution.py:773-782 | a run to a block that strands a READY sibling: refused |
| RestartRefusals.LateDecisionStrandsCommand | durable_reasoning.py:552-616 | a run in which a late delivery raises but stores a command, the mitigation succeeds, and the restart is refused |
| RestartRefusals.BlockDecisionStrandsCommand | durable_reasoning.py:546-602 | a run in which an authorisation dies after storing its command and is concluded with BLOCK when delivered again: refused |
| IncidentRepository.LifecycleBounded | durable_core.py:88-103 | in every run each incident's log is a path of at most nine transitions ending in its state, and no two active incidents share a correlation key |
| IncidentRepository.ClosedForever | durable_core.py:304-312 | a closed incident keeps its state and its log for ever |
| IncidentRepository.PathClimbs | durable_core.py:94-103 | the transition graph is acyclic: no state twice, nothing after a closed state |
| IncidentRepository.NineIsReached | durable_core.py:94-103 | the bound of nine is attained |
| IncidentRepository.IncidentRepository.MoveTo | durable_core.py:88-103 | moves if and only if the state may be reached from the stored one, told from where each state is reached; one version and one log entry, and a closing time exactly when it closes |
| IncidentRepository.AdvanceReaches | durable_reasoning.py:428-460 | the walk of a decision ends in its target, with one version for each step, and touches one incident |
| IncidentRepository.AdvanceLogs | durable_reasoning.py:428-460 | the walk logs exactly the remaining transitions |
| IncidentRepository.IncidentRepository.Advance | durable_reasoning.py:428-460 | the loop reaches its target exactly when the incident is on the decision path, and otherwise changes nothing |
| IncidentRepository.IncidentRepository.CreateOrGetActive | durable_core.py:282-289 | reuses the active incident of the correlation, or opens one |
| RecoveryConsistency.RecoveryOnlyForward | recovery_consistency.py:9-23 | under any interleaving of writers each state leads to the next as the table says, told from where it leads; at most five states, and FAILED and COMPLETE are permanent |
| RecoveryConsistency.RecoveryService.SaveAndRepair | recovery_consistency.py:44-58 | saves if and only if the record is new, unchanged, or may lead there: to COMPLETE from everything but FAILED, to FAILED and PARTIAL before it was partial, never back; the incident shows it afterwards |
| RecoveryConsistency.RecoveryService.Repair | recovery_consistency.py:25-42 | with other writers between the read and the write of each attempt: afterwards the incident shows the authoritative state and every write of theirs stands, or it is unknown, or others wrote it during every attempt |
| OutboxRepository.Fenced | durable_core.py:412-433 | claims get strictly rising generations, and every later call with an earlier generation is refused and changes nothing, however often the identity of the row is appended again |
| OutboxRepository.ClaimsNeverOverlap | durable_core.py:417-423 | a row that was not given back is claimed again only after the claim before it has run out |
| OutboxRepository.AckedExactly | durable_core.py:412-433 | an acknowledged row stays sent exactly as long as its acknowledger reports no failure of the same claim |
| OutboxRepository.AckedForGood | runtime_events.py:465-484 | in every run of consumers, redeliveries included, an acknowledged row stays sent and is never claimed again, if and only if nothing raised between `ack` and the end of the `try` block |
| OutboxRepository.NothingIsLost | durable_core.py:406-433 | at every moment of every run a claim succeeds exactly when the row is not sent and no claim of it is running, and a sent row has been acknowledged |
| OutboxRepository.OutboxRepository.Append | durable_core.py:406-408 | a new identity is stored as given, a known one changes nothing |
| OutboxRepository.OutboxRepository.Claim | durable_core.py:417-423 | claims the oldest claimable rows, at most the limit, and no other |
| OutboxRepository.Consumer.ProcessRow | runtime_events.py:436-489 | the `try` statement of one row: processed exactly when `ack` was accepted and nothing raised; an exception after it gives the row back; a lost claim changes nothing |
| OutboxRepository.Consumer.ProcessOnce | runtime_events.py:428-493 | the sweep claims at most the limit of free rows; one whose claim ran out before its turn stays claimed, an acknowledged one is sent, one whose handling raised is pending again; it touches no other row and counts exactly the acknowledged ones |
| ReplayEquivalence.ReplayRebuilds | durable_core.py:644-690 | replaying the log rebuilds the live projection, versions and incident identities included, if and only if no event reopened a correlation whose incidents were all closed; the process cache equals the repository |
| ReplayEquivalence.ReplayRebuildsWhileOpen | durable_core.py:708-718 | in particular when no incident was ever closed |
| ReplayEquivalence.AppendsSettle | durable_core.py:644-651 | no append of a run is lost to a version conflict, and a redelivered key changes nothing |
| PlatformReplay.DurablePlatformCore.AppendEvent | durable_core.py:644-690 | accepts an event once by key and by identity; an accepted one is logged, and unless its entity shows a later time, shown by the entity with the operational state of its level; a High congestion, and nothing else, leaves its correlation with an active incident, opening one that the entity lists when there is none |
| PlatformReplay.DurablePlatformCore.ReplayProjection | durable_core.py:708-712 | the loop over the log computes the replayed projection and leaves the live core alone |
| InboundProcessing.InboundEventRepository.Process | durable_core.py:489-544 | all five repositories are written, or every one of them is put back |
| InboundProcessing.RuntimeEventIngestor.IngestRuntimeEvent | runtime_events.py:140-320 | with other ingestors between plan and transaction of each attempt: refuses what is not canonical; what it accepts is shown by the entity unless outdated, a High congestion is announced as DURABLE_INCIDENT_READY and listed with its incident, and every other event leaves the incidents alone with a row for the runtime view; gives up only when others wrote its entity during every attempt, with nothing of its own left |
| IngestionRuns.LogComplete | durable_core.py:489-544 | in every run event identities and keys are unique, every key is claimed, and every event has its outbox row |
| IngestionRuns.StoredEvidenceIsNewest | runtime_events.py:140-243 | however stale the ingestors' plans, every channel of every stored entity shows exactly the newest accepted event, and every listed incident exists |
| IngestionRuns.HighOpensIncident | runtime_events.py:205-243 | in every run, however stale the plans, an accepted High congestion that was not outdated is announced and listed with an incident, one of which is active unless the one it was planned with was closed before the transaction; every other event opens nothing |
| IngestionRuns.CancelledMeanwhile | runtime_events.py:205-243 | for every cell and time there is a run in which that happens: a High congestion leaves its cell without an active incident |
| EvidenceConvergence.ShowsTheNewest | runtime_events.py:140-202 | each channel shows value and time of its newest event, under both projections |
| EvidenceConvergence.Converges | durable_core.py:653-677 | every arrival order, redeliveries included, leads to the same values and times |
| EvidenceConvergence.CoreShows | durable_core.py:653-677 | what the core shows after any arrivals, negative times included: the newest event, or nothing when that is negative and another channel made the entity known |
| EvidenceConvergence.CoreConvergesExactly | durable_core.py:653-677 | all arrival orders agree on a channel if and only if no event concerns it, its newest time is not negative, or every event of the entity concerns it |
| EvidenceConvergence.TimesNeverDecrease | durable_core.py:653-677 | channel times never decrease, negative ones included and under both projections, and an observed channel stays observed |
| AuditChain.EqualHeads | memory.py:290-295 | two valid chains with the same head hash are equal record for record |
| AuditChain.WritersAgree | memory.py:311-350 | under any interleaving of writers, reloads, appends that fail or commit unheard, and restarts every local list is a prefix of the shared history, which only grows, always verifies and repeats no checkpoint |
| AuditChain.ThirdConflictNeedsThree | memory.py:321-352 | with any number of writers, one that gives up found three records of others that it did not know when it began, and its own checkpoint is in none |
| AuditChain.UnheardIsStored | memory.py:142-170 | a writer that appends again what was committed without its knowledge, whatever others have appended since, gets its record and adds none |
| AuditChain.MemoryStore.RememberIncident | memory.py:311-350 | with other writers appending before each attempt: the method adds its one record to theirs or none; a record that was committed without its knowledge comes back in the first round; it gives up only after three rounds in which at least three records of others appeared |
| AuditChain.MemoryStore.VerifyAuditChain | memory.py:402-413 | the loop finds the first record that breaks the chain, or none exactly when the chain is valid |
| AuditChain.HistoryRepository.AppendRecord | memory.py:142-170 | an identical record is returned, another one under its checkpoint is a conflict, a stale tail is a conflict, and otherwise the record is appended |
| RateLimiterRefinement.RefinesNaive | api_security.py:163-184 | decides as the naive full-log limiter as long as the live keys have fitted, refuses rightly even without that, and stores at most `maxKeys` keys |
| RateLimiterRefinement.NoWindowOverfull | api_security.py:151-184 | as long as the live keys fit no window holds more than `limit` acceptances of a key |
| RateLimiterRefinement.NeverOverfullExactly | api_security.py:151-184 | for all bounds: no run over at most `n` keys overfills a window if and only if `n` is at most `maxKeys` |
| RateLimiterRefinement.EvictionForgets | api_security.py:174-178 | with a full live table, for all bounds, a new key evicts the oldest, and that key is accepted again however much it had used up |
| RateLimiter.BoundedRateLimiter.AllowRequest | api_security.py:163-184 | expiry, eviction, trimming and the decision on the ordered table |
| TriageProperties.TriagePasses | agents.py:1809-1835 | for any proposals and advice the plan is within the device limit, on selected devices only, and repeats no action |
| TriageProperties.NormalizedPasses | agents.py:969-1029 | so is the normalized plan, which keeps only permitted actions |
| TriageProperties.PlannedExactly | agents.py:1809-1826 | an action is planned exactly when it was proposed for a selected device |
| TriageProperties.PlannerOnlyReorders | agents.py:1865-1872 | the planner's advice changes the order of the actions and nothing else, and its order is the one they stand in |
| TriageProperties.AcceptedRanking | agents.py:259-279 | an accepted ranking is taken literally, unranked candidates come last, and confidence stays within [0, 1] |
| TriageProperties.WardenAgreesWithTriage | agents.py:1077-1127 | outside durable planning WARDEN approves proposals of the playbooks exactly when the plan is nonempty, safe to the client and needs no human |
| TriageProperties.DurableWardenDecides | agents.py:1077-1192 | on the durable path WARDEN approves the normalized plan if and only if it has actions, needs no human, the context is current, the money spent and planned stays below the ceiling, no other incident holds a device, and trust allows; everything else follows from the normalization |
| TriageProperties.DurableDecision | durable_reasoning.py:535-546 | which plans are authorised, blocked and escalated, in all cases |
| TriageOrder.HighestStandingSelected | agents.py:1772-1826 | without the advice of the crew no device is left out for one that it outranks by tier, congestion of its cell, Tier-1 devices there and confidence, and none while there is room |
| TriageOrder.RankedByStanding | agents.py:1772-1813 | two proposals stand in the order of the standing of their devices, and equal ones in the order in which they were made |
| TriageOrder.TriagedFigures | agents.py:1827-1930 | 75 cents for each guaranteed session and 20 for each other, the share of the fleet acted on, the confidence within 0 and 1, and the mark exactly when a limit is exceeded |
| TriageOrder.NormalizedFigures | agents.py:969-1029 | the normalized plan keeps exactly the actions that are safe, in scope and possible, on their devices, with their figures |
| TriageOrder.ApprovesExactly | agents.py:1077-1127 | WARDEN approves a plan if and only if it has actions, each of an allowed kind with its parameters, on selected devices and not unsafe, none twice, and all figures within bounds |
| Triage.SelectBounded | agents.py:1809-1826 | the loop takes the first `max` distinct devices in ranked order with all their distinct actions |
| Triage.Graph.NormalizeNode | agents.py:969-1029 | the loops recompute actions, devices, cost, radius and the mark |
| Triage.Graph.TriageNode | agents.py:1795-1930 | the node stores the plan of the ranked candidates |
| PlaybookProperties.EnergyGuardNeedsWindow | playbooks.py:143-205 | Energy Guard acts on a device exactly when it is low on battery in a hot cell whose history is an unbroken High window |
| PlaybookProperties.SustainedIsUnbroken | playbooks.py:161-179 | a sustained history has only High samples, none in the future, the first old enough, and at every instant a sample at most one gap old |
| PlaybookProperties.UnbrokenIsSustained | playbooks.py:161-179 | and every such history is sustained |
| PlaybookProperties.OrderDoesNotMatter | playbooks.py:211-320 | permuting the devices does not change the result of `evaluate` |
| PlaybookArbitration.ProposalsExactly | playbooks.py:46-205 | which playbook proposes what for which device, said of tier, battery, readings, history and fleet |
| PlaybookArbitration.WinnerByName | playbooks.py:240-298 | each wanted resource has one winner: Energy Guard against everybody, Storm Shield against Capacity Harvest |
| PlaybookArbitration.ResultInOrder | playbooks.py:300-318 | the result lists Energy Guard before Storm Shield before Capacity Harvest, within a playbook by device, for one device by kind |
| Playbooks.Evaluate | playbooks.py:211-320 | keeps one candidate of highest precedence for each resource that any playbook wants, in the order of the result |
| Playbooks.StormShieldActions | playbooks.py:46-110 | the loop appends the shield of each threatened Tier-1 device |

## Left out

- Failure reasons, metrics, logging, trace and rationale texts, provenance strings, public views: no decision modelled here reads them.
- The validation clean-up path (durable_execution.py:450-582, durable_reconciliation.py:441-603) deliberately reopens SUCCESS commands of test-only identities.
- The body of the Nokia adapter, the Postgres and Supabase wrappers, HTTP routes, the user interface and model calls; model advice is an arbitrary ranking and confidence.
- `_require_safe`, redaction, masking and `_safe_history_value`: text screening without state.
- `enqueue_due` and the polling loops: the scheduler has no liveness guarantee, because appending a sent outbox identity is a no-op.
- `mark_sent`, checkpoints, resource locks, lease `renew` and single `release`: no modelled handler uses them.
- One clock reading stands for the several of a segment, except on the way to the provider, where five are kept.
- A failure hook after `adapter.execute` wins over an explicit provider failure; in the source an explicit failure raised by the adapter comes first. Hooks exist for fault injection only.
- A lease expiry of 0 and an empty provider identity count as missing in the source; the model uses absent values only.
- The order in which a dictionary is scanned is arbitrary, except in the outbox and in the playbooks' result.
- Unknown action kinds, unsupported congestion levels, and an exception inside WARDEN's checks; trust evidence outside durable planning is an input.
- The heartbeat that renews a claim is an arbitrary sequence of renewals in the runs of a row; the sweep of `ProcessOnce` runs without it.
- The decision handler's first look at the incident, before the model is asked: it skips decided and terminal incidents without a write.
- Records of persistence integration tests, which the reconstruction filters out, and negative versions and unknown action states, which it refuses and the model cannot express.
- ExecutionRuns.NoFalseSuccess: speaks of the commands of the two services; the test-only clean-up path above is not a step of the runs.
- ReconciliationSurroundings.ReconciliationBounded: calls and handlers run one after the other, because one consumer handles rows one at a time; a handler whose process dies half-way is included.
- StrandedReads.PendingForGood: in the same runs; two overlapping calls for one command could overwrite a read under one attempt number.
- LateDecisions.LateDecisionStops: each answer resumes a handler that waits for it, with the snapshots it was suspended with; `ExecutionRuns` needs no such link.
- IngestionRuns.LogComplete: assumes that the truncated incident hash never names two incidents.
- RecoveryConsistency.RecoveryOnlyForward: bounds states of the authoritative record; the projected field is repaired by sequential callers only.
