# Delivery engine: model and proofs

The delivery engine sends one-time codes through a route of providers. Its database is shared by clients, dispatch
workers, an external send authority, provider callbacks, recovery, cleanup and administrators, all of which may be
late, duplicated, interrupted or interleaved. This project models that database as one transition system, each
transaction as one step, and proves what holds over every run.

Two layers say the same thing. The tables are values of the datatype `Db` (module `Engine`), and each transaction is a
function on them; invariants and run properties are lemmas about these functions. The class
`Transactions.DeliveryEngine` holds the tables as fields that its methods update statement by statement, with the loops
and early returns of the source; each method is proved to leave `State()` equal to the function of the old `State()`.
The classes `Registry.RuntimeRegistry`, `History.EventStore`, `Publication.Publisher`, `Publication.Receiver`,
`Verification.ManagedChallenge`, `Creation.CreationStore` and `Notifications.NotificationTable` do the same for the
other components.

## Structure

- `Prelude`, `Records`, `Decision`, `Routing`, `RoutingInvariant`, `RoutingSteps`, `RowFrames`: the rows of one
  operation, the statements on them, and the routing invariant that every statement keeps.
- `Quotas`, `QuotaProofs`: the sliding-window ledger, its exact retry instants, its bounds, and invisible cleanup.
- `Authority`, `Eligibility`, `Revocation`: projects, grants, resources, epochs, captured send intents, and why
  permission only shrinks.
- `Engine`, `EngineInvariant`, `EngineSteps`, `InboxSteps`: the database, its transactions and its invariant.
- `EngineWrites`, `EngineRuns`, `EngineFrames`: every transaction is a chain of single writes. `RunReached` is the
  induction over runs; a property of all runs needs a proof about each kind of write only.
- `Commitments`, `Fencing`, `LedgerRecords`, `Windows`, `Spacing`, `AppliedEvidence`, `Convergence`, `Permission`,
  `RoutingFacts`, `FallbackHistory`, `Rejection`, `Pruning`: the results over runs.
- `Transactions`, `Registry`: the tables updated in place.
- `Walkthrough`: two runs from an empty deployment: a whole delivery, so that what the results over reachable states
  speak of is known to occur, and a submission that is rejected halfway.
- `History`, `Publication`, `Canonical`, `Verification`, `Creation`, `Notifications`: the other machines.
- `GuessWindows`, `ManagedRuns`: verification on the quota ledger that it shares with the engine, and challenges beside the
  engine's rows of their operations.

## What a run may contain

A step is any transaction with any arguments, at any time, any number of times. `EngineRuns.Honest` restricts it only by
what the environment guarantees:

- the database clock read under the locks never goes back, also within a transaction;
- identifiers are fresh: an attempt is named by its operation and its place in it, and no guess is numbered twice;
- workers report outcomes only for attempts they were handed, that is, committed ones, and callbacks name only such
  attempts;
- a decision of the send authority belongs to a claim that was given out;
- ledger cleanup deletes only events at least a day old;
- all references that a callback batch touched are reconciled, in whatever order.

`Db.trail`, `Db.observations` and `Db.reserved` are the model's history: what happened, which evidence was recorded,
and which committed attempts have not been handed to a provider yet. The code keeps evidence as attempt events; the
rest exists only to state properties.

## Where the promise does not hold

- `docs/data-model.md` says that code attachment and initial delivery work are atomic. The submitting transaction
  commits its rejections, and capturing the policy's authority can be rejected after the code was attached and the
  operation was activated. `Rejection.SubmitIsAtomicExactlyWhenPolicyHeld` gives the exact condition,
  `Walkthrough.SubmitCanStrand` a reachable instance, `Rejection.StrandedStaysUnsent` what clients then see. One-step
  creation is not affected, because it rolls back.
- The attempt counter of a notification fences finishers only between replays: `Notifications.ReplayReopensTheFence`
  is an instance, `Notifications.FinisherActsExactlyOnItsNumber` the exact condition over all histories.

## Model

| member | source | states |
|---|---|---|
| RoutingFacts.OnePendingAttempt | packages/engine/src/delivery/dispatch.ts:41-45 | In every reachable state an operation has at most one pending attempt; it is the current one, its operation is active with a valid recipient, it carries the current routing revision, and its own job is not stale |
| RoutingFacts.InvalidRecipientIsFinal | packages/engine/src/delivery/outcomes.ts:36-46 | Once a recipient is invalid, no run that follows ever has a pending attempt in that operation |
| RoutingFacts.ChainDescends | packages/engine/src/delivery/outcomes.ts:47-65 | Two attempts of one routing revision: the later is a fallback, strictly further down the route, under the same intent, and the earlier one failed (or later turned out delivered) |
| RoutingFacts.RevisionIsBounded | packages/engine/src/database/migrations/0001_initial.ts:191 | A routing revision uses each route step at most once, so it has no more attempts than steps and strictly fewer fallbacks: the unique advancement index is never violated |
| FallbackHistory.FallbackFollowsOneFailure | packages/engine/src/delivery/outcomes.ts:47-65 | In every reachable state the parent of every fallback is the attempt before it, in the same revision and intent and further up the route, and among all observations of the parent there is exactly one with which it became failed |
| FallbackHistory.NewFallbackHasCause | packages/engine/src/delivery/decision.ts:57-96 | Whatever write makes a fallback, in that very write its parent is observed to fail, having been neither failed nor delivered before |
| RoutingFacts.RecoveryResendsNothing | packages/engine/src/delivery/recovery.ts:28-39 | Recovery creates no attempt and changes exactly the overdue dispatches, to uncertain |
| RoutingFacts.DecisionsLeaveEvidence | packages/engine/src/delivery/authorization.ts:122-178 | In every reachable state every decision, of any claim and at any time, leaves the state of every attempt that is not pending alone, and all that is known of it unless it is suppressed: delivered, failed, accepted, uncertain and dispatching absorb decisions |
| RoutingFacts.EvidenceOnlyStrengthens | packages/engine/src/delivery/decision.ts:24-49 | Over every run the state of a committed attempt never weakens; failed stays failed or turns delivered, delivered stays delivered |
| Commitments.AtMostOneCall | packages/engine/src/delivery/dispatch.ts:230-295 | In every reachable state each attempt has at most one provider call, after its only commitment, and the calls of an operation stay within its send allowance, under duplicate jobs, crashes and late evidence |
| Commitments.NeverPendingAgain | packages/engine/src/delivery/dispatch.ts:68-201 | Over every run an attempt that left pending never returns, suppressed is final, and a commitment is neither repeated nor withdrawn |
| Commitments.CommitsKept | packages/engine/src/delivery/dispatch.ts:181-201 | Every write of every transaction keeps commitments, recorded dispatches, calls and open reservations in one-to-one agreement |
| Fencing.DispatchStandsOnItsClaim | packages/engine/src/delivery/dispatch.ts:46-67 | In every reachable state each dispatch happened outside all project blocks and, where authorization is required, on an unexpired approval of a claim with no project denial recorded in between |
| Fencing.StaleDecisionChangesNothing | packages/engine/src/delivery/authorization.ts:122-178 | A decision of a superseded claim generation changes nothing except what expiry changes |
| Fencing.FencedInductive | packages/engine/src/delivery/authorization.ts:33-178 | Every write keeps the agreement of claims, generations, denials, approvals and dispatches that the two results above rest on |
| AppliedEvidence.EvidenceInductive | packages/engine/src/delivery/callbacks.ts:70-95 | Every write keeps: states follow the observations, rows are unique per instance and key, and a row is processed exactly when it was applied, once, to the attempt it names |
| Convergence.StateIsStrongestEvidence | packages/engine/src/delivery/decision.ts:24-49 | In every reachable state a committed attempt is in the maximum of all evidence that exists for it, from responses, local checks, recovery and received callbacks |
| Convergence.ArrivalOrderIsIrrelevant | packages/engine/src/delivery/callbacks.ts:120-188 | Two reachable states with the same evidence for an attempt agree on its state, whatever the interleaving, batching and repetition |
| Convergence.NoCallbackWaits | packages/engine/src/delivery/callbacks.ts:120-144 | In every reachable state no unprocessed inbox row matches a registered alias |
| Convergence.EachRowAppliedOnce | packages/engine/src/delivery/callbacks.ts:70-95 | Each inbox row is applied at most once, to the attempt its alias names, and is then processed; rows are unique per provider instance and key |
| Convergence.RetentionKeepsEvidence | packages/engine/src/maintenance.ts:43-45 | Inbox retention, a step of every run, removes no evidence of any attempt |
| Convergence.StepSettles | packages/engine/src/delivery/callbacks.ts:46-188 | No transaction leaves behind a callback it could have applied, aliases registered during the transaction included |
| Decision.ResultIsMaximum | packages/engine/src/delivery/decision.ts:24-32 | Merging one state into another is the maximum of uncertain < accepted < failed < delivered |
| Decision.FoldIsStrongest | packages/engine/src/delivery/decision.ts:24-49 | Any history of evidence ends in its strongest member |
| Decision.FoldIgnoresOrderAndRepetition | packages/engine/src/delivery/decision.ts:24-49 | Histories with the same members end alike |
| Permission.BarredIntentNeverDispatches | packages/engine/src/delivery/dispatch.ts:68-201 | After an intent loses a provider instance, every run that follows commits nothing more under it there, even after reactivation or a new grant |
| Permission.IneligibleIntentNeverDispatches | packages/engine/src/delivery/eligibility.ts:18-37 | After an intent became ineligible, every run that follows commits nothing more under it |
| Revocation.RevocationIsPermanent | packages/engine/src/delivery/eligibility.ts:18-119 | Under every sequence of admin commands an ineligible intent stays ineligible and the steps an intent may use only shrink |
| Revocation.AdministerAdvances | packages/engine/src/runtime/mutate.ts:58-198 | Every admin command keeps the world valid and moves epochs, revocations, versions and withdrawn revisions in one direction only |
| Revocation.FreshCapture | packages/engine/src/runtime/store.ts:102-124 | An intent captured now is eligible now and records grants and epochs that exist |
| Windows.EngineWindowSafety | packages/engine/src/delivery/quotas.ts:131-176 | In every reachable state and at every instant, no window of any create, guess or send limit in force holds more counted events than its maximum |
| LedgerRecords.LedgerInductive | packages/engine/src/delivery/quotas.ts:165-176 | Every write keeps the ledger sound: only named events are counted, none in the future, and each in the scopes it was charged to |
| QuotaProofs.RetryAtExact | packages/engine/src/delivery/quotas.ts:131-164 | With nothing more counted, the check over all limits fails at every instant before the reported one and passes from it on |
| QuotaProofs.BlockedMeansFull | packages/engine/src/delivery/quotas.ts:131-149 | A limit blocks if and only if its window holds at least its maximum of events |
| GuessWindows.VerificationReachable | packages/engine/src/challenges/verify.ts:66-141 | What a verification of any challenge does to the shared ledger is a step of the engine: the state after it is reachable |
| GuessWindows.GuessesAreBounded | packages/engine/src/challenges/verify.ts:66-141 | After any verification in any run of deliveries and verifications, no window of any recipient's guess limit holds more counted guesses than its maximum |
| Pruning.CleanupIsInvisible | packages/engine/src/maintenance.ts:39-42 | For every run from a new deployment, the run without its cleanup steps is a possible run too, ends with the same operations, attempts, blocks, inbox, aliases, evidence and history, and answers every next request alike |
| Pruning.StepPruned | packages/engine/src/delivery/quotas.ts:131-176 | Every transaction does the same and answers the same on a database and on one whose ledger has forgotten what no window can still see |
| Spacing.SendsAreSpaced | packages/engine/src/delivery/actions.ts:62-78 | In every reachable state an explicit send keeps the cooldown after activation, earlier explicit sends and earlier commits of its operation, and an admission or explicit send for a recipient keeps 30 seconds after any earlier admission, explicit send or commit |
| Spacing.CooldownNeverDecreases | packages/engine/src/delivery/dispatch.ts:181-187 | Over every run the next user send instant of an operation never decreases |
| Rejection.RejectedSendWritesNothing | packages/engine/src/delivery/transaction.ts:41-55 | A rejected explicit send leaves the database as it was, up to logical expiry, although rejections commit |
| Rejection.AcceptedSendCreatesOne | packages/engine/src/delivery/actions.ts:62-80 | An accepted explicit send creates exactly one pending attempt, the current one of a new routing revision under a new intent, and leaves no other pending |
| Rejection.SubmitIsAtomicExactlyWhenPolicyHeld | packages/engine/src/delivery/lifecycle.ts:77-117 | Attaching a code is all or nothing if and only if the operation does not await this code or its policy is still enabled and granted; otherwise the rejection commits an active operation without attempts |
| Walkthrough.SubmitCanStrand | packages/engine/src/runtime/store.ts:102-111 | It happens in ordinary use: a reachable state, built step by step, in which the policy of a prepared operation was disabled, the submission is rejected, and the reachable state after it holds an active operation without attempts |
| Rejection.StrandedStaysUnsent | packages/engine/src/delivery/actions.ts:19-43 | A stranded operation rejects every explicit send and answers the same code again as a success that schedules nothing |
| EngineSteps.RequestDecidedFirst | packages/engine/src/delivery/schedule.ts:12-53 | Once a target was chosen, capturing authority succeeds: no rejection can follow the first write of an explicit send |
| Walkthrough.DeliveryCompletes | packages/engine/src/delivery/callbacks.ts:158-188 | A reachable state, built step by step from an empty deployment, in which an authorized attempt was claimed, approved, committed, called once and delivered although its callback arrived before the response that names it |
| EngineRuns.ReachableNext | packages/engine/src/delivery/transaction.ts:11-38 | Reachability is closed under honest steps |
| EngineRuns.RunReached | packages/engine/src/delivery/transaction.ts:11-38 | What every single write keeps holds after every honest run, and nothing recorded is undone on the way |
| EngineRuns.RunsOnlyEvolve | packages/engine/src/delivery/transaction.ts:11-38 | Over every run the database stays valid, its rows only evolve, and aliases, inbox, observations and history only grow |
| EngineRuns.RoutingHolds | packages/engine/src/database/migrations/0001_initial.ts:158-191 | The rows of every operation satisfy the routing invariant in every reachable state |
| EngineWrites.WriteKeeps | packages/engine/src/delivery/transaction.ts:11-38 | Every kind of write keeps the database valid and evolves it |
| RoutingSteps.MergeKeeps | packages/engine/src/delivery/outcomes.ts:17-66 | Merging evidence, stopping, suppressing and falling back keeps the routing invariant |
| RoutingSteps.GateKeeps | packages/engine/src/delivery/dispatch.ts:68-201 | Each verdict of the gate keeps the routing invariant; a commit stays within the allowance |
| RoutingSteps.ClaimKeeps | packages/engine/src/delivery/authorization.ts:33-91 | Claiming or lapsing keeps the routing invariant |
| RoutingSteps.FinishKeeps | packages/engine/src/delivery/authorization.ts:122-178 | Every decision, late or not, keeps the routing invariant |
| RoutingSteps.RecoverKeeps | packages/engine/src/delivery/recovery.ts:28-39 | Recovery keeps the routing invariant |
| RoutingSteps.SendExplicitKeeps | packages/engine/src/delivery/actions.ts:70-78 | Superseding and scheduling keep the routing invariant |
| RoutingInvariant.TerminateKeeps | packages/engine/src/delivery/store.ts:20-37 | Ending an operation suppresses its pending work, erases its secrets and keeps the routing invariant |
| RoutingInvariant.ScheduleKeeps | packages/engine/src/delivery/schedule.ts:12-53 | Scheduling after the previous attempt is settled keeps one pending attempt, the current one |
| InboxSteps.RegisterValid | packages/engine/src/delivery/correlation.ts:35-41 | Registering an alias keeps every alias pointing at one addressable attempt of its provider instance |
| InboxSteps.ApplyRowValid | packages/engine/src/delivery/callbacks.ts:70-95 | Applying an inbox row keeps the database valid |
| RowFrames.GateFrame | packages/engine/src/delivery/dispatch.ts:68-201 | Only a commit verdict commits, and only the gated attempt; other commitments, authorizations and states stay |
| RowFrames.MergeFrame | packages/engine/src/delivery/outcomes.ts:17-66 | A merge moves only the state of its own attempt, to the stronger of the two, and touches no commitment or authorization |
| Eligibility.AvailableExact | packages/engine/src/delivery/eligibility.ts:44-119 | An option is offered if and only if its policy is open and its step is authorized, enabled and fits the window, with the right retry instant |
| Eligibility.ChosenIsBest | packages/engine/src/delivery/eligibility.ts:121-123 | An open option is preferred, else the one that reopens first; none only when nothing is offered |
| Eligibility.NextIsLater | packages/engine/src/delivery/eligibility.ts:125-126 | The next provider is an authorized step strictly after the given position |
| Transactions.DeliveryEngine.MergeLockedOutcome | packages/engine/src/delivery/outcomes.ts:17-66 | The statement sequence leaves exactly the database of the merge that the lemmas above speak of, and nothing outside the operation, its aliases, the restrictions and the observations changes |
| Transactions.DeliveryEngine.RecordOutcomeOf | packages/engine/src/delivery/outcomes.ts:68-78 | Expires, then merges, as one transaction of the run model |
| Transactions.DeliveryEngine.ApplyDecision | packages/engine/src/delivery/outcomes.ts:27-46 | Writes the decision's evidence, stop flags and suppression and nothing else |
| Transactions.DeliveryEngine.AdvanceRoute | packages/engine/src/delivery/outcomes.ts:47-65 | Schedules the next available provider when and only when the failure may advance |
| Transactions.DeliveryEngine.SuppressPendingAttempts | packages/engine/src/delivery/attempts.ts:77-83 | After the loop exactly the pending attempts of the wanted kind are suppressed |
| Transactions.DeliveryEngine.EraseSecretsOf | packages/engine/src/delivery/store.ts:20-27 | The secrets are gone and all pending attempts are suppressed |
| Transactions.DeliveryEngine.TerminateOperation | packages/engine/src/delivery/store.ts:28-37 | A live operation ends once, with a new routing revision; an ended one only loses secrets and pending work |
| Transactions.DeliveryEngine.Expire | packages/engine/src/delivery/store.ts:38-41 | Ends the operation exactly when it is live and due |
| Transactions.DeliveryEngine.CloseOperation | packages/engine/src/delivery/service.ts:124-127 | Closing is the close transaction of the run model, idempotent on ended operations |
| Transactions.DeliveryEngine.ScheduleAttempt | packages/engine/src/delivery/schedule.ts:42-53 | Appends the attempt, registers its alias and makes it current |
| Transactions.DeliveryEngine.ScheduleCommandFor | packages/engine/src/delivery/schedule.ts:12-53 | Captures the caller's authority, or is rejected before any write, and schedules under it |
| Transactions.DeliveryEngine.FindAvailableProviders | packages/engine/src/delivery/eligibility.ts:44-119 | The loop collects exactly the options of the specification, in route order |
| Transactions.DeliveryEngine.ChooseTargetFor | packages/engine/src/delivery/actions.ts:19-43 | Chooses the specified target or the specified rejection |
| Transactions.DeliveryEngine.RequestSendFor | packages/engine/src/delivery/actions.ts:44-80 | The explicit send transaction of the run model, rejections included |
| Transactions.DeliveryEngine.RequestLocked | packages/engine/src/delivery/actions.ts:44-80 | The part under the operation lock |
| Transactions.DeliveryEngine.ClaimAuthorizationOf | packages/engine/src/delivery/authorization.ts:33-91 | Grants a claim with the next generation, lapses the attempt, or does nothing, as the fencing lemmas require |
| Transactions.DeliveryEngine.WaitForAuthorization | packages/engine/src/delivery/authorization.ts:99-120 | Postpones a pending decision within the dispatch deadline, or lapses it |
| Transactions.DeliveryEngine.RecordProjectDenial | packages/engine/src/delivery/authorization.ts:149-153 | Raises the project's block generation and extends its block, never shortens it |
| Transactions.DeliveryEngine.ApproveLocked | packages/engine/src/delivery/authorization.ts:160-178 | Stores the approval and suppresses the attempt when it is unusable |
| Transactions.DeliveryEngine.FinishAuthorizationLocked | packages/engine/src/delivery/authorization.ts:122-178 | Every decision has exactly the specified effect on attempt and block |
| Transactions.DeliveryEngine.FinishAuthorizationOf | packages/engine/src/delivery/authorization.ts:122-178 | The finishing transaction of the run model |
| Transactions.DeliveryEngine.AuthorizationPermitsDispatch | packages/engine/src/delivery/dispatch.ts:46-67 | Permits exactly when the operation needs no approval or has a usable current one outside a block; an unusable approval ends the attempt |
| Transactions.DeliveryEngine.DispatchPermitted | packages/engine/src/delivery/dispatch.ts:100-201 | The gate after authority: budgets, local failure, provider availability, commitment |
| Transactions.DeliveryEngine.CommitLocked | packages/engine/src/delivery/dispatch.ts:175-201 | The commitment charges every limit and writes attempt, operation and cooldown as specified |
| Transactions.DeliveryEngine.GateAttempt | packages/engine/src/delivery/dispatch.ts:68-201 | The gate under the lock; it says committed exactly when a reservation was added |
| Transactions.DeliveryEngine.DispatchGateFor | packages/engine/src/delivery/dispatch.ts:68-201 | The gate transaction of the run model |
| Transactions.DeliveryEngine.DispatchJob | packages/engine/src/delivery/dispatch.ts:230-295 | One worker's dispatch: authorization, the gate, and only after a commitment of its own gate at most one call, made only while time is left, followed by exactly one report of how it ended |
| Transactions.DeliveryEngine.AuthorizeAttempt | packages/engine/src/delivery/authorization.ts:180-196 | A claim that was given out is finished with the authority's decision, or with none after a timeout or a malformed answer; without a claim nothing is decided |
| Transactions.DeliveryEngine.InTimeExactly | packages/engine/src/delivery/dispatch.ts:248-254 | The call is made if and only if, at the instant of the call, the approval is unexpired and request and delivery window still fit before the operation expires |
| Transactions.DeliveryEngine.CountQuotas | packages/engine/src/delivery/quotas.ts:165-176 | The loop counts one event once per kind and allocates it to every scope |
| Transactions.DeliveryEngine.ExtendAdmissionOf | packages/engine/src/delivery/quotas.ts:186-191 | The admission event moves forward, never back |
| Transactions.DeliveryEngine.CleanupQuotas | packages/engine/src/maintenance.ts:39-42 | Deletes the listed events with their allocations |
| Transactions.DeliveryEngine.CleanupCallbacks | packages/engine/src/maintenance.ts:43-45 | The loop deletes exactly the candidates whose reference is no alias |
| Transactions.DeliveryEngine.CaptureAuthorityOf | packages/engine/src/runtime/store.ts:102-124 | The loop captures policy and instance grants and epochs, or the specified rejection |
| Transactions.DeliveryEngine.AdmitOperation | packages/engine/src/delivery/lifecycle.ts:19-76 | Admits when policy and every step are still as the route was prepared under, settings included, the policy serves the owner, and all limits are open, and counts; otherwise the specified rejection without a write |
| Transactions.DeliveryEngine.AttachCodeTo | packages/engine/src/delivery/lifecycle.ts:77-117 | Attaches, activates and schedules; its rejection after the writes is the one characterised above |
| Transactions.DeliveryEngine.SubmitCode | packages/engine/src/delivery/service.ts:93-144 | The submit transaction of the run model, which commits its rejections |
| Transactions.DeliveryEngine.PrepareOperation | packages/engine/src/delivery/service.ts:37-87 | The prepare transaction of the run model |
| Transactions.DeliveryEngine.CreateOperationFor | packages/engine/src/delivery/service.ts:37-87 | Admission and attachment together, rolled back as one when either is rejected |
| Transactions.DeliveryEngine.RecoverAttempts | packages/engine/src/delivery/recovery.ts:28-39 | The loop moves exactly the overdue dispatches to uncertain and records it |
| Transactions.DeliveryEngine.RecoverBatch | packages/engine/src/delivery/recovery.ts:13-52 | A batch is the sequence of recovery transactions over its operations |
| Transactions.DeliveryEngine.RegisterEventAlias | packages/engine/src/delivery/callbacks.ts:96-118 | Gives the attempt the request id as alias, or reports the conflict without a write |
| Transactions.DeliveryEngine.InsertCallback | packages/engine/src/delivery/callbacks.ts:120-144 | An event is kept once per instance and key |
| Transactions.DeliveryEngine.InsertBatch | packages/engine/src/delivery/callbacks.ts:120-144 | Collects exactly the references that the batch touches; a conflict undoes all of it |
| Transactions.DeliveryEngine.ReconcileAlias | packages/engine/src/delivery/callbacks.ts:70-95 | The loop applies the matching unprocessed rows in order of arrival, once each |
| Transactions.DeliveryEngine.ReconcileReferences | packages/engine/src/delivery/callbacks.ts:120-144 | Reconciles every touched reference, in some order |
| Transactions.DeliveryEngine.IngestEvents | packages/engine/src/delivery/callbacks.ts:146-157 | The ingest transaction of the run model, for some complete order of references |
| Transactions.DeliveryEngine.AcknowledgeAcceptance | packages/engine/src/delivery/callbacks.ts:158-188 | Merges acceptance and registers the request id, or reports the conflict |
| Transactions.DeliveryEngine.RecordAcceptedFor | packages/engine/src/delivery/callbacks.ts:158-188 | The acceptance transaction of the run model; an alias conflict rolls all of it back |
| Registry.RuntimeRegistry.CreateProjectWith | packages/engine/src/projects/mutate.ts:28-53 | An existing project is left alone; otherwise the loop grants every listed principal |
| Registry.RuntimeRegistry.UpdateSettings | packages/engine/src/projects/mutate.ts:64-73 | Changes settings only: state and send epoch stay |
| Registry.RuntimeRegistry.GrantTo | packages/engine/src/projects/mutate.ts:74-83 | Adds a fresh grant unless one is active; a revoked grant is never revived |
| Registry.RuntimeRegistry.RevokeFrom | packages/engine/src/projects/mutate.ts:84-93 | Revokes the active grant for good |
| Registry.RuntimeRegistry.ChangeState | packages/engine/src/projects/mutate.ts:94-112 | Suspension raises the send epoch, reactivation does not lower it |
| Registry.RuntimeRegistry.InsertResource | packages/engine/src/runtime/mutate.ts:199-283 | A new resource starts with its first revision valid |
| Registry.RuntimeRegistry.UpdateResource | packages/engine/src/runtime/mutate.ts:58-82 | Changed settings are saved under a new valid revision and earlier ones keep their status; unchanged settings change nothing |
| Registry.RuntimeRegistry.TransitionResource | packages/engine/src/runtime/mutate.ts:83-95 | Disabling and retiring raise the epoch; retired is final |
| Registry.RuntimeRegistry.InvalidateRevision | packages/engine/src/runtime/mutate.ts:136-147 | An invalidated revision stays invalid |
| Registry.RuntimeRegistry.ChangeAssignment | packages/engine/src/runtime/mutate.ts:148-168 | Granting adds a fresh grant, revoking ends the active one |
| History.RunPagingIsExact | packages/engine/src/history/service.ts:73-104 | In every run of publishing transactions and retention batches, a reader that follows its cursors gets every matching event above the floor of its first page exactly once, in order, up to the cursor reached |
| History.RunServes | packages/engine/src/history/publication.ts:60-80 | In every such run each project's stream is gap-free, all deleted events lie at or below its floor, and the floor is at or below the head |
| History.PageIsExact | packages/engine/src/history/service.ts:146-189 | One page holds exactly the matching events between its start and its next cursor; a last page reaches the ceiling |
| History.RunRefusesOnlyExpired | packages/engine/src/history/service.ts:146-189 | A reader's next page is refused if and only if retention has passed its cursor since the page before |
| History.OwedExactly | packages/engine/src/history/service.ts:73-104 | What is owed between two positions is every matching event there, once, ascending, and nothing else |
| History.BatchServes | packages/engine/src/history/publication.ts:60-80 | Numbering a batch keeps every project's stream gap-free, its deleted events at or below its floor, and the floor at or below the head |
| History.RetentionIsExact | packages/engine/src/history/retention.ts:6-29 | A retention batch deletes exactly its candidates in every project, raises floors just to cover them, and keeps every stream serving its history |
| History.EventStore.FinalizeEvents | packages/engine/src/history/publication.ts:60-80 | The loop gives each draft the next number of its own project |
| History.EventStore.CleanupEvents | packages/engine/src/history/retention.ts:6-29 | The loop over the candidates has exactly the effect that RetentionIsExact describes |
| Canonical.CanonicalIsInjective | packages/engine/src/crypto.ts:63-72 | Two JSON values have the same canonical text if and only if they are equal up to the order of object keys |
| Canonical.CanonicalIsPrint | packages/engine/src/crypto.ts:63-72 | The canonical text is the plain text of the value with sorted keys at every depth |
| Canonical.PrintDetermines | packages/engine/src/crypto.ts:63-72 | A printed value determines the value and where its text ends |
| Canonical.SameNormal | packages/engine/src/crypto.ts:66-71 | Values equal up to key order normalize alike |
| Canonical.NormalSame | packages/engine/src/crypto.ts:66-71 | Values that normalize alike are equal up to key order |
| Publication.Publisher.Publish | packages/engine/src/delivery/publication.ts:18-35 | Publishes the next revision exactly when the content is new and no terminal snapshot was published; every operation's revisions stay 1, 2, 3, ... with consecutive contents different |
| Publication.Publisher.FlushChanges | packages/engine/src/delivery/publication.ts:36-48 | Afterwards every touched operation's stored snapshot announces its content or is final, and no other snapshot changed |
| Publication.OrderlyExtends | packages/engine/src/delivery/publication.ts:18-35 | The next snapshot keeps an operation's series orderly |
| Publication.ReceiverConverges | examples/webhook-receiver/receiver.ts:21-65 | Whatever the order, repetition and mix of webhooks and responses, a receiver told of the last revision ends with the last published content |
| Publication.KeepsHighest | examples/webhook-receiver/receiver.ts:21-65 | A receiver holds the content of the highest revision it was told of |
| Publication.Receiver.ReceiveWebhook | examples/webhook-receiver/receiver.ts:27-59 | A repeated event id changes nothing and is reported as a repetition |
| Publication.Receiver.ApplyDeliverySnapshot | examples/webhook-receiver/receiver.ts:61-65 | Only a higher revision replaces the stored snapshot |
| ManagedRuns.ChallengesFollowTheirOperations | packages/engine/src/challenges/delivery-owner.ts:7-27 | Over every run of clients, workers, providers, administrators and verifications, every challenge is active exactly when its operation is live in the engine, expired exactly when that has expired, and otherwise that is closed; verifier and code fingerprints exist only while it is live; locked means the guesses are used up; at most one verification id is issued; and the engine's state is reachable by the engine alone |
| ManagedRuns.VerifyStays | packages/engine/src/challenges/verify.ts:66-141 | A verification ends the operation in the engine and charges the ledger just as it changes the challenge, through the engine's own transactions |
| Verification.RunCoupled | packages/engine/src/challenges/store.ts:53-78 | For one challenge over every run: secrets and code fingerprints exist only while it is live, it is locked exactly at the guess maximum, and at most one verification id is ever issued |
| Verification.RunAbsorbs | packages/engine/src/challenges/store.ts:53-78 | Terminal challenge states, their verification id and guess count never change again, and receipts repeat their answers |
| Verification.VerifiedExactlyWhen | packages/engine/src/challenges/verify.ts:66-141 | A new request is accepted if and only if the right code for the right binding and length arrives in time while the recipient's guess limit is open; the guess is counted, on the challenge and in the ledger, if and only if it was looked at and wrong |
| Verification.ReplayIsExact | packages/engine/src/challenges/idempotency.ts:61-86 | A repeated request gets its saved answer and writes only expiry; it conflicts if and only if the request differs, or the code differs while the code fingerprint is kept |
| Verification.ManagedChallenge.VerifyChallenge | packages/engine/src/challenges/verify.ts:31-143 | The statement sequence has exactly the specified outcome and state, which the results above are about |
| Verification.ManagedChallenge.CancelChallenge | packages/engine/src/challenges/cancel.ts:12-43 | Cancellation of an active challenge closes its operation and answers repeats from the receipt |
| Verification.ManagedChallenge.TerminateWith | packages/engine/src/challenges/store.ts:53-63 | Ends an active challenge together with its operation |
| Verification.ManagedChallenge.ExpireAt | packages/engine/src/challenges/store.ts:64-67 | Expires an active challenge exactly when due |
| Verification.ManagedChallenge.Synchronize | packages/engine/src/challenges/delivery-owner.ts:12-19 | An operation that ended first ends its challenge the same way |
| Verification.ManagedChallenge.ReplayRequest | packages/engine/src/challenges/idempotency.ts:61-86 | Answers from the receipt, conflicts, or finds nothing, as specified |
| Creation.OneLiveOperationPerKey | packages/engine/src/challenges/create.ts:18-73 | Under any interleaving of callers, retries, endings and receipt cleanup there is at most one live operation per create key, and all answers about an operation carry the same body |
| Creation.RetainedKeyAnswersAlike | packages/engine/src/delivery/idempotency.ts:19-60 | While its receipt may not be removed, every further answer under a key names the same operation and body |
| Creation.LiveKeyCreatesNothing | packages/engine/src/delivery/service.ts:61-87 | A caller that raced the creator of a live operation gets the creator's body or, for another request, a conflict; nothing is created, and cleanup cannot remove the receipt |
| Creation.NextKeeps | packages/engine/src/maintenance.ts:27-38 | Every transaction and cleanup batch keeps the receipt of each live operation under its key |
| Creation.CreationStore.ReplayRequest | packages/engine/src/delivery/idempotency.ts:19-60 | Expires a due external operation, then answers, conflicts or finds nothing |
| Creation.CreationStore.CheckRequest | packages/engine/src/delivery/service.ts:46-56 | The first transaction: answers from the receipt, or lets the caller prepare |
| Creation.CreationStore.CommitPrepared | packages/engine/src/delivery/service.ts:59-87 | The second transaction: looks again, creates operation and receipt together, and rolls back on every rejection |
| Creation.CreationStore.EndOperationOf | packages/engine/src/delivery/store.ts:20-37 | Ending erases the code fingerprints of the operation's receipts |
| Creation.CreationStore.CleanupReceipts | packages/engine/src/maintenance.ts:27-34 | The loop removes exactly the candidates that may go |
| Notifications.AtMostTwelveClaims | packages/engine/src/notifications/send.ts:20-38 | No stretch of a notification's history without a replay holds more than twelve claims |
| Notifications.FinisherActsExactlyWhenLast | packages/engine/src/notifications/send.ts:39-58 | Between replays a finisher changes the row if and only if nothing happened to the row since its claim: a superseded finisher changes nothing |
| Notifications.FinisherActsExactlyOnItsNumber | packages/engine/src/notifications/send.ts:39-58 | Over all histories, replays included, a finisher acts if and only if the last event is a claim with its number |
| Notifications.ReplayReopensTheFence | packages/engine/src/notifications/send.ts:101-112 | A concrete history in which, after a replay, the first worker's finish acts on another worker's claim: fencing holds between replays only |
| Notifications.DeliveredIsAbsorbing | packages/engine/src/notifications/send.ts:20-112 | Nothing changes a delivered notification, not even a replay |
| Notifications.FailedOnlyWhenExhausted | packages/engine/src/notifications/send.ts:90-100 | Failed is reached only with twelve attempts used, and recovery queues exactly the rows that a claim would take |
| Notifications.ClaimsAreSpaced | packages/engine/src/notifications/send.ts:20-58 | A claim waits for the 30-second lease of an unfinished claim or the back-off of a failed one |
| Notifications.NotificationTable.ClaimRow | packages/engine/src/notifications/send.ts:20-38 | Gives the next attempt number exactly for claimable rows |
| Notifications.NotificationTable.FinishRow | packages/engine/src/notifications/send.ts:39-58 | Records the outcome of the current claim only, and queues again exactly what became pending |
| Notifications.NotificationTable.RecoverRows | packages/engine/src/notifications/send.ts:90-100 | Fails abandoned rows at the attempt limit and returns what is due |
| Notifications.NotificationTable.ReplayRow | packages/engine/src/notifications/send.ts:101-112 | Restarts a failed notification and no other |

## Left out

- Provider adapters, phone parsing, message templates and localization: a provider is an arbitrary outcome.
- HTTP server, client package, configuration loading, metrics and logs.
- Encryption, HMAC and hashing: fingerprints and tokens are identifiers compared for equality.
- Queue internals: any job may arrive at any time, so lost, delayed and duplicated jobs are all covered, and the instants at which jobs are scheduled are not stated.
- SQL, row locks and isolation levels: each transaction is atomic; a transaction that takes several clock readings takes a first and a last one here, so the readings of one callback batch coincide.
- Batch limits (100 operations, 1000 rows) and the orders in which batches are picked: a batch is any list of candidates.
- Deletion of terminal operations and attempts in the engine's runs: these rows stay, so that properties can speak of them, while inbox and ledger retention are steps; `Creation` models the deletion of operations and receipts. How old an inbox row must be before it goes is left open.
- Inbox rows that share an arrival instant: rows are applied in order of insertion.
- Administrative permissions, expected revisions and admin receipts: they only reject commands, and every accepted command is covered.
- Credential rotation and revocation, because an intent's permission does not depend on the credential version.
- Attempt revisions, listing endpoints, the hints of what a snapshot allows next, and evidence details other than what decisions read.
- Monotonic worker time: the time that passed since the gate is an input of `DispatchJob`, and in the run model a worker that gave up is the step in which it reports that nothing was invoked.
- Signature checking in the webhook receiver; deliveries that fail it never reach the model.
- Floating point numbers in canonical text: numbers are integers.
- Windows.EngineWindowSafety: not stated for the admission limit, because that limit counts the latest event of each recipient, which moves; `Spacing.SendsAreSpaced` states its effect.
- Transactions.DeliveryEngine.DispatchJob: describes a worker that nobody disturbs; other transactions may come between its transactions only in the run model, where each is a step of its own.
