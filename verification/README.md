# Verified model of the deployer's candidate protocol and its operational helpers

The deployer moves an application's traffic from one release to the next with a *candidate
deployment protocol*. A deploy request is journalled in SQLite and bound to an application and a
deployment row; it then passes through durable checkpoint stages (prepared, fenced, activated,
recovering, withdrawn). Traffic moves only by compare-and-swap on one Kubernetes Service, with its UID,
resourceVersion and an operation annotation as the token. Recovery, withdrawal, retry of a withdrawn
bootstrap, capacity reclamation and application deletion all work on the same Service and the same rows.

This project models that protocol as a state machine and proves what it keeps over every run. Six
smaller components are modelled beside it: the per-application mutation lock, hosting capacity
admission, the backup retention selector, the audit collect/export pipeline, the recovery archive
staging check, and the alert state machine of the external monitor.

`dafny verify dfyconfig.toml` checks everything.

## How the protocol is modelled

* `Types`, `Store`: values, the rows of one application, and one function per SQLite transaction.
  `Repository` holds the same transactions as imperative methods that update the tables one by one
  and are proved equal to those functions.
* `Machine`: one step is one transaction, one Kubernetes read, the dispatch of one Kubernetes write,
  or the landing of a dispatched write. `pc` is the operation that holds the application's lock.
  Here operations are steps, because the claims over runs are about what crashes, other
  operations and delayed writes may do between two statements.
* `Recovery` and `Operations`: the main operations once more as imperative methods, statement by statement
  on the tables and the cluster, with what one undisturbed call does from any state it may find.
* A dispatched write never disappears. It may land at any later moment at which its resourceVersion
  still matches, whether or not its caller still waits, so lost replies, crashes, timeouts and delayed
  requests are all covered. Every update gets a resourceVersion that was never used before.
* SHA-256 derived identifiers are datatype constructors, so distinct inputs give distinct IDs.
* `Invariant` states the inductive invariant; `Reads`, `Transactions`, `Workloads`, `Landing` and `Life`
  prove that each kind of step keeps it; `Runs` lifts it to runs. `Safety`, `Domains`, `Barrier`, `Deletion`,
  `Convergence`, `Withdrawing` and `Endable` draw the conclusions, `Laws` and `Traffic` say row by row what begin and
  commit do and in which ways traffic can move; `LateMark`, `LostTombstone`, `CaughtMark`,
  `LateBootstrap` and `ExactGate` give the runs on which a promise fails; `Marks`, `OnTime`, `Initial`, `Reuse` and
  `Stalled` are further invariants for them.
* `Progress`, `Deletion`, `Convergence` and `Withdrawing` also say what an undisturbed deploy, deletion or
  recovery achieves from any state it may find.
* `Env` has two switches for behaviour of the environment that the code cannot control.
  Every theorem without a condition on `env` holds for all four settings, and only the corollaries
  `OnTime.OnTimeRuns`, `LateMark.BarrierExact` and `ExactGate.GateExact` have one.

## Where the code falls short of what is said of it

* **Late deletion marks** (`Barrier`, `Deletion`, `LateMark`, `LostTombstone`, `CaughtMark`). The mark that DeleteApp puts on
  the Service, by an update or by the creation of a marked Service, is an ordinary conditional write and may
  land after its call gave up. Three concrete runs show how it then does harm for ever.
  *Overwritten*: it lands after a later deploy passed its deletion check (internal/server/app.go:214) and before
  that deploy captured the Service; the deploy fences, activates and commits on a marked Service
  (`LateMark.LateMarkBreaksBarrier`). *Lost*: the creation of a marked Service, sent for a hidden application,
  lands after the application was deployed again on another port and deleted again
  (`LostTombstone.LateTombstoneBlocksDeletion`); here the barrier itself holds. In both runs every later state is
  dead: deploys are refused because of the mark, and deletions because the mark is not the one that
  internal/ingress/candidate_deletion.go:110-121 asks for. *Caught*: it lands after a deploy captured the Service
  and before that deploy fenced it (`CaughtMark.LateMarkCatchesRequest`). The mark stays intact, but deletion is refused
  because the request is pending (internal/server/app.go:644-648), the request is not advanced because its
  checkpoint is prepared (internal/server/candidate_operation.go:100-101), and not recovered because the operation
  on the Service is a foreign one (internal/server/candidate_recovery.go:95-100).
  The exact conditions, for every environment:
  `Barrier.BarrierExactly`: a run keeps the barrier in all its states if and only if no step of it lands a mark
  while a request is pending and no begin accepts a new request behind a mark.
  `Barrier.ResumableExactly`: all marks met on a run can be resumed, with nothing pending, if and only if
  moreover each mark that lands still is the one the row asks for.
  `Deletion.ResumeExactly`: from a marked state some run reaches the removal of the Service if and only if the mark
  is intact and nothing is pending. These are the two guards that a deletion call reads.
* **Late bootstrap creation** (`Stalled`, `Endable`, `LateBootstrap`). No mark needs to be late for a request to be
  stuck. The creation of the inactive Service for an initial request is sent twice and lands once, the request is
  withdrawn, the application deleted, and a new initial request begun; then the other creation lands. The new
  request cannot use the Service, because it bears the label of the old one
  (internal/server/candidate_unprepared_recovery.go:45-51), cannot take it over, because it is not at the recorded
  gate of the old one (internal/server/candidate_retry.go:68-70), and nothing is deleted while a request is pending.
  It stays pending in every state that any run reaches (`LateBootstrap.LateBootstrapBlocksRequest`).
  `Endable.EndableExactly`: on a run that keeps the barrier an idle pending request can be ended, by any run at all, if
  and only if it has a checkpoint (which, if withdrawn, still is at its gate) or its Service can be captured.
* **Renumbered idle updates** (`ExactGate`). If the API server gave a new resourceVersion to an update
  that changes nothing, a delayed duplicate of the restore could move the Service off the recorded
  gate just before a withdrawal is committed. `ExactGate.GateExact`: commits happen at the
  recorded gate, to the resourceVersion, if and only if it does not (`!env.bumps`). Kubernetes does not.
  `ExactGate.GateKeptExactly` says the same of single runs: a pending withdrawn request still is at the gate it was
  recorded at if and only if no idle update was renumbered since.
  UID, operation and target agree in either case (`Safety.ReceiptsAgreeWithTraffic`).
* The comment at internal/ingress/hosting.go:33-34 speaks of one surge pod; the code reserves a quarter
  of the replicas, rounded up, outside the resilient and storage modes. The model follows the code.
* In scripts/stage-recovery-bundle.py:82-83 the test for conflicting kinds can never be true,
  because a repeated path was refused just before it.

## Model

| member | source | states |
|---|---|---|
| Safety.NoReactivation | internal/ingress/activation.go:57-122 | In every run with crashes, lost replies and delayed writes: once the recovery fence of a request has landed no later step selects its generation, and once its checkpoint is withdrawn the Service never selects it again |
| Safety.FencedNeverReselected | internal/server/candidate_recovery.go:70-130 | The step form: after the fence, a step leaves the abandoned generation selected only if it was selected before |
| Safety.FenceSurvivesRun | internal/server/candidate_recovery.go:102-123 | The recovery fence stays on the Service until the checkpoint says withdrawn, over any run |
| Safety.NoDanglingTraffic | internal/server/candidate_capacity.go:57-146 | In every reachable state the selected generation, and the predecessor saved by a pending request, is running, and no tombstone for the selected one is even in flight |
| Safety.TombstoneIsForever | internal/ingress/candidate_retirement.go:19-68 | No run brings a tombstoned generation back, whatever late create-only writer lands |
| Safety.ReceiptsAgreeWithTraffic | internal/server/candidate_completion.go:67-139 | A request is committed applied only while the Service sits at its recorded gate selecting its running generation, and withdrawn only under the recovery identity on the saved predecessor with the candidate tombstoned and drained |
| Safety.OnlyCommitEnds | internal/db/candidate_finalization_repository.go:44-60 | A pending request becomes terminal only in the commit of the operation that holds the lock for it, with that operation's outcome |
| Safety.DatabaseAgrees | internal/db/candidate_binding_repository.go:42-161 | In every reachable state at most one request is pending, a request and its deployment carry the same state, and while pending the row is the saved predecessor or invisible |
| Safety.WithdrawalIsIrrevocable | internal/server/candidate_withdrawal.go:23-91 | Once a withdrawal row exists, no later run of any operation makes the request applied |
| Safety.LifeIsOneWay | internal/db/runtime_checkpoint_repository.go:47-133 | Over any stretch of a run the intent never changes, the stage never falls, and a terminal state and its reply never change; the same outcome gets that reply again and the other is refused |
| Laws.BeginIsFaithful | internal/db/candidate_binding_repository.go:52-161 | In every reachable state a begin ends with a row of exactly the requested configuration and flag, or changes nothing and turns the caller away; no other request, route or checkpoint moves |
| Laws.BeginKnown | internal/db/candidate_binding_repository.go:52-83 | A known request with another configuration or flag changes no table and leaves the lock holder idle; the identical one notes at most the withdrawal and goes on where its rows say |
| Laws.BeginNew | internal/db/candidate_binding_repository.go:85-161 | A new request is accepted exactly when nothing is open, the deployment ID is fresh and, unless it is a withdrawal, the domain is free and the port that of the live predecessor; and what each table then holds |
| Laws.ReceiptIsFaithful | internal/db/candidate_finalization_repository.go:92-150 | In every reachable state, when a step ends a request: the receipt carries outcome, committed row and requested configuration; applied sets row and route to the request; withdrawn leaves row and route to the predecessor, and no route if there was none; nothing else moves |
| Traffic.TrafficMovesBy | internal/ingress/activation.go:57-122 | In every reachable state traffic moves only by an activation of a pending request's running candidate on the same port, a restore of a saved predecessor, a rebind of a withdrawn bootstrap, or a deletion mark |
| Traffic.PredecessorRunsAtCommit | internal/server/candidate_recovery_complete.go:79-87 | When a request over a live application is committed as withdrawn, the predecessor that the Service is back on runs |
| Life.RecordRaises | internal/db/runtime_checkpoint_repository.go:84-133 | A recorded gate strictly raises the stage, keeps the intent and touches no other row |
| Life.ReplyIsFinal | internal/db/candidate_finalization_repository.go:44-49 | After any later history, finalizing again returns the stored reply for the same outcome, refuses the other one, and changes nothing |
| Runs.StepKeepsInv | internal/server/candidate_operation.go:52-178 | Every step of every operation, and every landing of every dispatched write, keeps the inductive invariant |
| Runs.RunKeepsInv | internal/server/candidate_requests.go:61-154 | Every run keeps the invariant and only moves the database onward |
| Landing.LandKeepsInv | internal/ingress/activation.go:77-90 | A conditional write may land at any time, for any lock holder |
| Landing.OwnedUpdate | internal/ingress/activation.go:92-122 | While a pending request owns the operation annotation, only its own retarget or its own recovery fence can land |
| Landing.IdleChange | internal/server/candidate_recovery.go:113-123 | The only update that can land without changing anything is a repeated restore under a recovery identity |
| Reads.DispatchFenceKeepsInv | internal/server/candidate_operation.go:130-159 | Sending the request fence keeps the invariant, even if nobody waits for it |
| Reads.DispatchActivateKeepsInv | internal/ingress/candidate_activation.go:18-67 | Sending the activation keeps the invariant: it can land only on the recorded gate and the saved predecessor |
| Reads.DispatchRecoveryFenceKeepsInv | internal/server/candidate_recovery.go:88-111 | Sending the recovery fence keeps the invariant |
| Reads.PrepareCreateKeepsInv | internal/ingress/candidate_bootstrap.go:82-102 | Sending the creation of the inactive Service keeps the invariant, however late it lands |
| Reads.PrepareRebindKeepsInv | internal/server/candidate_retry.go:27-89 | Rebinding a withdrawn bootstrap to a new request keeps the invariant |
| Workloads.DispatchRetireKeepsInv | internal/server/candidate_recovery_complete.go:57-66 | Retiring the abandoned candidate after the withdrawn checkpoint is durable never takes a generation that traffic needs |
| Workloads.ReclaimRetireKeepsInv | internal/server/candidate_capacity.go:110-124 | Reclamation may send a tombstone for every generation but the selected one |
| Workloads.LandWorkloadKeepsInv | internal/ingress/candidate.go:116-149 | A create-only writer or a tombstone may land at any time |
| Transactions.BeginKeepsInv | internal/db/candidate_binding_repository.go:42-161 | Begin and BeginWithdrawal keep the whole invariant, including all writes still in flight |
| Transactions.SaveIntentKeepsInv | internal/db/runtime_checkpoint_repository.go:47-82 | Saving an intent keeps the invariant although the Service may have moved since it was captured |
| Transactions.RecordRecoveringKeepsInv | internal/server/candidate_recovery.go:70-87 | Recording the recovery identity from any stage keeps the invariant |
| Transactions.RecordWithdrawnKeepsInv | internal/server/candidate_recovery.go:124-130 | Recording withdrawn keeps the invariant |
| Transactions.CommitKeepsInv | internal/db/candidate_finalization_repository.go:29-154 | The commit of application, route, deployment and receipt keeps the invariant |
| Store.BeginKeepsDbInv | internal/db/candidate_binding_repository.go:85-161 | Begin keeps: one pending request, request and deployment in step, predecessor preserved |
| Store.FinalizeKeepsDbInv | internal/db/candidate_finalization_repository.go:92-150 | Finalize keeps the database invariant when an applied request has no withdrawal row |
| Repository.CandidateRepository.BeginCandidate | internal/db/candidate_binding_repository.go:42-161 | Exactly when a known or a new request is accepted, and what each table holds afterwards; nothing changes on a conflict |
| Repository.CandidateRepository.SaveActivationIntent | internal/db/runtime_checkpoint_repository.go:47-82 | Created once for a pending request; the identical intent is accepted again, another is refused, neither changes a row |
| Repository.CandidateRepository.RecordActivationGate | internal/db/runtime_checkpoint_repository.go:84-133 | Succeeds exactly for a pending request at the expected stage along one of the listed transitions, and keeps the intent |
| Repository.CandidateRepository.Finalize | internal/db/candidate_finalization_repository.go:29-154 | Exactly when a pending request is committed, the content of receipt, row, route and deployment for either outcome, and the stored receipt again for a terminal one |
| Barrier.BarrierExactly | internal/server/candidate_deletion.go:39-48 | In every environment a run keeps the barrier (nothing pending and nothing selected while marked) in all its states if and only if no mark lands while a request is pending and no begin accepts a new request behind a mark |
| Barrier.StepExact | internal/ingress/candidate_deletion.go:44-66 | The step form of that equivalence, from any state of the invariant in which the barrier holds |
| Barrier.MarkedUntilRemoved | internal/server/candidate_deletion.go:39-139 | In every environment, on a run that keeps the barrier: while marked, no step changes Service or requests and no deploy or withdrawal starts, until the removal, which comes only after the row is deleted and every generation is drained |
| Barrier.ResumableExactly | internal/ingress/candidate_deletion.go:70-142 | In every environment every mark met on a run is intact, with nothing pending, if and only if the run is careful and each mark that lands is the one the row asks for at that moment |
| Barrier.RemovalComesLast | internal/ingress/candidate_deletion.go:302-331 | In any environment the Service is removed only when marked, with nothing pending, the row deleted and all recorded generations and the legacy workload tombstoned and drained |
| Barrier.SealedStep | internal/ingress/candidate_deletion.go:144-157 | Behind the barrier, whatever lands is the final removal, and nothing else touches Service or requests |
| Barrier.RunKeepsSealed | internal/ingress/candidate_deletion.go:70-157 | On every careful run the deletion owns a marked Service until it is removed |
| Marks.RunKeepsMarks | internal/ingress/candidate_deletion.go:302-331 | In every environment a removal is only ever sent, and can only ever land, on an intact mark, and only an application with candidate generations is marked |
| OnTime.OnTimeRuns | internal/server/candidate_deletion.go:50-85 | If marks never land late, every run is careful and every mark can be resumed |
| Deletion.DeletionResumes | internal/ingress/candidate_deletion.go:110-122 | From any crash point behind an intact mark a new call continues under the same gate |
| Deletion.DeletionFinishes | internal/server/candidate_deletion.go:50-139 | In every environment, behind an intact mark with nothing pending, an undisturbed re-run ends with the row deleted, the route gone and the Service removed |
| Deletion.ResumeExactly | internal/ingress/candidate_deletion.go:110-122 | In every environment, from every marked state and whoever holds the lock, some run reaches the removal of the Service if and only if the mark is intact and nothing is pending |
| Deletion.QuietResumeExactly | internal/ingress/candidate_deletion.go:110-122 | With nothing pending that is so if and only if the mark is intact |
| Deletion.BrokenForever | internal/ingress/candidate_deletion.go:110-121 | From a broken mark with nothing pending every state that any run reaches is dead |
| Deletion.DeadRefuses | internal/ingress/candidate_deletion.go:47-66 | In a dead state no deploy, withdrawal, mark, creation or resumption is possible |
| Deletion.DeletionCompletes | internal/server/candidate_deletion.go:50-139 | A fresh deletion that nothing disturbs goes from the mark to the removal, with everything drained |
| Deletion.HiddenDeletionCompletes | internal/ingress/candidate_deletion.go:80-102 | So does the deletion of a hidden application without a Service, under a newly created marked one |
| LateMark.LateMarkBreaksBarrier | internal/server/app.go:209-216 | A concrete run in which a late mark is overwritten: a committed candidate is selected on a marked Service, and every later state is dead |
| LostTombstone.LateTombstoneBlocksDeletion | internal/ingress/candidate_deletion.go:80-102 | A concrete run in which the late creation of a marked Service with an old port keeps the barrier, and every later state is dead |
| CaughtMark.LateMarkCatchesRequest | internal/server/candidate_recovery.go:95-100 | A concrete run in which a late mark lands between capture and fence: in every later state the mark is intact and the request pending |
| Stalled.CaughtForever | internal/server/candidate_recovery.go:88-100 | In every environment: once a mark took the Service of a captured request, nothing ever lands on the Service and the request stays pending |
| Stalled.CaughtRefuses | internal/server/app.go:644-648 | Then neither fence, nor recovery fence, nor deletion is possible |
| LateMark.BarrierExact | internal/ingress/candidate_deletion.go:70-142 | Seen from the environment: all runs keep the barrier if and only if marks never land late |
| ExactGate.BumpMovesGate | internal/server/candidate_recovery_complete.go:67-83 | A concrete run that commits a withdrawal off the recorded gate if idle updates are renumbered |
| ExactGate.GateExact | internal/db/candidate_finalization_repository.go:50-60 | Every commit happens at the recorded gate if and only if idle updates are not renumbered |
| ExactGate.GateKeptExactly | internal/server/candidate_recovery_complete.go:67-83 | In every environment and run, a pending withdrawn request recorded at the gate still is at it if and only if no idle update was renumbered since |
| Convergence.RestorableUnlessHijacked | internal/server/candidate_recovery.go:50-100 | In every state of the invariant a pending request with a checkpoint can be recovered if and only if no deletion mark took the Service |
| Convergence.RecoveryConvergesFrom | internal/server/candidate_recovery.go:37-131 | In every environment, from any state found in which no deletion mark took the Service and an initial candidate saved its own inactive target, one undisturbed recovery ends withdrawn, on the saved predecessor, under the recovery identity |
| Convergence.RecoveryConverges | internal/server/candidate_recovery.go:37-131 | On every run that keeps the barrier that is so from any crash point, and a newly recorded gate is exact |
| Withdrawing.StartedWithdraws | internal/server/candidate_recovery_complete.go:25-87 | From what recovery needs to find, restore, retirement, drain and commit end with the request withdrawn and the Service on the saved predecessor |
| Withdrawing.UnstartedWithdraws | internal/server/candidate_unprepared_recovery.go:25-71 | The same for a request without checkpoint: nothing to create, an inactive Service to create, or one to rebind |
| Withdrawing.RecoverySuffices | internal/server/candidate_requests.go:61-154 | On a run that keeps the barrier one undisturbed recovery commits a recoverable pending request as withdrawn |
| Endable.EndableExactly | internal/server/candidate_unprepared_recovery.go:25-71 | On every run that keeps the barrier, in every environment, an idle pending request can be ended by some run if and only if it has a checkpoint (a withdrawn one still at its gate) or its Service can be captured for it |
| Endable.RecoveryCompletes | internal/server/candidate_requests.go:61-154 | Once its withdrawal is decided, some run withdraws it if and only if it is recoverable, and then one undisturbed recovery does |
| Stalled.UnstartableForever | internal/server/candidate_retry.go:27-89 | In every environment a blocked request without checkpoint stays blocked and pending in every run |
| Stalled.OffGateForever | internal/server/candidate_recovery_complete.go:67-83 | In every environment a withdrawn request off its recorded gate that nobody is committing stays pending in every run |
| LateBootstrap.LateBootstrapBlocksRequest | internal/ingress/candidate_bootstrap.go:82-102 | A concrete run, one that keeps the barrier where marks are not late, to a request that stays pending in every state that any run reaches |
| Reuse.RunKeepsReuse | internal/server/candidate_retry.go:27-89 | A withdrawn candidate stays drained, and a rebind that can still land is one the retry checks allow now |
| Initial.RunKeepsStart | internal/server/candidate_recovery_complete.go:46-55 | On every run that keeps the barrier the saved target of an initial candidate is its own inactive target, every other saved target serves, and so does the Service of a live application that is not being deleted |
| Recovery.RestoreCandidateTraffic | internal/server/candidate_recovery.go:37-131 | Succeeds exactly when rows and Service identify the operation; then withdrawn and restored at the returned gate; a failure leaves the Service alone |
| Recovery.RestoreAgain | internal/server/candidate_recovery.go:81-87 | Running it again returns the same gate and changes nothing |
| Recovery.FenceAndRestore | internal/server/candidate_recovery.go:88-123 | Refuses a foreign Service or operation, otherwise fences unless fenced and restores the saved selector and port |
| Recovery.ServiceApi.UpdateActivationGate | internal/ingress/activation.go:77-90 | Compare-and-swap on the resourceVersion |
| Recovery.ServiceApi.FenceActivationGate | internal/ingress/activation.go:92-105 | Takes the operation identity at exactly the given gate and keeps the selection |
| Recovery.ServiceApi.ReplaceActivationTarget | internal/ingress/activation.go:111-122 | Replaces selector and port together at exactly the given gate and keeps the identity |
| Operations.AdvanceCandidateOperation | internal/server/candidate_operation.go:52-178 | Succeeds exactly when rows and cluster allow it, ending activated at the returned gate on the running candidate; never advances a prepared, recovering or withdrawn checkpoint; a new request that cannot be activated yet is left fenced; a failure moves no traffic; no tombstone is revived |
| Operations.AdvanceAgain | internal/server/candidate_operation.go:94-99 | An activated request is answered with the same gate again and nothing moves |
| Operations.AdvanceWhenReady | internal/server/candidate_operation.go:102-123 | A request that was fenced while its candidate was not ready is activated by the next call |
| Operations.FenceNew | internal/server/candidate_operation.go:130-159 | Captures, saves the intent and fences a Service that is not the request's own; otherwise leaves the Service alone |
| Operations.ActivateFenced | internal/ingress/candidate_activation.go:18-67 | Switches traffic at exactly the fenced gate, on an unchanged port, to a ready candidate that is no tombstone, and records it |
| Operations.ReclaimCandidateCapacity | internal/server/candidate_capacity.go:27-146 | Changes nothing while any request is pending or the Service is not settled on the applied one; reads the gate again before each retirement and at the end; retires all other generations and never the selected one; complete exactly when the others are gone |
| Operations.SettledIsEnabled | internal/server/candidate_capacity.go:44-88 | Reclamation acts exactly when the state machine lets it start |
| Reclamation.ReclamationCompletes | internal/server/candidate_capacity.go:104-146 | Undisturbed, everything but the selected generation is tombstoned and drained, and Service and rows stay |
| Reclamation.CompletedIsSettled | internal/server/candidate_capacity.go:44-88 | A deploy that was applied undisturbed is settled, so reclamation follows it |
| Operations.BeginCandidateDeletion | internal/ingress/candidate_deletion.go:70-142 | Marks an unmarked Service, returns the gate of its own intact mark without touching it, creates a marked Service for a hidden application and only for it, refuses any other mark |
| Operations.MarkableIsEnabled | internal/ingress/candidate_deletion.go:80-122 | A deletion call gets its gate exactly when the state machine lets a deletion mark, create or resume |
| Operations.TryDeleteCandidateApp | internal/server/candidate_deletion.go:50-139 | Succeeds exactly when nothing is pending, the Service can be marked and everything is gone; then the row is deleted, the route gone, the Service removed; otherwise rows are untouched, the mark is intact and every generation tombstoned |
| Operations.DeleteInThreeCalls | internal/server/candidate_deletion.go:86-134 | With pods draining in between, three calls delete any application that a call can mark |
| Operations.CleanupCandidateDeletion | internal/ingress/candidate_deletion.go:250-298 | Clean exactly when the marked gate still stands and nothing of the application runs; touches nothing without the mark |
| Operations.FinishCandidateDeletion | internal/ingress/candidate_deletion.go:302-331 | Removes the Service exactly at the marked gate once nothing runs; a missing one is success |
| Operations.AtMarkIsEnabled | internal/ingress/candidate_deletion.go:144-157 | Cleanup and removal are tied to the gate exactly as the steps of the state machine are |
| Operations.RetireAll | internal/server/candidate_capacity.go:110-124 | Tombstones exactly the listed generations but the kept one while the gate holds, and revives none |
| Operations.RetireLegacy | internal/ingress/candidate_deletion.go:162-213 | Tombstones the legacy workload if there is one and says whether it is gone |
| Operations.WorkloadApi.PrepareCandidateDeployment | internal/ingress/candidate.go:116-149 | Creates the candidate once and refuses a tombstone |
| Operations.WorkloadApi.Retire | internal/ingress/candidate_retirement.go:19-68 | Leaves a tombstone, created if need be, and changes nothing else |
| Progress.DeployCompletes | internal/server/candidate_submission.go:32-122 | An admitted deploy over a live application that nothing disturbs is applied: new desired state and route, Service on the running candidate, otherwise unchanged |
| Progress.InitialDeployCompletes | internal/server/candidate_submission.go:124-172 | The same for an initial deploy: the inactive Service is created, and the row becomes visible with the commit |
| Progress.RetryCompletes | internal/server/candidate_retry.go:27-89 | And for the retry of a withdrawn initial deploy, which takes over its Service |
| Domains.DomainExclusivity | internal/db/candidate_binding_repository.go:127-131 | In every reachable state of all applications together no domain is routed twice, and the domain of a pending request without withdrawal decision is neither routed nor so reserved by another application |
| Domains.StepClaims | internal/db/candidate_finalization_repository.go:100-127 | A step claims a domain it did not claim before only through an admitted begin; commits and withdrawals claim nothing new |
| Domains.ValidateDomainAdmission | internal/db/candidate_binding_repository.go:163-197 | Admits exactly when no other application routes the domain or has a request pending for it |
| MutationLock.MutualExclusion | internal/server/app_mutation.go:19-54 | However callers interleave and cancel, at most one holds an application's lock |
| MutationLock.EntriesAreCounted | internal/server/app_mutation.go:23-43 | Overlapping callers share one lock object and other applications never do; users is the number of holders, waiters and releases in progress; the entry exists exactly while there is one |
| MutationLock.NoLostWakeup | internal/server/app_mutation.go:44-53 | A release never blocks, and a waiter is blocked only by a holder of the same application |
| MutationLock.StepKeepsInv | internal/server/app_mutation.go:19-54 | Every mutex region and channel operation keeps the lock invariant |
| Capacity.PreflightHostingCapacity | internal/ingress/hosting.go:17-111 | Accepts if and only if all capacity is known and a placement of the reserved pods exists within what the nodes have left, resilient replicas on different nodes |
| Capacity.PlacePods | internal/ingress/hosting.go:85-111 | First fit succeeds if and only if some placement exists, and returns one |
| Capacity.FullIsMaximal | internal/ingress/hosting.go:89-103 | When no node takes one more pod, no feasible placement is longer |
| Capacity.SpreadIsMaximal | internal/ingress/hosting.go:90-96 | When spreading cannot go on, no feasible spread placement is longer |
| Capacity.SubtractPods | internal/ingress/hosting.go:66-83 | Unknown exactly when a running pod is unassigned or uses pod-level resources on one of the nodes; otherwise allocatable minus the requests of running pods |
| Capacity.RequestLowersFree | internal/ingress/hosting.go:146-160 | Whatever a running pod asks for in a container, an init container or as overhead is missing from its node, to the last unit, and from no other |
| Capacity.PodTakesSlot | internal/ingress/hosting.go:157-158 | Every running pod takes exactly one slot of its node; a finished one, or one elsewhere, nothing |
| Capacity.BarePodTakesNoMore | internal/ingress/hosting.go:146-160 | A pod that requests nothing takes nothing but its slot |
| Capacity.FreeWithoutPods | internal/ingress/hosting.go:47-60 | A node without pods has everything it says it has |
| Capacity.FeasibleMeans | internal/ingress/hosting.go:135-144 | A placement is feasible exactly when every receiving node stays within its allocatable CPU, memory, ephemeral storage and pod count and the spread pods are on different nodes |
| Capacity.SpreadMeans | internal/ingress/hosting.go:85-107 | The replicas up to the ceiling must be on different nodes in the resilient mode, and in no other |
| Capacity.ListNodes | internal/ingress/hosting.go:47-64 | The eligible nodes, or unknown if one of them does not say what it has |
| Capacity.ReservationCoversRollout | internal/ingress/hosting.go:33-41 | For every admitted replica count the reservation covers rendered replicas plus rollout surge; at the ceiling, and with storage, it is exact |
| Capacity.SurgeIsQuarter | internal/ingress/resources.go:660-670 | The default surge is the smallest number that is at least a quarter; one pod in the resilient mode; none with storage |
| Retention.Selection | scripts/backup-retention.py:47-65 | The loop splits the sorted listing by the identifiers of the chosen snapshots |
| Retention.SelectionIsExact | scripts/backup-retention.py:47-65 | For distinct IDs kept and eligible partition the input, and a snapshot is kept exactly when it is protected, in the future, or the newest of one of the newest daily, weekly or monthly buckets |
| Retention.SelectionIsStable | scripts/backup-retention.py:47-65 | Selecting again from what was kept, with the same clock, drops nothing |
| Retention.ProtectingTags | scripts/backup-retention.py:53-56 | Exactly the two words, alone or followed by a hyphen and anything, protect a snapshot |
| Retention.SortSorts | scripts/backup-retention.py:48-48 | The listing is sorted newest first and is a permutation of the input |
| Collector.Collect | scripts/collect-audit-journal.py:61-109 | Refuses an answer that does not begin with the saved cursor; otherwise writes exactly the audit records after it and returns the last cursor |
| Collector.NothingLost | scripts/collect-audit-journal.py:61-109 | Across runs, crashes and vacuums every audit entry from the first run to the saved cursor is in the log, in order |
| Collector.GapIsRefused | scripts/collect-audit-journal.py:64-68 | When the saved cursor was vacuumed, no run writes anything or moves the cursor |
| Collector.CollectsToTheEnd | scripts/collect-audit-journal.py:69-109 | While it is retained, a completed run appends exactly the audit records after it and ends at the end of the journal |
| Exporter.ReadBatch | scripts/offsite-audit-export.py:211-233 | The batch is exactly the audit records of the complete lines read, stops short of a line only when full, and fails only at a malformed line |
| Exporter.ExportsAreExact | scripts/offsite-audit-export.py:206-250 | Across runs, crashes and rotations the committed batches concatenate to exactly the audit lines before the checkpoint offset, in order |
| Pipeline.PipelineLosesNothing | scripts/offsite-audit-export.py:206-250 | Over any joint run of collector and exporter on one log: committed batches followed by what the next exports will read is exactly what the collector wrote; once caught up, every audit entry up to the collector's cursor is in the committed batches, in order |
| Staging.MemberNameExact | scripts/stage-recovery-bundle.py:54-63 | Exactly the names of safe relative paths, with any trailing slashes, are accepted, and give that path |
| Staging.ValidateMembers | scripts/stage-recovery-bundle.py:66-94 | Accepts exactly lists of safe, plain, distinct paths with no file above another member |
| Staging.EnsureDirectory | scripts/stage-recovery-bundle.py:102-114 | Adds exactly the missing ancestors, or refuses because one is a file |
| Staging.ExtractEntry | scripts/stage-recovery-bundle.py:117-135 | Adds exactly one member and its ancestors, or refuses because something is in the way |
| Staging.ExtractEntries | scripts/stage-recovery-bundle.py:117-135 | A compatible list extracts into an empty root without conflict, leaving exactly its members and their ancestors |
| Staging.Stage | scripts/stage-recovery-bundle.py:138-171 | Whatever validation accepts is staged, as the members say, with a directory above everything |
| Staging.FileTreeExactly | scripts/stage-recovery-bundle.py:86-93 | What the members describe is a tree of files exactly when no regular file is above another member |
| Staging.AnyOrder | scripts/stage-recovery-bundle.py:66-94 | The order of the members decides neither acceptance nor the result |
| Alerts.Update | scripts/external-uptime-monitor.py:125-151 | Every check is advanced by its own probe and undelivered notices are reported in order |
| Alerts.UpdateCheck | scripts/external-uptime-monitor.py:130-150 | One check: the new record, and whether a due notice could not be delivered |
| Alerts.RecordIsHistory | scripts/external-uptime-monitor.py:134-149 | The saved record is the history: notified says whether the last delivered notice was an alert, last_sent when, and failures how many executions failed in a row |
| Alerts.NoticeExactlyWhen | scripts/external-uptime-monitor.py:135-149 | Exactly when an execution sends an alert or a recovery, in terms of probes and earlier notices only |
| Alerts.AlertDiscipline | scripts/external-uptime-monitor.py:125-151 | Over unbounded runs with any delivery failures a recovery directly follows an alert, and alerts with no recovery between them are at least the repeat interval apart |
| Alerts.ChecksAreIndependent | scripts/external-uptime-monitor.py:128-151 | In any number of executions each check follows its own history, whatever the others do |
| Alerts.HistoryRule | scripts/external-uptime-monitor.py:130-134 | A new check, or one with a changed endpoint, starts a history with this probe; any other goes on with its own |
| Alerts.NewEndpointIsSilent | scripts/external-uptime-monitor.py:131-139 | So nothing but an alert at threshold one is ever sent by the first execution of an endpoint |

## Left out

- The legacy deploy path, gRPC handlers, authentication, CLI, event recording and proto conversion; of the legacy path only the lock and the pending and deletion checks appear, as guards.
- Rendering and deep comparison of Kubernetes objects, NetworkPolicies and Ingresses: a Deployment is running or a zero-replica tombstone, and a target is a selector and one port.
- Readiness and pod lifecycle: a workload is ready when it runs, and pods of a tombstone may drain at any time.
- Secrets, environment bundles and registry credentials, which ride along with a request without deciding anything here.
- Hashes, JSON and ciphers: identifiers are injective constructors, fingerprints are the text itself, stored JSON is the value.
- Freshness of generated IDs across applications; within an application a repeated deployment ID is a conflict.
- Two server processes at once: the mutation lock is per process and is no distributed fence, as the code says.
- Liveness beyond the undisturbed runs of Progress, Withdrawing and Deletion and the exact conditions of Endable and Deletion; fairness of the environment is not modelled.
- In the state machine the loops of candidate_capacity.go and candidate_deletion.go over generations are single steps that may be taken in any order; the loops themselves are in Operations.
- Safety.ReceiptsAgreeWithTraffic: says that the selected generation runs, not that it is fully ready at the moment of the commit, because readiness is an observation that may be stale by then.
- Operations.CleanupCandidateDeletion: leaves out the Ingress, Secret and NetworkPolicy objects that are removed between the two gate reads, because nothing here depends on them.
- Operations.TryDeleteCandidateApp: leaves out the Ingress, Secret and NetworkPolicy objects that CleanupCandidateDeletion also removes, because nothing here depends on them.
- MutationLock: lock objects are entries of a sequence and not heap objects, because the claims are about interleavings of many callers.
- Capacity.PlacePods: takes the nodes in any order, because the result is exact for every order, so sorting by name is not modelled.
- Collector.NothingLost: entries the journal dropped before the first completed run are not covered, because no run could see them; lines may be repeated after a crash.
- Exporter.ExportsAreExact: the log only grows during one run, but may be replaced between runs; losing the checkpoint file itself is not modelled.
- Alerts.AlertDiscipline: a crash between delivering a notice and saving the state file is not modelled.
- Retention: calendar arithmetic (day, ISO week and month are arbitrary functions) and audit_selection, which only compares a date.
- File modes, ownership, symlinks, fsync and restic.
