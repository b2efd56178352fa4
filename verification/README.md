# A model of the managed Valkey service

This project models the two programs that keep managed Valkey instances running, and proves what they promise
together.

**The operator** drives one instance at a time. Each pass over an instance observes its processes and then works
on fencing and failover, the password rotation, a change of size, the topology, and the admission of clients. It
knows the processes only through the status it stored, which may be behind, and a pass may end between a command to
a process and the note of it in the status. `Operator` is that machine: the stored status together with the real
processes, the pods, the Secret and the position of the pass. A step is one patch of the status with the commands
that precede it; a command may be answered, be carried out with the answer lost, stay in flight, or never be sent.

**The API** keeps rows, quotas, billing periods and idempotency keys (`Ledger`), delivers a row into the resource the
operator reads, imports the status back, and removes an instance in two stages. `Platform` puts both programs
together: for every instance the row, the namespace, the resource, the operator's machine, and the two loops of the
API with what they read earlier.

| files | what they hold |
|---|---|
| Options, OperatorTypes | the stored status and its parts |
| Health, Observation, Contract, Availability, Workload, Topology, FailoverSteps, RolloutSteps, RotationSteps | what each part of a pass reads and writes |
| Session, ProcessScripts, Connections, LeaseScope | commands to a process, and who may still send one |
| Operator, Shape, OperationOrder, SingleWriter | the machine, its invariants, and one writable primary |
| NoSecondPromotion, Displacement, ProcessHistory, RolloutSafety, RotationGate, RotationProgress, EmptyRecovery, DeletionSafety, Confirmation | further properties of every run of the operator |
| Passes, StartUp, HaStartUp, StrayHandOver, TimedOutRecovery | examples of runs: start-up of both modes, and two that show where a documented promise fails |
| Listing, StatusObject, ObservationOrder, FailoverChoice | the status object as it is edited in place, and its loops |
| Ledger, LedgerTables, Billing, Quota, Idempotency | the API's transactions over whole histories |
| Platform, Handshake, Agreement, Reservation, FirstDelivery | API and operator together |
| RateLimiting, AuditPaging | the request limit and the audit pages |

Functions say what is computed. Where the programs change an object step by step, a class does the same with fields,
loops and assignments, and its methods are proved to leave behind exactly what the functions say.

## What the model takes as given

- One pass at a time works on an instance, and a status patch is atomic (optimistic lock).
- A stored proof of termination is true: the container reported its end, its Kubernetes node is gone, or an
  administrator vouched for it.
- A fresh process starts with client access off and, in an HA instance, as a replica; a container is never restarted.
- Only operator sessions change the role of a process or its client access, and a command reaches the process of the
  pod it was checked for.
- Kubernetes keeps an object until its finalizers are gone, and a namespace until it is empty.
- The API runs once, so one delivery and one import of an instance are under way at a time; transactions hold the
  advisory lock, under which the database time does not go back.

Elsewhere the model allows more than the programs do: anybody may ask for the deletion of a pod at any time, a pod may
be replaced by force, any inspection may close client access, an administrator may vouch for any known process that
has ended, what a process reports about replication is arbitrary, and a loop of the API may stop after any step.

## Where the code and its documents disagree

SYSTEM-DETAIL.md:1049-1055 allows an empty primary in two cases: every process with data is proved stopped, or what is
left was proved empty for two minutes. The code (operator/internal/operator/topology.go:45-69) assigns one only while
the stored reason is still the empty recovery and the loss was noted as `AllProcessesStopped`; a recovery that timed
out notes another loss, and an unavailable process overwrites the reason. `EmptyRecovery` gives the exact condition,
and proves that outside of it the instance stays without a primary; `TimedOutRecovery` has a run that gets there.

SYSTEM-DETAIL.md:981-987 makes the fencing of the old primary, or a proof of its end, a condition of every promotion.
A resize hands over from the process at the primary's ordinal (operator/internal/operator/rollout.go:387-432) without
comparing it with the named primary, so after a pod was replaced by force it fences the new process and not the old
primary. `NoSecondPromotion` proves the promise for every run in which each failover begins with the named primary,
`Displacement` for every run without a pod replaced by force, and `StrayHandOver` has a run in which it fails.
`OneWriter` holds there as well: clients are admitted to no new primary while a lost process is in the history.

Times in the status have whole seconds, the clock has nanoseconds. `Health` states what the failure detector counts in
these terms, when that is exact to the nanosecond, and two inputs where it is not.

## Model

| member | source | states |
|---|---|---|
| SingleWriter.OneWriter | operator/internal/operator/failover.go:26-583 | in every state of every run, at most one live process has the primary role and is open to clients or has clients |
| SingleWriter.StepKeepsSafe | operator/internal/operator/valkeyinstance_controller.go:172-230 | every step of a pass, and everything that happens between, keeps the invariant that only the designated process can become or be a writer |
| SingleWriter.DecisionIsGranted | operator/internal/operator/failover.go:26-62 | whatever the failover decides from the stored status is safe for the real processes |
| SingleWriter.EmptyMeansNothingHot | operator/internal/operator/failover.go:309-385 | when the status justifies starting over empty, no live process can be written to |
| SingleWriter.FailoverKeepsSafe | operator/internal/operator/failover.go:120-275 | a pass of the failover, with any fate of its commands, keeps the invariant |
| SingleWriter.RolloutKeepsSafe | operator/internal/operator/rollout.go:25-160 | a pass of the rollout keeps the invariant |
| SingleWriter.InitialPrimaryKeepsSafe | operator/internal/operator/topology.go:71-134 | assigning and promoting a first primary keeps the invariant |
| SingleWriter.ReplicaAdmissionKeepsSafe | operator/internal/operator/app_admission.go:274-367 | opening a replica to clients keeps the invariant |
| SingleWriter.AppAdmissionKeepsSafe | operator/internal/operator/app_admission.go:169-272 | opening the primary to clients keeps the invariant |
| SingleWriter.InspectionKeepsSafe | operator/internal/operator/process_observation.go:95-322 | whatever an inspection finds, writing it down keeps the invariant |
| NoSecondPromotion.NoSecondPromotion | operator/internal/operator/failover.go:451-538 | when a process is promoted, every other live process that is or may become a primary is closed to clients, in every run whose failovers so far began with the named primary |
| NoSecondPromotion.PromotionSparesOnlyExcepted | operator/internal/operator/rollout.go:387-432 | in every run the only other primary clients can still use at a promotion is a lost one, after a failover began with another process than the named primary |
| Displacement.NoSecondPromotionUnforced | operator/internal/operator/process_observation.go:454-494 | without a pod replaced by force a promotion finds every other live primary closed, whatever else happens |
| Displacement.FormerProcessesHaveStopped | operator/internal/operator/process_observation.go:454-494 | without a pod replaced by force every process in the history is proved stopped, and has stopped |
| StrayHandOver.LostPrimaryOutlivesPromotion | operator/internal/operator/rollout.go:387-432 | there is a run in which a pod is replaced by force, a resize hands over from its replacement, and the candidate is promoted beside the old primary, still open to clients |
| NoSecondPromotion.CandidateIsNeverDropped | operator/internal/operator/failover.go:170-275 | a candidate that may have been promoted is dropped only when proved stopped, or becomes the next source of fencing |
| Shape.RunsAreSound | operator/internal/operator/process_observation.go:454-533 | in every state listed processes are real, stored proofs are true, and a displaced process is in no pod |
| OperationOrder.StepIsOrderly | operator/internal/operator/failover.go:540-583 | failover, rollout and rotation keep their stages consistent with each other and with the mode |
| OperationOrder.StepIsInOrder | operator/internal/operator/valkeyinstance_controller.go:107-243 | a pass gets past the failover only when no failover bars it, with every ordinal inspected |
| ProcessHistory.NoProcessIsForgotten | operator/internal/operator/process_termination.go:18-53 | a process once listed is listed in every later state until a proof of its end was stored |
| ProcessHistory.ProofsDoNotChange | operator/internal/operator/process_termination.go:99-127 | a stored proof of termination is never taken back or replaced |
| ProcessHistory.ProofsStayTrue | operator/internal/operator/manual_fencing.go:60-79 | a process with a stored proof is dead in every later state |
| ProcessHistory.PodIsReleasedAfterProof | operator/internal/operator/process_termination.go:140-183 | the finalizer of a pod goes only while it is being deleted and the proof of its process is stored |
| ProcessHistory.PodIsCreatedAfterStop | operator/internal/operator/workload.go:475-483 | when a pod is created, every listed process of its ordinal is dead |
| RolloutSafety.FullStopExcludesFailover | operator/internal/operator/failover.go:26-71 | a full stop in its stopping stages never coexists with a failover |
| RolloutSafety.SizeAppliesOnlyWhenReady | operator/internal/operator/rollout.go:463-559 | a size becomes the applied one at the first admission, or when every expected process is ready and open in a pod of that size |
| RolloutSafety.PrimaryIsClearedOnlyWhenSafe | operator/internal/operator/rollout.go:101-160 | the status stops naming a primary only after everything stopped and every pod is gone, or while nothing live can be written to |
| RotationGate.OpenProcessesAcceptHeldVersions | operator/internal/operator/credential_rotation.go:92-172 | a live open process accepts the accepted version, or the previous one until it is confirmed, and the Secret holds both |
| RotationGate.HashIsRemovedWhenUnused | operator/internal/operator/credential_rotation.go:286-364 | a hash leaves the Secret only when no live process accepts it, no client uses it and no command in flight brings it back |
| RotationGate.RotationFinishesAfterRemoval | operator/internal/operator/credential_rotation.go:286-364 | the new version counts as applied only after the previous hash is out of the Secret and unused |
| RotationProgress.AdvanceLowersMeasure | operator/internal/operator/credential_rotation.go:36-90 | every confirmation and every change of stage lowers one measure |
| RotationProgress.RotationCannotCycle | operator/internal/operator/credential_rotation.go:36-172 | the number of advances of a rotation is at most four for every unconfirmed process and three more |
| RotationProgress.StayingMeansWork | operator/internal/operator/credential_rotation.go:52-84 | a stage is kept only while its own group has a process to confirm, or the Secret is being cleaned |
| RotationProgress.CleaningMeansAllConfirmed | operator/internal/operator/credential_rotation.go:174-214 | the cleaning stage is entered if and only if no process of either group is outstanding |
| EmptyRecovery.AssignmentNeedsOpenRecovery | operator/internal/operator/topology.go:45-69 | outside a full stop an initialized instance without primary may assign one if and only if the reason and the noted loss are those of an untimed empty recovery |
| EmptyRecovery.BeginningOpensAssignment | operator/internal/operator/failover.go:387-449 | beginning an empty recovery opens the assignment if and only if it did not time out, or a full stop is restarting |
| EmptyRecovery.RecoveryOpensOnlyWithProof | operator/internal/operator/failover.go:277-307 | after the step that begins an empty recovery a primary may be assigned if and only if every process with data was proved stopped and replaced, or a full stop is restarting; otherwise the instance is stranded |
| TimedOutRecovery.ARecoveryStrands | operator/internal/operator/failover.go:277-307 | there is a run of an HA instance whose last step begins a recovery that timed out, and strands it |
| EmptyRecovery.UnavailableProcessClosesRecovery | operator/internal/operator/process_observation.go:345-366 | a missing process closes the assignment again |
| EmptyRecovery.StrandedStaysUnavailable | operator/internal/operator/failover.go:387-449 | an instance left without primary outside the condition stays so until its size changes |
| DeletionSafety.DeletionOnlyMovesForward | operator/internal/operator/deletion.go:37-119 | the stage of a deletion never goes back and never skips one |
| DeletionSafety.FinalizerGoesLast | operator/internal/operator/deletion.go:258-398 | the finalizer is removed only in the last stage, with every listed process proved stopped and no pod left |
| DeletionSafety.GoneStaysGone | operator/internal/operator/deletion.go:382-398 | after that no pod exists and no process ever listed is alive, in every later state |
| Confirmation.RunsAreTruthful | operator/internal/operator/availability.go:94-101 | a generation reported as observed has its size and password in force, and every pod has the accepted or the applied size |
| Confirmation.StepReports | operator/internal/operator/availability.go:11-67 | a step moves what is reported towards the accepted configuration, or takes up the configuration it read |
| Confirmation.AcceptanceReports | operator/internal/operator/valkeyinstance_controller.go:325-432 | a configuration is taken up only after the one before it is in force |
| Contract.ReconcileAccepted | operator/internal/operator/instance_contract.go:187-272 | a change is accepted only when the accepted generation is complete, and raises the generation |
| StartUp.AnInstanceStarts | operator/internal/operator/valkeyinstance_controller.go:107-243 | there is a run from a new resource to a confirmed generation with one open primary |
| HaStartUp.Serves | operator/internal/operator/topology.go:71-134 | there is a run of an HA instance in which the first process is assigned, promoted and opened, and the generation confirmed |
| Health.CounterIsCountedRun | operator/internal/operator/process_health.go:124-147 | after any history the stored error counter and since-time are the length and the first time, in whole seconds, of the run of transport errors counted since the start of the operator |
| Health.BusySinceIsCountedRun | operator/internal/operator/process_health.go:124-147 | the stored busy time is the beginning, in whole seconds, of the counted run of busy answers |
| Health.ThresholdsDecideOnHistory | operator/internal/operator/process_health.go:149-174 | failure, unresponsiveness and busy intervention are decided exactly by the length and the stored age of the counted run |
| Health.ThresholdsAreExactOnWholeSeconds | operator/internal/operator/process_health.go:149-174 | when events fall on whole seconds they are decided by the trailing run and its age to the nanosecond |
| Health.EarlyByLessThanASecond | operator/internal/operator/process_health.go:171-174 | a limit is never reached a second or more too early |
| Health.LateOnlyAfterStart | operator/internal/operator/process_health.go:50-59 | no run that began a second or more after the start of the operator is missed |
| Health.FirstSecondIsForgotten | operator/internal/operator/process_health.go:50-59 | two errors, the first within the second in which the operator was started, are counted as one |
| Health.FailureIsDeclaredEarly | operator/internal/operator/process_health.go:149-174 | three errors over 9.2 seconds are declared a failure |
| Session.DisableAccessFences | operator/internal/operator/app_admission.go:481-554 | disabling access never opens anything however it is interrupted; success means closed, without clients, with the given hash, and nothing in flight |
| Session.EnableAccessOpens | operator/internal/operator/app_admission.go:481-554 | whatever enabling leaves open accepts only the given hash, and success means open with it |
| Session.PromotionTouchesRole | operator/internal/operator/topology.go:136-167 | promotion changes nothing but the role, and only of a replica |
| Session.FollowOnlyDemotes | operator/internal/operator/topology.go:242-283 | re-pointing never makes a primary and never demotes an open one |
| Session.RotationReplacesHash | operator/internal/operator/credential_rotation.go:216-253 | rotation keeps role and access, and success leaves the new hash only and no older connection |
| ProcessScripts.ScriptSession.UpdateAppAccess | operator/internal/operator/app_admission.go:481-554 | the command sequence, stopped at any command, leaves and reports exactly what the function of the model does |
| ProcessScripts.ScriptSession.Promote | operator/internal/operator/topology.go:136-167 | the same for the promotion |
| ProcessScripts.ScriptSession.Follow | operator/internal/operator/topology.go:242-283 | the same for re-pointing a replica |
| ProcessScripts.ScriptSession.RotatePassword | operator/internal/operator/credential_rotation.go:216-253 | the same for the rotation of one process |
| Connections.OneChangeInFlight | operator/internal/valkey/client.go:300-311 | in every history from a fresh process, with any number of operators and sessions, at most one changing command is in flight |
| Connections.ConnectionsRefineSession | operator/internal/valkey/client.go:486-497 | every history of all connections to a process is, event by event, a history of the process with its single pending command |
| Connections.FenceIsStable | operator/internal/valkey/client.go:486-497 | after a fence every older connection stays closed, and access opens only through a later order |
| Connections.OnlyALaterOrderOpens | operator/internal/valkey/client.go:660-734 | that order was sent over the fencing connection or a newer one under a lease that had not ended |
| Connections.TakeOverFences | operator/internal/valkey/client.go:300-311 | taking control of a closed process is such a fence |
| LeaseScope.LeaseScope.FinishDial | operator/internal/operator/lease_scope.go:61-100 | a connection is handed out if and only if its lease is still the active one; otherwise it is closed |
| LeaseScope.LeaseScope.CloseConnections | operator/internal/operator/lease_scope.go:112-125 | afterwards every connection ever handed out is closed |
| LeaseScope.EndOfLease | operator/internal/operator/lease_scope.go:42-52 | after the end of a lease no connection of it may send |
| Listing.Find | operator/internal/operator/process_observation.go:465-473 | the loop finds the listed process of an ordinal, if there is one |
| Listing.HasUnterminated | operator/internal/operator/process_observation.go:535-539 | the loop tells whether some process of the history has no proof |
| Listing.Replace | operator/internal/operator/process_observation.go:496-518 | the rebuilt list is sorted and lists exactly the old processes with the observed one in its place |
| Listing.Append | operator/internal/operator/process_observation.go:520-533 | the history gains exactly this process, without a duplicate |
| Listing.SortedIsUnique | operator/internal/operator/process_observation.go:513-515 | a sorted list is determined by the processes it lists |
| StatusObject.HistoryKeepsOrdinals | operator/internal/operator/process_observation.go:475-494 | an identity in the history keeps its ordinal, which the methods below rely on |
| StatusObject.InstanceStatus.RecordCurrentProcess | operator/internal/operator/process_observation.go:475-494 | editing both lists gives the status of the model |
| StatusObject.InstanceStatus.RecordSeen | operator/internal/operator/process_observation.go:238-322 | the same for the whole closure that records a live process |
| StatusObject.InstanceStatus.ProcessUnavailable | operator/internal/operator/process_observation.go:345-366 | the same for a missing process |
| StatusObject.InstanceStatus.SaveContainerTermination | operator/internal/operator/process_termination.go:99-127 | the same for the end of a container, with the loop over the history |
| StatusObject.InstanceStatus.AcceptManualFencing | operator/internal/operator/manual_fencing.go:60-79 | the same for both loops of a manual fencing |
| StatusObject.InstanceStatus.PruneHistory | operator/internal/operator/process_termination.go:18-53 | the pruned list keeps exactly the processes without a proof and those an operation refers to |
| StatusObject.InstanceStatus.ReadyReplicas | operator/internal/operator/availability.go:80-92 | the loop counts the ready replicas |
| StatusObject.InstanceStatus.ApplyOperationalPhase | operator/internal/operator/availability.go:11-67 | the assignments give the phase and the confirmation of the model |
| StatusObject.InstanceStatus.FinishAppAdmission | operator/internal/operator/app_admission.go:226-272 | the same for the closure that notes an admitted primary |
| StatusObject.InstanceStatus.AcceptConfiguration | operator/internal/operator/valkeyinstance_controller.go:325-420 | the same for taking up a configuration |
| StatusObject.InstanceStatus.ConfirmRotation | operator/internal/operator/credential_rotation.go:148-165 | the same for confirming a process in a rotation |
| ObservationOrder.UpdatesCommute | operator/internal/operator/process_observation.go:34-93 | the updates of two ordinals lead to the same processes and history in either order |
| ObservationOrder.OrderDoesNotMatter | operator/internal/operator/process_observation.go:34-93 | so do any number of updates of different ordinals in any two orders |
| ObservationOrder.SameListInAnyOrder | operator/internal/operator/process_observation.go:496-518 | the sorted list that is stored is the same, entry by entry |
| FailoverChoice.ChoiceIsFurthest | operator/internal/operator/failover.go:656-683 | the chosen candidate is eligible and no eligible process is further, or as far with a lower ordinal; there is none only if none is eligible |
| FailoverChoice.ChooseFailoverCandidate | operator/internal/operator/failover.go:656-683 | the search over the list finds that candidate |
| FailoverChoice.RoleComplete | operator/internal/operator/credential_rotation.go:174-201 | the loop tells exactly whether a group has no outstanding process |
| Billing.BillingIsConserved | api/internal/valkey/mutations.go:263-290 | in every history the periods of an instance are contiguous from its creation, one is open unless deletion was requested, it has the current size and price, and the lengths add up |
| Quota.OperationStaysWithin | api/internal/valkey/mutations.go:556-621 | no transaction takes the usage of a user, of the cluster, or the number of instances over the larger of its limit and what it was |
| Quota.LimitsAreKept | api/internal/valkey/mutations.go:253-261 | within the limits once, within them in every later state |
| Quota.LimitsHoldFromTheStart | api/internal/valkey/mutations.go:556-621 | a system that started empty is within its limits in every state |
| Idempotency.RetriesAreReplayed | api/internal/valkey/mutations.go:722-792 | a request that was carried out, repeated after any other transactions and before its key expires, gets the first response and changes nothing |
| Idempotency.ReusedKeyIsRefused | api/internal/valkey/mutations.go:764-792 | a live key is refused for another request |
| LedgerTables.Tables.Usage | api/internal/store/valkey.go:182-206 | the sum over the rows is the usage of the model in both resources, and counts the instances |
| LedgerTables.Tables.CheckQuota | api/internal/valkey/mutations.go:556-621 | the comparisons give the failure of the model, for a user and for the cluster |
| LedgerTables.Tables.CloseBillingPeriod | api/internal/store/valkey.go:291-309 | exactly the open periods are ended, and their number is returned |
| LedgerTables.OnePeriodIsOpen | api/internal/store/valkey.go:291-309 | a closing update always finds exactly one open period |
| LedgerTables.Tables.Create | api/internal/valkey/mutations.go:26-120 | the writes of the transaction give the books and the outcome of the model |
| LedgerTables.Tables.Resize | api/internal/valkey/mutations.go:206-305 | the same for a change of size |
| LedgerTables.Tables.Delete | api/internal/valkey/mutations.go:449-481 | the same for a request to delete |
| Platform.StepEvolves | api/internal/valkey/service.go:160-189 | every step of the service is one event of at most one instance, or a new instance |
| Handshake.InstancesAreHandshaken | api/internal/sync/deletion.go:18-89 | in every state of every run of the service the objects of an instance fit its stage and what its loop knows |
| Handshake.NamespaceGoesAfterResource | api/internal/sync/deletion.go:177-285 | whenever the API asks for the end of a namespace, the resource in it is gone already |
| Handshake.BondsAreKept | api/internal/store/valkey_sync.go:79-197 | over any stretch of a run remembered UIDs stay and the stage only moves forward |
| Agreement.DeliveryKeepsAgreement | api/internal/sync/delivery.go:35-248 | every step of a delivery, from a row read earlier, keeps row, resource and operator in agreement |
| Agreement.OperatorKeepsAgreement | operator/internal/operator/valkeyinstance_controller.go:325-420 | so does every step of the operator |
| Agreement.ImportKeepsAgreement | api/internal/sync/import.go:24-105 | so does an import of a status read earlier |
| Agreement.GenerationsAgree | api/internal/store/valkey_sync.go:297-339 | a row is at most one generation ahead; when it is not, the operator accepted and applied its size and password, and the row knows it |
| Agreement.TwoPasswordVersions | api/internal/sync/delivery.go:103-184 | hashes in the Secret, hashes of open live processes and versions of their clients are among at most two |
| Agreement.EveryInstanceHasOneWriter | operator/internal/operator/failover.go:26-583 | one writer, for every instance in every run of the whole service |
| Agreement.DeletedMeansStopped | api/internal/store/valkey_sync.go:199-237 | a deleted row has no resource, no namespace, no pod, and no process of it that was ever listed is alive |
| Reservation.TrustedPodsAreCovered | operator/internal/operator/workload.go:125-171 | every pod has the ordered or the applied size of the row, at an ordinal of its mode |
| Reservation.InstanceIsReserved | api/internal/valkey/catalog.go:97-118 | the pods of an instance fit into its reserve |
| Reservation.ImportsAreKnown | api/internal/store/valkey_sync.go:297-339 | an accepted import brings the applied or the ordered size |
| Reservation.UsageCoversWhatRuns | api/internal/store/valkey.go:182-206 | all pods of a user, or of all users, fit into the usage the API counts |
| Reservation.WhatRunsFits | api/internal/valkey/mutations.go:556-621 | in every state of every run the pods fit into the quota of their user and into the cluster, and at most 32 instances are not deleted |
| FirstDelivery.AnInstanceComesIntoForce | api/internal/sync/delivery.go:35-73 | there is a run of the service from a user's order over delivery, start and import to a row that is in force |
| RateLimiting.DiscardExpired | api/internal/api/rate_limit.go:60-67 | the loop keeps exactly the requests after the cutoff |
| RateLimiting.RateLimiter.Allow | api/internal/api/rate_limit.go:33-58 | a request is accepted if and only if fewer than the limit were accepted in its window, and the stored lists are the log of accepted requests cut to the window |
| RateLimiting.NoWindowHoldsMore | api/internal/api/rate_limit.go:33-58 | no window of the length, wherever it ends, holds more accepted requests than the limit |
| RateLimiting.WaitingIsExact | api/internal/api/rate_limit.go:48-53 | after the announced delay the address is accepted, and before its oldest request leaves the window it is not |
| AuditPaging.CursorsRoundTrip | api/internal/audit/page.go:115-148 | decoding the cursor of a stored entry gives its position |
| AuditPaging.NewerIsNotBelow | api/internal/store/audit.go:34-61 | below an entry are exactly the entries listed after it, whatever newer was added |
| AuditPaging.WalkAt | api/internal/audit/page.go:85-112 | the k-th page a client gets is the k-th page of the log at its first request |
| AuditPaging.PagingIsComplete | api/internal/audit/page.go:85-112 | following the cursors to the end gives every entry once and in order, in the least number of pages |
| AuditPaging.PagingContinues | api/internal/audit/page.go:85-112 | as long as there is a cursor the next page is not empty |

## Left out

- NoSecondPromotion: assumes that each failover began with the named primary; the hand-over of a resize does not check
  that (operator/internal/operator/rollout.go:387-432), and StrayHandOver shows that the property fails without it.
- SizeAppliesOnlyWhenReady: a pod matches the target of a rollout by its size; the comparison of the image and of the
  name of the ConfigMap (operator/internal/operator/rollout.go:484-515) is not modelled.
- OpenProcessesAcceptHeldVersions: a hash stands for its password version; two versions with the same password are one
  hash in the Secret but two versions here.
- GenerationsAgree: says nothing about a changed whitelist being observed, because the operator rejects such a
  generation and the row then stays one ahead.
- WaitingIsExact: seconds are rounded up exactly; the rounding of floating-point seconds is not modelled.
- CursorsRoundTrip: the JSON and base64 form of a cursor is not modelled; a position stands for its encoding.
- Order of status lists: `Operator` keeps the lists as tables; that the loops over the stored lists compute them, in
  any order of the inspections, is what Listing, StatusObject and ObservationOrder prove.
- Stages of a failover, of a rollout and of a rotation that only assign fields have no method in StatusObject.
- Recovery of a process that does not answer (process_recovery.go), and stopping a busy script.
- Network objects, Envoy and its cache, certificates, labels, services and disruption budgets: whether clients are
  routed is an input of the admission.
- Service credentials, the generation of slugs, ports, passwords and tokens; names and hashes are opaque.
- Audit rows, phase events, stored copies of nodes, metrics, retention, and the recovery marks of a row.
- Maintenance windows, validation of request fields, HTTP handlers, configuration, health endpoints, the web client.
- The price of a size as a machine integer: prices do not overflow here.
- Conditions and messages of the status, times of stages, and the deadline of provisioning.
- Progress of failover and rollout: beyond the bound on a rotation, only what may happen is proved, not that it does.
