/** Phases and the confirmation of a generation (availability.go, finishAppAdmission). */
module Availability {
  import opened Options
  import opened OperatorTypes

  predicate PrimaryPubliclyReady(status: Status) {
    && status.publicReady && status.primaryOrdinal.Some?
    && status.primaryOrdinal.value in status.nodes
    && var primary := status.nodes[status.primaryOrdinal.value];
       && primary.role == Primary && primary.termination.None? && primary.observation.None?
       && primary.readiness && primary.appEnabled
       && primary.appVersion == status.accepted.passwordVersion
  }

  predicate ReplicaReady(status: Status, node: NodeStatus) {
    && node.role == Replica && node.termination.None? && node.observation.None?
    && node.readiness && node.appEnabled && node.appVersion == status.accepted.passwordVersion
    && node.replication.Some? && node.replication.value.linkUp
    && !node.replication.value.syncInProgress && node.replication.value.synced
  }

  function ReadyReplicaCount(status: Status): nat {
    |set o | o in status.nodes && ReplicaReady(status, status.nodes[o])|
  }

  /** confirmAppliedGeneration. */
  function ConfirmApplied(status: Status): (r: Status)
    ensures r == status.(observedGeneration := r.observedGeneration)
  {
    if && status.applied.Some?
       && status.applied.value == Applied(status.accepted.mode, status.accepted.size)
       && status.appliedPasswordVersion == status.accepted.passwordVersion
    then status.(observedGeneration := status.accepted.generation)
    else status
  }

  /** applyOperationalPhase. */
  function ApplyOperationalPhase(status: Status): (r: Status)
    ensures r == status.(phase := r.phase, reason := r.reason, observedGeneration := r.observedGeneration)
    ensures r.reason == EmptyRecovery ==> status.reason == EmptyRecovery
    ensures !status.initialized ==> r == status
  {
    if !status.initialized then status
    else if !PrimaryPubliclyReady(status) || HasUnterminatedPrevious(status.previous) then
      status.(phase := Unavailable, reason := PrimaryNotReady)
    else if status.failover.Some? || status.rollout.Some? || status.rotation.Some? then
      status.(phase := Updating, reason := OtherReason)
    else if status.accepted.mode == HA && ReadyReplicaCount(status) < 2 then
      ConfirmApplied(status.(phase := Degraded, reason := OtherReason))
    else
      ConfirmApplied(status.(phase := Running, reason := OtherReason))
  }

  /** The current processes once client access to this one is open. */
  function Admit(status: Status, node: NodeStatus): map<nat, NodeStatus> {
    map o | o in status.nodes ::
      if SameProcess(status.nodes[o], node)
      then status.nodes[o].(appEnabled := true, appVersion := status.accepted.passwordVersion)
      else status.nodes[o]
  }

  /** finishAppAdmission. */
  function FinishAppAdmission(status: Status, node: NodeStatus): (r: Status)
    ensures r == status.(
      phase := r.phase, reason := r.reason, initialized := true, publicReady := true,
      observedGeneration := r.observedGeneration, appliedPasswordVersion := r.appliedPasswordVersion,
      applied := r.applied, primaryOrdinal := Some(node.ordinal), primaryId := node.id, nodes := r.nodes)
    ensures r.nodes == Admit(status, node)
    ensures !status.initialized ==> r.applied == Some(Applied(status.accepted.mode, status.accepted.size))
    ensures status.initialized ==>
      r.applied == status.applied && r.appliedPasswordVersion == status.appliedPasswordVersion
    ensures r.reason == EmptyRecovery ==> status.reason == EmptyRecovery
  {
    var admitted := SetPrimary(status, node).(
      initialized := true,
      publicReady := true,
      nodes := Admit(status, node));
    var first := if status.initialized then admitted else admitted.(
      appliedPasswordVersion := status.accepted.passwordVersion,
      applied := Some(Applied(status.accepted.mode, status.accepted.size)));
    ApplyOperationalPhase(first)
  }

  /** What reconcileReplicaAdmission writes about an admitted replica. */
  function FinishReplicaAdmission(status: Status, node: NodeStatus): (r: Status)
    ensures r == status.(
      phase := r.phase, reason := r.reason, observedGeneration := r.observedGeneration, nodes := Admit(status, node))
    ensures r.reason == EmptyRecovery ==> status.reason == EmptyRecovery
  {
    ApplyOperationalPhase(status.(nodes := Admit(status, node)))
  }

  /** admissionPending. */
  function AdmissionPending(status: Status): (r: Status)
    ensures r == status.(phase := r.phase, reason := r.reason, publicReady := false)
    ensures r.reason == EmptyRecovery ==> status.reason == EmptyRecovery
  {
    var pending := status.(publicReady := false);
    if status.initialized then pending.(phase := Unavailable, reason := PrimaryNotReady) else pending
  }
}
