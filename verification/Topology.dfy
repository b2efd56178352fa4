/** The first primary of an HA instance, and re-pointing its replicas (topology.go). */
module Topology {
  import opened Options
  import opened OperatorTypes
  import opened Workload

  /** emptyPrimaryAssignmentAllowed. */
  predicate AssignmentAllowed(status: Status) {
    var current := if status.primaryOrdinal.Some?
      then NodeAt(status.nodes, status.primaryOrdinal.value) else None;
    if !status.initialized then true
    else if current.Some? && PrimaryIdentityMatches(status, current.value)
      && current.value.role == Primary && current.value.termination.None? then false
    else if RequiresFullStop(status) && status.rollout.value.stage in {Starting, Verifying} then
      status.primaryOrdinal.None? ||
      (current.Some? && current.value.termination.None? && PrimaryIdentityMatches(status, current.value))
    else
      status.reason == EmptyRecovery && status.dataLoss == Some(AllProcessesStopped)
  }

  /** initialPrimaryReplacementSafe: the process the status names as primary is known and proved stopped. */
  predicate ReplacementSafe(status: Status, current: NodeStatus) {
    && status.primaryOrdinal == Some(current.ordinal)
    && status.primaryId in status.previous
    && status.previous[status.primaryId].ordinal == current.ordinal
    && status.previous[status.primaryId].termination.Some?
  }

  /** What reconcileInitialPrimary does about the process at ordinal 0. */
  datatype InitialPrimary = Hold | Assign | Command | Done

  function DecideInitialPrimary(status: Status): InitialPrimary {
    match NodeAt(status.nodes, 0)
    case None => Hold
    case Some(target) =>
      if target.termination.Some? || target.observation.Some? || target.appEnabled
        || target.appVersion != status.accepted.passwordVersion then Hold
      else if status.primaryOrdinal.None? || !PrimaryIdentityMatches(status, target) then
        if status.primaryOrdinal.Some? && !ReplacementSafe(status, target) then Hold else Assign
      else if target.role == Primary then Done
      else if target.role != Replica then Hold
      else Command
  }

  /** The current, answering primary replicas may be pointed at. */
  predicate PrimaryForReplication(status: Status) {
    && status.primaryOrdinal.Some?
    && status.primaryOrdinal.value in status.nodes
    && var primary := status.nodes[status.primaryOrdinal.value];
       && primary.role == Primary && primary.termination.None? && primary.observation.None?
       && PrimaryIdentityMatches(status, primary)
  }

  /** Whether reconcileReplicas wants the process at this ordinal to follow the primary's pod. */
  predicate MustFollow(status: Status, ordinal: nat, primaryPod: Uid) {
    && status.primaryOrdinal.Some? && ordinal != status.primaryOrdinal.value
    && ordinal in status.nodes
    && var replica := status.nodes[ordinal];
       && replica.termination.None? && replica.observation.None?
       && replica.appVersion == status.accepted.passwordVersion
       && (replica.role == Replica ||
           (status.failover.Some? && status.failover.value.stage == Reconfiguring &&
            status.failover.value.source == replica.id && !replica.appEnabled))
       && !(replica.replication.Some? && replica.replication.value.upstream == primaryPod)
  }
}
