/** Which pods an instance should have, and of which size (workload.go). */
module Workload {
  import opened Options
  import opened OperatorTypes

  /** rolloutRequiresFullStop: a single process, or a shrinking memory, cannot be replaced while running. */
  predicate RequiresFullStop(status: Status) {
    && status.rollout.Some? && status.applied.Some?
    && (status.accepted.mode == Single ||
        status.rollout.value.size.ramGB < status.applied.value.size.ramGB)
  }

  predicate UsesTargetTemplate(stage: RolloutStage) {
    stage in {UpdatingTemplate, ReplacingReplicas, SwitchingPrimary, ReplacingPrimary, Starting, Verifying}
  }

  /** The size a pod created now gets (rolloutWorkloadInstance). */
  function WorkloadSize(status: Status): Size {
    if status.rollout.None? || status.applied.None? || UsesTargetTemplate(status.rollout.value.stage)
    then status.accepted.size else status.applied.value.size
  }

  /** rolloutWorkloadProcessCount. */
  function WorkloadProcessCount(status: Status): nat {
    if RequiresFullStop(status) &&
      ((status.rollout.value.stage == Stopping && status.rollout.value.accessClosed) ||
       status.rollout.value.stage == UpdatingTemplate)
    then 0 else ExpectedProcessCount(status.accepted.mode)
  }

  /** processCreationAllowed: every known process of this ordinal is proved stopped. */
  predicate ProcessCreationAllowed(status: Status, ordinal: nat) {
    && (forall id :: id in status.previous && status.previous[id].ordinal == ordinal ==>
        status.previous[id].termination.Some?)
    && (ordinal in status.nodes ==> status.nodes[ordinal].termination.Some?)
  }

  /** fullStopRolloutOwnsAvailability. */
  predicate FullStopOwnsAvailability(status: Status) {
    RequiresFullStop(status) && status.rollout.value.stage in {Stopping, UpdatingTemplate}
  }
}
