/** Replacing the application password on every process (credential_rotation.go). */
module RotationSteps {
  import opened Options
  import opened OperatorTypes
  import Availability

  /** The part of rotationProcesses that decides the group. */
  predicate IsPrimaryProcess(status: Status, process: NodeStatus) {
    status.primaryOrdinal == Some(process.ordinal) && PrimaryIdentityMatches(status, process)
  }

  /** rotationConfirmed. */
  predicate Confirmed(rotation: Rotation, id: Identity) {
    Confirmation(id, rotation.target) in rotation.confirmations
  }

  /** A process that still has to be confirmed before its group is complete. */
  predicate Outstanding(status: Status, process: NodeStatus, primary: bool)
    requires status.rotation.Some?
  {
    && process.termination.None? && IsPrimaryProcess(status, process) == primary
    && !Confirmed(status.rotation.value, process.id)
  }

  /** rotationRoleComplete. */
  predicate RoleComplete(status: Status, primary: bool)
    requires status.rotation.Some?
  {
    && (forall o :: o in status.nodes ==> !Outstanding(status, status.nodes[o], primary))
    && (forall id :: id in status.previous ==> !Outstanding(status, status.previous[id], primary))
  }

  /** The confirmation rotatePasswordForRole stores after a process reported the new hash. */
  function Confirm(status: Status, process: NodeStatus): (r: Status)
    requires status.rotation.Some?
    ensures r == status.(rotation := r.rotation, nodes := r.nodes)
  {
    var rotation := status.rotation.value;
    status.(
      rotation := Some(rotation.(
        confirmations := rotation.confirmations + {Confirmation(process.id, rotation.target)})),
      nodes := map o | o in status.nodes ::
        if SameProcess(status.nodes[o], process)
        then status.nodes[o].(appVersion := rotation.target) else status.nodes[o])
  }

  /** advanceCredentialRotation. */
  function Advance(status: Status, stage: RotationStage): Status
    requires status.rotation.Some?
  {
    status.(rotation := Some(status.rotation.value.(stage := stage)), phase := Updating, reason := OtherReason)
  }

  /** The stage after a pass in which no process could be confirmed; the last stage is left by Finish. */
  function NextStage(status: Status): RotationStage
    requires status.rotation.Some?
  {
    match status.rotation.value.stage
    case RotationPreparing => UpdatingReplicas
    case UpdatingReplicas =>
      if !RoleComplete(status, false) && RoleComplete(status, true) then UpdatingReplicas else UpdatingPrimary
    case UpdatingPrimary =>
      if !RoleComplete(status, true) then UpdatingPrimary
      else if !RoleComplete(status, false) then UpdatingReplicas
      else CleaningSecret
    case CleaningSecret => CleaningSecret
  }

  /** reconcileCredentialRotation when no process could be confirmed in this pass. */
  function AdvanceStage(status: Status): (r: Status)
    requires status.rotation.Some?
    ensures r == status.(rotation := r.rotation, phase := r.phase, reason := r.reason) && r.rotation.Some?
    ensures r.reason == EmptyRecovery ==> status.reason == EmptyRecovery
  {
    if NextStage(status) == status.rotation.value.stage then status else Advance(status, NextStage(status))
  }

  /** The end of finishCredentialRotation, once the previous hash is out of the Secret. */
  function Finish(status: Status): (r: Status)
    requires status.rotation.Some?
    ensures r == status.(
      appliedPasswordVersion := status.rotation.value.target, rotation := None,
      phase := r.phase, reason := r.reason, observedGeneration := r.observedGeneration)
    ensures r.reason == EmptyRecovery ==> status.reason == EmptyRecovery
  {
    Availability.ApplyOperationalPhase(status.(
      appliedPasswordVersion := status.rotation.value.target, rotation := None))
  }
}
