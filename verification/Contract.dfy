/** Which desired states the operator accepts, and when (instance_contract.go, reconcileAcceptedConfiguration). */
module Contract {
  import opened Options
  import opened OperatorTypes

  datatype Rejection =
    | MissingRequiredFields | InvalidSize | InvalidWhitelist
    | StaleDesiredGeneration | AcceptedGenerationChanged | PasswordVersionRollback | UnsupportedFields

  datatype Verdict = Candidate(accepted: Accepted) | Rejected(reason: Rejection)

  predicate ValidSize(size: Size) {
    && size.vcpu in {1, 2, 4, 8, 16}
    && size.ramGB in {1, 2, 4, 8, 16, 32, 64, 128}
    && size.vcpu <= size.ramGB <= 16 * size.vcpu
  }

  predicate RequiredFieldsPresent(spec: Spec) {
    && spec.mode.Some? && spec.size.vcpu != 0 && spec.size.ramGB != 0 && spec.publicPort != 0
    && !spec.whitelist.Absent? && spec.passwordVersion != 0 && spec.generation != 0
  }

  function AcceptedFrom(spec: Spec): Accepted
    requires spec.mode.Some? && spec.whitelist.Whitelist?
  {
    Accepted(spec.instanceID, spec.slug, spec.mode.value, spec.size, spec.publicPort,
             spec.whitelist.normalized, spec.passwordVersion, spec.generation)
  }

  /** acceptedConfiguration, after the identity of the resource and its namespace was validated. */
  function FirstAccepted(spec: Spec): Verdict {
    if !RequiredFieldsPresent(spec) then Rejected(MissingRequiredFields)
    else if !ValidSize(spec.size) then Rejected(InvalidSize)
    else if !spec.whitelist.Whitelist? then Rejected(InvalidWhitelist)
    else Candidate(AcceptedFrom(spec))
  }

  /** nextAcceptedConfiguration. */
  function NextAccepted(spec: Spec, accepted: Accepted): Verdict {
    if !RequiredFieldsPresent(spec) then Rejected(MissingRequiredFields)
    else if !ValidSize(spec.size) then Rejected(InvalidSize)
    else if !spec.whitelist.Whitelist? then Rejected(InvalidWhitelist)
    else if spec.generation < accepted.generation then Rejected(StaleDesiredGeneration)
    else if spec.generation == accepted.generation then Rejected(AcceptedGenerationChanged)
    else if spec.passwordVersion < accepted.passwordVersion then Rejected(PasswordVersionRollback)
    else
      var candidate := AcceptedFrom(spec);
      if candidate.instanceID != accepted.instanceID || candidate.slug != accepted.slug
        || candidate.mode != accepted.mode || candidate.publicPort != accepted.publicPort
        || candidate.whitelist != accepted.whitelist
      then Rejected(UnsupportedFields)
      else Candidate(candidate)
  }

  /** configurationDifferences is empty. */
  predicate Unchanged(spec: Spec, accepted: Accepted) {
    spec == Spec(accepted.instanceID, accepted.slug, Some(accepted.mode), accepted.size, accepted.publicPort,
                 Whitelist(accepted.whitelist), accepted.passwordVersion, accepted.generation)
  }

  /** acceptedConfigurationComplete. */
  predicate AcceptedComplete(status: Status) {
    && status.observedGeneration == status.accepted.generation
    && status.failover.None? && status.rollout.None? && status.rotation.None?
  }

  /** What reconcileAcceptedConfiguration writes once `candidate` may be accepted. */
  function Accept(status: Status, candidate: Accepted): Status {
    var sizeChanged := candidate.size != status.accepted.size;
    var passwordChanged := candidate.passwordVersion != status.accepted.passwordVersion;
    var started := status.(
      rollout := if sizeChanged
        then Some(Rollout(candidate.generation, candidate.size, Preparing, false, None)) else status.rollout,
      rotation := if passwordChanged
        then Some(Rotation(candidate.passwordVersion, status.accepted.passwordVersion, RotationPreparing, {}))
        else status.rotation,
      accepted := candidate);
    if !sizeChanged && !passwordChanged then
      started.(observedGeneration := candidate.generation)
    else if status.initialized && status.phase != Unavailable && status.phase != Failed then
      started.(phase := Updating, reason := OtherReason)
    else
      started
  }

  /** The whole step; `hashes` are the password versions with a valid hash in the Secret. */
  function ReconcileAccepted(status: Status, spec: Spec, hashes: set<int>): (r: Status)
    ensures r == status.(
      accepted := r.accepted, rollout := r.rollout, rotation := r.rotation, observedGeneration := r.observedGeneration,
      phase := r.phase, reason := r.reason)
    ensures r.accepted.mode == status.accepted.mode
    ensures r.reason == EmptyRecovery ==> status.reason == EmptyRecovery
    ensures r != status ==> AcceptedComplete(status) && r.accepted.generation > status.accepted.generation
    ensures r.rollout != status.rollout ==> r.rollout.Some? && r.rollout.value.stage == Preparing
  {
    if Unchanged(spec, status.accepted) then status
    else match NextAccepted(spec, status.accepted)
      case Rejected(_) => status
      case Candidate(candidate) =>
        if !AcceptedComplete(status) || candidate.passwordVersion !in hashes then status
        else Accept(status, candidate)
  }
}
