/**
 Changing the size of a running instance (rollout.go).  What the steps learn about the pods comes in
 as the set of ordinals whose current pod answers for the current process, and the subset of those
 whose template is the target's.
 */
module RolloutSteps {
  import opened Options
  import opened OperatorTypes
  import opened Workload
  import Availability
  import FailoverSteps

  datatype PodFacts = PodFacts(present: set<nat>, matching: set<nat>)

  /** The part of rolloutProcessReady that reads the status. */
  predicate StatusReady(status: Status, node: NodeStatus) {
    && node.termination.None? && node.observation.None? && node.readiness && node.appEnabled
    && node.appVersion == status.accepted.passwordVersion
    && (node.role == Replica ==>
        && node.replication.Some? && node.replication.value.linkUp
        && !node.replication.value.syncInProgress && node.replication.value.synced)
  }

  /** rolloutProcessReady. */
  predicate ProcessReady(status: Status, node: NodeStatus, pods: PodFacts) {
    StatusReady(status, node) && node.ordinal in pods.matching
  }

  /** A process whose pod had to be read and could not be: the pass ends with an error. */
  predicate Interrupted(status: Status, pods: PodFacts) {
    exists o :: o in status.nodes && StatusReady(status, status.nodes[o]) && o !in pods.present
  }

  /** rolloutCompositionReady. */
  predicate CompositionReady(status: Status, pods: PodFacts) {
    && status.initialized && Availability.PrimaryPubliclyReady(status)
    && |status.nodes| == ExpectedProcessCount(status.accepted.mode)
    && (forall o :: o in status.nodes ==> ProcessReady(status, status.nodes[o], pods))
    && (status.accepted.mode == HA ==> Availability.ReadyReplicaCount(status) == 2)
  }

  /** A rollout writes nothing about the processes themselves. */
  predicate Framed(a: Status, b: Status) {
    && b.nodes == a.nodes && b.previous == a.previous && b.accepted == a.accepted
    && b.rotation == a.rotation && b.initialized == a.initialized && b.deletion == a.deletion
    && (b.reason == EmptyRecovery ==> a.reason == EmptyRecovery)
  }

  /** advanceRollout. */
  function Advance(status: Status, stage: RolloutStage): (r: Status)
    requires status.rollout.Some?
    ensures Framed(status, r)
  {
    status.(rollout := Some(status.rollout.value.(stage := stage, process := None)),
            phase := Updating, reason := OtherReason)
  }

  /** prepareRollout. */
  function Prepare(status: Status): (r: Status)
    requires status.rollout.Some?
    ensures Framed(status, r)
  {
    status.(
      rollout := Some(status.rollout.value.(
        stage := if RequiresFullStop(status) then Stopping else UpdatingTemplate)),
      phase := Updating, reason := OtherReason)
  }

  function CloseAccess(status: Status): (r: Status)
    requires status.rollout.Some?
    ensures Framed(status, r)
  {
    status.(rollout := Some(status.rollout.value.(accessClosed := true)))
  }

  /** The part of allRolloutProcessesStopped that reads the status. */
  predicate AllKnownStopped(status: Status) {
    && (forall o :: o in status.nodes ==> status.nodes[o].termination.Some?)
    && (forall id :: id in status.previous ==> status.previous[id].termination.Some?)
  }

  /** The end of reconcileStoppedRollout. */
  function FinishStopping(status: Status): (r: Status)
    requires status.rollout.Some?
    ensures Framed(status, r)
  {
    ClearPrimary(status).(
      rollout := Some(status.rollout.value.(stage := UpdatingTemplate)),
      publicReady := false, dataLoss := Some(EmptyRestart))
  }

  /** reconcileRolloutTemplate. */
  function FinishTemplate(status: Status): (r: Status)
    requires status.rollout.Some?
    ensures Framed(status, r)
  {
    Advance(status, if RequiresFullStop(status) then Starting else ReplacingReplicas)
  }

  /** What reconcileRollingReplacement does next. */
  datatype Replacement =
    | Hold                       // wait, or retry the pass
    | Idle                       // nothing to do yet, the pass goes on
    | CloseOld(outgoing: NodeStatus)  // close client access of the process being replaced
    | DeleteOld(outgoing: NodeStatus)
    | Release                    // the replacement is ready
    | Pick(next: NodeStatus)     // start replacing this process
    | Complete                   // every process but the primary is ready on the target template

  function DecideRolling(status: Status, pods: PodFacts): Replacement
    requires status.rollout.Some?
  {
    match status.rollout.value.process
    case Some(id) =>
      (match KnownProcess(status, id)
       case None => Hold
       case Some(outgoing) =>
         if outgoing.termination.None? then
           if outgoing.appEnabled || outgoing.appVersion != status.accepted.passwordVersion
           then CloseOld(outgoing) else DeleteOld(outgoing)
         else
           var current := NodeAt(status.nodes, outgoing.ordinal);
           if current.None? || SameProcess(current.value, outgoing) then Idle
           else if !ProcessReady(status, current.value, pods) then Idle
           else Release)
    case None => DecideNext(status, pods, 0)
  }

  /** The scan over the current processes in ordinal order. */
  function DecideNext(status: Status, pods: PodFacts, ordinal: nat): Replacement
    decreases 3 - ordinal
  {
    if ordinal >= 3 then Complete
    else if ordinal !in status.nodes || status.primaryOrdinal == Some(ordinal) then
      DecideNext(status, pods, ordinal + 1)
    else
      var process := status.nodes[ordinal];
      if process.termination.Some? || ordinal !in pods.present then Hold
      else if ordinal !in pods.matching then Pick(process)
      else if !ProcessReady(status, process, pods) then Idle
      else DecideNext(status, pods, ordinal + 1)
  }

  function SetProcess(status: Status, process: Option<Identity>): (r: Status)
    requires status.rollout.Some?
    ensures Framed(status, r)
  {
    status.(rollout := Some(status.rollout.value.(process := process)))
  }

  /** What reconcileRolloutPrimarySwitch does next. */
  datatype Switch =
    | Postpone
    | Switched                                        // the primary already runs on the target template
    | HandOver(source: Identity, candidate: Identity) // start a failover to a ready process

  function DecideSwitch(status: Status, pods: PodFacts): Switch
    requires status.rollout.Some?
  {
    if status.primaryOrdinal.None? || status.primaryOrdinal.value !in status.nodes then Postpone
    else
      var primary := status.nodes[status.primaryOrdinal.value];
      if primary.ordinal !in pods.present then Postpone
      else if primary.ordinal in pods.matching then Switched
      else if Interrupted(status, pods) then Postpone
      else
        var ready := map o | o in status.nodes && ProcessReady(status, status.nodes[o], pods) :: status.nodes[o];
        match FailoverSteps.ChooseCandidate(primary, ready)
        case None => Postpone
        case Some(candidate) => HandOver(primary.id, candidate.id)
  }

  function SwitchPrimary(status: Status, decision: Switch): (r: Status)
    requires status.rollout.Some?
    ensures Framed(status, r)
  {
    match decision
    case Postpone => status
    case Switched => Advance(status, ReplacingPrimary)
    case HandOver(source, candidate) => FailoverSteps.StartResize(status, source, candidate)
  }

  /** finishRollout. */
  function Finish(status: Status): (r: Status)
    requires status.rollout.Some?
    ensures Framed(status, r)
  {
    Availability.ApplyOperationalPhase(status.(
      applied := Some(Applied(status.accepted.mode, status.rollout.value.size)),
      rollout := None))
  }
}
