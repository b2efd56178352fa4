/**
 The status of one managed instance, as the operator stores it in the ValkeyInstance resource.

 Opaque identifiers (pod UIDs, container IDs, run IDs, addresses, hashes) are natural numbers and
 0 stands for the empty string.  `nodes` is keyed by ordinal, as the list-map marker of the
 resource declares it; the sequence form the Go code edits in place is in Listing and StatusObject.
 */
module OperatorTypes {
  import opened Options

  type Uid = nat
  type Time = int

  /** What sameIdentity compares. */
  datatype Identity = Identity(podUID: Uid, containerID: Uid, runID: Uid, nodeName: Uid, nodeUID: Uid)

  const NO_IDENTITY := Identity(0, 0, 0, 0, 0)

  datatype Mode = Single | HA
  datatype Role = NoRole | Primary | Replica
  datatype Size = Size(vcpu: int, ramGB: int)

  /** `upstream` is the UID of the pod whose address is replicated from; the port is constant. */
  datatype Replication = Replication(
    replicationID: Uid, offset: int, upstream: Uid, linkUp: bool, syncInProgress: bool, synced: bool)

  datatype ObservationKind = TransportError | Busy | Loading | AuthError | ServerError

  datatype Observation = Observation(
    kind: ObservationKind, observedAt: Time, errors: nat, errorSince: Option<Time>, busySince: Option<Time>)

  datatype Evidence = ContainerStatus | NodeDeleted | ManualFencing

  datatype NodeStatus = NodeStatus(
    ordinal: nat, id: Identity, role: Role, readiness: bool, appEnabled: bool, appVersion: int,
    replication: Option<Replication>, observation: Option<Observation>, termination: Option<Evidence>)

  datatype WhitelistSpec = Absent | Malformed | Whitelist(normalized: nat)

  /** The desired state the API writes into the resource. */
  datatype Spec = Spec(
    instanceID: Uid, slug: Uid, mode: Option<Mode>, size: Size, publicPort: int,
    whitelist: WhitelistSpec, passwordVersion: int, generation: int)

  datatype Accepted = Accepted(
    instanceID: Uid, slug: Uid, mode: Mode, size: Size, publicPort: int,
    whitelist: nat, passwordVersion: int, generation: int)

  datatype Applied = Applied(mode: Mode, size: Size)

  datatype FailoverReason = Failure | Resize
  datatype FailoverStage = Fencing | Choosing | Promoting | Reconfiguring

  datatype Failover = Failover(
    reason: FailoverReason, stage: FailoverStage, source: Identity, candidate: Option<Identity>,
    sourceAppDisabled: bool, sourceClientsKilled: bool,
    candidateAppDisabled: bool, candidateClientsKilled: bool, candidateMayBePrimary: bool,
    replicationID: Uid, controlOffset: int, offsetDeadline: Option<Time>, emptySince: Option<Time>)

  datatype RolloutStage =
    | Preparing | Stopping | UpdatingTemplate | ReplacingReplicas | SwitchingPrimary
    | ReplacingPrimary | Starting | Verifying

  datatype Rollout = Rollout(
    generation: int, size: Size, stage: RolloutStage, accessClosed: bool, process: Option<Identity>)

  datatype RotationStage = RotationPreparing | UpdatingReplicas | UpdatingPrimary | CleaningSecret

  datatype Confirmation = Confirmation(process: Identity, version: int)

  datatype Rotation = Rotation(
    target: int, previous: int, stage: RotationStage, confirmations: set<Confirmation>)

  datatype DeletionStage = RemovingNetwork | DisablingApp | StoppingPods | VerifyingStop

  datatype Phase = Provisioning | Running | Updating | Degraded | Unavailable | Failed

  /** The reasons the transitions below distinguish; every other text is OtherReason. */
  datatype Reason = EmptyRecovery | FencingRequired | PrimaryNotReady | OtherReason

  datatype DataLoss = AllProcessesStopped | EmptyProcessesTimedOut | EmptyRestart

  datatype Status = Status(
    phase: Phase, reason: Reason, initialized: bool, publicReady: bool, dataLoss: Option<DataLoss>,
    observedGeneration: int, appliedPasswordVersion: int,
    accepted: Accepted, applied: Option<Applied>,
    primaryOrdinal: Option<nat>, primaryId: Identity,
    failover: Option<Failover>, rollout: Option<Rollout>, rotation: Option<Rotation>,
    deletion: Option<DeletionStage>,
    nodes: map<nat, NodeStatus>, previous: map<Identity, NodeStatus>)

  function ExpectedProcessCount(mode: Mode): nat {
    if mode == HA then 3 else 1
  }

  function NodeAt(nodes: map<nat, NodeStatus>, ordinal: nat): Option<NodeStatus> {
    if ordinal in nodes then Some(nodes[ordinal]) else None
  }

  /** sameProcess: all fields including the run ID. */
  predicate SameProcess(a: NodeStatus, b: NodeStatus) {
    a.ordinal == b.ordinal && a.id == b.id
  }

  /** sameContainerProcess: everything but the run ID. */
  predicate SameContainer(a: NodeStatus, b: NodeStatus) {
    a.ordinal == b.ordinal && a.id.(runID := 0) == b.id.(runID := 0)
  }

  /** The ordinal, below three, of the current process with this identity. */
  function OrdinalOf(nodes: map<nat, NodeStatus>, id: Identity): Option<nat> {
    if 0 in nodes && nodes[0].id == id then Some(0)
    else if 1 in nodes && nodes[1].id == id then Some(1)
    else if 2 in nodes && nodes[2].id == id then Some(2)
    else None
  }

  /** knownProcess: current processes first, then the history. */
  function KnownProcess(status: Status, id: Identity): Option<NodeStatus> {
    match OrdinalOf(status.nodes, id)
    case Some(o) => Some(status.nodes[o])
    case None => if id in status.previous then Some(status.previous[id]) else None
  }

  predicate HasUnterminatedPrevious(previous: map<Identity, NodeStatus>) {
    exists id :: id in previous && previous[id].termination.None?
  }

  /** primaryIdentityMatches, including the tolerance for single instances with an older status. */
  predicate PrimaryIdentityMatches(status: Status, process: NodeStatus) {
    var id := status.primaryId;
    var legacySingle := status.accepted.mode == Single &&
      ((status.primaryOrdinal.None? && id.podUID == 0 && id.containerID == 0) ||
       (id.runID == 0 && id.nodeName == 0 && id.nodeUID == 0));
    if legacySingle then process.ordinal == 0
    else status.primaryOrdinal == Some(process.ordinal) && id == process.id
  }

  function SelectedPrimaryOrdinal(status: Status): Option<nat> {
    if status.primaryOrdinal.Some? then status.primaryOrdinal
    else if status.accepted.mode == Single then Some(0)
    else None
  }

  function SetPrimary(status: Status, process: NodeStatus): Status {
    status.(primaryOrdinal := Some(process.ordinal), primaryId := process.id)
  }

  function ClearPrimary(status: Status): Status {
    status.(primaryOrdinal := None, primaryId := NO_IDENTITY)
  }
}
