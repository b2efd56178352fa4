/**
 The failover of an HA instance (failover.go): what each stage reads from the status and what it
 writes back.  The commands a stage sends are part of Operator; their result comes in as a parameter.
 */
module FailoverSteps {
  import opened Options
  import opened OperatorTypes
  import opened Workload
  import opened Topology
  import Availability
  import Health

  const FAILOVER_TIMEOUT: int := 5 * Health.SECOND
  const EMPTY_REPLICA_INITIAL_OFFSET := 1

  function FailoverPrimary(status: Status): Option<NodeStatus> {
    if status.primaryOrdinal.None? then None else KnownProcess(status, status.primaryId)
  }

  // ---- choosing a candidate ----

  predicate Eligible(source: NodeStatus, node: NodeStatus) {
    && source.replication.Some? && source.replication.value.replicationID != 0
    && node.ordinal != source.ordinal && node.role == Replica
    && node.termination.None? && node.observation.None?
    && node.replication.Some? && node.replication.value.synced && !node.replication.value.syncInProgress
    && node.replication.value.replicationID == source.replication.value.replicationID
  }

  /** The further one; the lower ordinal among equals. */
  function Better(a: Option<NodeStatus>, b: Option<NodeStatus>): Option<NodeStatus>
    requires a.Some? ==> a.value.replication.Some?
    requires b.Some? ==> b.value.replication.Some?
  {
    if a.None? then b
    else if b.None? then a
    else
      var left, right := a.value.replication.value.offset, b.value.replication.value.offset;
      if left > right || (left == right && a.value.ordinal <= b.value.ordinal) then a else b
  }

  function EligibleAt(source: NodeStatus, nodes: map<nat, NodeStatus>, ordinal: nat): Option<NodeStatus> {
    if ordinal in nodes && Eligible(source, nodes[ordinal]) then Some(nodes[ordinal]) else None
  }

  /** chooseFailoverCandidate over the at most three processes of an instance. */
  function ChooseCandidate(source: NodeStatus, nodes: map<nat, NodeStatus>): Option<NodeStatus> {
    Better(Better(EligibleAt(source, nodes, 0), EligibleAt(source, nodes, 1)), EligibleAt(source, nodes, 2))
  }

  // ---- starting over with an empty cache ----

  predicate EmptyReplica(status: Status, node: NodeStatus) {
    && node.observation.None? && node.role == Replica && !node.appEnabled
    && node.appVersion == status.accepted.passwordVersion
    && node.replication.Some? && !node.replication.value.synced
    && node.replication.value.offset <= EMPTY_REPLICA_INITIAL_OFFSET
  }

  predicate ReplacedStoppedProcess(status: Status, node: NodeStatus) {
    exists id :: id in status.previous && status.previous[id].ordinal == node.ordinal
      && status.previous[id].termination.Some? && !SameProcess(status.previous[id], node)
  }

  /** emptyRecoverySafe: everything that may have held data is proved stopped and was replaced. */
  predicate EmptyRecoverySafe(status: Status) {
    && status.initialized && status.accepted.mode == HA
    && status.primaryOrdinal.Some?
    && |status.nodes| == ExpectedProcessCount(HA)
    && |status.previous| >= ExpectedProcessCount(HA)
    && !HasUnterminatedPrevious(status.previous)
    && (var primary := KnownProcess(status, status.primaryId);
        primary.Some? && primary.value.termination.Some?)
    && (forall o :: o in status.nodes ==>
        && status.nodes[o].termination.None?
        && EmptyReplica(status, status.nodes[o])
        && ReplacedStoppedProcess(status, status.nodes[o]))
  }

  /** A process of the operation whose client access the operation itself has closed. */
  predicate ClosedByOperation(f: Failover, id: Identity) {
    || (f.source == id && f.sourceAppDisabled && f.sourceClientsKilled)
    || (f.candidate == Some(id) && f.candidateAppDisabled && f.candidateClientsKilled)
  }

  /** emptyRecoveryWaitingSafe. */
  predicate EmptyRecoveryWaitingSafe(status: Status) {
    && status.failover.Some? && status.failover.value.reason == Failure
    && status.initialized && status.accepted.mode == HA && status.nodes != map[]
    && (forall o :: o in status.nodes ==>
        status.nodes[o].termination.Some? || EmptyReplica(status, status.nodes[o]))
    && (forall id :: id in status.previous ==>
        status.previous[id].termination.Some? || ClosedByOperation(status.failover.value, id))
  }

  // ---- the stages ----

  /** Where the data of the new primary has to reach, and until when that is waited for. */
  datatype ControlPoint = ControlPoint(replicationID: Uid, offset: int, deadline: Time)

  /** What one pass through reconcileFailover does. */
  datatype Move =
    | Skip                                    // nothing; the pass goes on
    | Halt                                    // nothing; the pass ends
    | Await                                    // failoverWait
    | Drop                                    // a full stop owns the availability of the instance
    | Start(source: Identity)
    | MarkSourceFenced
    | Choose                                  // the source cannot write any more
    | Pick(candidate: Identity, point: ControlPoint)
    | SetPoint(point: ControlPoint)           // for a candidate named by a resize
    | MarkCandidateFenced
    | BeginPromotion
    | Announce                                // from now on the candidate may be a primary
    | Succeed(promoted: NodeStatus)
    | GiveUp                                  // the candidate is proved stopped
    | Refence(primary: Identity)              // the new primary failed before the failover was over
    | Complete
    | WatchEmpty(since: Option<Time>)
    | StartEmpty(timedOut: bool)

  predicate Failed(primary: NodeStatus, now: Time) {
    primary.termination.Some? || Health.ProcessThresholds(primary.observation, None, now).transportFailure
  }

  /** maybeStartFailureFailover. */
  function DecideStart(status: Status, now: Time): Move {
    if status.primaryOrdinal.None? then (if AssignmentAllowed(status) then Skip else Halt)
    else match FailoverPrimary(status)
      case None => if EmptyRecoverySafe(status) then StartEmpty(false) else Halt
      case Some(primary) => if Failed(primary, now) then Start(primary.id) else Skip
  }

  predicate SourceFenced(f: Failover) {
    f.sourceAppDisabled && f.sourceClientsKilled
  }

  predicate CandidateFenced(f: Failover) {
    f.candidateAppDisabled && f.candidateClientsKilled
  }

  predicate AtStage(status: Status, stage: FailoverStage) {
    status.failover.Some? && status.failover.value.stage == stage
  }

  /** Whether the fencing stage sends its closing commands to the source. */
  predicate MustFenceSource(status: Status) {
    && AtStage(status, Fencing) && !SourceFenced(status.failover.value)
    && var source := KnownProcess(status, status.failover.value.source);
       source.Some? && source.value.termination.None?
  }

  /** reconcileFailoverFencing; `fenced` is the verdict of the closing commands if they were due. */
  function DecideFencing(status: Status, fenced: bool): Move
    requires status.failover.Some?
  {
    match KnownProcess(status, status.failover.value.source)
    case None => Await
    case Some(source) =>
      if source.termination.None? && !SourceFenced(status.failover.value)
      then (if fenced then MarkSourceFenced else Await)
      else Choose
  }

  function PointOf(source: NodeStatus, f: Failover, now: Time): ControlPoint {
    var deadline := Health.Stored(now + FAILOVER_TIMEOUT);
    if source.replication.Some?
    then ControlPoint(source.replication.value.replicationID, source.replication.value.offset, deadline)
    else ControlPoint(f.replicationID, f.controlOffset, deadline)
  }

  /** reconcileEmptyRecoveryWait. */
  function DecideEmptyWait(status: Status, now: Time): Move
    requires status.failover.Some?
  {
    var f := status.failover.value;
    if !EmptyRecoveryWaitingSafe(status) then (if f.emptySince.Some? then WatchEmpty(None) else Await)
    else if f.emptySince.None? then WatchEmpty(Some(Health.Stored(now)))
    else if Health.ProcessThresholds(None, f.emptySince, now).emptyPrimary then StartEmpty(true)
    else Await
  }

  predicate OffsetReached(f: Failover, candidate: NodeStatus, now: Time) {
    || (candidate.replication.Some? && f.replicationID != 0
        && candidate.replication.value.replicationID == f.replicationID
        && candidate.replication.value.offset >= f.controlOffset)
    || (f.offsetDeadline.Some? && now >= f.offsetDeadline.value)
  }

  /** Whether the choosing stage sends its closing commands to the candidate. */
  predicate MustFenceCandidate(status: Status) {
    && AtStage(status, Choosing) && status.failover.value.candidate.Some?
    && status.failover.value.offsetDeadline.Some? && !CandidateFenced(status.failover.value)
    && var candidate := KnownProcess(status, status.failover.value.candidate.value);
       candidate.Some? && candidate.value.termination.None?
  }

  function DecideCandidate(status: Status, now: Time): Move
    requires status.failover.Some?
  {
    match KnownProcess(status, status.failover.value.source)
    case None => Await
    case Some(source) =>
      match ChooseCandidate(source, status.nodes)
      case None => if EmptyRecoverySafe(status) then StartEmpty(false) else DecideEmptyWait(status, now)
      case Some(candidate) => Pick(candidate.id, PointOf(source, status.failover.value, now))
  }

  /** reconcileFailoverChoosing; `fenced` as above, for the candidate. */
  function DecideChoosing(status: Status, fenced: bool, now: Time): Move
    requires status.failover.Some?
  {
    var f := status.failover.value;
    if f.candidate.None? then DecideCandidate(status, now)
    else if f.offsetDeadline.None? then
      match KnownProcess(status, f.source)
      case None => Await
      case Some(source) => SetPoint(PointOf(source, f, now))
    else
      match KnownProcess(status, f.candidate.value)
      case None => Await
      case Some(candidate) =>
        if candidate.termination.Some? then GiveUp
        else if !CandidateFenced(f) then (if fenced then MarkCandidateFenced else Await)
        else if !OffsetReached(f, candidate, now) then Await
        else BeginPromotion
  }

  /** Whether the promoting stage sends REPLICAOF NO ONE to the candidate. */
  predicate MustPromote(status: Status) {
    && AtStage(status, Promoting)
    && status.failover.value.candidate.Some? && status.failover.value.candidateMayBePrimary
    && var candidate := KnownProcess(status, status.failover.value.candidate.value);
       && candidate.Some? && candidate.value.termination.None?
       && candidate.value.role == Replica && !candidate.value.appEnabled
       && candidate.value.appVersion == status.accepted.passwordVersion
  }

  /** reconcileFailoverPromoting; `promoted` when the command was due, answered, and found app closed. */
  function DecidePromoting(status: Status, promoted: bool): Move
    requires status.failover.Some?
  {
    var f := status.failover.value;
    match f.candidate
    case None => Halt
    case Some(id) =>
      match KnownProcess(status, id)
      case None => Await
      case Some(candidate) =>
        if candidate.termination.Some? then GiveUp
        else if candidate.role == Primary then Succeed(candidate)
        else if candidate.role != Replica || candidate.appEnabled
          || candidate.appVersion != status.accepted.passwordVersion then Await
        else if !f.candidateMayBePrimary then Announce
        else if promoted then Halt
        else Await
  }

  /** failoverReconfigurationReady, given the UID of the primary's pod if that pod is the current one. */
  predicate ReconfigurationReady(status: Status, primaryPod: Option<Uid>) {
    && Availability.PrimaryPubliclyReady(status)
    && PrimaryIdentityMatches(status, status.nodes[status.primaryOrdinal.value])
    && primaryPod.Some?
    && forall o :: o in status.nodes && o != status.primaryOrdinal.value ==>
      var node := status.nodes[o];
      || node.termination.Some? || node.observation.Some?
      || (node.role == Replica && node.replication.Some?
          && node.replication.value.linkUp && !node.replication.value.syncInProgress
          && node.replication.value.upstream == primaryPod.value
          && node.appVersion == status.accepted.passwordVersion)
  }

  /** reconcileFailoverReconfiguring. */
  function DecideReconfiguring(status: Status, primaryPod: Option<Uid>, now: Time): Move {
    match FailoverPrimary(status)
    case None => Await
    case Some(primary) =>
      if Failed(primary, now) then Refence(primary.id)
      else if ReconfigurationReady(status, primaryPod) then Complete
      else Skip
  }

  /** reconcileFailover; `done` is the verdict of the commands the stage was due to send, if any. */
  function Decide(status: Status, done: bool, primaryPod: Option<Uid>, now: Time): Move {
    if FullStopOwnsAvailability(status) then (if status.failover.None? then Skip else Drop)
    else if status.accepted.mode != HA || !status.initialized then Skip
    else if status.failover.None? then DecideStart(status, now)
    else match status.failover.value.stage
      case Fencing => DecideFencing(status, done)
      case Choosing => DecideChoosing(status, done, now)
      case Promoting => DecidePromoting(status, done)
      case Reconfiguring => DecideReconfiguring(status, primaryPod, now)
  }

  // ---- what the stages write ----

  function NewFailover(reason: FailoverReason, source: Identity, candidate: Option<Identity>): Failover {
    Failover(reason, Fencing, source, candidate, false, false, false, false, false, 0, 0, None, None)
  }

  /** The failover after a move; moves that are not listed leave it alone. */
  function NextFailover(f: Failover, move: Move): Option<Failover> {
    match move
    case MarkSourceFenced => Some(f.(sourceAppDisabled := true, sourceClientsKilled := true))
    case Choose => Some(f.(stage := Choosing))
    case Pick(candidate, point) => Some(AtPoint(f, point).(candidate := Some(candidate), emptySince := None))
    case SetPoint(point) => Some(AtPoint(f, point))
    case MarkCandidateFenced => Some(f.(candidateAppDisabled := true, candidateClientsKilled := true))
    case BeginPromotion => Some(f.(stage := Promoting))
    case Announce => Some(f.(candidateMayBePrimary := true))
    case Succeed(_) => Some(f.(stage := Reconfiguring))
    case GiveUp => Some(f.(
      stage := Choosing, candidate := None, candidateAppDisabled := false, candidateClientsKilled := false,
      candidateMayBePrimary := false, offsetDeadline := None))
    case Refence(primary) => Some(NewFailover(Failure, primary, None).(emptySince := f.emptySince))
    case WatchEmpty(since) => Some(f.(emptySince := since))
    case Drop => None
    case Complete => None
    case StartEmpty(_) => None
    case _ => Some(f)
  }

  function AtPoint(f: Failover, point: ControlPoint): Failover {
    f.(replicationID := point.replicationID, controlOffset := point.offset, offsetDeadline := Some(point.deadline))
  }

  function FailoverAfter(status: Status, move: Move): Option<Failover> {
    if move.Start? then Some(NewFailover(Failure, move.source, None))
    else if status.failover.None? then None
    else NextFailover(status.failover.value, move)
  }

  function PrimaryAfter(status: Status, move: Move): (Option<nat>, Identity) {
    match move
    case Succeed(promoted) => (Some(promoted.ordinal), promoted.id)
    case StartEmpty(_) => (None, NO_IDENTITY)
    case _ => (status.primaryOrdinal, status.primaryId)
  }

  function ReasonAfter(status: Status, move: Move): Reason {
    match move
    case Await => if AtStage(status, Fencing) then FencingRequired else OtherReason
    case Start(_) => FencingRequired
    case Refence(_) => FencingRequired
    case Choose => OtherReason
    case BeginPromotion => OtherReason
    case Succeed(_) => OtherReason
    case Drop => OtherReason
    case Complete => OtherReason
    case StartEmpty(_) => EmptyRecovery
    case _ => status.reason
  }

  function PhaseAfter(status: Status, move: Move): Phase {
    if move.Await? || move.Start? || move.Refence? || move.StartEmpty? then Unavailable
    else if move.Drop? then Updating
    else status.phase
  }

  function DataLossAfter(status: Status, move: Move): Option<DataLoss> {
    if move.StartEmpty? then Some(if move.timedOut then EmptyProcessesTimedOut else AllProcessesStopped)
    else status.dataLoss
  }

  function Write(status: Status, move: Move): Status {
    status.(
      failover := FailoverAfter(status, move),
      primaryOrdinal := PrimaryAfter(status, move).0, primaryId := PrimaryAfter(status, move).1,
      phase := PhaseAfter(status, move), reason := ReasonAfter(status, move),
      dataLoss := DataLossAfter(status, move))
  }

  /** A failover writes nothing about the processes themselves, and nothing about other operations. */
  predicate Framed(a: Status, b: Status) {
    && b.nodes == a.nodes && b.previous == a.previous && b.accepted == a.accepted && b.applied == a.applied
    && b.rollout == a.rollout && b.rotation == a.rotation && b.deletion == a.deletion
    && b.initialized == a.initialized && b.appliedPasswordVersion == a.appliedPasswordVersion
  }

  /** The status after a move. */
  function Apply(status: Status, move: Move): (r: Status)
    ensures Framed(status, r)
    ensures r.failover == FailoverAfter(status, move)
    ensures (r.primaryOrdinal, r.primaryId) == PrimaryAfter(status, move)
    ensures r.dataLoss == DataLossAfter(status, move)
    ensures r.reason == EmptyRecovery ==> move.StartEmpty? || status.reason == EmptyRecovery
  {
    var written := Write(status, move);
    if move.Complete? then Availability.ApplyOperationalPhase(written) else written
  }

  /** startResizeFailover. */
  function StartResize(status: Status, source: Identity, candidate: Identity): Status {
    status.(failover := Some(NewFailover(Resize, source, Some(candidate))), phase := Updating, reason := OtherReason)
  }
}
