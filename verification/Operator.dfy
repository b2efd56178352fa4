/**
 One managed instance as a transition system: the stored status, the real processes, the pods and
 the Secret, and the position of the current reconcile pass (valkeyinstance_controller.go:106-243).

 A step is one atomic status patch together with the Valkey or Kubernetes commands that precede it.
 A pass may be interrupted between any two steps, a command may be executed with its answer lost or
 stay in flight (see Session), and the world moves between steps.
 */
module Operator {
  import opened Options
  import opened OperatorTypes
  import opened Session
  import Contract
  import Availability
  import Observation
  import Workload
  import Topology
  import FailoverSteps
  import RolloutSteps
  import RotationSteps

  /** `size` is the size in the pod's template. */
  datatype Pod = Pod(uid: Uid, size: Size, deleting: bool, finalizer: bool)

  datatype PassPoint =
    | Idle | AtWorkload | AtInspection | AtManualFencing | AtFailover | AtRotation | AtRollout
    | AtInitialPrimary | AtReplicas | AtReplicaAdmission | AtAppAdmission | AtHistory

  /**
   `world` holds the one process every pod ever ran, by the UID of the pod (a container is never
   restarted); it outlives the pod object.  `seen` are the ordinals inspected in this pass,
   `hashes` the password versions in the Secret,
   `deleting` the deletion mark of the resource and `finalizer` the operator's finalizer on it.
   `strayed` is a note about the past that no step reads: a failover was started from a process that
   was not the named primary (see Astray).
   */
  datatype State = State(
    status: Status, world: map<Uid, Proc>, pods: map<nat, Pod>, hashes: set<int>, nextUid: Uid,
    at: PassPoint, seen: set<nat>, startedAt: Time, deleting: bool, finalizer: bool, strayed: bool)

  /** The state right after the first configuration of a new resource was accepted. */
  function Initial(accepted: Accepted): State {
    State(
      Status(Provisioning, OtherReason, false, false, None, 0, 0, accepted, None, None, NO_IDENTITY,
             None, None, None, None, map[], map[]),
      map[], map[], {accepted.passwordVersion}, 1, Idle, {}, 0, false, true, false)
  }

  function BirthRole(mode: Mode): Role {
    if mode == HA then Replica else Primary
  }

  /** There is, or was, a process with exactly this identity. */
  predicate Real(s: State, id: Identity) {
    id.podUID in s.world && s.world[id.podUID].id == id
  }

  function ProcOf(s: State, id: Identity): Proc
    requires Real(s, id)
  {
    s.world[id.podUID]
  }

  predicate Alive(s: State, id: Identity) { Real(s, id) && ProcOf(s, id).alive }

  predicate Dead(s: State, id: Identity) { Real(s, id) ==> !ProcOf(s, id).alive }

  /** currentProcessPod succeeds: the pod of this ordinal runs exactly this process. */
  predicate Current(s: State, ordinal: nat, id: Identity) {
    ordinal in s.pods && s.pods[ordinal].uid == id.podUID && Alive(s, id)
  }

  predicate CurrentNode(s: State, ordinal: nat) {
    ordinal in s.status.nodes && Current(s, ordinal, s.status.nodes[ordinal].id)
  }

  /** The state after a step of the pass; a pass that ends forgets what it has inspected. */
  function End(s: State, status: Status, world: map<Uid, Proc>, at: PassPoint): State {
    s.(status := status, world := world, at := at, seen := if at == Idle then {} else s.seen)
  }

  function Put(s: State, id: Identity, p: Proc): (world: map<Uid, Proc>)
    ensures Real(s, id) && Same(ProcOf(s, id), p) ==> SameProcesses(s.world, world)
  {
    s.world[id.podUID := p]
  }

  function Update(s: State, id: Identity, p: Proc): State { s.(world := Put(s, id, p)) }

  /** The same processes, possibly more; some may have died. */
  predicate SameProcesses(a: map<Uid, Proc>, b: map<Uid, Proc>) {
    && a.Keys <= b.Keys
    && forall u :: u in a ==> b[u].id == a[u].id && b[u].ordinal == a[u].ordinal && (b[u].alive ==> a[u].alive)
  }

  predicate SamePods(a: map<nat, Pod>, b: map<nat, Pod>) {
    b.Keys <= a.Keys && forall o :: o in b ==> b[o].uid == a[o].uid
  }

  predicate SameNodes(a: map<nat, NodeStatus>, b: map<nat, NodeStatus>) {
    && a.Keys == b.Keys
    && forall o :: o in b ==>
      b[o].ordinal == a[o].ordinal && b[o].id == a[o].id && b[o].termination == a[o].termination
  }

  /** A step that lists the same processes, with the same proofs of their end. */
  predicate KeepsEntries(s: State, t: State) {
    && t.nextUid == s.nextUid && SamePods(s.pods, t.pods)
    && t.world.Keys == s.world.Keys && SameProcesses(s.world, t.world)
    && t.status.accepted.mode == s.status.accepted.mode
    && SameNodes(s.status.nodes, t.status.nodes) && t.status.previous == s.status.previous
  }

  /** A failover begins with the fencing of a process that is not the named primary. */
  predicate Astray(a: Status, b: Status) {
    a.failover.None? && b.failover.Some? && b.failover.value.source != a.primaryId
  }

  /** A step that neither starts nor ends a failover, and forgets no primary. */
  predicate LeavesAlone(a: Status, b: Status) {
    && b.failover == a.failover && (a.primaryOrdinal.Some? ==> b.primaryOrdinal.Some?)
    && (b.applied == a.applied || !a.initialized)
  }

  predicate NotesStraying(s: State, t: State) {
    t.strayed ==> s.strayed || Astray(s.status, t.status)
  }

  /** A step that takes no hash out of the Secret, ends no rotation, and neither deletes nor lets go. */
  predicate KeepsCourse(s: State, t: State) {
    && NotesStraying(s, t)
    && t.hashes == s.hashes && (s.status.rotation.Some? ==> t.status.rotation.Some?)
    && t.status.deletion == s.status.deletion && t.finalizer == s.finalizer && t.deleting == s.deleting
  }

  // ---- the world ----

  predicate CanStartProcess(s: State, ordinal: nat, id: Identity) {
    && ordinal in s.pods && s.pods[ordinal].uid !in s.world && !s.pods[ordinal].deleting
    && id.podUID == s.pods[ordinal].uid && id.containerID != 0 && id.runID != 0
  }

  /** A container starts with app off, as a replica in an HA instance (acl.go:12, config_map.go:122-128). */
  function StartProcess(s: State, ordinal: nat, id: Identity, version: int): (t: State)
    requires CanStartProcess(s, ordinal, id)
    ensures SameProcesses(s.world, t.world)
  {
    Update(s, id, Proc(id, ordinal, true, BirthRole(s.status.accepted.mode), false, version, {}, 0, None))
  }

  function Die(s: State, id: Identity): (t: State)
    requires Alive(s, id)
    ensures KeepsEntries(s, t)
  {
    Update(s, id, ProcOf(s, id).(alive := false, clients := {}, pending := None))
  }

  predicate CanDeliver(s: State, id: Identity) { Alive(s, id) && ProcOf(s, id).pending.Some? }

  /** A command in flight reaches its process. */
  function Deliver(s: State, id: Identity): (t: State)
    requires CanDeliver(s, id)
    ensures KeepsEntries(s, t)
  {
    var p := ProcOf(s, id);
    Update(s, id, Execute(p.(pending := None), p.pending.value))
  }

  predicate CanConnect(s: State, id: Identity) { Alive(s, id) && ProcOf(s, id).appOn }

  function Connect(s: State, id: Identity): (t: State)
    requires CanConnect(s, id)
    ensures KeepsEntries(s, t)
  {
    Update(s, id, ProcOf(s, id).(clients := ProcOf(s, id).clients + {ProcOf(s, id).version}))
  }

  predicate CanVanish(s: State, ordinal: nat) {
    ordinal in s.pods && s.pods[ordinal].deleting && !s.pods[ordinal].finalizer
  }

  function RemovePod(s: State, ordinal: nat): (t: State)
    ensures KeepsEntries(s, t)
  { s.(pods := s.pods - {ordinal}) }

  /** Somebody outside removed the finalizer by force, and a copy of the pod took over the name. */
  function ForceReplace(s: State, ordinal: nat): State
    requires ordinal in s.pods
  {
    s.(pods := s.pods[ordinal := Pod(s.nextUid, s.pods[ordinal].size, false, true)],
       nextUid := s.nextUid + 1)
  }

  function MarkDeleting(s: State, ordinal: nat): (t: State)
    requires ordinal in s.pods
    ensures KeepsEntries(s, t)
  {
    s.(pods := s.pods[ordinal := s.pods[ordinal].(deleting := true)])
  }

  // ---- workload ----

  predicate CanCreatePod(s: State, ordinal: nat) {
    && ordinal < Workload.WorkloadProcessCount(s.status) && ordinal !in s.pods
    && Workload.ProcessCreationAllowed(s.status, ordinal)
  }

  function CreatePod(s: State, ordinal: nat): State {
    s.(pods := s.pods[ordinal := Pod(s.nextUid, Workload.WorkloadSize(s.status), false, true)],
       nextUid := s.nextUid + 1)
  }

  // ---- inspection of one ordinal ----

  datatype Finding =
    | PodMissing(hostGone: bool)  // no pod; hostGone: the Kubernetes node of the known process is gone too
    | NotRunning
    | ContainerDead               // the container status reports the end of the process
    | HostGone                    // the pod is there, its Kubernetes node is gone or was replaced
    | NoAnswer(kind: ObservationKind, ready: bool, now: Time)
    | Answer(replication: Option<Replication>, ready: bool, control: bool, priorHostGone: bool)
    | CloseApp(ds: Deliveries)    // it answered, and its client access has to be closed first

  function AppVersionOf(s: State, p: Proc): int {
    if p.version == s.status.accepted.passwordVersion then p.version else 0
  }

  function Observed(s: State, ordinal: nat, id: Identity, replication: Option<Replication>, ready: bool): NodeStatus
    requires Real(s, id)
  {
    var p := ProcOf(s, id);
    NodeStatus(ordinal, id, p.role, ready, p.appOn, AppVersionOf(s, p), replication, None, None)
  }

  /** The process the pod at this ordinal runs or ran. */
  predicate HasContainer(s: State, ordinal: nat) {
    ordinal in s.pods && s.pods[ordinal].uid in s.world
  }

  function ContainerOf(s: State, ordinal: nat): Identity
    requires HasContainer(s, ordinal)
  {
    s.world[s.pods[ordinal].uid].id
  }

  /** The process of the pod at this ordinal is alive, whether it is listed or not. */
  predicate RunsAt(s: State, ordinal: nat) {
    HasContainer(s, ordinal) && Alive(s, ContainerOf(s, ordinal))
  }

  /** Closing client access of one process. */
  function CloseProcess(s: State, id: Identity, ds: Deliveries): (t: State)
    requires Real(s, id)
    ensures t == s.(world := t.world) && t.world.Keys == s.world.Keys && SameProcesses(s.world, t.world)
  {
    Update(s, id, UpdateAppAccess(ProcOf(s, id), false, s.status.accepted.passwordVersion, ds).proc)
  }

  predicate SamePodContainer(a: Identity, b: Identity) {
    a.podUID == b.podUID && a.containerID == b.containerID
  }

  /** What makes an inspection close client access: it is open, or the process still accepts another hash. */
  predicate MustCloseOnInspection(s: State, id: Identity)
    requires Real(s, id)
  {
    ProcOf(s, id).appOn || ProcOf(s, id).version != s.status.accepted.passwordVersion
  }

  predicate CanInspect(s: State, ordinal: nat, finding: Finding) {
    match finding
    case PodMissing(hostGone) => hostGone ==>
      ordinal in s.status.nodes && s.status.nodes[ordinal].termination.None? && Dead(s, s.status.nodes[ordinal].id)
    case NotRunning => true
    case ContainerDead => HasContainer(s, ordinal) && !s.world[s.pods[ordinal].uid].alive
    case HostGone => HasContainer(s, ordinal) && ordinal in s.status.nodes &&
      s.status.nodes[ordinal].termination.None? && Dead(s, s.status.nodes[ordinal].id) &&
      SamePodContainer(s.status.nodes[ordinal].id, ContainerOf(s, ordinal))
    case NoAnswer(_, _, _) => HasContainer(s, ordinal)
    case Answer(_, _, _, priorHostGone) => HasContainer(s, ordinal) && Alive(s, ContainerOf(s, ordinal)) &&
      (priorHostGone ==> ordinal in s.status.nodes && Dead(s, s.status.nodes[ordinal].id))
    case CloseApp(_) =>
      && RunsAt(s, ordinal) && MustCloseOnInspection(s, ContainerOf(s, ordinal))
      && (ordinal in s.status.nodes ==> s.status.nodes[ordinal].id == ContainerOf(s, ordinal))
  }

  /** releaseTerminatedPod: ask for deletion first, then let the pod go. */
  function ReleasePod(s: State, ordinal: nat): State
    requires ordinal in s.pods
  {
    s.(pods := s.pods[ordinal := Released(s.pods[ordinal])])
  }

  function Released(pod: Pod): Pod {
    if !pod.deleting then pod.(deleting := true) else pod.(finalizer := false)
  }

  /** What a container status tells about an ended process; its run ID is not in there. */
  function DeadContainer(ordinal: nat, id: Identity): NodeStatus {
    NodeStatus(ordinal, id.(runID := 0), NoRole, false, false, 0, None, None, None)
  }

  /** saveContainerTermination with its preliminary checks. */
  function InspectDead(s: State, ordinal: nat): (t: State)
    requires HasContainer(s, ordinal)
    ensures t.status == s.status.(
      nodes := t.status.nodes, previous := t.status.previous, phase := t.status.phase, reason := t.status.reason,
      primaryOrdinal := t.status.primaryOrdinal, primaryId := t.status.primaryId)
    ensures s.status.accepted.mode == HA ==>
      t.status.primaryOrdinal == s.status.primaryOrdinal && t.status.primaryId == s.status.primaryId
    ensures s.status.primaryOrdinal.Some? ==> t.status.primaryOrdinal.Some?
    ensures t.status.reason == EmptyRecovery ==> s.status.reason == EmptyRecovery
    ensures t.at == s.at && t.seen == s.seen && t.nextUid == s.nextUid
    ensures t.world == s.world
    ensures KeepsCourse(s, t)
  {
    var id := ContainerOf(s, ordinal);
    var current := NodeAt(s.status.nodes, ordinal);
    var displaced := current.Some? && !SamePodContainer(current.value.id, id);
    if displaced && s.status.deletion.None? then
      s.(status := if s.status.initialized
        then s.status.(phase := Unavailable, reason := FencingRequired) else s.status)
    else if current.Some? && !displaced && current.value.termination.Some? then
      ReleasePod(s, ordinal)
    else
      s.(status := Observation.SaveContainerTermination(s.status, DeadContainer(ordinal, id)))
  }

  function InspectAnswer(
    s: State, ordinal: nat, replication: Option<Replication>, ready: bool, control: bool, prior: Option<Evidence>)
    : (t: State)
    requires HasContainer(s, ordinal) && Real(s, ContainerOf(s, ordinal))
    ensures t.status == s.status.(
      nodes := t.status.nodes, previous := t.status.previous, phase := t.status.phase, reason := t.status.reason,
      primaryOrdinal := t.status.primaryOrdinal, primaryId := t.status.primaryId)
    ensures s.status.accepted.mode == HA ==>
      t.status.primaryOrdinal == s.status.primaryOrdinal && t.status.primaryId == s.status.primaryId
    ensures s.status.primaryOrdinal.Some? ==> t.status.primaryOrdinal.Some?
    ensures t.status.reason == EmptyRecovery ==> s.status.reason == EmptyRecovery
    ensures t.at == s.at && t.seen == s.seen && t.nextUid == s.nextUid
    ensures t.pods == s.pods
    ensures KeepsCourse(s, t)
  {
    var id := ContainerOf(s, ordinal);
    var u := if control then Update(s, id, TakeControl(ProcOf(s, id), Answered).proc) else s;
    u.(status := Observation.RecordSeen(s.status, Observed(u, ordinal, id, replication, ready), prior))
  }

  function InspectMissing(s: State, ordinal: nat, hostGone: bool): (t: State)
    requires hostGone ==> ordinal in s.status.nodes
    ensures t == s.(status := s.status.(nodes := t.status.nodes, phase := t.status.phase, reason := t.status.reason))
    ensures t.status.reason == EmptyRecovery ==> s.status.reason == EmptyRecovery
  {
    s.(status := if hostGone then Observation.SaveNodeDeletion(s.status, ordinal)
                 else Observation.ProcessUnavailable(s.status, ordinal))
  }

  function InspectSilent(s: State, ordinal: nat, kind: ObservationKind, ready: bool, now: Time): (t: State)
    requires HasContainer(s, ordinal)
    ensures t == s.(status := s.status.(nodes := t.status.nodes, phase := t.status.phase, reason := t.status.reason))
    ensures t.status.reason == EmptyRecovery ==> s.status.reason == EmptyRecovery
  {
    var known := ordinal in s.status.nodes && s.status.nodes[ordinal].id == ContainerOf(s, ordinal);
    s.(status := Observation.RecordError(s.status, ordinal, known, kind, ready, now, s.startedAt))
  }

  function InspectFinding(s: State, ordinal: nat, finding: Finding): (t: State)
    requires CanInspect(s, ordinal, finding)
    ensures t.status == s.status.(
      nodes := t.status.nodes, previous := t.status.previous, phase := t.status.phase, reason := t.status.reason,
      primaryOrdinal := t.status.primaryOrdinal, primaryId := t.status.primaryId)
    ensures s.status.accepted.mode == HA ==>
      t.status.primaryOrdinal == s.status.primaryOrdinal && t.status.primaryId == s.status.primaryId
    ensures s.status.primaryOrdinal.Some? ==> t.status.primaryOrdinal.Some?
    ensures t.status.reason == EmptyRecovery ==> s.status.reason == EmptyRecovery
    ensures t.at == s.at && t.seen == s.seen && t.nextUid == s.nextUid
    ensures SameProcesses(s.world, t.world)
    ensures KeepsCourse(s, t)
  {
    match finding
    case PodMissing(hostGone) => InspectMissing(s, ordinal, hostGone)
    case NotRunning => InspectMissing(s, ordinal, false)
    case ContainerDead => InspectDead(s, ordinal)
    case HostGone => InspectMissing(s, ordinal, true)
    case NoAnswer(kind, ready, now) =>
      InspectSilent(s, ordinal, kind, ready, now)
    case Answer(replication, ready, control, priorHostGone) =>
      InspectAnswer(s, ordinal, replication, ready, control, if priorHostGone then Some(NodeDeleted) else None)
    case CloseApp(ds) => CloseProcess(s, ContainerOf(s, ordinal), ds)
  }

  /** A malformed answer fails the pass; every other finding lets it go on. */
  function Inspect(s: State, ordinal: nat, finding: Finding): (t: State)
    requires CanInspect(s, ordinal, finding)
    ensures SameProcesses(s.world, t.world)
    ensures KeepsCourse(s, t)
  {
    var found := InspectFinding(s, ordinal, finding);
    if finding.NoAnswer? && finding.kind == ServerError then found.(at := Idle, seen := {})
    else found.(seen := found.seen + {ordinal})
  }

  predicate AllSeen(s: State) {
    forall o: nat :: o < ExpectedProcessCount(s.status.accepted.mode) ==> o in s.seen
  }

  // ---- failover ----

  predicate FailoverRuns(status: Status) {
    && !Workload.FullStopOwnsAvailability(status) && status.accepted.mode == HA && status.initialized
    && status.failover.Some?
  }

  /** The process the current stage of the failover sends commands to, if any. */
  function FailoverTarget(status: Status): Option<Identity> {
    if !FailoverRuns(status) then None
    else if FailoverSteps.MustFenceSource(status) then Some(status.failover.value.source)
    else if FailoverSteps.MustFenceCandidate(status) then status.failover.value.candidate
    else if FailoverSteps.MustPromote(status) then status.failover.value.candidate
    else None
  }

  function FailoverCommands(s: State, id: Identity, ds: Deliveries): Reply
    requires Real(s, id)
  {
    var p := ProcOf(s, id);
    if FailoverSteps.AtStage(s.status, Promoting) then
      var promoted := PromoteProcess(p, ds);
      Reply(promoted.proc, promoted.ok && !p.appOn)
    else UpdateAppAccess(p, false, s.status.accepted.passwordVersion, ds)
  }

  function PrimaryPod(s: State): Option<Uid> {
    if s.status.primaryOrdinal.Some? && CurrentNode(s, s.status.primaryOrdinal.value)
    then Some(s.pods[s.status.primaryOrdinal.value].uid) else None
  }

  /** The pod commands for this process go to, wherever the status lists it. */
  predicate Addressable(s: State, id: Identity) {
    var known := KnownProcess(s.status, id);
    known.Some? && Current(s, known.value.ordinal, id)
  }

  /** The process the failover commands in this pass, if it is in its pod. */
  function FailoverOrder(s: State): (id: Option<Identity>)
    ensures id.Some? ==> Alive(s, id.value)
  {
    var target := FailoverTarget(s.status);
    if target.Some? && Addressable(s, target.value) then target else None
  }

  function FailoverWorld(s: State, ds: Deliveries): (world: map<Uid, Proc>)
    ensures SameProcesses(s.world, world)
  {
    match FailoverOrder(s)
    case None => s.world
    case Some(id) => Put(s, id, FailoverCommands(s, id, ds).proc)
  }

  function FailoverMove(s: State, ds: Deliveries, now: Time): FailoverSteps.Move {
    var order := FailoverOrder(s);
    FailoverSteps.Decide(s.status, order.Some? && FailoverCommands(s, order.value, ds).ok, PrimaryPod(s), now)
  }

  function ReconcileFailover(s: State, ds: Deliveries, now: Time): (t: State)
    ensures KeepsCourse(s, t)
  {
    var move := FailoverMove(s, ds, now);
    End(s, FailoverSteps.Apply(s.status, move), FailoverWorld(s, ds), if move.Skip? then AtRotation else Idle)
  }

  // ---- password rotation ----

  predicate RotationRuns(status: Status) { status.rotation.Some? && status.failover.None? }

  /** A process whose turn it is in rotatePasswordForRole. */
  predicate CanRotate(s: State, id: Identity) {
    && RotationRuns(s.status)
    && s.status.rotation.value.stage in {UpdatingReplicas, UpdatingPrimary}
    && var known := KnownProcess(s.status, id);
       && known.Some? && known.value.observation.None?
       && RotationSteps.Outstanding(s.status, known.value, s.status.rotation.value.stage == UpdatingPrimary)
       && Addressable(s, id)
  }

  function RotationReply(s: State, id: Identity, ds: Deliveries): Reply
    requires CanRotate(s, id)
  {
    RotatePassword(ProcOf(s, id), s.status.accepted.passwordVersion, ds)
  }

  /** The state a process reports after its password was replaced is confirmed only if it is the expected one. */
  predicate RotationConfirmed(s: State, id: Identity, ds: Deliveries)
    requires CanRotate(s, id)
  {
    var reply := RotationReply(s, id, ds);
    && reply.ok && reply.proc.appOn == KnownProcess(s.status, id).value.appEnabled
    && reply.proc.version == s.status.accepted.passwordVersion
  }

  function Rotate(s: State, id: Identity, ds: Deliveries): (t: State)
    requires CanRotate(s, id)
    ensures SameProcesses(s.world, t.world)
    ensures LeavesAlone(s.status, t.status)
    ensures KeepsCourse(s, t)
  {
    var world := Put(s, id, RotationReply(s, id, ds).proc);
    if RotationConfirmed(s, id, ds)
    then End(s, RotationSteps.Confirm(s.status, KnownProcess(s.status, id).value), world, Idle)
    else End(s, s.status, world, AtRotation)
  }

  /** The end of the rotation's part of a pass in which no process was confirmed. */
  function RotationStatus(s: State): (r: Status)
    ensures r == s.status.(
      rotation := r.rotation, appliedPasswordVersion := r.appliedPasswordVersion, phase := r.phase,
      reason := r.reason, observedGeneration := r.observedGeneration)
    ensures r.reason == EmptyRecovery ==> s.status.reason == EmptyRecovery
  {
    if !RotationRuns(s.status) then s.status
    else if s.status.rotation.value.stage != CleaningSecret then RotationSteps.AdvanceStage(s.status)
    else if s.status.rotation.value.previous in s.hashes then s.status
    else RotationSteps.Finish(s.status)
  }

  function RotationHashes(s: State): set<int> {
    if RotationRuns(s.status) && s.status.rotation.value.stage == CleaningSecret
    then s.hashes - {s.status.rotation.value.previous} else s.hashes
  }

  function EndRotation(s: State): (t: State)
    ensures LeavesAlone(s.status, t.status)
    ensures NotesStraying(s, t)
    ensures t.status.deletion == s.status.deletion && t.finalizer == s.finalizer && t.deleting == s.deleting
  {
    End(s, RotationStatus(s), s.world, if RotationRuns(s.status) then Idle else AtRollout)
    .(hashes := RotationHashes(s))
  }

  // ---- rollout ----

  predicate RolloutRuns(status: Status) { status.rollout.Some? && status.failover.None? }

  function Facts(s: State): RolloutSteps.PodFacts {
    RolloutSteps.PodFacts(
      set o | o in s.status.nodes && CurrentNode(s, o),
      set o | o in s.status.nodes && CurrentNode(s, o) && s.status.rollout.Some?
        && s.pods[o].size == s.status.rollout.value.size)
  }

  /** Closing client access before a process is stopped: full stop or replacement. */
  predicate CanClose(s: State, ordinal: nat) {
    && RolloutRuns(s.status) && CurrentNode(s, ordinal) && s.status.nodes[ordinal].termination.None?
    && match s.status.rollout.value.stage
       case Stopping => !s.status.rollout.value.accessClosed
       case ReplacingReplicas | ReplacingPrimary =>
         RolloutSteps.DecideRolling(s.status, Facts(s)) == RolloutSteps.CloseOld(s.status.nodes[ordinal])
       case _ => false
  }

  function Close(s: State, ordinal: nat, ds: Deliveries): (t: State)
    requires CurrentNode(s, ordinal)
    ensures KeepsEntries(s, t)
    ensures KeepsCourse(s, t)
  {
    CloseProcess(s, s.status.nodes[ordinal].id, ds)
  }

  predicate AllStopped(s: State) {
    RolloutSteps.AllKnownStopped(s.status) && s.pods == map[]
  }

  function RollingDecision(s: State): RolloutSteps.Replacement
    requires s.status.rollout.Some?
  {
    RolloutSteps.DecideRolling(s.status, Facts(s))
  }

  function ReplacementStatus(status: Status, decision: RolloutSteps.Replacement, next: RolloutStage): (r: Status)
    requires status.rollout.Some?
    ensures RolloutSteps.Framed(status, r)
  {
    match decision
    case Release => RolloutSteps.SetProcess(status, None)
    case Pick(node) => RolloutSteps.SetProcess(status, Some(node.id))
    case Complete => RolloutSteps.Advance(status, next)
    case _ => status
  }

  /** What a pass writes about the rollout; `closed` when every reachable process reported its access closed. */
  function RolloutStatus(s: State, closed: bool): (r: Status)
    requires s.status.rollout.Some?
    ensures RolloutSteps.Framed(s.status, r)
  {
    match s.status.rollout.value.stage
    case Preparing => RolloutSteps.Prepare(s.status)
    case Stopping =>
      if !s.status.rollout.value.accessClosed then
        if closed then RolloutSteps.CloseAccess(s.status) else s.status
      else if AllStopped(s) then RolloutSteps.FinishStopping(s.status) else s.status
    case UpdatingTemplate => RolloutSteps.FinishTemplate(s.status)
    case ReplacingReplicas => ReplacementStatus(s.status, RollingDecision(s), SwitchingPrimary)
    case SwitchingPrimary => RolloutSteps.SwitchPrimary(s.status, RolloutSteps.DecideSwitch(s.status, Facts(s)))
    case ReplacingPrimary => ReplacementStatus(s.status, RollingDecision(s), Verifying)
    case Starting =>
      if RolloutSteps.CompositionReady(s.status, Facts(s))
      then RolloutSteps.Advance(s.status, Verifying) else s.status
    case Verifying =>
      if RolloutSteps.CompositionReady(s.status, Facts(s)) then RolloutSteps.Finish(s.status) else s.status
  }

  /** The passes that go on past the rollout. */
  predicate RolloutYields(s: State) {
    !RolloutRuns(s.status) ||
    (match s.status.rollout.value.stage
     case Starting => !RolloutSteps.CompositionReady(s.status, Facts(s))
     case ReplacingReplicas | ReplacingPrimary => RollingDecision(s).Idle?
     case _ => false)
  }

  /** The pod a rolling replacement asks to delete. */
  function RolloutVictim(s: State): Option<nat> {
    if RolloutRuns(s.status) && s.status.rollout.value.stage in {ReplacingReplicas, ReplacingPrimary}
      && RollingDecision(s).DeleteOld? && CurrentNode(s, RollingDecision(s).outgoing.ordinal)
    then Some(RollingDecision(s).outgoing.ordinal) else None
  }

  function PodsWithout(s: State, victim: Option<nat>): map<nat, Pod>
    requires victim.Some? ==> victim.value in s.pods
  {
    if victim.None? then s.pods else s.pods[victim.value := s.pods[victim.value].(deleting := true)]
  }

  function ReconcileRollout(s: State, closed: bool): (t: State)
    ensures KeepsCourse(s, t)
  {
    var status := if RolloutRuns(s.status) then RolloutStatus(s, closed) else s.status;
    End(s, status, s.world, if RolloutYields(s) then AtInitialPrimary else Idle)
    .(pods := PodsWithout(s, RolloutVictim(s)), strayed := s.strayed || Astray(s.status, status))
  }

  // ---- topology ----

  function InitialDecision(s: State): Topology.InitialPrimary {
    if s.status.accepted.mode == HA && Topology.AssignmentAllowed(s.status)
    then Topology.DecideInitialPrimary(s.status) else Topology.Done
  }

  function InitialStatus(s: State): (r: Status)
    ensures r == s.status.(primaryOrdinal := r.primaryOrdinal, primaryId := r.primaryId)
  {
    if InitialDecision(s).Assign? && 0 in s.status.nodes
    then SetPrimary(s.status, s.status.nodes[0]) else s.status
  }

  function InitialWorld(s: State, ds: Deliveries): (world: map<Uid, Proc>)
    ensures SameProcesses(s.world, world)
  {
    if InitialDecision(s).Command? && CurrentNode(s, 0)
    then Put(s, s.status.nodes[0].id, PromoteProcess(ProcOf(s, s.status.nodes[0].id), ds).proc)
    else s.world
  }

  function ReconcileInitialPrimary(s: State, ds: Deliveries): (t: State)
    ensures LeavesAlone(s.status, t.status)
    ensures KeepsCourse(s, t)
  {
    End(s, InitialStatus(s), InitialWorld(s, ds),
        if s.status.accepted.mode != HA then AtReplicaAdmission
        else if InitialDecision(s).Done? then AtReplicas else Idle)
  }

  /** The first replica that has to be re-pointed and can be reached. */
  function FollowTarget(s: State, primaryPod: Uid): (o: Option<nat>)
    ensures o.Some? ==> Topology.MustFollow(s.status, o.value, primaryPod) && CurrentNode(s, o.value)
  {
    if Topology.MustFollow(s.status, 0, primaryPod) && CurrentNode(s, 0) then Some(0)
    else if Topology.MustFollow(s.status, 1, primaryPod) && CurrentNode(s, 1) then Some(1)
    else if Topology.MustFollow(s.status, 2, primaryPod) && CurrentNode(s, 2) then Some(2)
    else None
  }

  /** The pod replicas are to replicate from, when it may be used. */
  function Upstream(s: State): Option<Uid> {
    if Topology.PrimaryForReplication(s.status) then PrimaryPod(s) else None
  }

  function ReplicasOrder(s: State): (o: Option<nat>)
    ensures o.Some? ==> CurrentNode(s, o.value)
  {
    if Upstream(s).None? then None else FollowTarget(s, Upstream(s).value)
  }

  function ReconcileReplicas(s: State, ds: Deliveries): (t: State)
    ensures SameProcesses(s.world, t.world)
    ensures LeavesAlone(s.status, t.status)
    ensures KeepsCourse(s, t)
  {
    match ReplicasOrder(s)
    case None => End(s, s.status, s.world, if Upstream(s).None? then Idle else AtReplicaAdmission)
    case Some(o) =>
      var id := s.status.nodes[o].id;
      End(s, s.status, Put(s, id, FollowProcess(ProcOf(s, id), Upstream(s).value, ds).proc), Idle)
  }

  // ---- admission of clients ----

  predicate ReplicaAdmissionDue(s: State) {
    && s.status.initialized && s.status.accepted.mode == HA
    && s.status.primaryOrdinal.Some? && s.status.rotation.None?
    && CurrentNode(s, s.status.primaryOrdinal.value)
    && var primary := s.status.nodes[s.status.primaryOrdinal.value];
       primary.role == Primary && primary.readiness && PrimaryIdentityMatches(s.status, primary)
  }

  /** A synchronized replica of the current primary whose clients are not admitted yet. */
  predicate MustAdmitReplica(s: State, ordinal: nat) {
    && ReplicaAdmissionDue(s) && ordinal != s.status.primaryOrdinal.value
    && CurrentNode(s, ordinal)
    && var node := s.status.nodes[ordinal];
       && node.role == Replica && node.readiness && node.termination.None? && node.observation.None?
       && node.replication.Some? && node.replication.value.linkUp && !node.replication.value.syncInProgress
       && node.replication.value.synced
       && node.replication.value.upstream == s.pods[s.status.primaryOrdinal.value].uid
       && !(node.appEnabled && node.appVersion == s.status.accepted.passwordVersion)
  }

  function AdmissionTarget(s: State): (o: Option<nat>)
    ensures o.Some? ==> MustAdmitReplica(s, o.value)
  {
    if MustAdmitReplica(s, 0) then Some(0)
    else if MustAdmitReplica(s, 1) then Some(1)
    else if MustAdmitReplica(s, 2) then Some(2)
    else None
  }

  function Open(s: State, id: Identity, ds: Deliveries): Reply
    requires Real(s, id)
  {
    UpdateAppAccess(ProcOf(s, id), true, s.status.accepted.passwordVersion, ds)
  }

  /** reconcileReplicaAdmission; `linked` when the re-read state still replicates from the primary. */
  function ReconcileReplicaAdmission(s: State, ds: Deliveries, linked: bool): (t: State)
    ensures SameProcesses(s.world, t.world)
    ensures LeavesAlone(s.status, t.status)
    ensures KeepsCourse(s, t)
  {
    match AdmissionTarget(s)
    case None => s.(at := AtAppAdmission)
    case Some(o) =>
      var node := s.status.nodes[o];
      var reply := Open(s, node.id, ds);
      End(s,
          if reply.ok && reply.proc.role == Replica && linked
          then Availability.FinishReplicaAdmission(s.status, node) else s.status,
          Put(s, node.id, reply.proc), Idle)
  }

  /** admissionProcess: the one process client access may be opened on. */
  predicate PrimaryAdmissible(s: State) {
    var ordinal := SelectedPrimaryOrdinal(s.status);
    && ordinal.Some? && !HasUnterminatedPrevious(s.status.previous)
    && CurrentNode(s, ordinal.value)
    && var node := s.status.nodes[ordinal.value];
       && node.role == Primary && node.readiness && node.termination.None?
       && PrimaryIdentityMatches(s.status, node)
  }

  /** The process to open, when it is not open already. */
  function PrimaryToOpen(s: State): (node: Option<NodeStatus>)
    ensures node.Some? ==>
      PrimaryAdmissible(s) && node.value == s.status.nodes[SelectedPrimaryOrdinal(s.status).value]
  {
    if !PrimaryAdmissible(s) then None
    else
      var node := s.status.nodes[SelectedPrimaryOrdinal(s.status).value];
      if node.appEnabled && node.appVersion == s.status.accepted.passwordVersion then None else Some(node)
  }

  /** The first admission of clients makes the accepted size the applied one. */
  predicate FirstApplied(a: Status, b: Status) {
    !a.initialized && b.initialized && b.applied == Some(Applied(a.accepted.mode, a.accepted.size))
  }

  /** Opening the primary, and what is written about it. */
  function OpenPrimary(s: State, node: NodeStatus, ds: Deliveries): (t: State)
    requires Real(s, node.id)
    ensures SameProcesses(s.world, t.world)
    ensures LeavesAlone(s.status, t.status)
    ensures t.status.applied == s.status.applied || FirstApplied(s.status, t.status)
    ensures KeepsCourse(s, t)
  {
    var reply := Open(s, node.id, ds);
    End(s,
        if !reply.ok then s.status
        else if reply.proc.role != Primary then Availability.AdmissionPending(s.status)
        else Availability.FinishAppAdmission(s.status, node),
        Put(s, node.id, reply.proc), Idle)
  }

  /** reconcileAppAdmission; `routed` when label, endpoint and network checks let it go on. */
  function ReconcileAppAdmission(s: State, ds: Deliveries, routed: bool): (t: State)
    ensures SameProcesses(s.world, t.world)
    ensures LeavesAlone(s.status, t.status)
    ensures t.status.applied == s.status.applied || FirstApplied(s.status, t.status)
    ensures KeepsCourse(s, t)
  {
    if !PrimaryAdmissible(s) || !routed then End(s, Availability.AdmissionPending(s.status), s.world, Idle)
    else match PrimaryToOpen(s)
      case Some(node) => OpenPrimary(s, node, ds)
      case None =>
        var node := s.status.nodes[SelectedPrimaryOrdinal(s.status).value];
        var admitted := Availability.FinishAppAdmission(s.status, node);
        End(s, admitted, s.world, if admitted == s.status then AtHistory else Idle)
  }

  // ---- deletion of the instance ----

  function AdvanceDeletion(s: State, stage: DeletionStage): State {
    s.(status := s.status.(deletion := Some(stage), publicReady := false))
  }

  /** What verifyDeletion demands before the finalizer goes. */
  predicate DeletionVerified(s: State) {
    s.pods == map[] && RolloutSteps.AllKnownStopped(s.status)
  }

  predicate NothingToStop(s: State) {
    forall o :: o in s.pods ==> s.pods[o].deleting
  }

  // ---- steps ----

  /** What happens around the operator. */
  datatype WorldStep =
    | ProcessStarts(ordinal: nat, id: Identity, version: int)
    | ProcessDies(id: Identity)
    | CommandArrives(id: Identity)
    | ClientConnects(id: Identity)
    | PodVanishes(ordinal: nat)
    | PodForcedAway(ordinal: nat)
    | PodForceReplaced(ordinal: nat)

  /** What others ask for, and the end of a pass by an error, a restart or a lost lease. */
  datatype Request =
    | PodDeletionRequested(ordinal: nat)
    | HashAdded(version: int)
    | DeletionRequested
    | Interrupted(startedAt: Time)

  /** The steps of a pass that create pods and find out what runs. */
  datatype Watch =
    | SpecRead(spec: Spec)
    | PodCreated(ordinal: nat)
    | WorkloadDone
    | Inspected(ordinal: nat, finding: Finding)
    | InspectionDone
    | FencedManually(id: Identity)
    | ManualFencingDone
    | PhaseApplied
    | HistoryPruned

  /** The steps of a pass that carry out the operations. */
  datatype Operation =
    | FailoverStep(ds: Deliveries, now: Time)
    | RotationCommand(id: Identity, ds: Deliveries)
    | RotationDone
    | RolloutClose(ordinal: nat, ds: Deliveries)
    | RolloutStep(closed: bool)
    | InitialPrimaryStep(ds: Deliveries)
    | ReplicasStep(ds: Deliveries)
    | ReplicaAdmissionStep(ds: Deliveries, linked: bool)
    | AppAdmissionStep(ds: Deliveries, routed: bool)

  /** The steps of a pass over a resource marked for deletion. */
  datatype Removal =
    | DeletionAdvances
    | DeletionCloses(ordinal: nat, ds: Deliveries)
    | DeletionInspects(ordinal: nat, finding: Finding)
    | DeletionCopiesProof(id: Identity)
    | DeletionProvesHostGone(id: Identity)
    | FinalizerRemoved

  datatype Step =
    | World(world: WorldStep) | Ask(request: Request) | Look(watch: Watch) | Operate(operation: Operation)
    | Remove(removal: Removal)

  predicate CanHappen(s: State, step: WorldStep) {
    match step
    case ProcessStarts(ordinal, id, _) => CanStartProcess(s, ordinal, id)
    case ProcessDies(id) => Alive(s, id)
    case CommandArrives(id) => CanDeliver(s, id)
    case ClientConnects(id) => CanConnect(s, id)
    case PodVanishes(ordinal) => CanVanish(s, ordinal)
    case PodForcedAway(ordinal) => ordinal in s.pods
    case PodForceReplaced(ordinal) => ordinal in s.pods
  }

  function Happen(s: State, step: WorldStep): (t: State)
    requires CanHappen(s, step)
    ensures SameProcesses(s.world, t.world)
    ensures t.status == s.status
    ensures KeepsCourse(s, t)
  {
    match step
    case ProcessStarts(ordinal, id, version) => StartProcess(s, ordinal, id, version)
    case ProcessDies(id) => Die(s, id)
    case CommandArrives(id) => Deliver(s, id)
    case ClientConnects(id) => Connect(s, id)
    case PodVanishes(ordinal) => RemovePod(s, ordinal)
    case PodForcedAway(ordinal) => RemovePod(s, ordinal)
    case PodForceReplaced(ordinal) => ForceReplace(s, ordinal)
  }

  predicate CanRequest(s: State, request: Request) {
    request.PodDeletionRequested? ==> request.ordinal in s.pods
  }

  function AfterRequest(s: State, request: Request): (t: State)
    requires CanRequest(s, request)
    ensures t.status == s.status && t.world == s.world && t.finalizer == s.finalizer
    ensures NotesStraying(s, t)
  {
    match request
    case PodDeletionRequested(ordinal) => MarkDeleting(s, ordinal)
    case HashAdded(version) => s.(hashes := s.hashes + {version})
    case DeletionRequested => s.(deleting := true)
    case Interrupted(startedAt) => s.(startedAt := startedAt, at := Idle, seen := {})
  }

  predicate CanWatch(s: State, watch: Watch) {
    match watch
    case SpecRead(_) => s.at == Idle && !s.deleting
    case PodCreated(ordinal) => s.at == AtWorkload && CanCreatePod(s, ordinal)
    case WorkloadDone => s.at == AtWorkload
    case Inspected(ordinal, finding) => s.at == AtInspection && ordinal !in s.seen
      && ordinal < ExpectedProcessCount(s.status.accepted.mode) && CanInspect(s, ordinal, finding)
    case InspectionDone => s.at == AtInspection && AllSeen(s)
    case FencedManually(id) => s.at == AtManualFencing && KnownProcess(s.status, id).Some? && Dead(s, id)
    case ManualFencingDone => s.at == AtManualFencing
    case PhaseApplied => s.at == AtHistory
    case HistoryPruned => s.at == AtHistory
  }

  function AfterWatch(s: State, watch: Watch): (t: State)
    requires CanWatch(s, watch)
    ensures SameProcesses(s.world, t.world)
    ensures LeavesAlone(s.status, t.status)
    ensures t.status.applied == s.status.applied
    ensures KeepsCourse(s, t)
  {
    match watch
    case SpecRead(spec) =>
      var status := Contract.ReconcileAccepted(s.status, spec, s.hashes);
      End(s, status, s.world, if status == s.status then AtWorkload else Idle)
    case PodCreated(ordinal) => CreatePod(s, ordinal)
    case WorkloadDone => s.(at := AtInspection)
    case Inspected(ordinal, finding) => Inspect(s, ordinal, finding)
    case InspectionDone => s.(at := AtManualFencing)
    case FencedManually(id) => End(s, Observation.AcceptManualFencing(s.status, id), s.world, Idle)
    case ManualFencingDone => s.(at := AtFailover)
    case PhaseApplied =>
      var status := Availability.ApplyOperationalPhase(s.status);
      End(s, status, s.world, if status == s.status then AtHistory else Idle)
    case HistoryPruned => End(s, Observation.PruneHistory(s.status), s.world, Idle)
  }

  predicate CanOperate(s: State, operation: Operation) {
    match operation
    case FailoverStep(_, _) => s.at == AtFailover
    case RotationCommand(id, _) => s.at == AtRotation && CanRotate(s, id)
    case RotationDone => s.at == AtRotation
    case RolloutClose(ordinal, _) => s.at == AtRollout && CanClose(s, ordinal)
    case RolloutStep(_) => s.at == AtRollout
    case InitialPrimaryStep(_) => s.at == AtInitialPrimary
    case ReplicasStep(_) => s.at == AtReplicas
    case ReplicaAdmissionStep(_, _) => s.at == AtReplicaAdmission
    case AppAdmissionStep(_, _) => s.at == AtAppAdmission
  }

  function AfterOperation(s: State, operation: Operation): (t: State)
    requires CanOperate(s, operation)
    ensures !operation.FailoverStep? && !operation.RolloutStep? ==> LeavesAlone(s.status, t.status)
    ensures !operation.RotationDone? ==> KeepsCourse(s, t)
    ensures NotesStraying(s, t)
    ensures t.status.deletion == s.status.deletion && t.finalizer == s.finalizer && t.deleting == s.deleting
  {
    match operation
    case FailoverStep(ds, now) => ReconcileFailover(s, ds, now)
    case RotationCommand(id, ds) => Rotate(s, id, ds)
    case RotationDone => EndRotation(s)
    case RolloutClose(ordinal, ds) => Close(s, ordinal, ds)
    case RolloutStep(closed) => ReconcileRollout(s, closed)
    case InitialPrimaryStep(ds) => ReconcileInitialPrimary(s, ds)
    case ReplicasStep(ds) => ReconcileReplicas(s, ds)
    case ReplicaAdmissionStep(ds, linked) => ReconcileReplicaAdmission(s, ds, linked)
    case AppAdmissionStep(ds, routed) => ReconcileAppAdmission(s, ds, routed)
  }

  /** A process in the history whose pod's container is the stopped one listed now. */
  predicate CanCopyProof(s: State, id: Identity) {
    && id in s.status.previous && s.status.previous[id].termination.None?
    && s.status.previous[id].ordinal in s.status.nodes
    && s.status.nodes[s.status.previous[id].ordinal].termination.Some?
    && SameContainer(s.status.previous[id], s.status.nodes[s.status.previous[id].ordinal])
  }

  predicate CanRemove(s: State, removal: Removal) {
    && s.at == Idle && s.deleting
    && match removal
       case DeletionAdvances =>
         && s.status.deletion != Some(VerifyingStop)
         && (s.status.deletion == Some(StoppingPods) ==> NothingToStop(s))
       case DeletionCloses(ordinal, _) => s.status.deletion == Some(DisablingApp) && RunsAt(s, ordinal)
       case DeletionInspects(ordinal, finding) => s.status.deletion == Some(VerifyingStop)
         && ordinal < ExpectedProcessCount(s.status.accepted.mode) && CanInspect(s, ordinal, finding)
         && (finding.ContainerDead? || finding.HostGone? || (finding.PodMissing? && finding.hostGone))
       case DeletionCopiesProof(id) => s.status.deletion == Some(VerifyingStop) && CanCopyProof(s, id)
       case DeletionProvesHostGone(id) =>
         s.status.deletion == Some(VerifyingStop) && id in s.status.previous && Dead(s, id)
       case FinalizerRemoved => s.status.deletion == Some(VerifyingStop) && DeletionVerified(s)
  }

  function NextDeletionStage(s: State): DeletionStage {
    match s.status.deletion
    case None => RemovingNetwork
    case Some(RemovingNetwork) => DisablingApp
    case Some(DisablingApp) => StoppingPods
    case _ => VerifyingStop
  }

  function WithProof(s: State, id: Identity, evidence: Evidence): State {
    s.(status := s.status.(previous := Observation.TerminateWhere(s.status.previous, id, evidence)))
  }

  function AfterRemoval(s: State, removal: Removal): (t: State)
    requires CanRemove(s, removal)
    ensures SameProcesses(s.world, t.world)
    ensures LeavesAlone(s.status, t.status)
    ensures t.status.rollout == s.status.rollout && t.status.rotation == s.status.rotation
    ensures t.status.applied == s.status.applied
    ensures NotesStraying(s, t)
    ensures t.hashes == s.hashes && t.deleting == s.deleting
    ensures removal != FinalizerRemoved ==> t.finalizer == s.finalizer
  {
    match removal
    case DeletionAdvances => AdvanceDeletion(s, NextDeletionStage(s))
    case DeletionCloses(ordinal, ds) => CloseProcess(s, ContainerOf(s, ordinal), ds)
    case DeletionInspects(ordinal, finding) => InspectFinding(s, ordinal, finding)
    case DeletionCopiesProof(id) => WithProof(s, id, ContainerStatus)
    case DeletionProvesHostGone(id) => WithProof(s, id, NodeDeleted)
    case FinalizerRemoved => s.(finalizer := false)
  }

  /** Steps of the operator need the resource to exist. */
  predicate Enabled(s: State, step: Step) {
    match step
    case World(world) => CanHappen(s, world)
    case Ask(request) => s.finalizer && CanRequest(s, request)
    case Look(watch) => s.finalizer && CanWatch(s, watch)
    case Operate(operation) => s.finalizer && CanOperate(s, operation)
    case Remove(removal) => s.finalizer && CanRemove(s, removal)
  }

  function After(s: State, step: Step): State
    requires Enabled(s, step)
  {
    match step
    case World(world) => Happen(s, world)
    case Ask(request) => AfterRequest(s, request)
    case Look(watch) => AfterWatch(s, watch)
    case Operate(operation) => AfterOperation(s, operation)
    case Remove(removal) => AfterRemoval(s, removal)
  }

  ghost predicate Next(s: State, t: State) {
    exists step :: Enabled(s, step) && t == After(s, step)
  }

  predicate Starts(s: State, spec: Spec) {
    var first := Contract.FirstAccepted(spec);
    first.Candidate? && s == Initial(first.accepted)
  }

  /** A run: consecutive states are related by steps. */
  ghost predicate IsRun(run: seq<State>) {
    && run != []
    && (exists spec :: Starts(run[0], spec))
    && forall i :: 0 <= i < |run| - 1 ==> Next(run[i], run[i + 1])
  }
}
