/**
 What always holds between the stored status, the pods and the real processes: a listed process is
 real, a stored proof of its end is true, and a displaced process never comes back into a pod.
 */
module Shape {
  import opened Options
  import opened OperatorTypes
  import opened Session
  import opened Operator
  import Observation
  import Workload
  import Availability
  import FailoverSteps
  import RotationSteps

  /** A listed process exists unless it is proved stopped, and a stored proof is true. */
  predicate EntrySound(world: map<Uid, Proc>, n: NodeStatus) {
    && n.id.podUID in world
    && var p := world[n.id.podUID];
       && p.ordinal == n.ordinal
       && (p.id == n.id || (n.id == p.id.(runID := 0) && n.termination.Some?))
       && (n.termination.Some? ==> !p.alive)
  }

  predicate WorldSound(world: map<Uid, Proc>, nextUid: Uid) {
    forall u :: u in world ==> 0 < u < nextUid && world[u].id.podUID == u && world[u].id.runID != 0
  }

  predicate OnePod(pods: map<nat, Pod>, o: nat, q: nat) {
    o in pods && q in pods && pods[o].uid == pods[q].uid ==> o == q
  }

  predicate PodsSound(world: map<Uid, Proc>, pods: map<nat, Pod>, nextUid: Uid) {
    && (forall o :: o in pods ==> 0 < pods[o].uid < nextUid)
    && (forall o :: o in pods && pods[o].uid in world ==> world[pods[o].uid].ordinal == o)
  }

  ghost predicate PodsDistinct(pods: map<nat, Pod>) {
    forall o, q :: OnePod(pods, o, q)
  }

  /** No pod runs this process any more, and none ever will again. */
  predicate Detached(pods: map<nat, Pod>, id: Identity) {
    forall o :: o in pods ==> pods[o].uid != id.podUID
  }

  predicate NodesSound(world: map<Uid, Proc>, count: nat, nodes: map<nat, NodeStatus>) {
    forall o :: o in nodes ==> o < count && nodes[o].ordinal == o && EntrySound(world, nodes[o])
  }

  predicate HistorySound(world: map<Uid, Proc>, pods: map<nat, Pod>, previous: map<Identity, NodeStatus>) {
    forall id :: id in previous ==>
      previous[id].id == id && EntrySound(world, previous[id]) && Detached(pods, id)
  }

  function Count(s: State): nat { ExpectedProcessCount(s.status.accepted.mode) }

  ghost predicate Sound(s: State) {
    && 0 < s.nextUid
    && PodsSound(s.world, s.pods, s.nextUid) && PodsDistinct(s.pods)
    && WorldSound(s.world, s.nextUid)
    && NodesSound(s.world, Count(s), s.status.nodes)
    && HistorySound(s.world, s.pods, s.status.previous)
  }

  // ---- what moves ----

  /** Part of the same history. */
  predicate PartOf(a: map<Identity, NodeStatus>, b: map<Identity, NodeStatus>) {
    b.Keys <= a.Keys && forall id :: id in b ==> b[id] == a[id]
  }

  lemma NodesFrame(w: map<Uid, Proc>, v: map<Uid, Proc>, count: nat, a: map<nat, NodeStatus>, b: map<nat, NodeStatus>)
    requires NodesSound(w, count, a) && SameProcesses(w, v) && SameNodes(a, b)
    ensures NodesSound(v, count, b)
  {
  }

  lemma HistoryFrame(
    w: map<Uid, Proc>, v: map<Uid, Proc>, ps: map<nat, Pod>, qs: map<nat, Pod>,
    a: map<Identity, NodeStatus>, b: map<Identity, NodeStatus>)
    requires HistorySound(w, ps, a) && SameProcesses(w, v) && PartOf(a, b)
    requires forall o :: o in qs && o in ps ==> qs[o].uid == ps[o].uid || qs[o].uid !in w
    requires forall o :: o in qs && o !in ps ==> qs[o].uid !in w
    ensures HistorySound(v, qs, b)
  {
  }

  /** A step that lists the same processes, with the same proofs, or forgets some of the history. */
  lemma FrameKeepsSound(s: State, t: State)
    requires Sound(s) && KeepsEntries(s, t.(status := t.status.(previous := s.status.previous)))
    requires PartOf(s.status.previous, t.status.previous)
    ensures Sound(t)
  {
    NodesFrame(s.world, t.world, Count(s), s.status.nodes, t.status.nodes);
    HistoryFrame(s.world, t.world, s.pods, t.pods, s.status.previous, t.status.previous);
    assert forall o, q :: OnePod(s.pods, o, q) ==> OnePod(t.pods, o, q);
  }

  lemma PodMarkKeepsSound(s: State, ordinal: nat, pod: Pod)
    requires Sound(s) && ordinal in s.pods && pod.uid == s.pods[ordinal].uid
    ensures Sound(s.(pods := s.pods[ordinal := pod]))
  {
    FrameKeepsSound(s, s.(pods := s.pods[ordinal := pod]));
  }

  lemma FreshPodKeepsSound(s: State, t: State, ordinal: nat, size: Size)
    requires Sound(s) && t.nextUid == s.nextUid + 1 && t.world == s.world && t.status == s.status
    requires t.pods == s.pods[ordinal := Pod(s.nextUid, size, false, true)]
    ensures Sound(t)
  {
    assert s.nextUid !in s.world;
    HistoryFrame(s.world, t.world, s.pods, t.pods, s.status.previous, t.status.previous);
    forall o, q ensures OnePod(t.pods, o, q) { assert OnePod(s.pods, o, q); }
  }

  lemma StartKeepsSound(s: State, ordinal: nat, id: Identity, version: int)
    requires Sound(s) && CanStartProcess(s, ordinal, id)
    ensures Sound(StartProcess(s, ordinal, id, version))
  {
    var t := StartProcess(s, ordinal, id, version);
    forall o | o in t.pods && t.pods[o].uid in t.world ensures t.world[t.pods[o].uid].ordinal == o {
      assert OnePod(s.pods, o, ordinal);
    }
    NodesFrame(s.world, t.world, Count(s), s.status.nodes, t.status.nodes);
    HistoryFrame(s.world, t.world, s.pods, t.pods, s.status.previous, t.status.previous);
  }

  // ---- what the observations write ----

  lemma RecordSeenEntries(status: Status, observed: NodeStatus, prior: Option<Evidence>)
    ensures
      var changed := observed.ordinal in status.nodes && !SameProcess(status.nodes[observed.ordinal], observed);
      var recorded := Observation.RecordCurrentProcess(status, observed, if changed then prior else None);
      var t := Observation.RecordSeen(status, observed, prior);
      t.nodes == recorded.nodes && t.previous == recorded.previous && t.accepted == status.accepted
  {
  }

  lemma ContainerTerminationEntries(status: Status, dead: NodeStatus)
    ensures
      var t := Observation.SaveContainerTermination(status, dead);
      var saved := NodeAt(status.nodes, dead.ordinal);
      var same := saved.Some? && SameContainer(saved.value, dead);
      && t.nodes == status.nodes[dead.ordinal :=
           Observation.Terminated(if same then saved.value else dead, ContainerStatus)]
      && t.accepted == status.accepted
      && (forall id :: id in t.previous ==>
           || (id in status.previous && t.previous[id] == status.previous[id])
           || (saved.Some? && !same && status.deletion.Some? && id == saved.value.id && t.previous[id] == saved.value)
           || (id in status.previous && SameContainer(status.previous[id], t.nodes[dead.ordinal])
               && status.previous[id].termination.None?
               && t.previous[id] == Observation.Terminated(status.previous[id], ContainerStatus)))
      && (forall id :: id in status.previous ==> id in t.previous)
      && (saved.Some? && !same && status.deletion.Some? ==> saved.value.id in t.previous)
  {
  }

  // ---- inspections ----

  lemma RecordKeepsSound(s: State, observed: NodeStatus, prior: Option<Evidence>)
    requires Sound(s) && observed.ordinal < Count(s)
    requires observed.termination.None? && Current(s, observed.ordinal, observed.id)
    requires prior.Some? ==> observed.ordinal in s.status.nodes && Dead(s, s.status.nodes[observed.ordinal].id)
    ensures Sound(s.(status := Observation.RecordSeen(s.status, observed, prior)))
  {
    RecordSeenEntries(s.status, observed, prior);
    var o := observed.ordinal;
    assert EntrySound(s.world, observed);
    if o in s.status.nodes && !SameProcess(s.status.nodes[o], observed) {
      DisplacedIsDetached(s, o, observed.id);
    }
  }

  /** The process the status lists at an ordinal whose pod runs another one is in no pod. */
  lemma DisplacedIsDetached(s: State, o: nat, id: Identity)
    requires Sound(s) && o in s.status.nodes && Current(s, o, id) && s.status.nodes[o].id != id
    ensures Detached(s.pods, s.status.nodes[o].id)
  {
    var current := s.status.nodes[o];
    assert EntrySound(s.world, current);
    forall q | q in s.pods ensures s.pods[q].uid != current.id.podUID {
      assert OnePod(s.pods, q, o);
    }
  }

  /** Writing a status with these entries keeps the state sound. */
  lemma StatusKeepsSound(s: State, t: Status)
    requires Sound(s) && t.accepted.mode == s.status.accepted.mode
    requires NodesSound(s.world, Count(s), t.nodes) && HistorySound(s.world, s.pods, t.previous)
    ensures Sound(s.(status := t))
  {
  }

  lemma EntriesKeepSound(s: State, t: State)
    requires Sound(s) && KeepsEntries(s, t)
    ensures Sound(t)
  {
    FrameKeepsSound(s, t);
  }

  lemma SameEntriesKeepSound(s: State, t: Status)
    requires Sound(s) && t.accepted.mode == s.status.accepted.mode
    requires SameNodes(s.status.nodes, t.nodes) && PartOf(s.status.previous, t.previous)
    ensures Sound(s.(status := t))
  {
    FrameKeepsSound(s, s.(status := t));
  }

  /** Likewise when the pod's process has ended. */
  lemma DisplacedByDead(s: State, o: nat)
    requires Sound(s) && o in s.status.nodes && HasContainer(s, o)
    requires !SamePodContainer(s.status.nodes[o].id, ContainerOf(s, o))
    ensures Detached(s.pods, s.status.nodes[o].id)
  {
    var current := s.status.nodes[o];
    assert EntrySound(s.world, current);
    forall q | q in s.pods ensures s.pods[q].uid != current.id.podUID {
      assert OnePod(s.pods, q, o);
    }
  }

  lemma DeadPodKeepsSound(s: State, ordinal: nat)
    requires Sound(s) && ordinal < Count(s) && CanInspect(s, ordinal, ContainerDead)
    ensures Sound(InspectDead(s, ordinal))
  {
    var id := ContainerOf(s, ordinal);
    var t := InspectDead(s, ordinal);
    if ordinal in s.status.nodes && !SamePodContainer(s.status.nodes[ordinal].id, id) {
      DisplacedByDead(s, ordinal);
      if s.status.deletion.None? {
        SameEntriesKeepSound(s, t.status);
        return;
      }
    } else if ordinal in s.status.nodes && s.status.nodes[ordinal].termination.Some? {
      PodMarkKeepsSound(s, ordinal, Released(s.pods[ordinal]));
      return;
    }
    var dead := DeadContainer(ordinal, id);
    ContainerTerminationKeepsEntries(s, dead);
    StatusKeepsSound(s, Observation.SaveContainerTermination(s.status, dead));
  }

  lemma ContainerTerminationKeepsEntries(s: State, dead: NodeStatus)
    requires Sound(s) && dead.ordinal < Count(s) && CanInspect(s, dead.ordinal, ContainerDead)
    requires dead == DeadContainer(dead.ordinal, ContainerOf(s, dead.ordinal))
    requires dead.ordinal in s.status.nodes ==>
      SamePodContainer(s.status.nodes[dead.ordinal].id, dead.id) || Detached(s.pods, s.status.nodes[dead.ordinal].id)
    ensures
      var t := Observation.SaveContainerTermination(s.status, dead);
      && t.accepted == s.status.accepted
      && NodesSound(s.world, Count(s), t.nodes) && HistorySound(s.world, s.pods, t.previous)
  {
    ContainerTerminationEntries(s.status, dead);
    var t := Observation.SaveContainerTermination(s.status, dead);
    assert EntrySound(s.world, Observation.Terminated(dead, ContainerStatus));
    if dead.ordinal in s.status.nodes { assert EntrySound(s.world, s.status.nodes[dead.ordinal]); }
    assert EntrySound(s.world, t.nodes[dead.ordinal]);
    forall id | id in t.previous
      ensures t.previous[id].id == id && EntrySound(s.world, t.previous[id]) && Detached(s.pods, id)
    {
    }
  }

  lemma CommandKeepsSound(s: State, id: Identity, p: Proc)
    requires Sound(s) && Real(s, id)
    requires var q := ProcOf(s, id); p.id == q.id && p.ordinal == q.ordinal && (p.alive ==> q.alive)
    ensures Sound(Update(s, id, p))
  {
    FrameKeepsSound(s, Update(s, id, p));
  }

  lemma AnswerKeepsSound(
    s: State, ordinal: nat, replication: Option<Replication>, ready: bool, control: bool, gone: bool)
    requires Sound(s) && ordinal < Count(s) && CanInspect(s, ordinal, Answer(replication, ready, control, gone))
    ensures Sound(InspectFinding(s, ordinal, Answer(replication, ready, control, gone)))
  {
    var id := ContainerOf(s, ordinal);
    var t := if control then Update(s, id, TakeControl(ProcOf(s, id), Answered).proc) else s;
    if control { CommandKeepsSound(s, id, TakeControl(ProcOf(s, id), Answered).proc); }
    RecordKeepsSound(t, Observed(t, ordinal, id, replication, ready), if gone then Some(NodeDeleted) else None);
  }

  /** The findings that tell nothing new about who runs. */
  lemma SilenceKeepsSound(s: State, ordinal: nat, finding: Finding)
    requires Sound(s) && ordinal < Count(s) && CanInspect(s, ordinal, finding)
    requires finding.NotRunning? || finding.NoAnswer? || (finding.PodMissing? && !finding.hostGone)
    ensures Sound(InspectFinding(s, ordinal, finding))
  {
    match finding
    case NoAnswer(kind, ready, now) =>
      var known := ordinal in s.status.nodes && s.status.nodes[ordinal].id == ContainerOf(s, ordinal);
      SameEntriesKeepSound(s, Observation.RecordError(s.status, ordinal, known, kind, ready, now, s.startedAt));
    case _ =>
      SameEntriesKeepSound(s, Observation.ProcessUnavailable(s.status, ordinal));
  }

  lemma HostGoneKeepsSound(s: State, ordinal: nat)
    requires Sound(s) && ordinal in s.status.nodes && s.status.nodes[ordinal].termination.None?
    requires Dead(s, s.status.nodes[ordinal].id)
    ensures Sound(s.(status := Observation.SaveNodeDeletion(s.status, ordinal)))
  {
    var t := Observation.SaveNodeDeletion(s.status, ordinal);
    assert EntrySound(s.world, s.status.nodes[ordinal]);
    StatusKeepsSound(s, t);
  }

  lemma ClosingKeepsSound(s: State, id: Identity, ds: Deliveries)
    requires Sound(s) && Real(s, id)
    ensures Sound(CloseProcess(s, id, ds))
  {
    EntriesKeepSound(s, CloseProcess(s, id, ds));
  }

  lemma InspectionKeepsSound(s: State, ordinal: nat, finding: Finding)
    requires Sound(s) && ordinal < Count(s) && CanInspect(s, ordinal, finding)
    ensures Sound(InspectFinding(s, ordinal, finding))
  {
    match finding
    case PodMissing(gone) =>
      if gone { HostGoneKeepsSound(s, ordinal); } else { SilenceKeepsSound(s, ordinal, finding); }
    case NotRunning => SilenceKeepsSound(s, ordinal, finding);
    case ContainerDead => DeadPodKeepsSound(s, ordinal);
    case HostGone => HostGoneKeepsSound(s, ordinal);
    case NoAnswer(_, _, _) => SilenceKeepsSound(s, ordinal, finding);
    case Answer(replication, ready, control, gone) => AnswerKeepsSound(s, ordinal, replication, ready, control, gone);
    case CloseApp(ds) => ClosingKeepsSound(s, ContainerOf(s, ordinal), ds);
  }

  // ---- every step ----

  /** A process that took commands is still the same one. */
  lemma PutKeeps(s: State, id: Identity, p: Proc)
    requires Real(s, id) && Same(ProcOf(s, id), p)
    ensures Put(s, id, p).Keys == s.world.Keys && SameProcesses(s.world, Put(s, id, p))
  {
  }

  lemma WorldKeepsSound(s: State, step: WorldStep)
    requires Sound(s) && CanHappen(s, step)
    ensures Sound(Happen(s, step))
  {
    hide Sound;
    match step
    case ProcessStarts(ordinal, id, version) => StartKeepsSound(s, ordinal, id, version);
    case PodForceReplaced(ordinal) =>
      FreshPodKeepsSound(s, ForceReplace(s, ordinal), ordinal, s.pods[ordinal].size);
    case _ => EntriesKeepSound(s, Happen(s, step));
  }

  /** A step of the pass that commands at most one process and does not touch the entries. */
  lemma EndKeepsSound(s: State, status: Status, world: map<Uid, Proc>, at: PassPoint)
    requires Sound(s) && world.Keys == s.world.Keys && SameProcesses(s.world, world)
    requires status.accepted.mode == s.status.accepted.mode
    requires SameNodes(s.status.nodes, status.nodes) && PartOf(s.status.previous, status.previous)
    ensures Sound(End(s, status, world, at))
  {
    FrameKeepsSound(s, End(s, status, world, at));
  }

  lemma FailoverKeepsSound(s: State, ds: Deliveries, now: Time)
    requires Sound(s)
    ensures Sound(ReconcileFailover(s, ds, now))
  {
    hide Sound;
    var order := FailoverOrder(s);
    if order.Some? { PutKeeps(s, order.value, FailoverCommands(s, order.value, ds).proc); }
    EndKeepsSound(s, ReconcileFailover(s, ds, now).status, FailoverWorld(s, ds), ReconcileFailover(s, ds, now).at);
  }

  lemma RotatedIsSame(s: State, id: Identity, ds: Deliveries)
    requires CanRotate(s, id)
    ensures Real(s, id) && Same(ProcOf(s, id), RotationReply(s, id, ds).proc)
    ensures s.status.rotation.Some? && KnownProcess(s.status, id).Some?
  {
    hide RotationSteps.Outstanding;
  }

  lemma RotationKeepsSound(s: State, id: Identity, ds: Deliveries)
    requires Sound(s) && CanRotate(s, id)
    ensures Sound(Rotate(s, id, ds))
  {
    RotatedIsSame(s, id, ds);
    PutKeeps(s, id, RotationReply(s, id, ds).proc);
    RotatingIs(s, id, ds);
    assert FramesEntries(s.status, Rotate(s, id, ds).status);
    hide *;
    EndKeepsSound(s, Rotate(s, id, ds).status, Rotate(s, id, ds).world, Rotate(s, id, ds).at);
  }

  predicate FramesEntries(a: Status, b: Status) {
    b.accepted.mode == a.accepted.mode && SameNodes(a.nodes, b.nodes) && PartOf(a.previous, b.previous)
  }

  lemma ConfirmFramesEntries(status: Status, node: NodeStatus)
    requires status.rotation.Some?
    ensures FramesEntries(status, RotationSteps.Confirm(status, node)) && FramesEntries(status, status)
  {
  }

  lemma RotatingIs(s: State, id: Identity, ds: Deliveries)
    requires CanRotate(s, id) && Real(s, id)
    ensures
      var t := Rotate(s, id, ds);
      && t == End(s, t.status, t.world, t.at) && t.world == Put(s, id, RotationReply(s, id, ds).proc)
      && FramesEntries(s.status, t.status)
  {
    hide RotationReply, RotationConfirmed, Put, RotationSteps.Outstanding, Addressable, RotationSteps.Confirm,
         FramesEntries, KnownProcess;
    ConfirmFramesEntries(s.status, KnownProcess(s.status, id).value);
  }

  lemma RolloutKeepsSound(s: State, closed: bool)
    requires Sound(s)
    ensures Sound(ReconcileRollout(s, closed))
  {
    hide Sound, RolloutStatus, RolloutYields, KeepsCourse;
    var t := ReconcileRollout(s, closed);
    var u := t.(pods := s.pods);
    EndKeepsSound(s, t.status, s.world, t.at);
    EntriesKeepSound(End(s, t.status, s.world, t.at), u);
    if RolloutVictim(s).Some? {
      PodMarkKeepsSound(u, RolloutVictim(s).value, s.pods[RolloutVictim(s).value].(deleting := true));
    }
  }

  lemma CloseKeepsSound(s: State, ordinal: nat, ds: Deliveries)
    requires Sound(s) && CurrentNode(s, ordinal)
    ensures Sound(Close(s, ordinal, ds))
  {
    EntriesKeepSound(s, Close(s, ordinal, ds));
  }

  lemma InitialPrimaryKeepsSound(s: State, ds: Deliveries)
    requires Sound(s)
    ensures Sound(ReconcileInitialPrimary(s, ds))
  {
    hide Sound;
    if CurrentNode(s, 0) {
      var id := s.status.nodes[0].id;
      PutKeeps(s, id, PromoteProcess(ProcOf(s, id), ds).proc);
    }
    EndKeepsSound(s, InitialStatus(s), InitialWorld(s, ds), ReconcileInitialPrimary(s, ds).at);
  }

  lemma ReplicasKeepSound(s: State, ds: Deliveries)
    requires Sound(s)
    ensures Sound(ReconcileReplicas(s, ds))
  {
    hide Sound;
    var t := ReconcileReplicas(s, ds);
    if ReplicasOrder(s).Some? {
      var id := s.status.nodes[ReplicasOrder(s).value].id;
      PutKeeps(s, id, FollowProcess(ProcOf(s, id), Upstream(s).value, ds).proc);
    }
    EndKeepsSound(s, s.status, t.world, t.at);
  }

  lemma ReplicaAdmissionKeepsSound(s: State, ds: Deliveries, linked: bool)
    requires Sound(s)
    ensures Sound(ReconcileReplicaAdmission(s, ds, linked))
  {
    hide Sound;
    var t := ReconcileReplicaAdmission(s, ds, linked);
    match AdmissionTarget(s)
    case None => EndKeepsSound(s, s.status, s.world, AtAppAdmission);
    case Some(o) =>
      PutKeeps(s, s.status.nodes[o].id, Open(s, s.status.nodes[o].id, ds).proc);
      EndKeepsSound(s, t.status, t.world, Idle);
  }

  lemma OpenPrimaryKeepsSound(s: State, node: NodeStatus, ds: Deliveries)
    requires Sound(s) && Real(s, node.id)
    ensures Sound(OpenPrimary(s, node, ds))
  {
    hide Sound, UpdateAppAccess, Availability.ApplyOperationalPhase, Put;
    PutKeeps(s, node.id, Open(s, node.id, ds).proc);
    EndKeepsSound(s, OpenPrimary(s, node, ds).status, Put(s, node.id, Open(s, node.id, ds).proc), Idle);
  }

  lemma AppAdmissionKeepsSound(s: State, ds: Deliveries, routed: bool)
    requires Sound(s)
    ensures Sound(ReconcileAppAdmission(s, ds, routed))
  {
    hide Sound;
    var t := ReconcileAppAdmission(s, ds, routed);
    if PrimaryAdmissible(s) && routed && PrimaryToOpen(s).Some? {
      OpenPrimaryKeepsSound(s, PrimaryToOpen(s).value, ds);
    } else {
      EndKeepsSound(s, t.status, s.world, t.at);
    }
  }

  lemma AppAdmissionTouchesNoPods(s: State, ds: Deliveries, routed: bool)
    ensures ReconcileAppAdmission(s, ds, routed).pods == s.pods
  {
    hide PrimaryAdmissible, Open, KeepsCourse, LeavesAlone, SameProcesses;
  }

  lemma OnlyRolloutsTouchPods(s: State, operation: Operation)
    requires CanOperate(s, operation)
    ensures operation.RolloutStep? || AfterOperation(s, operation).pods == s.pods
  {
    hide ReconcileRollout, ReconcileAppAdmission, CanRotate, CanClose, FailoverMove, FailoverWorld,
         FailoverSteps.Apply, RotationConfirmed, RotationReply, RotationStatus, RotationHashes, InitialStatus,
         InitialWorld, InitialDecision, ReplicasOrder, Upstream, AdmissionTarget, Open, KnownProcess, KeepsCourse,
         LeavesAlone, SameProcesses, KeepsEntries, UpdateAppAccess;
    if operation.AppAdmissionStep? { AppAdmissionTouchesNoPods(s, operation.ds, operation.routed); }
  }

  lemma TerminationKeepsSound(s: State, t: Status, id: Identity, evidence: Evidence)
    requires Sound(s) && t.accepted == s.status.accepted
    requires t.nodes == s.status.nodes || t.nodes == Observation.AcceptManualFencing(s.status, id).nodes
    requires t.previous == Observation.TerminateWhere(s.status.previous, id, evidence)
    requires id.podUID in s.world && !s.world[id.podUID].alive
    ensures Sound(s.(status := t))
  {
  }

  lemma ManualFencingKeepsSound(s: State, id: Identity)
    requires Sound(s) && KnownProcess(s.status, id).Some? && Dead(s, id)
    ensures Sound(s.(status := Observation.AcceptManualFencing(s.status, id)))
  {
    TerminationKeepsSound(s, Observation.AcceptManualFencing(s.status, id), id, ManualFencing);
  }

  lemma CopiedProofKeepsSound(s: State, id: Identity)
    requires Sound(s) && CanCopyProof(s, id)
    ensures Sound(WithProof(s, id, ContainerStatus))
  {
    assert EntrySound(s.world, s.status.previous[id]);
    assert EntrySound(s.world, s.status.nodes[s.status.previous[id].ordinal]);
    TerminationKeepsSound(s, WithProof(s, id, ContainerStatus).status, id, ContainerStatus);
  }

  lemma HostProofKeepsSound(s: State, id: Identity)
    requires Sound(s) && id in s.status.previous && Dead(s, id)
    ensures Sound(WithProof(s, id, NodeDeleted))
  {
    assert EntrySound(s.world, s.status.previous[id]);
    TerminationKeepsSound(s, WithProof(s, id, NodeDeleted).status, id, NodeDeleted);
  }

  lemma RequestKeepsSound(s: State, request: Request)
    requires Sound(s) && CanRequest(s, request)
    ensures Sound(AfterRequest(s, request))
  {
    hide Sound;
    EntriesKeepSound(s, AfterRequest(s, request));
  }

  lemma WatchKeepsSound(s: State, watch: Watch)
    requires Sound(s) && CanWatch(s, watch)
    ensures Sound(AfterWatch(s, watch))
  {
    hide Sound;
    match watch
    case PodCreated(ordinal) =>
      FreshPodKeepsSound(s, CreatePod(s, ordinal), ordinal, Workload.WorkloadSize(s.status));
    case Inspected(ordinal, finding) =>
      InspectionKeepsSound(s, ordinal, finding);
      EntriesKeepSound(InspectFinding(s, ordinal, finding), Inspect(s, ordinal, finding));
    case FencedManually(id) =>
      ManualFencingKeepsSound(s, id);
      EntriesKeepSound(s.(status := Observation.AcceptManualFencing(s.status, id)), AfterWatch(s, watch));
    case HistoryPruned => EndKeepsSound(s, Observation.PruneHistory(s.status), s.world, Idle);
    case _ => EntriesKeepSound(s, AfterWatch(s, watch));
  }

  lemma OperationKeepsSound(s: State, operation: Operation)
    requires Sound(s) && CanOperate(s, operation)
    ensures Sound(AfterOperation(s, operation))
  {
    hide Sound;
    match operation
    case FailoverStep(ds, now) => FailoverKeepsSound(s, ds, now);
    case RotationCommand(id, ds) => RotationKeepsSound(s, id, ds);
    case RotationDone => EntriesKeepSound(s, EndRotation(s));
    case RolloutClose(ordinal, ds) => CloseKeepsSound(s, ordinal, ds);
    case RolloutStep(closed) => RolloutKeepsSound(s, closed);
    case InitialPrimaryStep(ds) => InitialPrimaryKeepsSound(s, ds);
    case ReplicasStep(ds) => ReplicasKeepSound(s, ds);
    case ReplicaAdmissionStep(ds, linked) => ReplicaAdmissionKeepsSound(s, ds, linked);
    case AppAdmissionStep(ds, routed) => AppAdmissionKeepsSound(s, ds, routed);
  }

  lemma RemovalKeepsSound(s: State, removal: Removal)
    requires Sound(s) && CanRemove(s, removal)
    ensures Sound(AfterRemoval(s, removal))
  {
    hide Sound;
    match removal
    case DeletionCloses(ordinal, ds) => ClosingKeepsSound(s, ContainerOf(s, ordinal), ds);
    case DeletionInspects(ordinal, finding) => InspectionKeepsSound(s, ordinal, finding);
    case DeletionCopiesProof(id) => CopiedProofKeepsSound(s, id);
    case DeletionProvesHostGone(id) => HostProofKeepsSound(s, id);
    case _ => EntriesKeepSound(s, AfterRemoval(s, removal));
  }

  lemma StepKeepsSound(s: State, step: Step)
    requires Sound(s) && Enabled(s, step)
    ensures Sound(After(s, step))
  {
    hide Sound;
    match step
    case World(world) => WorldKeepsSound(s, world);
    case Ask(request) => RequestKeepsSound(s, request);
    case Look(watch) => WatchKeepsSound(s, watch);
    case Operate(operation) => OperationKeepsSound(s, operation);
    case Remove(removal) => RemovalKeepsSound(s, removal);
  }

  lemma InitiallySound(accepted: Accepted)
    ensures Sound(Initial(accepted))
  {
  }

  lemma {:induction false} RunsAreSound(run: seq<State>, i: nat)
    requires IsRun(run) && i < |run|
    ensures Sound(run[i])
  {
    hide Sound;
    if i == 0 {
      var spec :| Starts(run[0], spec);
      InitiallySound(run[0].status.accepted);
    } else {
      RunsAreSound(run, i - 1);
      assert Next(run[i - 1], run[i]);
      var step :| Enabled(run[i - 1], step) && run[i] == After(run[i - 1], step);
      StepKeepsSound(run[i - 1], step);
    }
  }
}
