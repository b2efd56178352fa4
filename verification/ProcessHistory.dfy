/**
 No process is forgotten.  An identity that was listed once leaves the status only after a proof of its
 end was stored, a stored proof never changes and stays true, a pod is let go only after that, and a
 pod is created only when every listed process of its ordinal has ended.
 */
module ProcessHistory {
  import opened Options
  import opened OperatorTypes
  import opened Session
  import opened Operator
  import opened Shape
  import Observation
  import Availability
  import RotationSteps

  /** Nothing is both current and in the history. */
  predicate Distinct(status: Status) {
    forall o :: o in status.nodes ==> status.nodes[o].id !in status.previous
  }

  /** What a step may do to one entry. */
  predicate EntryKept(a: Status, b: Status, id: Identity) {
    var before, after := KnownProcess(a, id), KnownProcess(b, id);
    before.Some? ==>
      if before.value.termination.None? then after.Some?
      else after.None? || after.value.termination == before.value.termination
  }

  ghost predicate Kept(a: Status, b: Status) {
    && Distinct(b)
    && forall id :: EntryKept(a, b, id)
  }

  lemma SameEntriesAreKept(a: Status, b: Status)
    requires Distinct(a) && SameNodes(a.nodes, b.nodes) && b.previous == a.previous
    ensures Kept(a, b)
  {
  }

  // ---- what inspections do to the entries ----

  /** The process found at this ordinal is not in the history: those are in no pod. */
  lemma PodProcessIsNew(s: State, o: nat, id: Identity)
    requires Sound(s) && o in s.pods && id.podUID == s.pods[o].uid
    ensures id !in s.status.previous
    ensures forall q :: q in s.status.nodes && q != o ==> s.status.nodes[q].id != id || id.podUID !in s.world
  {
    forall q | q in s.status.nodes && q != o && id.podUID in s.world ensures s.status.nodes[q].id != id {
      assert EntrySound(s.world, s.status.nodes[q]);
    }
  }

  /** An identity listed at one ordinal is not listed at another. */
  lemma OrdinalIsUnique(s: State, o: nat, q: nat)
    requires NodesSound(s.world, Count(s), s.status.nodes)
    requires o in s.status.nodes && q in s.status.nodes && s.status.nodes[o].id == s.status.nodes[q].id
    ensures o == q
  {
    assert EntrySound(s.world, s.status.nodes[o]) && EntrySound(s.world, s.status.nodes[q]);
  }

  /** The entries of the listed processes are told apart by their identities, at most three of them. */
  predicate Apart(nodes: map<nat, NodeStatus>) {
    && (forall o :: o in nodes ==> o < 3)
    && (forall o, q :: o in nodes && q in nodes && nodes[o].id == nodes[q].id ==> o == q)
  }

  lemma SoundIsApart(s: State)
    requires NodesSound(s.world, Count(s), s.status.nodes)
    ensures Apart(s.status.nodes)
  {
    forall o, q | o in s.status.nodes && q in s.status.nodes && s.status.nodes[o].id == s.status.nodes[q].id
      ensures o == q
    {
      OrdinalIsUnique(s, o, q);
    }
  }

  /** knownProcess in terms of membership. */
  lemma KnownIs(status: Status, id: Identity)
    requires Apart(status.nodes)
    ensures forall o :: o in status.nodes && status.nodes[o].id == id ==>
      KnownProcess(status, id) == Some(status.nodes[o])
    ensures (forall o :: o in status.nodes ==> status.nodes[o].id != id) ==>
      KnownProcess(status, id) == if id in status.previous then Some(status.previous[id]) else None
  {
  }

  predicate ProofKept(n: NodeStatus, m: NodeStatus) {
    m.id == n.id && (n.termination.Some? ==> m.termination == n.termination)
  }

  /** Every current entry stays or goes to the history; the history only loses proved entries. */
  predicate Carried(a: Status, b: Status) {
    && (forall o :: o in a.nodes ==>
          || (o in b.nodes && ProofKept(a.nodes[o], b.nodes[o]))
          || (a.nodes[o].id in b.previous && ProofKept(a.nodes[o], b.previous[a.nodes[o].id])))
    && (forall id :: id in a.previous && (id in b.previous || a.previous[id].termination.None?) ==>
          id in b.previous && ProofKept(a.previous[id], b.previous[id]))
    && (forall o :: o in b.nodes ==> b.nodes[o].id !in a.previous)
  }

  lemma CarriedIsKept(a: Status, b: Status)
    requires Apart(a.nodes) && Apart(b.nodes) && Distinct(a) && Distinct(b)
    requires forall id :: id in a.previous ==> a.previous[id].id == id
    requires Carried(a, b)
    ensures Kept(a, b)
  {
    forall id ensures EntryKept(a, b, id) {
      KnownIs(a, id);
      KnownIs(b, id);
      if q :| q in a.nodes && a.nodes[q].id == id {
        if q in b.nodes && b.nodes[q].id == id {} else { assert id in b.previous; }
      }
    }
  }

  /** The same between two sound states. */
  lemma SoundCarriedIsKept(s: State, status: Status)
    requires Sound(s) && Sound(s.(status := status)) && Distinct(s.status) && Distinct(status)
    requires Carried(s.status, status)
    ensures Kept(s.status, status)
  {
    SoundIsApart(s);
    SoundIsApart(s.(status := status));
    CarriedIsKept(s.status, status);
  }

  lemma RecordingKeeps(s: State, observed: NodeStatus, prior: Option<Evidence>)
    requires Sound(s) && Distinct(s.status) && observed.ordinal < Count(s)
    requires observed.termination.None? && Current(s, observed.ordinal, observed.id)
    requires prior.Some? ==> observed.ordinal in s.status.nodes && Dead(s, s.status.nodes[observed.ordinal].id)
    ensures Kept(s.status, Observation.RecordSeen(s.status, observed, prior))
  {
    hide Observation.RecordSeen, Sound;
    var t := Observation.RecordSeen(s.status, observed, prior);
    RecordSeenEntries(s.status, observed, prior);
    RecordKeepsSound(s, observed, prior);
    PodProcessIsNew(s, observed.ordinal, observed.id);
    if observed.ordinal in s.status.nodes { CurrentIsElsewhere(s, observed.ordinal); }
    SoundCarriedIsKept(s, t);
  }

  /** The identity at this ordinal is at no other one. */
  lemma CurrentIsElsewhere(s: State, o: nat)
    requires Sound(s) && o in s.status.nodes
    ensures s.status.nodes[o].ordinal == o
    ensures forall q :: q in s.status.nodes && q != o ==> s.status.nodes[q].id != s.status.nodes[o].id
  {
    SoundIsApart(s);
  }

  lemma DeadContainerKeeps(s: State, o: nat)
    requires Sound(s) && Distinct(s.status) && o < Count(s) && CanInspect(s, o, ContainerDead)
    ensures Kept(s.status, InspectDead(s, o).status)
  {
    hide Sound;
    var id := ContainerOf(s, o);
    var current := NodeAt(s.status.nodes, o);
    var displaced := current.Some? && !SamePodContainer(current.value.id, id);
    if (displaced && s.status.deletion.None?) || (current.Some? && !displaced && current.value.termination.Some?) {
      SameEntriesAreKept(s.status, InspectDead(s, o).status);
    } else {
      SavingKeeps(s, o);
    }
  }

  lemma SavingKeeps(s: State, o: nat)
    requires Sound(s) && Distinct(s.status) && o < Count(s) && CanInspect(s, o, ContainerDead)
    requires o in s.status.nodes ==>
      if SamePodContainer(s.status.nodes[o].id, ContainerOf(s, o)) then s.status.nodes[o].termination.None?
      else s.status.deletion.Some?
    ensures Kept(s.status, Observation.SaveContainerTermination(s.status, DeadContainer(o, ContainerOf(s, o))))
  {
    hide Sound, Observation.SaveContainerTermination, Kept, KeepsCourse;
    var dead := DeadContainer(o, ContainerOf(s, o));
    var t := Observation.SaveContainerTermination(s.status, dead);
    ContainerTerminationEntries(s.status, dead);
    SavingKeepsSound(s, o);
    ContainerIsInPod(s, o);
    PodProcessIsNew(s, o, dead.id);
    if o in s.status.nodes {
      CurrentIsElsewhere(s, o);
      if s.status.nodes[o].termination.None? { CurrentIsReal(s, o); }
    }
    assert Distinct(t);
    assert Carried(s.status, t);
    SoundCarriedIsKept(s, t);
  }

  lemma SavingKeepsSound(s: State, o: nat)
    requires Sound(s) && o < Count(s) && CanInspect(s, o, ContainerDead)
    requires o in s.status.nodes ==>
      if SamePodContainer(s.status.nodes[o].id, ContainerOf(s, o)) then s.status.nodes[o].termination.None?
      else s.status.deletion.Some?
    ensures Sound(s.(status := Observation.SaveContainerTermination(s.status, DeadContainer(o, ContainerOf(s, o)))))
  {
    hide Sound, Observation.SaveContainerTermination;
    DeadPodKeepsSound(s, o);
  }

  lemma ContainerIsInPod(s: State, o: nat)
    requires Sound(s) && HasContainer(s, o)
    ensures ContainerOf(s, o).podUID == s.pods[o].uid
  {
  }

  lemma CurrentIsReal(s: State, o: nat)
    requires Sound(s) && o in s.status.nodes && s.status.nodes[o].termination.None?
    ensures Real(s, s.status.nodes[o].id) && EntrySound(s.world, s.status.nodes[o])
  {
  }

  lemma AnswerKeeps(s: State, o: nat, replication: Option<Replication>, ready: bool, control: bool, gone: bool)
    requires Sound(s) && Distinct(s.status) && o < Count(s)
    requires CanInspect(s, o, Answer(replication, ready, control, gone))
    ensures Kept(s.status, InspectFinding(s, o, Answer(replication, ready, control, gone)).status)
  {
    hide Sound, Kept;
    var id := ContainerOf(s, o);
    ContainerIsInPod(s, o);
    var q := TakeControl(ProcOf(s, id), Answered).proc;
    var t := if control then Update(s, id, q) else s;
    if control { CommandKeepsSound(s, id, q); }
    RecordingKeeps(t, Observed(t, o, id, replication, ready), if gone then Some(NodeDeleted) else None);
  }

  lemma HostGoneKeeps(s: State, o: nat)
    requires Sound(s) && Distinct(s.status) && o in s.status.nodes && s.status.nodes[o].termination.None?
    requires Dead(s, s.status.nodes[o].id)
    ensures Kept(s.status, Observation.SaveNodeDeletion(s.status, o))
  {
    HostGoneKeepsSound(s, o);
    SoundCarriedIsKept(s, Observation.SaveNodeDeletion(s.status, o));
  }

  lemma SilenceKeeps(s: State, o: nat, finding: Finding)
    requires Sound(s) && Distinct(s.status) && o < Count(s) && CanInspect(s, o, finding)
    requires finding.NotRunning? || finding.NoAnswer? || finding.CloseApp? || (finding.PodMissing? && !finding.hostGone)
    ensures Kept(s.status, InspectFinding(s, o, finding).status)
  {
    hide Sound, Kept;
    SameEntriesAreKept(s.status, InspectFinding(s, o, finding).status);
  }

  lemma InspectionKeeps(s: State, o: nat, finding: Finding)
    requires Sound(s) && Distinct(s.status) && o < Count(s) && CanInspect(s, o, finding)
    ensures Kept(s.status, InspectFinding(s, o, finding).status)
  {
    hide Sound, Kept;
    match finding
    case PodMissing(gone) => if gone { HostGoneKeeps(s, o); } else { SilenceKeeps(s, o, finding); }
    case ContainerDead => DeadContainerKeeps(s, o);
    case HostGone => HostGoneKeeps(s, o);
    case Answer(replication, ready, control, gone) => AnswerKeeps(s, o, replication, ready, control, gone);
    case _ => SilenceKeeps(s, o, finding);
  }

  // ---- the other writers of entries ----

  lemma ManualFencingKeeps(s: State, id: Identity)
    requires Sound(s) && Distinct(s.status) && KnownProcess(s.status, id).Some? && Dead(s, id)
    ensures Kept(s.status, Observation.AcceptManualFencing(s.status, id))
  {
    ManualFencingKeepsSound(s, id);
    SoundCarriedIsKept(s, Observation.AcceptManualFencing(s.status, id));
  }

  lemma PruningKeeps(s: State)
    requires Sound(s) && Distinct(s.status)
    ensures Kept(s.status, Observation.PruneHistory(s.status))
  {
    FrameKeepsSound(s, s.(status := Observation.PruneHistory(s.status)));
    SoundCarriedIsKept(s, Observation.PruneHistory(s.status));
  }

  lemma ProofKeeps(s: State, id: Identity, evidence: Evidence)
    requires Sound(s) && Distinct(s.status) && Sound(WithProof(s, id, evidence))
    ensures Kept(s.status, WithProof(s, id, evidence).status)
  {
    SoundCarriedIsKept(s, WithProof(s, id, evidence).status);
  }

  lemma WatchKeeps(s: State, watch: Watch)
    requires Sound(s) && Distinct(s.status) && CanWatch(s, watch)
    ensures Kept(s.status, AfterWatch(s, watch).status)
  {
    hide Sound, Kept;
    match watch
    case Inspected(o, finding) => InspectionKeeps(s, o, finding);
    case FencedManually(id) => ManualFencingKeeps(s, id);
    case HistoryPruned => PruningKeeps(s);
    case _ => SameEntriesAreKept(s.status, AfterWatch(s, watch).status);
  }

  lemma OperationKeeps(s: State, operation: Operation)
    requires Distinct(s.status) && CanOperate(s, operation)
    ensures Kept(s.status, AfterOperation(s, operation).status)
  {
    hide Kept;
    OperationEntries(s, operation);
    SameEntriesAreKept(s.status, AfterOperation(s, operation).status);
  }

  predicate EntriesStay(a: Status, b: Status) { SameNodes(a.nodes, b.nodes) && b.previous == a.previous }

  lemma OperationEntries(s: State, operation: Operation)
    requires CanOperate(s, operation)
    ensures EntriesStay(s.status, AfterOperation(s, operation).status)
  {
    hide EntriesStay, RolloutStatus, RotationStatus, Rotate, ReconcileAppAdmission, ReconcileReplicaAdmission,
         CanRotate, CanClose, FailoverWorld, FailoverMove, ReplicasOrder, RolloutVictim, RolloutYields, RotationHashes;
    match operation
    case RotationCommand(id, ds) => ConfirmationEntries(s, id, ds);
    case ReplicaAdmissionStep(ds, linked) => ReplicaAdmissionEntries(s, ds, linked);
    case AppAdmissionStep(ds, routed) => AppAdmissionEntries(s, ds, routed);
    case _ => UntouchedEntries(s.status, AfterOperation(s, operation).status);
  }

  lemma UntouchedEntries(a: Status, b: Status)
    requires b.nodes == a.nodes && b.previous == a.previous
    ensures EntriesStay(a, b)
  {
  }

  lemma ConfirmEntries(status: Status, node: NodeStatus)
    requires status.rotation.Some?
    ensures EntriesStay(status, RotationSteps.Confirm(status, node))
  {
  }

  lemma ConfirmationEntries(s: State, id: Identity, ds: Deliveries)
    requires CanRotate(s, id)
    ensures EntriesStay(s.status, Rotate(s, id, ds).status)
  {
    hide EntriesStay, RotationSteps.Confirm, RotationConfirmed;
    ConfirmEntries(s.status, KnownProcess(s.status, id).value);
    UntouchedEntries(s.status, s.status);
  }

  lemma AdmitEntries(a: Status, b: Status, node: NodeStatus)
    requires b.nodes == Availability.Admit(a, node) && b.previous == a.previous
    ensures EntriesStay(a, b)
  {
  }

  lemma ReplicaAdmissionEntries(s: State, ds: Deliveries, linked: bool)
    ensures EntriesStay(s.status, ReconcileReplicaAdmission(s, ds, linked).status)
  {
    hide EntriesStay, Open;
    UntouchedEntries(s.status, s.status);
    if AdmissionTarget(s).Some? {
      assert MustAdmitReplica(s, AdmissionTarget(s).value);
      var node := s.status.nodes[AdmissionTarget(s).value];
      AdmitEntries(s.status, Availability.FinishReplicaAdmission(s.status, node), node);
    }
  }

  lemma AppAdmissionEntries(s: State, ds: Deliveries, routed: bool)
    ensures EntriesStay(s.status, ReconcileAppAdmission(s, ds, routed).status)
  {
    hide EntriesStay, Open;
    UntouchedEntries(s.status, s.status);
    UntouchedEntries(s.status, Availability.AdmissionPending(s.status));
    if PrimaryAdmissible(s) {
      var node := s.status.nodes[SelectedPrimaryOrdinal(s.status).value];
      AdmitEntries(s.status, Availability.FinishAppAdmission(s.status, node), node);
    }
  }

  lemma RemovalKeeps(s: State, removal: Removal)
    requires Sound(s) && Distinct(s.status) && CanRemove(s, removal)
    ensures Kept(s.status, AfterRemoval(s, removal).status)
  {
    hide Sound, Kept;
    RemovalKeepsSound(s, removal);
    match removal
    case DeletionInspects(o, finding) => InspectionKeeps(s, o, finding);
    case DeletionCopiesProof(id) => ProofKeeps(s, id, ContainerStatus);
    case DeletionProvesHostGone(id) => ProofKeeps(s, id, NodeDeleted);
    case _ => SameEntriesAreKept(s.status, AfterRemoval(s, removal).status);
  }

  lemma StepKeeps(s: State, step: Step)
    requires Sound(s) && Distinct(s.status) && Enabled(s, step)
    ensures Kept(s.status, After(s, step).status)
  {
    hide Sound, Kept;
    match step
    case World(_) => SameEntriesAreKept(s.status, After(s, step).status);
    case Ask(_) => SameEntriesAreKept(s.status, After(s, step).status);
    case Look(watch) => WatchKeeps(s, watch);
    case Operate(operation) => OperationKeeps(s, operation);
    case Remove(removal) => RemovalKeeps(s, removal);
  }

  // ---- the processes themselves ----

  /** Processes only join, and never come back to life. */
  lemma StepKeepsProcesses(s: State, step: Step)
    requires Sound(s) && Enabled(s, step)
    ensures SameProcesses(s.world, After(s, step).world)
  {
    hide Sound;
    match step
    case World(world) =>
    case Ask(_) =>
    case Look(watch) =>
    case Operate(operation) => OperationKeepsProcesses(s, operation);
    case Remove(removal) =>
  }

  lemma OperationKeepsProcesses(s: State, operation: Operation)
    requires CanOperate(s, operation)
    ensures SameProcesses(s.world, AfterOperation(s, operation).world)
  {
  }

  // ---- every run ----

  lemma {:induction false} RunsAreDistinct(run: seq<State>, i: nat)
    requires IsRun(run) && i < |run|
    ensures Distinct(run[i].status)
  {
    hide Sound;
    if i > 0 {
      RunsAreDistinct(run, i - 1);
      RunStepKeeps(run, i - 1);
    }
  }

  lemma RunStepKeeps(run: seq<State>, i: nat)
    requires IsRun(run) && i + 1 < |run| && Distinct(run[i].status)
    ensures Kept(run[i].status, run[i + 1].status) && SameProcesses(run[i].world, run[i + 1].world)
  {
    hide Sound, Kept;
    RunsAreSound(run, i);
    assert Next(run[i], run[i + 1]);
    var step :| Enabled(run[i], step) && run[i + 1] == After(run[i], step);
    StepKeeps(run[i], step);
    StepKeepsProcesses(run[i], step);
  }

  predicate Proved(status: Status, id: Identity) {
    KnownProcess(status, id).Some? && KnownProcess(status, id).value.termination.Some?
  }

  /** Somewhere in this part of the run a proof of the end of the process was stored. */
  ghost predicate ProvedBetween(run: seq<State>, i: nat, j: nat, id: Identity) {
    exists k :: i <= k <= j < |run| && Proved(run[k].status, id)
  }

  /** A process that was listed once is listed until a proof of its end was stored. */
  lemma {:induction false} NoProcessIsForgotten(run: seq<State>, i: nat, j: nat, id: Identity)
    requires IsRun(run) && i <= j < |run| && KnownProcess(run[i].status, id).Some?
    ensures KnownProcess(run[j].status, id).Some? || ProvedBetween(run, i, j, id)
    decreases j - i
  {
    hide IsRun;
    if i < j {
      NoProcessIsForgotten(run, i, j - 1, id);
      RunsAreDistinct(run, j - 1);
      RunStepKeeps(run, j - 1);
      assert EntryKept(run[j - 1].status, run[j].status, id);
      if KnownProcess(run[j - 1].status, id).Some? && Proved(run[j - 1].status, id) {
        assert i <= j - 1 <= j && Proved(run[j - 1].status, id);
      } else if ProvedBetween(run, i, j - 1, id) {
        var k :| i <= k <= j - 1 && Proved(run[k].status, id);
        assert i <= k <= j && Proved(run[k].status, id);
      }
    }
  }

  /** A stored proof is never changed: while the process is listed it carries the same evidence. */
  lemma ProofsDoNotChange(run: seq<State>, i: nat, id: Identity)
    requires IsRun(run) && i + 1 < |run| && Proved(run[i].status, id)
    requires KnownProcess(run[i + 1].status, id).Some?
    ensures
      KnownProcess(run[i + 1].status, id).value.termination == KnownProcess(run[i].status, id).value.termination
  {
    hide IsRun;
    RunsAreDistinct(run, i);
    RunStepKeeps(run, i);
    assert EntryKept(run[i].status, run[i + 1].status, id);
  }

  lemma {:induction false} DeadStayDead(run: seq<State>, i: nat, j: nat, u: Uid)
    requires IsRun(run) && i <= j < |run| && u in run[i].world && !run[i].world[u].alive
    ensures u in run[j].world && !run[j].world[u].alive
    decreases j - i
  {
    hide IsRun;
    if i < j {
      DeadStayDead(run, i, j - 1, u);
      RunsAreDistinct(run, j - 1);
      RunStepKeeps(run, j - 1);
    }
  }

  /** A stored proof is true, and stays true in every later state. */
  lemma ProofsStayTrue(run: seq<State>, i: nat, j: nat, id: Identity)
    requires IsRun(run) && i <= j < |run| && Proved(run[i].status, id)
    ensures id.podUID in run[j].world && !run[j].world[id.podUID].alive
  {
    hide IsRun;
    RunsAreSound(run, i);
    ProvedIsStopped(run[i], id);
    DeadStayDead(run, i, j, id.podUID);
  }

  lemma ProvedIsStopped(s: State, id: Identity)
    requires Sound(s) && Proved(s.status, id)
    ensures id.podUID in s.world && !s.world[id.podUID].alive
  {
    match OrdinalOf(s.status.nodes, id)
    case Some(o) => assert EntrySound(s.world, s.status.nodes[o]);
    case None => assert EntrySound(s.world, s.status.previous[id]);
  }

  // ---- pods ----

  /** The operator takes its finalizer off a pod. */
  predicate Releases(s: State, t: State, o: nat) {
    && o in s.pods && s.pods[o].finalizer
    && o in t.pods && t.pods[o].uid == s.pods[o].uid && !t.pods[o].finalizer
  }

  /** What was proved about the pod before the operator lets it go. */
  predicate PodIsProved(s: State, o: nat) {
    && o in s.pods && s.pods[o].deleting
    && o in s.status.nodes && s.status.nodes[o].termination.Some? && s.status.nodes[o].id.podUID == s.pods[o].uid
  }

  lemma InspectionReleases(s: State, o: nat, finding: Finding, q: nat)
    requires Sound(s) && CanInspect(s, o, finding) && Releases(s, InspectFinding(s, o, finding), q)
    ensures PodIsProved(s, q)
  {
    if finding.ContainerDead? { ContainerIsInPod(s, o); }
  }

  /** A pod is let go only when it is being deleted and the stored status proves the end of its process. */
  lemma PodIsReleasedAfterProof(s: State, step: Step, o: nat)
    requires Sound(s) && Enabled(s, step) && Releases(s, After(s, step), o)
    ensures PodIsProved(s, o) && s.pods[o].uid in s.world && !s.world[s.pods[o].uid].alive
  {
    hide Sound, PodIsProved, AfterOperation, CanOperate, AfterWatch, CanWatch, InspectFinding, CanInspect;
    match step {
      case World(_) =>
      case Ask(_) =>
      case Look(watch) => WatchReleases(s, watch, o);
      case Operate(operation) => OperationReleasesNothing(s, operation, o);
      case Remove(removal) =>
        if removal.DeletionInspects? { InspectionReleases(s, removal.ordinal, removal.finding, o); }
    }
    ProvedPodIsDead(s, o);
  }

  lemma WatchReleases(s: State, watch: Watch, o: nat)
    requires Sound(s) && CanWatch(s, watch) && Releases(s, AfterWatch(s, watch), o)
    ensures PodIsProved(s, o)
  {
    hide Sound, PodIsProved, InspectFinding, CanInspect;
    if watch.Inspected? { InspectionReleases(s, watch.ordinal, watch.finding, o); }
  }

  lemma ProvedPodIsDead(s: State, o: nat)
    requires Sound(s) && PodIsProved(s, o)
    ensures s.pods[o].uid in s.world && !s.world[s.pods[o].uid].alive
  {
    assert EntrySound(s.world, s.status.nodes[o]);
  }

  lemma OperationReleasesNothing(s: State, operation: Operation, o: nat)
    requires CanOperate(s, operation)
    ensures !Releases(s, AfterOperation(s, operation), o)
  {
    hide CanOperate, ReconcileFailover, EndRotation, ReconcileInitialPrimary, ReconcileReplicas,
         ReconcileReplicaAdmission, ReconcileAppAdmission, Rotate, Close, RolloutStatus, RolloutYields;
    OnlyRolloutsTouchPods(s, operation);
  }

  /** When a pod is created, every listed process of its ordinal has ended. */
  lemma PodIsCreatedAfterStop(s: State, o: nat, u: Uid)
    requires Sound(s) && CanWatch(s, PodCreated(o))
    requires u in s.world && s.world[u].ordinal == o
    requires KnownProcess(s.status, s.world[u].id).Some?
    ensures !s.world[u].alive
  {
    var id := s.world[u].id;
    match OrdinalOf(s.status.nodes, id)
    case Some(q) => assert EntrySound(s.world, s.status.nodes[q]);
    case None => assert EntrySound(s.world, s.status.previous[id]);
  }
}
