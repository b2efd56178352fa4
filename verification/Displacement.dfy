/**
 How a live process leaves its place.  Only a pod replaced by force makes the operator list a process whose
 end nobody proved as a former one: in a run without that every former process is proved stopped, and a
 promotion never happens beside another primary clients can use.
 */
module Displacement {
  import opened Options
  import opened OperatorTypes
  import opened Session
  import opened Operator
  import opened Shape
  import opened ProcessHistory
  import opened SingleWriter
  import opened NoSecondPromotion
  import Observation

  predicate FormerAreStopped(previous: map<Identity, NodeStatus>) {
    forall id :: id in previous ==> previous[id].termination.Some?
  }

  /** The pod at this ordinal is the one of the listed process, unless that is proved stopped. */
  predicate InPlaceAt(nodes: map<nat, NodeStatus>, pods: map<nat, Pod>, o: nat) {
    o in pods && o in nodes ==> pods[o].uid == nodes[o].id.podUID || nodes[o].termination.Some?
  }

  ghost predicate InPlace(s: State) {
    FormerAreStopped(s.status.previous) && forall o :: InPlaceAt(s.status.nodes, s.pods, o)
  }

  /** The copy of a pod took its name while nothing was proved about it. */
  ghost predicate Forces(s: State, t: State) {
    exists o :: o in s.pods && t == ForceReplace(s, o)
  }

  /** The same processes at the same ordinals, some now with a proof; no pod with another process. */
  predicate OnlyLater(s: State, t: State) {
    && t.status.nodes.Keys == s.status.nodes.Keys && SamePods(s.pods, t.pods)
    && (forall o :: o in t.status.nodes ==>
          && t.status.nodes[o].id == s.status.nodes[o].id
          && (s.status.nodes[o].termination.Some? ==> t.status.nodes[o].termination.Some?))
    && t.status.previous.Keys <= s.status.previous.Keys
    && (forall id :: id in t.status.previous && s.status.previous[id].termination.Some? ==>
          t.status.previous[id].termination.Some?)
  }

  lemma LaterIsInPlace(s: State, t: State)
    requires InPlace(s) && OnlyLater(s, t)
    ensures InPlace(t)
  {
    forall o ensures InPlaceAt(t.status.nodes, t.pods, o) {
      assert InPlaceAt(s.status.nodes, s.pods, o);
    }
  }

  /** Where the pod is in its place, the process it runs is the listed one. */
  lemma PodRunsListed(s: State, o: nat)
    requires Sound(s) && InPlaceAt(s.status.nodes, s.pods, o) && HasContainer(s, o)
    requires o in s.status.nodes && s.status.nodes[o].termination.None?
    ensures s.status.nodes[o].id == ContainerOf(s, o) && s.status.nodes[o].ordinal == o
  {
    assert EntrySound(s.world, s.status.nodes[o]);
  }

  lemma AnswerStaysInPlace(s: State, o: nat, replication: Option<Replication>, ready: bool, control: bool, gone: bool)
    requires Sound(s) && InPlace(s) && CanInspect(s, o, Answer(replication, ready, control, gone))
    ensures InPlace(InspectFinding(s, o, Answer(replication, ready, control, gone)))
  {
    hide Sound, Observation.RecordSeen;
    var t := InspectFinding(s, o, Answer(replication, ready, control, gone));
    var id := ContainerOf(s, o);
    var u := if control then Update(s, id, TakeControl(ProcOf(s, id), Answered).proc) else s;
    var observed := Observed(u, o, id, replication, ready);
    RecordSeenEntries(s.status, observed, if gone then Some(NodeDeleted) else None);
    ContainerIsInPod(s, o);
    assert InPlaceAt(s.status.nodes, s.pods, o);
    if o in s.status.nodes && s.status.nodes[o].termination.None? { PodRunsListed(s, o); }
    forall q ensures InPlaceAt(t.status.nodes, t.pods, q) {
      assert InPlaceAt(s.status.nodes, s.pods, q);
    }
  }

  lemma DeadContainerStaysInPlace(s: State, o: nat)
    requires Sound(s) && InPlace(s) && CanInspect(s, o, ContainerDead)
    ensures InPlace(InspectFinding(s, o, ContainerDead))
  {
    hide Sound, InPlace, Observation.SaveContainerTermination, Observation.MarkPrimaryNotReady;
    var t := InspectDead(s, o);
    var current := NodeAt(s.status.nodes, o);
    var displaced := current.Some? && !SamePodContainer(current.value.id, ContainerOf(s, o));
    if (displaced && s.status.deletion.None?) || (current.Some? && !displaced && current.value.termination.Some?) {
      LaterIsInPlace(s, t);
    } else {
      SavingStaysInPlace(s, o);
    }
  }

  lemma SavingStaysInPlace(s: State, o: nat)
    requires Sound(s) && InPlace(s) && HasContainer(s, o)
    ensures InPlace(s.(status := Observation.SaveContainerTermination(s.status, DeadContainer(o, ContainerOf(s, o)))))
  {
    hide Sound, Observation.SaveContainerTermination;
    var dead := DeadContainer(o, ContainerOf(s, o));
    var t := Observation.SaveContainerTermination(s.status, dead);
    ContainerTerminationEntries(s.status, dead);
    assert InPlaceAt(s.status.nodes, s.pods, o);
    if o in s.status.nodes && s.status.nodes[o].termination.None? { PodRunsListed(s, o); }
    forall q ensures InPlaceAt(t.nodes, s.pods, q) {
      assert InPlaceAt(s.status.nodes, s.pods, q);
    }
  }

  lemma InspectionStaysInPlace(s: State, o: nat, finding: Finding)
    requires Sound(s) && InPlace(s) && CanInspect(s, o, finding)
    ensures InPlace(InspectFinding(s, o, finding))
  {
    hide Sound, InPlace, InspectFinding, CanInspect, OnlyLater, InspectDead, InspectAnswer;
    match finding
    case ContainerDead => DeadContainerStaysInPlace(s, o);
    case Answer(replication, ready, control, gone) => AnswerStaysInPlace(s, o, replication, ready, control, gone);
    case _ =>
      OtherFindingsComeLater(s, o, finding);
      LaterIsInPlace(s, InspectFinding(s, o, finding));
  }

  /** Only what is known about the one process at this ordinal changes, a proof at most joins. */
  lemma RewritingComesLater(s: State, status: Status, o: nat)
    requires status.previous == s.status.previous && status.nodes.Keys == s.status.nodes.Keys
    requires forall q :: q in status.nodes && q != o ==> status.nodes[q] == s.status.nodes[q]
    requires o in status.nodes ==>
      && status.nodes[o].id == s.status.nodes[o].id
      && (s.status.nodes[o].termination.Some? ==> status.nodes[o].termination.Some?)
    ensures OnlyLater(s, s.(status := status))
  {
  }

  lemma OtherFindingsComeLater(s: State, o: nat, finding: Finding)
    requires CanInspect(s, o, finding) && !finding.Answer? && !finding.ContainerDead?
    ensures OnlyLater(s, InspectFinding(s, o, finding))
  {
    hide OnlyLater, InspectDead, InspectAnswer, Observation.RecordError, Observation.ProcessUnavailable,
         Observation.SaveNodeDeletion, KeepsCourse, SameProcesses, CloseProcess;
    if finding.CloseApp? { ClosingComesLater(s, o, finding.ds); }
    else { RewritingComesLater(s, InspectFinding(s, o, finding).status, o); }
  }

  lemma ClosingComesLater(s: State, o: nat, ds: Deliveries)
    requires CanInspect(s, o, CloseApp(ds))
    ensures OnlyLater(s, InspectFinding(s, o, CloseApp(ds)))
  {
    hide UpdateAppAccess;
  }

  lemma CreationStaysInPlace(s: State, o: nat)
    requires InPlace(s) && CanCreatePod(s, o)
    ensures InPlace(CreatePod(s, o))
  {
    var t := CreatePod(s, o);
    forall q ensures InPlaceAt(t.status.nodes, t.pods, q) {
      assert InPlaceAt(s.status.nodes, s.pods, q);
    }
  }

  lemma WatchStaysInPlace(s: State, watch: Watch)
    requires Sound(s) && InPlace(s) && CanWatch(s, watch)
    ensures InPlace(AfterWatch(s, watch))
  {
    hide Sound, InPlace, CanInspect, InspectFinding, KeepsCourse, SameProcesses, LeavesAlone;
    match watch
    case PodCreated(o) => CreationStaysInPlace(s, o);
    case Inspected(o, finding) =>
      InspectionStaysInPlace(s, o, finding);
      LaterIsInPlace(InspectFinding(s, o, finding), AfterWatch(s, watch));
    case _ => LaterIsInPlace(s, AfterWatch(s, watch));
  }

  lemma OperationStaysInPlace(s: State, operation: Operation)
    requires InPlace(s) && CanOperate(s, operation)
    ensures InPlace(AfterOperation(s, operation))
  {
    hide InPlace;
    OperationEntries(s, operation);
    OperationPods(s, operation);
    LaterIsInPlace(s, AfterOperation(s, operation));
  }

  lemma OperationPods(s: State, operation: Operation)
    requires CanOperate(s, operation)
    ensures SamePods(s.pods, AfterOperation(s, operation).pods)
  {
    hide CanOperate, ReconcileFailover, EndRotation, ReconcileInitialPrimary, ReconcileReplicas,
         ReconcileReplicaAdmission, ReconcileAppAdmission, ReconcileRollout, Rotate, Close;
    OnlyRolloutsTouchPods(s, operation);
    if operation.RolloutStep? { RolloutPods(s, operation.closed); }
  }

  lemma RolloutPods(s: State, closed: bool)
    ensures SamePods(s.pods, ReconcileRollout(s, closed).pods)
  {
    hide RolloutStatus, RolloutYields, RolloutRuns;
  }

  lemma RemovalStaysInPlace(s: State, removal: Removal)
    requires Sound(s) && InPlace(s) && CanRemove(s, removal)
    ensures InPlace(AfterRemoval(s, removal))
  {
    hide Sound, InPlace, CanInspect, InspectFinding;
    match removal
    case DeletionInspects(o, finding) => InspectionStaysInPlace(s, o, finding);
    case _ => LaterIsInPlace(s, AfterRemoval(s, removal));
  }

  lemma ReplacingForces(s: State, o: nat)
    requires o in s.pods
    ensures Forces(s, ForceReplace(s, o))
  {
  }

  lemma StepStaysInPlace(s: State, step: Step)
    requires Sound(s) && InPlace(s) && Enabled(s, step) && !Forces(s, After(s, step))
    ensures InPlace(After(s, step))
  {
    hide Sound, InPlace, Forces;
    match step
    case World(world) =>
      if world.PodForceReplaced? { ReplacingForces(s, world.ordinal); } else { LaterIsInPlace(s, Happen(s, world)); }
    case Ask(request) => LaterIsInPlace(s, AfterRequest(s, request));
    case Look(watch) => WatchStaysInPlace(s, watch);
    case Operate(operation) => OperationStaysInPlace(s, operation);
    case Remove(removal) => RemovalStaysInPlace(s, removal);
  }

  /** Up to this state no pod was replaced by force. */
  ghost predicate NeverForced(run: seq<State>, i: nat)
    requires i < |run|
  {
    forall k: nat :: k < i ==> !Forces(run[k], run[k + 1])
  }

  lemma {:induction false} UnforcedRunsAreInPlace(run: seq<State>, i: nat)
    requires IsRun(run) && i < |run| && NeverForced(run, i)
    ensures InPlace(run[i])
  {
    hide Sound, Enabled, After, Forces;
    if i > 0 {
      UnforcedRunsAreInPlace(run, i - 1);
      RunsAreSound(run, i - 1);
      assert Next(run[i - 1], run[i]);
      var step :| Enabled(run[i - 1], step) && run[i] == After(run[i - 1], step);
      StepStaysInPlace(run[i - 1], step);
    }
  }

  /** As long as no pod was replaced by force, every former process is proved stopped, and has stopped. */
  lemma FormerProcessesHaveStopped(run: seq<State>, i: nat, id: Identity)
    requires IsRun(run) && i < |run| && NeverForced(run, i) && id in run[i].status.previous
    ensures run[i].status.previous[id].termination.Some? && Stopped(run[i].world, id)
  {
    UnforcedRunsAreInPlace(run, i);
    RunsAreSound(run, i);
    assert EntrySound(run[i].world, run[i].status.previous[id]);
  }

  /**
   As long as no pod was replaced by force, a promotion finds every other live process that is, or may
   become, a primary closed to clients.
   */
  lemma NoSecondPromotionUnforced(run: seq<State>, i: nat, u: Uid, v: Uid)
    requires IsRun(run) && i + 1 < |run| && NeverForced(run, i + 1)
    requires Promotes(run[i], run[i + 1], u) && v != u && v in run[i + 1].world
    requires run[i + 1].world[v].alive && MayBePrimary(run[i + 1].world[v])
    ensures !Reachable(run[i + 1].world[v])
  {
    PromotionSparesOnlyExcepted(run, i, u, v);
    UnforcedRunsAreInPlace(run, i + 1);
  }
}
