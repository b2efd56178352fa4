/**
 Who is made a primary.  A process of an HA instance is told to be a primary only while every other
 process that may be one is stopped or closed to clients.  This holds in every run whose failovers all
 begin with the fencing of the named primary, so in every run without a pod replaced by force; StrayHandOver
 has a run in which it fails.  And a candidate that may have been told so is never dropped in silence.
 */
module NoSecondPromotion {
  import opened Options
  import opened OperatorTypes
  import opened Session
  import opened Operator
  import opened Shape
  import opened OperationOrder
  import opened SingleWriter
  import FailoverSteps
  import RolloutSteps
  import Availability

  /** This step tells the process to be a primary. */
  predicate Promotes(s: State, t: State, u: Uid) {
    u in s.world && u in t.world && !MayBePrimary(s.world[u]) && MayBePrimary(t.world[u])
  }

  lemma EventPromotesNobody(s: State, step: WorldStep, u: Uid)
    requires CanHappen(s, step)
    ensures !Promotes(s, Happen(s, step), u)
  {
  }

  lemma InspectionPromotesNobody(s: State, o: nat, finding: Finding, u: Uid)
    requires CanInspect(s, o, finding)
    ensures !Promotes(s, InspectFinding(s, o, finding), u)
  {
    if finding.CloseApp? {
      var p := ProcOf(s, ContainerOf(s, o));
      DisablingIsCalm(p, s.status.accepted.passwordVersion, finding.ds);
    }
  }

  lemma ClosingPromotesNobody(s: State, id: Identity, ds: Deliveries, u: Uid)
    requires Real(s, id)
    ensures !Promotes(s, CloseProcess(s, id, ds), u)
  {
    DisablingIsCalm(ProcOf(s, id), s.status.accepted.passwordVersion, ds);
  }

  lemma RolloutClosePromotesNobody(s: State, o: nat, ds: Deliveries, u: Uid)
    requires CurrentNode(s, o)
    ensures !Promotes(s, Close(s, o, ds), u)
  {
    ClosingPromotesNobody(s, s.status.nodes[o].id, ds, u);
  }

  lemma ReplicasPromoteNobody(s: State, ds: Deliveries, u: Uid)
    ensures !Promotes(s, ReconcileReplicas(s, ds), u)
  {
    if ReplicasOrder(s).Some? {
      FollowingIsCalm(ProcOf(s, s.status.nodes[ReplicasOrder(s).value].id), Upstream(s).value, ds);
    }
  }

  lemma OpeningPromotesNobody(s: State, id: Identity, ds: Deliveries)
    requires Real(s, id)
    ensures MayBePrimary(Open(s, id, ds).proc) ==> MayBePrimary(ProcOf(s, id))
  {
    OpeningIsNoPromotion(ProcOf(s, id), s.status.accepted.passwordVersion, ds);
  }

  lemma ReplicaAdmissionPromotesNobody(s: State, ds: Deliveries, linked: bool, u: Uid)
    ensures !Promotes(s, ReconcileReplicaAdmission(s, ds, linked), u)
  {
    hide Open, Availability.FinishReplicaAdmission, MayBePrimary;
    if AdmissionTarget(s).Some? { OpeningPromotesNobody(s, s.status.nodes[AdmissionTarget(s).value].id, ds); }
  }

  lemma AppAdmissionPromotesNobody(s: State, ds: Deliveries, routed: bool, u: Uid)
    ensures !Promotes(s, ReconcileAppAdmission(s, ds, routed), u)
  {
    hide Open, Availability.FinishAppAdmission, Availability.AdmissionPending, MayBePrimary, HasUnterminatedPrevious,
         PrimaryIdentityMatches;
    if PrimaryToOpen(s).Some? { OpeningPromotesNobody(s, PrimaryToOpen(s).value.id, ds); }
  }

  lemma RotationPromotesNobody(s: State, id: Identity, ds: Deliveries, u: Uid)
    requires CanRotate(s, id)
    ensures !Promotes(s, Rotate(s, id, ds), u)
  {
    RotatingIsCalm(ProcOf(s, id), s.status.accepted.passwordVersion, ds);
  }

  /** The failover promotes only the candidate of its promoting stage, and that stage goes on. */
  lemma FailoverPromotes(s: State, ds: Deliveries, now: Time, u: Uid)
    requires Sound(s) && Orderly(s.status) && Promotes(s, ReconcileFailover(s, ds, now), u)
    ensures FailoverSteps.AtStage(s.status, Promoting) && u == Designated(s.status)
    ensures ReconcileFailover(s, ds, now).status.accepted.mode == HA
    ensures ReconcileFailover(s, ds, now).status.failover == s.status.failover
    ensures Designated(ReconcileFailover(s, ds, now).status) == Designated(s.status)
  {
    var order := FailoverOrder(s);
    if order.Some? {
      OrderIsForStage(s, order.value);
      DisablingIsCalm(ProcOf(s, order.value), s.status.accepted.passwordVersion, ds);
    }
  }

  lemma FirstPrimaryPromotes(s: State, ds: Deliveries, u: Uid)
    requires InOrder(s) && s.at == AtInitialPrimary && Promotes(s, ReconcileInitialPrimary(s, ds), u)
    ensures s.status.accepted.mode == HA && u == Designated(s.status)
    ensures ReconcileInitialPrimary(s, ds).status == s.status
  {
  }

  lemma OperationPromotesTheDesignated(s: State, operation: Operation, u: Uid)
    requires Sound(s) && Orderly(s.status) && InOrder(s) && CanOperate(s, operation)
    requires Promotes(s, AfterOperation(s, operation), u)
    ensures u == Designated(AfterOperation(s, operation).status)
    ensures AfterOperation(s, operation).status.accepted.mode == HA
  {
    hide Sound, Orderly, InOrder, Promotes, Designated, ReconcileFailover, ReconcileInitialPrimary, ReconcileReplicas,
         ReconcileReplicaAdmission, ReconcileAppAdmission, Rotate, Close;
    match operation
    case FailoverStep(ds, now) => FailoverPromotes(s, ds, now, u);
    case RotationDone => WorldStays(s, operation, u);
    case RolloutStep(_) => WorldStays(s, operation, u);
    case InitialPrimaryStep(ds) => FirstPrimaryPromotes(s, ds, u);
    case RotationCommand(id, ds) => RotationPromotesNobody(s, id, ds, u);
    case RolloutClose(o, ds) => RolloutClosePromotesNobody(s, o, ds, u);
    case ReplicasStep(ds) => ReplicasPromoteNobody(s, ds, u);
    case ReplicaAdmissionStep(ds, linked) => ReplicaAdmissionPromotesNobody(s, ds, linked, u);
    case AppAdmissionStep(ds, routed) => AppAdmissionPromotesNobody(s, ds, routed, u);
  }

  lemma WorldStays(s: State, operation: Operation, u: Uid)
    requires CanOperate(s, operation) && (operation.RotationDone? || operation.RolloutStep?)
    ensures !Promotes(s, AfterOperation(s, operation), u)
  {
    hide RolloutStatus, RolloutYields, RolloutVictim, RotationStatus, RotationHashes;
  }

  lemma StepPromotesTheDesignated(s: State, step: Step, u: Uid)
    requires Sound(s) && Orderly(s.status) && InOrder(s) && Enabled(s, step) && Promotes(s, After(s, step), u)
    ensures u == Designated(After(s, step).status) && After(s, step).status.accepted.mode == HA
  {
    hide Sound, Orderly, InOrder, Designated, Happen, AfterOperation, AfterRemoval, CanHappen, CanRemove, CanInspect,
         InspectFinding, MayBePrimary, KeepsCourse, SameProcesses, LeavesAlone;
    match step
    case World(world) => EventPromotesNobody(s, world, u);
    case Ask(request) =>
    case Look(watch) => if watch.Inspected? { InspectionPromotesNobody(s, watch.ordinal, watch.finding, u); }
    case Operate(operation) => OperationPromotesTheDesignated(s, operation, u);
    case Remove(removal) => RemovalPromotesNobody(s, removal, u);
  }

  lemma RemovalPromotesNobody(s: State, removal: Removal, u: Uid)
    requires CanRemove(s, removal)
    ensures !Promotes(s, AfterRemoval(s, removal), u)
  {
    match removal
    case DeletionCloses(o, ds) => ClosingPromotesNobody(s, ContainerOf(s, o), ds, u);
    case DeletionInspects(o, finding) => InspectionPromotesNobody(s, o, finding, u);
    case _ =>
  }

  // ---- failovers that do not begin with the named primary ----

  lemma StepStrays(s: State, step: Step)
    requires Enabled(s, step) && After(s, step).strayed
    ensures s.strayed || Astray(s.status, After(s, step).status)
  {
    hide CanHappen, CanWatch, CanRemove, CanRequest, CanOperate, Happen, AfterWatch, AfterRemoval, AfterRequest,
         AfterOperation, Astray;
  }

  lemma {:induction false} StrayedMeansAstray(run: seq<State>, i: nat)
    requires IsRun(run) && i < |run| && run[i].strayed
    ensures exists k: nat :: k < i && Astray(run[k].status, run[k + 1].status)
  {
    hide Enabled, After, Astray;
    if i > 0 {
      assert Next(run[i - 1], run[i]);
      var step :| Enabled(run[i - 1], step) && run[i] == After(run[i - 1], step);
      StepStrays(run[i - 1], step);
      if run[i - 1].strayed { StrayedMeansAstray(run, i - 1); }
    }
  }

  /** Before this state every failover began with the fencing of the primary named at that moment. */
  ghost predicate NeverAstray(run: seq<State>, i: nat)
    requires i < |run|
  {
    forall k: nat :: k < i ==> !Astray(run[k].status, run[k + 1].status)
  }

  /**
   When a process is promoted, any other live process that is, or may become, a primary is closed to
   clients, as long as every failover so far began with the fencing of the named primary.
   */
  lemma NoSecondPromotion(run: seq<State>, i: nat, u: Uid, v: Uid)
    requires IsRun(run) && i + 1 < |run| && NeverAstray(run, i + 1)
    requires Promotes(run[i], run[i + 1], u) && v != u && v in run[i + 1].world
    requires run[i + 1].world[v].alive && MayBePrimary(run[i + 1].world[v])
    ensures !Reachable(run[i + 1].world[v])
  {
    if run[i + 1].strayed { StrayedMeansAstray(run, i + 1); }
    PromotionSparesOnlyExcepted(run, i, u, v);
  }

  /** In every run, the only other primary clients can still use is a lost one, after a failover went astray. */
  lemma PromotionSparesOnlyExcepted(run: seq<State>, i: nat, u: Uid, v: Uid)
    requires IsRun(run) && i + 1 < |run|
    requires Promotes(run[i], run[i + 1], u) && v != u && v in run[i + 1].world
    requires run[i + 1].world[v].alive && MayBePrimary(run[i + 1].world[v])
    ensures !Reachable(run[i + 1].world[v]) || (Lost(run[i + 1].status, run[i + 1].world[v]) && run[i + 1].strayed)
  {
    hide Enabled, After, Promotes;
    RunsAreGood(run, i);
    RunsAreGood(run, i + 1);
    assert Next(run[i], run[i + 1]);
    var step :| Enabled(run[i], step) && run[i + 1] == After(run[i], step);
    StepPromotesTheDesignated(run[i], step, u);
    assert HotIsDesignated(run[i + 1].status, run[i + 1].strayed, run[i + 1].world);
  }

  // ---- what becomes of a candidate ----

  /** From this point on the candidate may be a primary. */
  predicate MayHaveBeenPromoted(status: Status, c: Identity) {
    status.failover.Some? && status.failover.value.candidateMayBePrimary && status.failover.value.candidate == Some(c)
  }

  /** While replicas are re-pointed the candidate is the primary. */
  predicate CandidateIsPrimary(status: Status) {
    FailoverSteps.AtStage(status, Reconfiguring) ==>
      status.primaryOrdinal.Some? && status.failover.value.candidate == Some(status.primaryId)
  }

  predicate SamePrimary(a: Status, b: Status) {
    b.failover == a.failover && b.primaryOrdinal == a.primaryOrdinal && b.primaryId == a.primaryId
  }

  lemma MoveKeepsCandidate(s: State, move: FailoverSteps.Move)
    requires CandidateIsPrimary(s.status) && Granted(s, move)
    ensures CandidateIsPrimary(FailoverSteps.Apply(s.status, move))
  {
  }

  lemma AssignmentKeepsCandidate(s: State)
    requires Good(s) && CandidateIsPrimary(s.status)
    ensures CandidateIsPrimary(InitialStatus(s))
  {
  }

  lemma AppAdmissionKeepsPrimary(s: State, ds: Deliveries, routed: bool)
    requires Good(s)
    ensures s.status.failover.Some? ==> SamePrimary(s.status, ReconcileAppAdmission(s, ds, routed).status)
    ensures ReconcileAppAdmission(s, ds, routed).status.failover == s.status.failover
  {
    hide PrimaryAdmissible, Sound, Safe, InOrder, HasUnterminatedPrevious, Availability.AdmissionPending,
         Availability.FinishAppAdmission, KeepsCourse, SameProcesses, PrimaryToOpen, OpenPrimary, LeavesAlone;
    if PrimaryAdmissible(s) {
      AdmissibleRuns(s);
      if s.status.accepted.mode == HA { AdmissibleIsPrimary(s); }
      OpeningWrites(s, s.status.nodes[SelectedPrimaryOrdinal(s.status).value], ds);
    }
  }

  lemma OpeningWrites(s: State, node: NodeStatus, ds: Deliveries)
    requires Real(s, node.id)
    ensures
      var t := OpenPrimary(s, node, ds).status;
      && t.failover == s.status.failover
      && (SamePrimary(s.status, t) || (t.primaryOrdinal == Some(node.ordinal) && t.primaryId == node.id))
  {
    hide Open, Availability.AdmissionPending, Availability.FinishAppAdmission, KeepsCourse, SameProcesses, LeavesAlone;
  }

  lemma AdmissibleRuns(s: State)
    requires PrimaryAdmissible(s)
    ensures
      var o := SelectedPrimaryOrdinal(s.status);
      o.Some? && o.value in s.status.nodes && Real(s, s.status.nodes[o.value].id)
  {
  }

  lemma AdmissibleIsPrimary(s: State)
    requires Sound(s) && PrimaryAdmissible(s) && s.status.accepted.mode == HA
    ensures
      var node := s.status.nodes[SelectedPrimaryOrdinal(s.status).value];
      s.status.primaryOrdinal == Some(node.ordinal) && s.status.primaryId == node.id
  {
  }

  /** The move this step makes, and the state it is granted in. */
  lemma FailoverIsGranted(s: State, ds: Deliveries, now: Time)
    requires Good(s)
    ensures Granted(Commanded(s, ds), FailoverMove(s, ds, now))
  {
    hide Sound, Orderly, Safe, Granted, Verdict, FailoverSteps.Decide;
    CommandsKeepSafe(s, ds);
    CommandsTellTheTruth(s, ds);
    DecisionIsGranted(Commanded(s, ds), CommandsDone(s, ds), PrimaryPod(s), now);
  }

  lemma RotationKeepsPrimary(s: State, id: Identity, ds: Deliveries)
    requires CanRotate(s, id)
    ensures SamePrimary(s.status, Rotate(s, id, ds).status)
  {
    hide CanRotate, RotationReply, RotationConfirmed, RotationHashes;
  }

  lemma ReplicaAdmissionKeepsPrimary(s: State, ds: Deliveries, linked: bool)
    ensures SamePrimary(s.status, ReconcileReplicaAdmission(s, ds, linked).status)
  {
    hide Open, MustAdmitReplica;
  }

  lemma OthersKeepPrimary(s: State, operation: Operation)
    requires CanOperate(s, operation)
    requires !operation.FailoverStep? && !operation.InitialPrimaryStep? && !operation.AppAdmissionStep?
      && !operation.RolloutStep?
    ensures SamePrimary(s.status, AfterOperation(s, operation).status)
  {
    hide CanRotate, CanClose, RotationHashes, ReconcileFailover, ReconcileInitialPrimary, ReconcileAppAdmission,
         ReconcileRollout, ReplicasOrder, UpdateAppAccess, FollowProcess, Rotate, ReconcileReplicaAdmission;
    match operation
    case RotationCommand(id, ds) => RotationKeepsPrimary(s, id, ds);
    case ReplicaAdmissionStep(ds, linked) => ReplicaAdmissionKeepsPrimary(s, ds, linked);
    case _ =>
  }

  lemma SamePrimaryKeepsCandidate(a: Status, b: Status)
    requires CandidateIsPrimary(a) && (SamePrimary(a, b) || (a.failover.None? && b.failover.None?))
    ensures CandidateIsPrimary(b)
  {
  }

  lemma OperationKeepsCandidate(s: State, operation: Operation)
    requires Good(s) && CanOperate(s, operation) && CandidateIsPrimary(s.status)
    ensures CandidateIsPrimary(AfterOperation(s, operation).status)
  {
    hide Good, Granted, ReconcileAppAdmission, ReconcileRollout, Rotate, Close, ReconcileReplicas,
         ReconcileReplicaAdmission, CandidateIsPrimary, CanRotate, CanClose, RotationStatus, RotationHashes;
    match operation
    case FailoverStep(ds, now) =>
      FailoverIsGranted(s, ds, now);
      MoveKeepsCandidate(Commanded(s, ds), FailoverMove(s, ds, now));
    case InitialPrimaryStep(ds) => AssignmentKeepsCandidate(s);
    case AppAdmissionStep(ds, routed) =>
      AppAdmissionKeepsPrimary(s, ds, routed);
      SamePrimaryKeepsCandidate(s.status, ReconcileAppAdmission(s, ds, routed).status);
    case RolloutStep(closed) => RolloutKeepsCandidate(s, closed);
    case _ =>
      OthersKeepPrimary(s, operation);
      SamePrimaryKeepsCandidate(s.status, AfterOperation(s, operation).status);
  }

  lemma RolloutKeepsCandidate(s: State, closed: bool)
    requires CandidateIsPrimary(s.status)
    ensures CandidateIsPrimary(ReconcileRollout(s, closed).status)
  {
    hide RolloutStatus, RolloutYields, RolloutVictim;
    if RolloutRuns(s.status) { RolloutStartsFencing(s, closed); }
  }

  /** A rollout runs without a failover, and one it starts begins with fencing. */
  lemma RolloutStartsFencing(s: State, closed: bool)
    requires RolloutRuns(s.status)
    ensures
      var t := RolloutStatus(s, closed);
      t.failover.None? || (FailoverSteps.AtStage(t, Fencing) && !t.failover.value.candidateMayBePrimary)
  {
    hide RolloutSteps.DecideSwitch, Facts, AllStopped, RolloutStatus;
    var rollout := s.status.rollout.value;
    if rollout.stage == Stopping && rollout.accessClosed && AllStopped(s) {
      StoppedRolloutIs(s, closed);
    } else if rollout.stage == SwitchingPrimary && RolloutSteps.DecideSwitch(s.status, Facts(s)).HandOver? {
      SwitchingRolloutIs(s, closed);
    } else {
      QuietRolloutKeepsHeart(s, closed);
    }
  }

  lemma StoppedRolloutIs(s: State, closed: bool)
    requires RolloutRuns(s.status) && s.status.rollout.value.stage == Stopping
    requires s.status.rollout.value.accessClosed && AllStopped(s)
    ensures RolloutStatus(s, closed) == RolloutSteps.FinishStopping(s.status)
  {
    hide AllStopped;
  }

  lemma SwitchingRolloutIs(s: State, closed: bool)
    requires RolloutRuns(s.status) && s.status.rollout.value.stage == SwitchingPrimary
    ensures
      RolloutStatus(s, closed) == RolloutSteps.SwitchPrimary(s.status, RolloutSteps.DecideSwitch(s.status, Facts(s)))
  {
    hide RolloutSteps.DecideSwitch, Facts;
  }

  lemma StepKeepsCandidate(s: State, step: Step)
    requires Good(s) && Enabled(s, step) && CandidateIsPrimary(s.status)
    ensures CandidateIsPrimary(After(s, step).status)
  {
    hide Good;
    match step
    case Operate(operation) => OperationKeepsCandidate(s, operation);
    case Look(watch) => WatchKeepsCandidate(s, watch);
    case World(_) =>
    case Ask(_) =>
    case Remove(removal) => RemovalKeepsCandidate(s, removal);
  }

  lemma WatchKeepsCandidate(s: State, watch: Watch)
    requires Good(s) && CanWatch(s, watch)
    ensures s.status.failover.Some? ==> SamePrimary(s.status, AfterWatch(s, watch).status)
    ensures AfterWatch(s, watch).status.failover == s.status.failover
  {
  }

  lemma RemovalKeepsCandidate(s: State, removal: Removal)
    requires Good(s) && CanRemove(s, removal)
    ensures s.status.failover.Some? ==> SamePrimary(s.status, AfterRemoval(s, removal).status)
    ensures AfterRemoval(s, removal).status.failover == s.status.failover
  {
  }

  /** The ways a candidate that may have been promoted can be found after a step. */
  predicate Accounted(t: State, c: Identity) {
    var f := t.status.failover;
    || MayHaveBeenPromoted(t.status, c)
    || Stopped(t.world, c)
    || (FailoverSteps.AtStage(t.status, Fencing) && f.value.source == c && !FailoverSteps.SourceFenced(f.value))
    || (f.None? && t.status.primaryOrdinal.Some? && t.status.primaryId == c)
  }

  lemma FailoverAccountsForCandidate(s: State, ds: Deliveries, now: Time, c: Identity)
    requires Good(s) && CandidateIsPrimary(s.status) && MayHaveBeenPromoted(s.status, c)
    ensures Accounted(ReconcileFailover(s, ds, now), c)
  {
    hide Good, FailoverMove, FailoverWorld;
    FailoverIsGranted(s, ds, now);
  }

  lemma StepAccountsForCandidate(s: State, step: Step, c: Identity)
    requires Good(s) && Enabled(s, step) && CandidateIsPrimary(s.status) && MayHaveBeenPromoted(s.status, c)
    ensures Accounted(After(s, step), c)
  {
    hide Good;
    match step
    case Operate(operation) =>
      if operation.FailoverStep? { FailoverAccountsForCandidate(s, operation.ds, operation.now, c); }
      else { OtherOperationsKeepFailover(s, operation); }
    case Look(watch) => WatchKeepsCandidate(s, watch);
    case World(_) =>
    case Ask(_) =>
    case Remove(removal) => RemovalKeepsCandidate(s, removal);
  }

  lemma OtherOperationsKeepFailover(s: State, operation: Operation)
    requires Good(s) && CanOperate(s, operation) && !operation.FailoverStep? && s.status.failover.Some?
    ensures AfterOperation(s, operation).status.failover == s.status.failover
  {
    hide Good;
    if operation.AppAdmissionStep? { AppAdmissionKeepsPrimary(s, operation.ds, operation.routed); }
  }

  lemma {:induction false} CandidateIsPrimaryInRuns(run: seq<State>, i: nat)
    requires IsRun(run) && i < |run|
    ensures CandidateIsPrimary(run[i].status)
  {
    hide Good;
    if i > 0 {
      CandidateIsPrimaryInRuns(run, i - 1);
      RunsAreGood(run, i - 1);
      assert Next(run[i - 1], run[i]);
      var step :| Enabled(run[i - 1], step) && run[i] == After(run[i - 1], step);
      StepKeepsCandidate(run[i - 1], step);
    }
  }

  /**
   A candidate that may have been promoted stays the candidate until it is stopped, or is fenced as the
   source of the next failover, or is the primary of a failover that is over.
   */
  lemma CandidateIsNeverDropped(run: seq<State>, i: nat, c: Identity)
    requires IsRun(run) && i + 1 < |run| && MayHaveBeenPromoted(run[i].status, c)
    ensures Accounted(run[i + 1], c)
  {
    hide Good;
    RunsAreGood(run, i);
    CandidateIsPrimaryInRuns(run, i);
    assert Next(run[i], run[i + 1]);
    var step :| Enabled(run[i], step) && run[i + 1] == After(run[i], step);
    StepAccountsForCandidate(run[i], step, c);
  }
}
