/**
 How the operations of one instance exclude and follow each other in every run: what a status that
 never served clients cannot contain, which stages a rollout goes through, and that a full stop and a
 failover never overlap.
 */
module OperationOrder {
  import opened Options
  import opened OperatorTypes
  import opened Session
  import opened Operator
  import Contract
  import Availability
  import Workload
  import FailoverSteps
  import RolloutSteps

  /** Before clients were admitted for the first time there are no operations and nothing is confirmed. */
  predicate Untouched(status: Status) {
    && status.failover.None? && status.rollout.None? && status.rotation.None?
    && status.observedGeneration == 0 && status.accepted.generation != 0
  }

  /** A full stop goes through Stopping and Starting, a rolling replacement through the other stages. */
  predicate StageFits(status: Status) {
    status.rollout.Some? ==>
      && status.applied.Some?
      && (Workload.RequiresFullStop(status) ==>
            status.rollout.value.stage !in {ReplacingReplicas, SwitchingPrimary, ReplacingPrimary})
      && (!Workload.RequiresFullStop(status) ==> status.rollout.value.stage !in {Stopping, Starting})
  }

  predicate Orderly(status: Status) {
    && (!status.initialized ==> Untouched(status))
    && (status.initialized ==> status.applied.Some?)
    && StageFits(status)
    && (Workload.FullStopOwnsAvailability(status) ==> status.failover.None?)
    && (status.failover.Some? ==> status.accepted.mode == HA)
    && (FailoverSteps.AtStage(status, Promoting) ==>
          status.failover.value.candidate.Some? && FailoverSteps.CandidateFenced(status.failover.value))
    && (status.failover.Some? && status.failover.value.candidate.None? ==>
          !FailoverSteps.CandidateFenced(status.failover.value))
    && (status.reason == EmptyRecovery ==> status.failover.None?)
  }

  /** What Orderly looks at. */
  predicate SameOrder(a: Status, b: Status) {
    && b.initialized == a.initialized && b.applied == a.applied && b.rollout == a.rollout
    && b.failover == a.failover && b.accepted == a.accepted
    && (b.rotation == a.rotation || a.initialized)
    && (b.observedGeneration == a.observedGeneration || a.initialized)
    && (b.reason == EmptyRecovery ==> a.reason == EmptyRecovery)
  }

  lemma SameOrderIsOrderly(a: Status, b: Status)
    requires Orderly(a) && SameOrder(a, b)
    ensures Orderly(b)
  {
  }

  lemma AcceptIsOrderly(status: Status, spec: Spec, hashes: set<int>)
    requires Orderly(status)
    ensures Orderly(Contract.ReconcileAccepted(status, spec, hashes))
  {
  }

  lemma AdmissionIsOrderly(status: Status, node: NodeStatus)
    requires Orderly(status)
    ensures Orderly(Availability.FinishAppAdmission(status, node))
  {
  }

  lemma MoveIsOrderly(status: Status, done: bool, pod: Option<Uid>, now: Time)
    requires Orderly(status)
    ensures Orderly(FailoverSteps.Apply(status, FailoverSteps.Decide(status, done, pod, now)))
  {
    hide Orderly, FailoverSteps.DecideStart, FailoverSteps.DecideFencing, FailoverSteps.DecideChoosing,
         FailoverSteps.DecidePromoting, FailoverSteps.DecideReconfiguring, FailoverSteps.Apply;
    OrderlyFailover(status);
    if Workload.FullStopOwnsAvailability(status) || status.accepted.mode != HA || !status.initialized {
      SkippingIsOrderly(status);
    } else if status.failover.None? {
      StartIsOrderly(status, now);
    } else {
      match status.failover.value.stage
      case Fencing => FencingIsOrderly(status, done);
      case Choosing => ChoosingIsOrderly(status, done, now);
      case Promoting => PromotingIsOrderly(status, done);
      case Reconfiguring => ReconfiguringIsOrderly(status, pod, now);
    }
  }

  lemma OrderlyFailover(status: Status)
    requires Orderly(status)
    ensures Workload.FullStopOwnsAvailability(status) || status.accepted.mode != HA || !status.initialized ==>
      status.failover.None?
  {
  }

  lemma SkippingIsOrderly(status: Status)
    requires Orderly(status)
    ensures Orderly(FailoverSteps.Apply(status, FailoverSteps.Skip))
  {
  }

  lemma StartIsOrderly(status: Status, now: Time)
    requires Orderly(status) && status.failover.None? && status.accepted.mode == HA && status.initialized
    requires !Workload.FullStopOwnsAvailability(status)
    ensures Orderly(FailoverSteps.Apply(status, FailoverSteps.DecideStart(status, now)))
  {
    hide FailoverSteps.EmptyRecoverySafe, FailoverSteps.Failed, KnownProcess;
  }

  lemma FencingIsOrderly(status: Status, fenced: bool)
    requires Orderly(status) && FailoverSteps.AtStage(status, Fencing)
    ensures Orderly(FailoverSteps.Apply(status, FailoverSteps.DecideFencing(status, fenced)))
  {
    hide KnownProcess;
  }

  lemma ChoosingIsOrderly(status: Status, fenced: bool, now: Time)
    requires Orderly(status) && FailoverSteps.AtStage(status, Choosing)
    ensures Orderly(FailoverSteps.Apply(status, FailoverSteps.DecideChoosing(status, fenced, now)))
  {
    hide FailoverSteps.EmptyRecoverySafe, FailoverSteps.EmptyRecoveryWaitingSafe, FailoverSteps.ChooseCandidate,
         FailoverSteps.OffsetReached, FailoverSteps.PointOf, FailoverSteps.Apply, KnownProcess;
  }

  lemma PromotingIsOrderly(status: Status, promoted: bool)
    requires Orderly(status) && FailoverSteps.AtStage(status, Promoting)
    ensures Orderly(FailoverSteps.Apply(status, FailoverSteps.DecidePromoting(status, promoted)))
  {
    hide KnownProcess;
  }

  lemma ReconfiguringIsOrderly(status: Status, pod: Option<Uid>, now: Time)
    requires Orderly(status) && FailoverSteps.AtStage(status, Reconfiguring)
    ensures Orderly(FailoverSteps.Apply(status, FailoverSteps.DecideReconfiguring(status, pod, now)))
  {
    hide FailoverSteps.ReconfigurationReady, FailoverSteps.Failed, KnownProcess,
         Availability.PrimaryPubliclyReady, Availability.ReadyReplicaCount;
  }

  lemma ReplacementIsOrderly(status: Status, decision: RolloutSteps.Replacement, next: RolloutStage)
    requires Orderly(status) && status.rollout.Some? && status.failover.None?
    requires next == SwitchingPrimary || next == Verifying
    requires !Workload.RequiresFullStop(status)
    ensures Orderly(ReplacementStatus(status, decision, next))
  {
  }

  lemma SwitchIsOrderly(status: Status, decision: RolloutSteps.Switch)
    requires Orderly(status) && status.rollout.Some? && status.failover.None?
    requires status.rollout.value.stage == SwitchingPrimary
    ensures Orderly(RolloutSteps.SwitchPrimary(status, decision))
  {
  }

  lemma FinishIsOrderly(status: Status)
    requires Orderly(status) && status.rollout.Some? && status.failover.None?
    ensures Orderly(RolloutSteps.Finish(status))
  {
  }

  /** The stages of a full stop, and the check of the result. */
  lemma StopStageIsOrderly(s: State, closed: bool)
    requires Orderly(s.status) && RolloutRuns(s.status)
    requires s.status.rollout.value.stage in {Preparing, Stopping, UpdatingTemplate}
    ensures Orderly(RolloutStatus(s, closed))
  {
    hide AllStopped;
  }

  lemma StartStageIsOrderly(s: State, closed: bool)
    requires Orderly(s.status) && RolloutRuns(s.status)
    requires s.status.rollout.value.stage in {Starting, Verifying}
    ensures Orderly(RolloutStatus(s, closed))
  {
    hide RolloutSteps.CompositionReady, Facts;
    FinishIsOrderly(s.status);
  }

  lemma RollingStageIsOrderly(s: State, closed: bool)
    requires Orderly(s.status) && RolloutRuns(s.status)
    requires s.status.rollout.value.stage in {ReplacingReplicas, SwitchingPrimary, ReplacingPrimary}
    ensures Orderly(RolloutStatus(s, closed))
  {
    hide RolloutSteps.DecideRolling, RolloutSteps.DecideSwitch, Facts;
    ReplacementIsOrderly(s.status, RollingDecision(s), SwitchingPrimary);
    ReplacementIsOrderly(s.status, RollingDecision(s), Verifying);
    if s.status.rollout.value.stage == SwitchingPrimary {
      SwitchIsOrderly(s.status, RolloutSteps.DecideSwitch(s.status, Facts(s)));
    }
  }

  lemma RolloutIsOrderly(s: State, closed: bool)
    requires Orderly(s.status) && RolloutRuns(s.status)
    ensures Orderly(RolloutStatus(s, closed))
  {
    hide Orderly, RolloutStatus;
    match s.status.rollout.value.stage
    case Preparing | Stopping | UpdatingTemplate => StopStageIsOrderly(s, closed);
    case ReplacingReplicas | SwitchingPrimary | ReplacingPrimary => RollingStageIsOrderly(s, closed);
    case Starting | Verifying => StartStageIsOrderly(s, closed);
  }

  lemma InspectionIsOrderly(s: State, ordinal: nat, finding: Finding)
    requires Orderly(s.status) && CanInspect(s, ordinal, finding)
    ensures Orderly(InspectFinding(s, ordinal, finding).status)
  {
    SameOrderIsOrderly(s.status, InspectFinding(s, ordinal, finding).status);
  }

  lemma WatchIsOrderly(s: State, watch: Watch)
    requires Orderly(s.status) && CanWatch(s, watch)
    ensures Orderly(AfterWatch(s, watch).status)
  {
    hide Orderly;
    match watch
    case SpecRead(spec) => AcceptIsOrderly(s.status, spec, s.hashes);
    case Inspected(ordinal, finding) => InspectionIsOrderly(s, ordinal, finding);
    case _ => SameOrderIsOrderly(s.status, AfterWatch(s, watch).status);
  }

  lemma OperationIsOrderly(s: State, operation: Operation)
    requires Orderly(s.status) && CanOperate(s, operation)
    ensures Orderly(AfterOperation(s, operation).status)
  {
    hide Orderly, FailoverSteps.Decide, FailoverSteps.Apply, RolloutStatus, RotationStatus, Rotate,
         ReconcileAppAdmission, CanRotate, CanClose, FailoverWorld, ReplicasOrder, Open, RolloutVictim, RolloutYields,
         RotationHashes, KeepsCourse, LeavesAlone, SameProcesses, KeepsEntries, MustAdmitReplica, Upstream,
         InitialWorld, PromoteProcess, FollowProcess, UpdateAppAccess;
    match operation
    case FailoverStep(ds, now) =>
      var order := FailoverOrder(s);
      MoveIsOrderly(s.status, order.Some? && FailoverCommands(s, order.value, ds).ok, PrimaryPod(s), now);
    case RolloutStep(closed) => if RolloutRuns(s.status) { RolloutIsOrderly(s, closed); }
    case AppAdmissionStep(ds, routed) => AppAdmissionIsOrderly(s, ds, routed);
    case RotationCommand(id, ds) => ConfirmationIsOrderly(s, id, ds);
    case RotationDone => RotationIsOrderly(s);
    case _ => SameOrderIsOrderly(s.status, AfterOperation(s, operation).status);
  }

  lemma ConfirmationIsOrderly(s: State, id: Identity, ds: Deliveries)
    requires Orderly(s.status) && CanRotate(s, id)
    ensures Orderly(Rotate(s, id, ds).status)
  {
    SameOrderIsOrderly(s.status, Rotate(s, id, ds).status);
  }

  lemma RotationIsOrderly(s: State)
    requires Orderly(s.status)
    ensures Orderly(RotationStatus(s))
  {
    SameOrderIsOrderly(s.status, RotationStatus(s));
  }

  lemma AppAdmissionIsOrderly(s: State, ds: Deliveries, routed: bool)
    requires Orderly(s.status)
    ensures Orderly(ReconcileAppAdmission(s, ds, routed).status)
  {
    hide Orderly, HasUnterminatedPrevious, PrimaryIdentityMatches, UpdateAppAccess, KeepsCourse, LeavesAlone,
         SameProcesses, Availability.AdmissionPending, Availability.FinishAppAdmission;
    SameOrderIsOrderly(s.status, Availability.AdmissionPending(s.status));
    if PrimaryAdmissible(s) {
      AdmissionIsOrderly(s.status, s.status.nodes[SelectedPrimaryOrdinal(s.status).value]);
    }
  }

  lemma RemovalIsOrderly(s: State, removal: Removal)
    requires Orderly(s.status) && CanRemove(s, removal)
    ensures Orderly(AfterRemoval(s, removal).status)
  {
    hide Orderly;
    match removal
    case DeletionInspects(ordinal, finding) => InspectionIsOrderly(s, ordinal, finding);
    case _ => SameOrderIsOrderly(s.status, AfterRemoval(s, removal).status);
  }

  lemma StepIsOrderly(s: State, step: Step)
    requires Orderly(s.status) && Enabled(s, step)
    ensures Orderly(After(s, step).status)
  {
    hide Orderly;
    match step
    case World(world) => SameOrderIsOrderly(s.status, After(s, step).status);
    case Ask(request) => SameOrderIsOrderly(s.status, After(s, step).status);
    case Look(watch) => WatchIsOrderly(s, watch);
    case Operate(operation) => OperationIsOrderly(s, operation);
    case Remove(removal) => RemovalIsOrderly(s, removal);
  }

  // ---- the pass ----

  /** Whether the pass has got past this point. */
  predicate Past(at: PassPoint, point: PassPoint) {
    match point
    case AtInspection => at !in {Idle, AtWorkload, AtInspection}
    case AtFailover => at !in {Idle, AtWorkload, AtInspection, AtManualFencing, AtFailover}
    case _ => false
  }

  /** Operations come after every process was inspected; all but the failover itself wait for it to be almost over. */
  predicate InOrder(s: State) {
    && (Past(s.at, AtInspection) ==> AllSeen(s))
    && (Past(s.at, AtFailover) ==> s.status.failover.None? || FailoverSteps.AtStage(s.status, Reconfiguring))
  }

  lemma SkippingIsOver(status: Status, done: bool, pod: Option<Uid>, now: Time)
    requires Orderly(status) && FailoverSteps.Decide(status, done, pod, now).Skip?
    ensures status.failover.None? || FailoverSteps.AtStage(status, Reconfiguring)
  {
  }

  lemma FailoverIsInOrder(s: State, ds: Deliveries, now: Time)
    requires Orderly(s.status) && InOrder(s) && s.at == AtFailover
    ensures InOrder(ReconcileFailover(s, ds, now))
  {
    if FailoverMove(s, ds, now).Skip? {
      var order := FailoverOrder(s);
      SkippingIsOver(s.status, order.Some? && FailoverCommands(s, order.value, ds).ok, PrimaryPod(s), now);
    }
  }

  /** The pass ends, starts over, or goes on without learning or losing anything. */
  predicate GoesOn(s: State, t: State) {
    || t.at in {Idle, AtWorkload, AtInspection}
    || (t.seen == s.seen && t.status.accepted.mode == s.status.accepted.mode
        && t.status.failover == s.status.failover
        && Past(s.at, AtInspection) && (Past(t.at, AtFailover) ==> Past(s.at, AtFailover)))
  }

  lemma GoingOnIsInOrder(s: State, t: State)
    requires InOrder(s) && GoesOn(s, t)
    ensures InOrder(t)
  {
  }

  lemma RolloutIsInOrder(s: State, closed: bool)
    requires Orderly(s.status) && InOrder(s) && s.at == AtRollout
    ensures InOrder(ReconcileRollout(s, closed))
  {
    hide RolloutSteps.DecideRolling, RolloutSteps.DecideSwitch, Facts, RolloutSteps.CompositionReady;
  }

  lemma OperationIsInOrder(s: State, operation: Operation)
    requires Orderly(s.status) && InOrder(s) && CanOperate(s, operation)
    ensures InOrder(AfterOperation(s, operation))
  {
    hide InOrder, Orderly, RolloutStatus, RolloutYields, RolloutVictim, RotationStatus, RotationHashes, FailoverMove,
         FailoverWorld, CanClose, RotationReply, CanRotate, ReconcileFailover, ReconcileRollout, Open,
         PrimaryAdmissible, MustAdmitReplica, UpdateAppAccess, KeepsCourse, LeavesAlone, SameProcesses, KeepsEntries;
    match operation
    case FailoverStep(ds, now) => FailoverIsInOrder(s, ds, now);
    case RolloutStep(closed) => RolloutIsInOrder(s, closed);
    case _ => GoingOnIsInOrder(s, AfterOperation(s, operation));
  }

  lemma StepIsInOrder(s: State, step: Step)
    requires Orderly(s.status) && InOrder(s) && Enabled(s, step)
    ensures InOrder(After(s, step))
  {
    hide InOrder, Orderly;
    match step
    case Operate(operation) => OperationIsInOrder(s, operation);
    case Look(watch) => WatchIsInOrder(s, watch);
    case World(_) => EventIsInOrder(s, step);
    case Ask(_) => EventIsInOrder(s, step);
    case Remove(_) => EventIsInOrder(s, step);
  }

  lemma EventIsInOrder(s: State, step: Step)
    requires InOrder(s) && Enabled(s, step) && !step.Operate? && !step.Look?
    ensures InOrder(After(s, step))
  {
    hide InOrder, CanRemove, CanHappen, CanRequest, Happen, AfterRequest, AfterRemoval, GoesOn;
    match step {
      case World(world) => WorldGoesOn(s, world);
      case Ask(request) => RequestGoesOn(s, request);
      case Remove(removal) => RemovalGoesOn(s, removal);
    }
    GoingOnIsInOrder(s, After(s, step));
  }

  lemma WorldGoesOn(s: State, world: WorldStep)
    requires CanHappen(s, world)
    ensures GoesOn(s, Happen(s, world))
  {
    hide KeepsCourse, SameProcesses, KeepsEntries;
  }

  lemma RequestGoesOn(s: State, request: Request)
    requires CanRequest(s, request)
    ensures GoesOn(s, AfterRequest(s, request))
  {
    hide KeepsCourse, SameProcesses, KeepsEntries;
  }

  lemma RemovalGoesOn(s: State, removal: Removal)
    requires CanRemove(s, removal)
    ensures GoesOn(s, AfterRemoval(s, removal))
  {
    hide KeepsCourse, SameProcesses, KeepsEntries, InspectFinding, CanInspect, CanCopyProof, DeletionVerified;
  }

  lemma WatchIsInOrder(s: State, watch: Watch)
    requires InOrder(s) && CanWatch(s, watch)
    ensures InOrder(AfterWatch(s, watch))
  {
    hide InOrder;
    match watch
    case InspectionDone =>
      assert InOrder(AfterWatch(s, watch)) by { AllSeenIsInOrder(s); }
    case _ => GoingOnIsInOrder(s, AfterWatch(s, watch));
  }

  lemma AllSeenIsInOrder(s: State)
    requires AllSeen(s)
    ensures InOrder(s.(at := AtManualFencing))
  {
  }
}
