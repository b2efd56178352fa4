/**
 Starting over with an empty cache.  The documentation promises an empty primary in two cases: every
 process with data is proved stopped, or all that is left was empty for two minutes.  The code reopens
 the assignment of a primary only in the first case, and only while the reason it stored is still there;
 this module states exactly when a primary can be assigned again, and that otherwise none ever is until
 a full stop restarts the instance.
 */
module EmptyRecovery {
  import opened Options
  import opened OperatorTypes
  import opened Session
  import opened Operator
  import opened Shape
  import opened OperationOrder
  import opened SingleWriter
  import Observation
  import Topology
  import Workload
  import FailoverSteps
  import RolloutSteps
  import Availability

  /** A full stop that has come to starting the processes again. */
  predicate Restarting(status: Status) {
    Workload.RequiresFullStop(status) && status.rollout.value.stage in {Starting, Verifying}
  }

  /** The stored permission to assign a primary without data. */
  predicate RecoveryOpen(status: Status) {
    status.reason == EmptyRecovery && status.dataLoss == Some(AllProcessesStopped)
  }

  /** When an instance that has served clients and has no primary may be given one. */
  lemma AssignmentNeedsOpenRecovery(status: Status)
    requires status.initialized && status.primaryOrdinal.None?
    ensures Topology.AssignmentAllowed(status) <==> RecoveryOpen(status) || Restarting(status)
  {
  }

  /** Right after the recovery began: with a proof of every end, always; after a timeout, only in a restart. */
  lemma BeginningOpensAssignment(status: Status, timedOut: bool)
    requires status.initialized && status.accepted.mode == HA
    ensures
      var t := FailoverSteps.Apply(status, FailoverSteps.StartEmpty(timedOut));
      Topology.AssignmentAllowed(t) <==> !timedOut || Restarting(status)
  {
    var t := FailoverSteps.Apply(status, FailoverSteps.StartEmpty(timedOut));
    AssignmentNeedsOpenRecovery(t);
    assert Restarting(t) == Restarting(status);
  }

  /** A recovery that times out is one without a proof that every process with data has stopped. */
  lemma TimeoutMeansUnproved(status: Status, done: bool, pod: Option<Uid>, now: Time)
    requires FailoverSteps.Decide(status, done, pod, now).StartEmpty?
    ensures status.initialized && status.accepted.mode == HA
    ensures FailoverSteps.Decide(status, done, pod, now).timedOut <==> !FailoverSteps.EmptyRecoverySafe(status)
  {
    hide FailoverSteps.EmptyRecoverySafe, FailoverSteps.EmptyRecoveryWaitingSafe, FailoverSteps.ChooseCandidate,
         FailoverSteps.OffsetReached, FailoverSteps.ReconfigurationReady, FailoverSteps.Failed;
  }

  /**
   After the step that begins an empty recovery, a primary may be assigned if and only if every process that
   may have held data was proved stopped and replaced, or a full stop has come to its restart.  Otherwise the
   instance is stranded.
   */
  lemma RecoveryOpensOnlyWithProof(s: State, ds: Deliveries, now: Time)
    requires FailoverMove(s, ds, now).StartEmpty?
    ensures
      var t := ReconcileFailover(s, ds, now);
      && (Topology.AssignmentAllowed(t.status) <==>
          FailoverSteps.EmptyRecoverySafe(s.status) || Restarting(s.status))
      && (Topology.AssignmentAllowed(t.status) || Stranded(t.status))
  {
    hide FailoverSteps.EmptyRecoverySafe, FailoverSteps.Decide, Topology.AssignmentAllowed;
    var order := FailoverOrder(s);
    TimeoutMeansUnproved(s.status, order.Some? && FailoverCommands(s, order.value, ds).ok, PrimaryPod(s), now);
    BeginningOpensAssignment(s.status, FailoverMove(s, ds, now).timedOut);
    AssignmentNeedsOpenRecovery(ReconcileFailover(s, ds, now).status);
  }

  /** One inspection that finds a process not ready takes the permission away again. */
  lemma UnavailableProcessClosesRecovery(status: Status, ordinal: nat)
    requires status.initialized && status.primaryOrdinal.None? && !Restarting(status)
    ensures !Topology.AssignmentAllowed(Observation.ProcessUnavailable(status, ordinal))
  {
    AssignmentNeedsOpenRecovery(Observation.ProcessUnavailable(status, ordinal));
  }

  /** An HA instance without a primary, a failover, or the permission to assign one. */
  predicate Stranded(status: Status) {
    && status.initialized && status.accepted.mode == HA
    && status.primaryOrdinal.None? && status.failover.None?
    && !RecoveryOpen(status) && !Restarting(status)
  }

  predicate StillStranded(status: Status) { Stranded(status) || Restarting(status) }

  /** What a step must leave alone for the instance to stay stranded. */
  predicate LeavesStranded(a: Status, b: Status) {
    && b.initialized && b.accepted.mode == a.accepted.mode
    && b.primaryOrdinal.None? && b.failover.None?
    && (b.reason == EmptyRecovery ==> a.reason == EmptyRecovery)
    && (b.dataLoss == Some(AllProcessesStopped) ==> a.dataLoss == b.dataLoss)
  }

  lemma LeftAloneIsStranded(a: Status, b: Status)
    requires Stranded(a) && LeavesStranded(a, b)
    ensures StillStranded(b)
  {
  }

  lemma WatchLeavesStranded(s: State, watch: Watch)
    requires Stranded(s.status) && CanWatch(s, watch)
    ensures LeavesStranded(s.status, AfterWatch(s, watch).status)
  {
  }

  lemma RemovalLeavesStranded(s: State, removal: Removal)
    requires Stranded(s.status) && CanRemove(s, removal)
    ensures LeavesStranded(s.status, AfterRemoval(s, removal).status)
  {
  }

  lemma FailoverLeavesStranded(s: State, ds: Deliveries, now: Time)
    requires Stranded(s.status)
    ensures LeavesStranded(s.status, ReconcileFailover(s, ds, now).status)
  {
  }

  lemma RolloutLeavesStranded(s: State, closed: bool)
    requires Stranded(s.status) && RolloutRuns(s.status)
    ensures LeavesStranded(s.status, RolloutStatus(s, closed))
  {
    hide RolloutSteps.CompositionReady, RolloutSteps.DecideRolling, RolloutSteps.DecideSwitch, Facts, AllStopped,
         RolloutSteps.Finish, RolloutSteps.SwitchPrimary, ReplacementStatus, Stranded, LeavesStranded;
    var status := s.status;
    WritingLeavesStranded(status);
    match status.rollout.value.stage
    case ReplacingReplicas => ReplacingLeavesStranded(status, RollingDecision(s), SwitchingPrimary);
    case ReplacingPrimary => ReplacingLeavesStranded(status, RollingDecision(s), Verifying);
    case SwitchingPrimary => WithoutPrimaryNoSwitch(status, Facts(s));
    case _ =>
  }

  /** What the stages of a rollout write, one by one. */
  lemma WritingLeavesStranded(status: Status)
    requires Stranded(status) && status.rollout.Some?
    ensures LeavesStranded(status, status)
    ensures LeavesStranded(status, RolloutSteps.Prepare(status))
    ensures LeavesStranded(status, RolloutSteps.CloseAccess(status))
    ensures LeavesStranded(status, RolloutSteps.FinishStopping(status))
    ensures LeavesStranded(status, RolloutSteps.FinishTemplate(status))
    ensures LeavesStranded(status, RolloutSteps.Advance(status, Verifying))
    ensures LeavesStranded(status, RolloutSteps.Finish(status))
  {
    hide Availability.ApplyOperationalPhase;
  }

  lemma ReplacingLeavesStranded(status: Status, decision: RolloutSteps.Replacement, next: RolloutStage)
    requires Stranded(status) && status.rollout.Some?
    ensures LeavesStranded(status, ReplacementStatus(status, decision, next))
  {
  }

  lemma WithoutPrimaryNoSwitch(status: Status, pods: RolloutSteps.PodFacts)
    requires status.rollout.Some? && Stranded(status)
    ensures RolloutSteps.SwitchPrimary(status, RolloutSteps.DecideSwitch(status, pods)) == status
  {
  }

  lemma AdmissionsLeaveStranded(s: State, ds: Deliveries, flag: bool)
    requires Stranded(s.status)
    ensures LeavesStranded(s.status, ReconcileReplicaAdmission(s, ds, flag).status)
    ensures LeavesStranded(s.status, ReconcileAppAdmission(s, ds, flag).status)
  {
  }

  lemma InitialPrimaryLeavesStranded(s: State, ds: Deliveries)
    requires Stranded(s.status)
    ensures LeavesStranded(s.status, ReconcileInitialPrimary(s, ds).status)
  {
    AssignmentNeedsOpenRecovery(s.status);
  }

  lemma OperationLeavesStranded(s: State, operation: Operation)
    requires Stranded(s.status) && CanOperate(s, operation)
    ensures LeavesStranded(s.status, AfterOperation(s, operation).status)
  {
    hide Stranded, LeavesStranded;
    match operation
    case FailoverStep(ds, now) => FailoverLeavesStranded(s, ds, now);
    case RotationCommand(id, ds) => RotationLeavesStranded(s, operation);
    case RotationDone => RotationLeavesStranded(s, operation);
    case RolloutClose(o, ds) => SameLeavesStranded(s, Close(s, o, ds));
    case RolloutStep(closed) =>
      if RolloutRuns(s.status) {
        RolloutLeavesStranded(s, closed);
      } else {
        SameLeavesStranded(s, ReconcileRollout(s, closed));
      }
    case InitialPrimaryStep(ds) => InitialPrimaryLeavesStranded(s, ds);
    case ReplicasStep(ds) => SameLeavesStranded(s, ReconcileReplicas(s, ds));
    case ReplicaAdmissionStep(ds, linked) => AdmissionsLeaveStranded(s, ds, linked);
    case AppAdmissionStep(ds, routed) => AdmissionsLeaveStranded(s, ds, routed);
  }

  lemma RotationLeavesStranded(s: State, operation: Operation)
    requires Stranded(s.status) && CanOperate(s, operation) && (operation.RotationCommand? || operation.RotationDone?)
    ensures LeavesStranded(s.status, AfterOperation(s, operation).status)
  {
    hide KeepsCourse, LeavesAlone, SameProcesses, KeepsEntries, KnownProcess, Addressable, RotationReply,
         RotationConfirmed, Stranded, LeavesStranded, Rotate, EndRotation, CanRotate;
    match operation
    case RotationCommand(id, ds) => ConfirmationLeavesStranded(s, id, ds);
    case RotationDone => RotationEndLeavesStranded(s);
  }

  lemma ConfirmationLeavesStranded(s: State, id: Identity, ds: Deliveries)
    requires Stranded(s.status) && CanRotate(s, id)
    ensures LeavesStranded(s.status, Rotate(s, id, ds).status)
  {
    hide KeepsCourse, LeavesAlone, SameProcesses, KnownProcess, Addressable, RotationReply, RotationConfirmed;
  }

  lemma RotationEndLeavesStranded(s: State)
    requires Stranded(s.status)
    ensures LeavesStranded(s.status, EndRotation(s).status)
  {
    hide KeepsCourse, LeavesAlone;
  }

  lemma SameLeavesStranded(s: State, t: State)
    requires Stranded(s.status) && t.status == s.status
    ensures LeavesStranded(s.status, t.status)
  {
  }

  lemma StepKeepsStranded(s: State, step: Step)
    requires Stranded(s.status) && Enabled(s, step)
    ensures StillStranded(After(s, step).status)
  {
    hide Stranded, LeavesStranded, StillStranded, AfterWatch, AfterOperation, AfterRemoval, Happen, AfterRequest;
    var t := After(s, step);
    match step {
      case World(_) => SameLeavesStranded(s, t);
      case Ask(_) => SameLeavesStranded(s, t);
      case Look(watch) => WatchLeavesStranded(s, watch);
      case Operate(operation) => OperationLeavesStranded(s, operation);
      case Remove(removal) => RemovalLeavesStranded(s, removal);
    }
    LeftAloneIsStranded(s.status, t.status);
  }

  /**
   A stranded instance stays without a primary, and clients can write to none of its processes, in every
   later state of the run up to the first one in which a full stop has come to its restart.
   */
  lemma {:induction false} StrandedStaysUnavailable(run: seq<State>, i: nat, j: nat)
    requires IsRun(run) && i <= j < |run| && Stranded(run[i].status)
    requires forall k :: i < k <= j ==> !Restarting(run[k].status)
    ensures Stranded(run[j].status) && OnlyHot(run[j].world, 0)
    decreases j - i
  {
    hide Enabled, After, Good;
    if i < j {
      StrandedStaysUnavailable(run, i, j - 1);
      assert Next(run[j - 1], run[j]);
      var step :| Enabled(run[j - 1], step) && run[j] == After(run[j - 1], step);
      StepKeepsStranded(run[j - 1], step);
    }
    RunsAreGood(run, j);
    StrandedIsCold(run[j]);
  }

  lemma StrandedIsCold(s: State)
    requires Good(s) && Stranded(s.status)
    ensures OnlyHot(s.world, 0)
  {
    assert NamedIsSafe(s.status, s.world);
  }
}
