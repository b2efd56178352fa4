/**
 What a change of size may and may not do in any run: a full stop never overlaps a failover, the
 primary is taken out of the status only after everything stopped, and the new size counts as applied
 only when every process runs ready on a pod of that size.
 */
module RolloutSafety {
  import opened Options
  import opened OperatorTypes
  import opened Session
  import opened Operator
  import opened Shape
  import opened OperationOrder
  import opened SingleWriter
  import Availability
  import Workload
  import RolloutSteps

  /** In no state of any run does a full stop in its stopping stages coexist with a failover. */
  lemma FullStopExcludesFailover(run: seq<State>, i: nat)
    requires IsRun(run) && i < |run| && Workload.FullStopOwnsAvailability(run[i].status)
    ensures run[i].status.failover.None?
  {
    RunsAreGood(run, i);
  }

  // ---- when a size counts as applied ----

  /** Every expected process is current, ready and open, in a live pod of this size. */
  predicate RunsOnSize(s: State, size: Size) {
    forall o: nat :: o < ExpectedProcessCount(s.status.accepted.mode) ==>
      && o in s.status.nodes && CurrentNode(s, o) && s.pods[o].size == size
      && RolloutSteps.StatusReady(s.status, s.status.nodes[o])
  }

  function Ordinals(mode: Mode): (r: set<nat>)
    ensures |r| == ExpectedProcessCount(mode) && forall o: nat :: o in r <==> o < ExpectedProcessCount(mode)
  {
    if mode == HA then {0, 1, 2} else {0}
  }

  lemma {:induction false} SubsetIsSmaller(a: set<nat>, b: set<nat>)
    requires a <= b
    ensures |a| <= |b|
    ensures |a| == |b| ==> a == b
  {
    if a == {} {
      assert |b| == 0 ==> b == {};
    } else {
      var x :| x in a;
      SubsetIsSmaller(a - {x}, b - {x});
      assert a == a - {x} + {x} && b == b - {x} + {x};
    }
  }

  lemma ReadyRunsOnSize(s: State)
    requires Sound(s) && s.status.rollout.Some? && RolloutSteps.CompositionReady(s.status, Facts(s))
    ensures RunsOnSize(s, s.status.rollout.value.size)
  {
    var all := Ordinals(s.status.accepted.mode);
    assert s.status.nodes.Keys <= all;
    SubsetIsSmaller(s.status.nodes.Keys, all);
    forall o: nat | o < ExpectedProcessCount(s.status.accepted.mode)
      ensures o in s.status.nodes && CurrentNode(s, o) && s.pods[o].size == s.status.rollout.value.size
      ensures RolloutSteps.StatusReady(s.status, s.status.nodes[o])
    {
      assert o in all;
      assert RolloutSteps.ProcessReady(s.status, s.status.nodes[o], Facts(s));
      assert s.status.nodes[o].ordinal == o;
    }
  }

  /** The two ways a size becomes the applied one. */
  predicate SizeMayApply(s: State, t: State) {
    || FirstApplied(s.status, t.status)
    || (s.status.rollout.Some? && s.status.rollout.value.stage == Verifying && t.status.rollout.None?
        && t.status.applied == Some(Applied(s.status.accepted.mode, s.status.rollout.value.size))
        && RunsOnSize(s, s.status.rollout.value.size))
  }

  lemma RolloutApplies(s: State, closed: bool)
    requires Sound(s) && RolloutRuns(s.status) && RolloutStatus(s, closed).applied != s.status.applied
    ensures SizeMayApply(s, ReconcileRollout(s, closed))
  {
    hide RunsOnSize, RolloutSteps.CompositionReady, RolloutSteps.DecideRolling, RolloutSteps.DecideSwitch, Facts,
         AllStopped, RolloutYields, RolloutVictim;
    VerifiedApplies(s, closed);
    ReadyRunsOnSize(s);
  }

  lemma VerifiedApplies(s: State, closed: bool)
    requires RolloutRuns(s.status) && RolloutStatus(s, closed).applied != s.status.applied
    ensures s.status.rollout.value.stage == Verifying && RolloutSteps.CompositionReady(s.status, Facts(s))
  {
    hide RolloutSteps.CompositionReady, RolloutSteps.DecideRolling, RolloutSteps.DecideSwitch, Facts, AllStopped;
  }

  lemma AdmissionApplies(s: State, ds: Deliveries, routed: bool)
    requires ReconcileAppAdmission(s, ds, routed).status.applied != s.status.applied
    ensures SizeMayApply(s, ReconcileAppAdmission(s, ds, routed))
  {
    hide ReconcileAppAdmission;
  }

  lemma OperationApplies(s: State, operation: Operation)
    requires Sound(s) && CanOperate(s, operation)
    requires AfterOperation(s, operation).status.applied != s.status.applied
    ensures SizeMayApply(s, AfterOperation(s, operation))
  {
    hide Sound, RunsOnSize, ReconcileAppAdmission, CanRotate, CanClose, SizeMayApply, FailoverMove, FailoverWorld,
         RotationReply, RotationConfirmed, RotationHashes, ReplicasOrder, Upstream, Open, MustAdmitReplica, KeepsCourse,
         RolloutYields, RolloutVictim, RolloutStatus, InitialDecision, KeepsEntries, SameProcesses;
    match operation
    case RolloutStep(closed) => RolloutApplies(s, closed);
    case AppAdmissionStep(ds, routed) => AdmissionApplies(s, ds, routed);
    case _ =>
  }

  lemma StepApplies(s: State, step: Step)
    requires Sound(s) && Enabled(s, step) && After(s, step).status.applied != s.status.applied
    ensures SizeMayApply(s, After(s, step))
  {
    hide Sound, SizeMayApply, AfterOperation, AfterWatch, AfterRemoval, AfterRequest, Happen;
    match step
    case Operate(operation) => OperationApplies(s, operation);
    case _ =>
  }

  /**
   The applied size changes only with the first admission of clients, or at the end of a rollout while
   every expected process is ready and open in a live pod of the new size.
   */
  lemma SizeAppliesOnlyWhenReady(run: seq<State>, i: nat)
    requires IsRun(run) && i + 1 < |run| && run[i + 1].status.applied != run[i].status.applied
    ensures SizeMayApply(run[i], run[i + 1])
  {
    hide Sound, SizeMayApply, Enabled, After;
    RunsAreSound(run, i);
    assert Next(run[i], run[i + 1]);
    var step :| Enabled(run[i], step) && run[i + 1] == After(run[i], step);
    StepApplies(run[i], step);
  }

  // ---- when the primary is taken out of the status ----

  /** Nothing that was ever listed still runs, and no pod is left. */
  ghost predicate EverythingStopped(s: State) {
    s.pods == map[] && forall u :: u in s.world && Listed(s.status, s.world[u]) ==> !s.world[u].alive
  }

  predicate Clears(a: Status, b: Status) { a.primaryOrdinal.Some? && b.primaryOrdinal.None? }

  lemma StoppedRolloutClears(s: State, closed: bool)
    requires Sound(s) && RolloutRuns(s.status) && Clears(s.status, RolloutStatus(s, closed))
    ensures s.status.rollout.value.stage == Stopping && s.status.rollout.value.accessClosed && EverythingStopped(s)
  {
    ClearingStopped(s, closed);
    forall u | u in s.world ensures Listed(s.status, s.world[u]) ==> !s.world[u].alive {
      ListedIsStopped(s, u);
    }
  }

  lemma ClearingStopped(s: State, closed: bool)
    requires RolloutRuns(s.status) && Clears(s.status, RolloutStatus(s, closed))
    ensures s.status.rollout.value.stage == Stopping && s.status.rollout.value.accessClosed && AllStopped(s)
  {
    hide RolloutSteps.CompositionReady, RolloutSteps.DecideRolling, RolloutSteps.DecideSwitch, Facts, AllStopped,
         Availability.ApplyOperationalPhase;
  }

  /** A failover clears the primary only to start over empty, when no live process can be written to. */
  lemma FailoverClears(s: State, ds: Deliveries, now: Time)
    requires Good(s) && s.at == AtFailover && Clears(s.status, ReconcileFailover(s, ds, now).status)
    ensures FailoverMove(s, ds, now).StartEmpty?
    ensures OnlyHot(ReconcileFailover(s, ds, now).world, 0)
  {
    var c := Commanded(s, ds);
    CommandsKeepSafe(s, ds);
    CommandsTellTheTruth(s, ds);
    DecisionIsGranted(c, CommandsDone(s, ds), PrimaryPod(s), now);
    EmptyMeansNothingHot(c);
  }

  /** The reasons for which a step may take the primary out of the status. */
  ghost predicate MayClear(s: State, t: State) {
    || (Workload.RequiresFullStop(s.status) && s.status.rollout.value.stage == Stopping && EverythingStopped(s))
    || (t.status.reason == EmptyRecovery && t.status.failover.None? && OnlyHot(t.world, 0))
  }

  lemma OperationClears(s: State, operation: Operation)
    requires Good(s) && CanOperate(s, operation) && Clears(s.status, AfterOperation(s, operation).status)
    ensures MayClear(s, AfterOperation(s, operation))
  {
    hide Good, MayClear;
    if operation.FailoverStep? {
      FailoverMayClear(s, operation.ds, operation.now);
    } else if operation.RolloutStep? {
      RolloutClears(s, operation.closed);
    }
  }

  lemma FailoverMayClear(s: State, ds: Deliveries, now: Time)
    requires Good(s) && s.at == AtFailover && Clears(s.status, ReconcileFailover(s, ds, now).status)
    ensures MayClear(s, ReconcileFailover(s, ds, now))
  {
    hide Good, FailoverMove, FailoverWorld;
    FailoverClears(s, ds, now);
  }

  lemma RolloutClears(s: State, closed: bool)
    requires Good(s) && Clears(s.status, ReconcileRollout(s, closed).status)
    ensures MayClear(s, ReconcileRollout(s, closed))
  {
    hide RolloutStatus, RolloutYields, RolloutVictim;
    StoppedRolloutClears(s, closed);
  }

  lemma StepClears(s: State, step: Step)
    requires Good(s) && Enabled(s, step) && Clears(s.status, After(s, step).status)
    ensures MayClear(s, After(s, step))
  {
    hide Good, MayClear, AfterOperation, AfterWatch, AfterRemoval, AfterRequest, Happen;
    match step
    case Operate(operation) => OperationClears(s, operation);
    case _ =>
  }

  /**
   The status stops naming a primary only at the end of a full stop, after every listed process ended and
   every pod name is free, or to start over empty, while clients can write to no live process.
   */
  lemma PrimaryIsClearedOnlyWhenSafe(run: seq<State>, i: nat)
    requires IsRun(run) && i + 1 < |run| && Clears(run[i].status, run[i + 1].status)
    ensures MayClear(run[i], run[i + 1])
  {
    hide Good, MayClear, Enabled, After;
    RunsAreGood(run, i);
    assert Next(run[i], run[i + 1]);
    var step :| Enabled(run[i], step) && run[i + 1] == After(run[i], step);
    StepClears(run[i], step);
  }
}
