/**
 What the operator reports upwards.  In every run the generation it reports as observed is one whose size
 and password it applied, what counts as applied is the accepted configuration or the one before it, and
 every pod has one of these two sizes.
 */
module Confirmation {
  import opened Options
  import opened OperatorTypes
  import opened Session
  import opened Operator
  import opened Shape
  import opened RolloutSafety
  import Contract
  import Availability
  import Observation
  import Workload
  import FailoverSteps
  import RolloutSteps
  import RotationSteps

  function Target(status: Status): Applied { Applied(status.accepted.mode, status.accepted.size) }

  /** The accepted configuration is in force, and nothing is under way to change it. */
  predicate Settled(status: Status) {
    && status.applied == Some(Target(status)) && status.appliedPasswordVersion == status.accepted.passwordVersion
    && status.rollout.None? && status.rotation.None?
  }

  predicate SizeFollows(status: Status) {
    && (status.initialized <==> status.applied.Some?)
    && (status.applied.Some? ==> status.applied.value.mode == status.accepted.mode)
    && (status.rollout.Some? ==> status.initialized && status.rollout.value.size == status.accepted.size)
    && (status.rollout.None? && status.initialized ==> status.applied == Some(Target(status)))
  }

  predicate PasswordFollows(status: Status) {
    && (status.rotation.Some? ==>
        && status.initialized && status.rotation.value.target == status.accepted.passwordVersion
        && status.rotation.value.previous == status.appliedPasswordVersion)
    && (status.rotation.None? && status.initialized ==>
        status.appliedPasswordVersion == status.accepted.passwordVersion)
    && (!status.initialized ==> status.appliedPasswordVersion == 0)
  }

  /** An observed generation was applied. */
  predicate Reported(status: Status) {
    && 0 < status.accepted.generation
    && 0 <= status.observedGeneration <= status.accepted.generation
    && (status.observedGeneration == status.accepted.generation ==> Settled(status))
    && (!status.initialized ==> status.observedGeneration == 0)
    && SizeFollows(status) && PasswordFollows(status)
  }

  /** Every pod is of the applied or of the accepted size. */
  ghost predicate PodsSized(s: State) {
    forall o :: o in s.pods ==>
      && o < Count(s)
      && (s.pods[o].size == s.status.accepted.size ||
          (s.status.applied.Some? && s.pods[o].size == s.status.applied.value.size))
  }

  ghost predicate Truthful(s: State) { Reported(s.status) && PodsSized(s) }

  // ---- what one step does to it ----

  /** Towards the accepted configuration, and never back. */
  predicate Progress(a: Status, b: Status) {
    && b.accepted == a.accepted && a.observedGeneration <= b.observedGeneration
    && (b.applied == a.applied || b.applied == Some(Target(a)))
    && (b.appliedPasswordVersion == a.appliedPasswordVersion
        || b.appliedPasswordVersion == a.accepted.passwordVersion)
    && (b.rotation.Some? ==> SameVersions(a.rotation, b.rotation))
  }

  /** A new configuration is taken up once the one before it is in force. */
  predicate TakesUp(a: Status, b: Status, spec: Spec) {
    && Contract.NextAccepted(spec, a.accepted) == Contract.Candidate(b.accepted)
    && a.observedGeneration == a.accepted.generation && a.rotation.None?
    && b.applied == a.applied && b.appliedPasswordVersion == a.appliedPasswordVersion
    && b.observedGeneration in {a.observedGeneration, b.accepted.generation}
    && (b.rotation.Some? ==> b.rotation.value.previous == a.accepted.passwordVersion)
    && (b.rotation.None? ==> b.accepted.passwordVersion == a.accepted.passwordVersion)
  }

  /** The rotation under way, whatever its stage. */
  predicate SameVersions(a: Option<Rotation>, b: Option<Rotation>) {
    && (a.Some? <==> b.Some?)
    && (a.Some? ==> b.value.target == a.value.target && b.value.previous == a.value.previous)
  }

  predicate SameRolloutSize(a: Option<Rollout>, b: Option<Rollout>) {
    (a.Some? <==> b.Some?) && (a.Some? ==> b.value.size == a.value.size)
  }

  /** Nothing moves but the generation, which may be confirmed. */
  predicate Keeps(a: Status, b: Status) {
    && b.accepted == a.accepted && b.applied == a.applied && b.initialized == a.initialized
    && b.appliedPasswordVersion == a.appliedPasswordVersion
    && SameRolloutSize(a.rollout, b.rollout) && SameVersions(a.rotation, b.rotation)
    && (b.observedGeneration == a.observedGeneration
        || (b.observedGeneration == b.accepted.generation && b.initialized && Settled(b)))
  }

  lemma KeepingIsReported(a: Status, b: Status)
    requires Reported(a) && Keeps(a, b)
    ensures Reported(b) && Progress(a, b)
  {
  }

  lemma PhaseKeeps(status: Status)
    ensures Keeps(status, Availability.ApplyOperationalPhase(status))
  {
    hide Availability.PrimaryPubliclyReady, Availability.ReadyReplicaCount, HasUnterminatedPrevious;
  }

  lemma FailoverKeeps(status: Status, move: FailoverSteps.Move)
    ensures Keeps(status, FailoverSteps.Apply(status, move))
  {
    hide FailoverSteps.Write, FailoverSteps.FailoverAfter, FailoverSteps.PrimaryAfter, FailoverSteps.DataLossAfter,
         Availability.ApplyOperationalPhase;
    WritingConfirmsNothing(status, move);
    PhaseKeeps(FailoverSteps.Write(status, move));
  }

  lemma WritingConfirmsNothing(status: Status, move: FailoverSteps.Move)
    ensures FailoverSteps.Write(status, move).observedGeneration == status.observedGeneration
  {
    hide FailoverSteps.FailoverAfter, FailoverSteps.PrimaryAfter, FailoverSteps.DataLossAfter;
  }

  lemma AdmissionReports(status: Status, node: NodeStatus)
    requires Reported(status)
    ensures
      var r := Availability.FinishAppAdmission(status, node);
      Reported(r) && Progress(status, r)
  {
    hide Availability.ApplyOperationalPhase, SetPrimary, Availability.Admit;
    var admitted := SetPrimary(status, node).(
      initialized := true, publicReady := true, nodes := Availability.Admit(status, node));
    var first := if status.initialized then admitted else admitted.(
      appliedPasswordVersion := status.accepted.passwordVersion, applied := Some(Target(status)));
    SettingPrimaryKeeps(status, node);
    assert Reported(first) && Progress(status, first);
    PhaseKeeps(first);
    KeepingIsReported(first, Availability.ApplyOperationalPhase(first));
  }

  lemma SettingPrimaryKeeps(status: Status, node: NodeStatus)
    ensures SetPrimary(status, node) ==
      status.(primaryOrdinal := Some(node.ordinal), primaryId := node.id)
  {
  }

  lemma ReplicaAdmissionKeeps(status: Status, node: NodeStatus)
    ensures Keeps(status, Availability.FinishReplicaAdmission(status, node))
  {
    hide Availability.ApplyOperationalPhase;
    PhaseKeeps(status.(nodes := Availability.Admit(status, node)));
  }

  lemma RotationReports(s: State)
    requires Reported(s.status)
    ensures Reported(RotationStatus(s)) && Progress(s.status, RotationStatus(s))
  {
    hide Availability.ApplyOperationalPhase, RotationSteps.RoleComplete;
    if RotationRuns(s.status) && s.status.rotation.value.stage == CleaningSecret
      && s.status.rotation.value.previous !in s.hashes {
      var done := s.status.(appliedPasswordVersion := s.status.rotation.value.target, rotation := None);
      PhaseKeeps(done);
      KeepingIsReported(done, Availability.ApplyOperationalPhase(done));
    }
  }

  lemma FinishingReports(status: Status)
    requires Reported(status) && status.rollout.Some?
    ensures Reported(RolloutSteps.Finish(status)) && Progress(status, RolloutSteps.Finish(status))
  {
    hide Availability.ApplyOperationalPhase;
    var done := status.(applied := Some(Applied(status.accepted.mode, status.rollout.value.size)), rollout := None);
    PhaseKeeps(done);
    KeepingIsReported(done, Availability.ApplyOperationalPhase(done));
  }

  lemma RolloutReports(s: State, closed: bool)
    requires Reported(s.status) && RolloutRuns(s.status)
    ensures Reported(RolloutStatus(s, closed)) && Progress(s.status, RolloutStatus(s, closed))
  {
    hide RolloutSteps.CompositionReady, RolloutSteps.DecideRolling, RolloutSteps.DecideSwitch, Facts, AllStopped,
         RolloutSteps.Finish;
    if s.status.rollout.value.stage == Verifying {
      FinishingReports(s.status);
    } else {
      RolloutKeeps(s, closed);
      KeepingIsReported(s.status, RolloutStatus(s, closed));
    }
  }

  lemma RolloutKeeps(s: State, closed: bool)
    requires Reported(s.status) && RolloutRuns(s.status) && s.status.rollout.value.stage != Verifying
    ensures Keeps(s.status, RolloutStatus(s, closed))
  {
    hide RolloutSteps.CompositionReady, RolloutSteps.DecideRolling, RolloutSteps.DecideSwitch, Facts, AllStopped,
         RolloutSteps.SwitchPrimary, ReplacementStatus, Reported;
    match s.status.rollout.value.stage
    case ReplacingReplicas => ReplacementKeeps(s.status, RollingDecision(s), SwitchingPrimary);
    case ReplacingPrimary => ReplacementKeeps(s.status, RollingDecision(s), Verifying);
    case SwitchingPrimary => SwitchKeeps(s.status, RolloutSteps.DecideSwitch(s.status, Facts(s)));
    case _ =>
  }

  lemma ReplacementKeeps(status: Status, decision: RolloutSteps.Replacement, next: RolloutStage)
    requires status.rollout.Some?
    ensures Keeps(status, ReplacementStatus(status, decision, next))
  {
  }

  lemma SwitchKeeps(status: Status, decision: RolloutSteps.Switch)
    requires status.rollout.Some?
    ensures Keeps(status, RolloutSteps.SwitchPrimary(status, decision))
  {
  }

  lemma AcceptanceReports(status: Status, spec: Spec, hashes: set<int>)
    requires Reported(status)
    ensures
      var r := Contract.ReconcileAccepted(status, spec, hashes);
      Reported(r) && (r == status || TakesUp(status, r, spec))
  {
    hide Contract.Unchanged, Contract.ValidSize, Contract.RequiredFieldsPresent;
  }

  // ---- steps and the status ----

  /** Nothing of all this is touched. */
  predicate SameReport(a: Status, b: Status) {
    && b.accepted == a.accepted && b.applied == a.applied && b.initialized == a.initialized
    && b.appliedPasswordVersion == a.appliedPasswordVersion && b.observedGeneration == a.observedGeneration
    && b.rollout == a.rollout && SameVersions(a.rotation, b.rotation)
  }

  /** What a step other than taking up a configuration leaves behind. */
  predicate Advances(a: Status, b: Status) { Reported(b) && Progress(a, b) }

  lemma SameReportAdvances(a: Status, b: Status)
    requires Reported(a) && SameReport(a, b)
    ensures Advances(a, b)
  {
  }

  lemma InspectionReports(s: State, ordinal: nat, finding: Finding)
    requires CanInspect(s, ordinal, finding)
    ensures SameReport(s.status, InspectFinding(s, ordinal, finding).status)
  {
    hide InspectFinding, CanInspect;
  }

  lemma WatchAdvances(s: State, watch: Watch)
    requires CanWatch(s, watch) && !watch.SpecRead? && Reported(s.status)
    ensures Advances(s.status, AfterWatch(s, watch).status)
  {
    hide CanInspect, InspectFinding, Reported, Advances, Availability.ApplyOperationalPhase;
    SameReportAdvances(s.status, s.status);
    match watch
    case Inspected(ordinal, finding) =>
      InspectionReports(s, ordinal, finding);
      SameReportAdvances(s.status, AfterWatch(s, watch).status);
    case FencedManually(id) => SameReportAdvances(s.status, AfterWatch(s, watch).status);
    case HistoryPruned => SameReportAdvances(s.status, AfterWatch(s, watch).status);
    case PhaseApplied => PhaseAdvances(s.status);
    case _ =>
  }

  lemma PhaseAdvances(status: Status)
    requires Reported(status)
    ensures Advances(status, Availability.ApplyOperationalPhase(status))
  {
    hide Availability.ApplyOperationalPhase;
    PhaseKeeps(status);
    KeepingIsReported(status, Availability.ApplyOperationalPhase(status));
  }

  lemma PrimaryAdmissionAdvances(s: State, ds: Deliveries, routed: bool)
    requires Reported(s.status)
    ensures Advances(s.status, ReconcileAppAdmission(s, ds, routed).status)
  {
    hide Reported, Open, Availability.FinishAppAdmission, HasUnterminatedPrevious, PrimaryIdentityMatches;
    SameReportAdvances(s.status, s.status);
    SameReportAdvances(s.status, Availability.AdmissionPending(s.status));
    if PrimaryAdmissible(s) {
      AdmissionReports(s.status, s.status.nodes[SelectedPrimaryOrdinal(s.status).value]);
    }
  }

  lemma ReplicaAdmissionAdvances(s: State, ds: Deliveries, linked: bool)
    requires Reported(s.status)
    ensures Advances(s.status, ReconcileReplicaAdmission(s, ds, linked).status)
  {
    hide Reported, Open, AdmissionTarget, Availability.FinishReplicaAdmission;
    SameReportAdvances(s.status, s.status);
    if AdmissionTarget(s).Some? {
      var node := s.status.nodes[AdmissionTarget(s).value];
      ReplicaAdmissionKeeps(s.status, node);
      KeepingIsReported(s.status, Availability.FinishReplicaAdmission(s.status, node));
    }
  }

  lemma FailoverAdvances(s: State, ds: Deliveries, now: Time)
    requires Reported(s.status)
    ensures Advances(s.status, ReconcileFailover(s, ds, now).status)
  {
    hide Reported, FailoverMove, FailoverWorld, FailoverSteps.Apply;
    FailoverKeeps(s.status, FailoverMove(s, ds, now));
    KeepingIsReported(s.status, FailoverSteps.Apply(s.status, FailoverMove(s, ds, now)));
  }

  lemma RotatingAdvances(s: State, id: Identity, ds: Deliveries)
    requires CanRotate(s, id) && Reported(s.status)
    ensures Advances(s.status, Rotate(s, id, ds).status)
  {
    hide Reported, RotationConfirmed, RotationReply, RotationSteps.Outstanding, Addressable;
    SameReportAdvances(s.status, Rotate(s, id, ds).status);
  }

  lemma OperationAdvances(s: State, operation: Operation)
    requires CanOperate(s, operation) && Reported(s.status)
    ensures Advances(s.status, AfterOperation(s, operation).status)
  {
    hide Reported, ReconcileFailover, ReconcileAppAdmission, ReconcileReplicaAdmission, RolloutStatus, Progress,
         RotationStatus, RolloutYields, RolloutVictim, RotationHashes, Rotate, ReplicasOrder, InitialDecision,
         CanRotate, CanClose, RotationConfirmed, RotationReply;
    SameReportAdvances(s.status, s.status);
    match operation
    case FailoverStep(ds, now) => FailoverAdvances(s, ds, now);
    case RotationCommand(id, ds) => RotatingAdvances(s, id, ds);
    case RotationDone => RotationReports(s);
    case RolloutClose(ordinal, ds) =>
    case RolloutStep(closed) =>
      if RolloutRuns(s.status) { RolloutReports(s, closed); }
    case InitialPrimaryStep(ds) => SameReportAdvances(s.status, InitialStatus(s));
    case ReplicasStep(ds) =>
    case ReplicaAdmissionStep(ds, linked) => ReplicaAdmissionAdvances(s, ds, linked);
    case AppAdmissionStep(ds, routed) => PrimaryAdmissionAdvances(s, ds, routed);
  }

  lemma RemovalAdvances(s: State, removal: Removal)
    requires CanRemove(s, removal) && Reported(s.status)
    ensures Advances(s.status, AfterRemoval(s, removal).status)
  {
    hide Reported, InspectFinding, CanInspect, CanCopyProof, DeletionVerified;
    if removal.DeletionInspects? { InspectionReports(s, removal.ordinal, removal.finding); }
    SameReportAdvances(s.status, AfterRemoval(s, removal).status);
  }

  // ---- steps and the pods ----

  /** The same pods or fewer; a pod that took over a name has the size of the one before it. */
  predicate SizesKept(a: map<nat, Pod>, b: map<nat, Pod>) {
    forall o :: o in b ==> o in a && b[o].size == a[o].size
  }

  lemma SizesKeptIsSized(s: State, t: State)
    requires PodsSized(s) && SizesKept(s.pods, t.pods) && t.status.accepted == s.status.accepted
    requires t.status.applied == s.status.applied || s.status.applied.None?
    ensures PodsSized(t)
  {
  }

  lemma HappeningKeepsSizes(s: State, world: WorldStep)
    requires CanHappen(s, world)
    ensures SizesKept(s.pods, Happen(s, world).pods)
  {
  }

  lemma InspectionKeepsSizes(s: State, ordinal: nat, finding: Finding)
    requires CanInspect(s, ordinal, finding)
    ensures SizesKept(s.pods, InspectFinding(s, ordinal, finding).pods)
  {
    hide CurrentNode, MustCloseOnInspection, Observation.RecordSeen, Observation.SaveContainerTermination,
         InspectMissing, InspectSilent, KeepsCourse, SameProcesses;
  }

  lemma WatchKeepsSizes(s: State, watch: Watch)
    requires CanWatch(s, watch) && !watch.PodCreated?
    ensures SizesKept(s.pods, AfterWatch(s, watch).pods)
  {
    hide CanInspect, InspectFinding, Contract.ReconcileAccepted;
    if watch.Inspected? { InspectionKeepsSizes(s, watch.ordinal, watch.finding); }
  }

  lemma OperationKeepsSizes(s: State, operation: Operation)
    requires CanOperate(s, operation)
    ensures SizesKept(s.pods, AfterOperation(s, operation).pods)
  {
    hide CanOperate, ReconcileFailover, EndRotation, ReconcileInitialPrimary, ReconcileReplicas,
         ReconcileReplicaAdmission, ReconcileAppAdmission, Rotate, Close, RolloutStatus, RolloutYields;
    OnlyRolloutsTouchPods(s, operation);
  }

  lemma RemovalKeepsSizes(s: State, removal: Removal)
    requires CanRemove(s, removal)
    ensures SizesKept(s.pods, AfterRemoval(s, removal).pods)
  {
    hide InspectFinding, CanInspect, CanCopyProof, DeletionVerified;
    if removal.DeletionInspects? { InspectionKeepsSizes(s, removal.ordinal, removal.finding); }
  }

  lemma CreationIsSized(s: State, ordinal: nat)
    requires Truthful(s) && CanCreatePod(s, ordinal)
    ensures PodsSized(CreatePod(s, ordinal))
  {
    hide Workload.ProcessCreationAllowed, Workload.UsesTargetTemplate;
  }

  /** The size that becomes the applied one is the size of every pod. */
  lemma ApplyingIsSized(s: State, t: State)
    requires PodsSized(s) && SizesKept(s.pods, t.pods) && t.status.accepted == s.status.accepted
    requires s.status.rollout.Some? && s.status.rollout.value.size == s.status.accepted.size
    requires t.status.applied == Some(Target(s.status)) && RunsOnSize(s, s.status.rollout.value.size)
    ensures PodsSized(t)
  {
    forall o | o in t.pods ensures o < Count(t) && t.pods[o].size == t.status.accepted.size {
      assert o in s.pods;
    }
  }

  lemma OperationKeepsSized(s: State, operation: Operation)
    requires Sound(s) && Truthful(s) && CanOperate(s, operation)
    ensures PodsSized(AfterOperation(s, operation))
  {
    hide Sound, PodsSized, SizesKept, RunsOnSize, AfterOperation, CanOperate;
    var t := AfterOperation(s, operation);
    OperationAdvances(s, operation);
    OperationKeepsSizes(s, operation);
    if t.status.applied == s.status.applied || s.status.applied.None? {
      SizesKeptIsSized(s, t);
    } else {
      OperationApplies(s, operation);
      ApplyingIsSized(s, t);
    }
  }

  lemma AcceptanceIsSized(s: State, spec: Spec)
    requires Truthful(s) && CanWatch(s, SpecRead(spec))
    ensures PodsSized(AfterWatch(s, SpecRead(spec)))
  {
    hide Contract.ReconcileAccepted;
    AcceptanceReports(s.status, spec, s.hashes);
    var t := AfterWatch(s, SpecRead(spec));
    if t.status != s.status { assert Settled(s.status); }
  }

  lemma StepKeepsTruthful(s: State, step: Step)
    requires Sound(s) && Truthful(s) && Enabled(s, step)
    ensures Truthful(After(s, step))
  {
    hide Sound, Reported, PodsSized, SizesKept, CanHappen, CanWatch, CanOperate, CanRemove, Happen, AfterOperation,
         AfterRemoval, InspectFinding, Contract.ReconcileAccepted, Availability.ApplyOperationalPhase;
    var t := After(s, step);
    StepReports(s, step);
    match step
    case World(world) =>
      HappeningKeepsSizes(s, world);
      SizesKeptIsSized(s, t);
    case Ask(request) =>
      RequestKeepsSizes(s, request);
      SizesKeptIsSized(s, t);
    case Look(watch) => WatchKeepsSized(s, watch);
    case Operate(operation) => OperationKeepsSized(s, operation);
    case Remove(removal) =>
      RemovalAdvances(s, removal);
      RemovalKeepsSizes(s, removal);
      SizesKeptIsSized(s, t);
  }

  lemma WatchKeepsSized(s: State, watch: Watch)
    requires Truthful(s) && CanWatch(s, watch)
    ensures PodsSized(AfterWatch(s, watch))
  {
    hide Reported, PodsSized, SizesKept, CanInspect, InspectFinding, Contract.ReconcileAccepted;
    match watch
    case SpecRead(spec) => AcceptanceIsSized(s, spec);
    case PodCreated(ordinal) => CreationIsSized(s, ordinal);
    case _ =>
      WatchAdvances(s, watch);
      WatchKeepsSizes(s, watch);
      SizesKeptIsSized(s, AfterWatch(s, watch));
  }

  lemma RequestKeepsSizes(s: State, request: Request)
    requires CanRequest(s, request)
    ensures SizesKept(s.pods, AfterRequest(s, request).pods)
  {
  }

  /** Every step advances, or takes up the configuration it read. */
  lemma StepReports(s: State, step: Step)
    requires Reported(s.status) && Enabled(s, step)
    ensures Reported(After(s, step).status)
    ensures
      || Progress(s.status, After(s, step).status)
      || (step.Look? && step.watch.SpecRead? && TakesUp(s.status, After(s, step).status, step.watch.spec))
  {
    hide Reported, AfterOperation, AfterRemoval, InspectFinding, CanInspect, CanOperate, CanRemove,
         Contract.ReconcileAccepted, Availability.ApplyOperationalPhase;
    SameReportAdvances(s.status, s.status);
    match step
    case Look(watch) =>
      if watch.SpecRead? {
        AcceptanceReports(s.status, watch.spec, s.hashes);
      } else {
        WatchAdvances(s, watch);
      }
    case Operate(operation) => OperationAdvances(s, operation);
    case Remove(removal) => RemovalAdvances(s, removal);
    case _ =>
  }

  lemma StartIsTruthful(accepted: Accepted)
    requires 0 < accepted.generation
    ensures Truthful(Initial(accepted))
  {
  }

  /** In every state of every run a generation reported as observed is in force, and every pod is sized for it. */
  lemma {:induction false} RunsAreTruthful(run: seq<State>, i: nat)
    requires IsRun(run) && i < |run| && 0 < run[0].status.accepted.generation
    ensures Truthful(run[i])
  {
    hide Sound, Truthful, Enabled, After;
    if i == 0 {
      StartIsTruthful(run[0].status.accepted);
    } else {
      RunsAreTruthful(run, i - 1);
      RunsAreSound(run, i - 1);
      assert Next(run[i - 1], run[i]);
      var step :| Enabled(run[i - 1], step) && run[i] == After(run[i - 1], step);
      StepKeepsTruthful(run[i - 1], step);
    }
  }
}
