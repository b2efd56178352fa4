/**
 The gate of a password rotation.  In every run each live process that clients can reach accepts only a
 password version that is current, or, while its rotation is not confirmed, the one before; and the
 previous hash leaves the Secret only when no live process accepts it any more.
 */
module RotationGate {
  import opened Options
  import opened OperatorTypes
  import opened Session
  import opened Operator
  import opened Shape
  import opened OperationOrder
  import opened SingleWriter
  import RotationSteps

  /** Clients of this process use, or will be let in with, only these password versions. */
  predicate Within(p: Proc, versions: set<int>) {
    && (p.appOn ==> p.version in versions) && p.clients <= versions
    && (p.pending.Some? ==>
        match p.pending.value
        case SetApp(on, version) => on ==> version in versions
        case RotateApp(version) => version in versions
        case _ => true)
  }

  /** The versions a process may still accept. */
  function Allowed(status: Status, id: Identity): set<int> {
    if status.rotation.Some? && status.rotation.value.stage != CleaningSecret
      && !RotationSteps.Confirmed(status.rotation.value, id)
    then {status.rotation.value.previous, status.accepted.passwordVersion}
    else {status.accepted.passwordVersion}
  }

  ghost predicate AllWithin(status: Status, world: map<Uid, Proc>) {
    forall u :: u in world && world[u].alive ==> Within(world[u], Allowed(status, world[u].id))
  }

  /** The rotation leads to the accepted version, and the Secret holds every version that may be in use. */
  predicate HashesHeld(status: Status, hashes: set<int>) {
    && status.accepted.passwordVersion in hashes
    && (status.rotation.Some? ==>
        && status.rotation.value.target == status.accepted.passwordVersion
        && status.rotation.value.previous != status.rotation.value.target
        && (status.rotation.value.stage != CleaningSecret ==> status.rotation.value.previous in hashes))
  }

  ghost predicate Gated(s: State) {
    AllWithin(s.status, s.world) && HashesHeld(s.status, s.hashes)
  }

  // ---- commands ----

  lemma WiderIsWithin(p: Proc, a: set<int>, b: set<int>)
    requires Within(p, a) && a <= b
    ensures Within(p, b)
  {
  }

  lemma SendingIsWithin(p: Proc, c: Command, d: Delivery, versions: set<int>)
    requires Within(p, versions)
    requires c.SetApp? && c.on ==> c.version in versions
    requires c.RotateApp? ==> c.version in versions
    ensures Within(Send(p, c, d).proc, versions)
  {
  }

  lemma ControlIsWithin(p: Proc, d: Delivery, versions: set<int>)
    requires Within(p, versions)
    ensures Within(TakeControl(p, d).proc, versions)
  {
  }

  lemma ClosingIsWithin(p: Proc, version: int, ds: Deliveries, versions: set<int>)
    requires Within(p, versions)
    ensures Within(CloseAccess(p, version, ds).proc, versions)
  {
    hide Within, Send, TakeControl;
    var off := Send(p, SetApp(false, version), At(ds, 1));
    SendingIsWithin(p, SetApp(false, version), At(ds, 1), versions);
    SendingIsWithin(off.proc, KillApp, At(ds, 2), versions);
    ControlIsWithin(Send(off.proc, KillApp, At(ds, 2)).proc, At(ds, 3), versions);
  }

  lemma AccessIsWithin(p: Proc, enabled: bool, version: int, ds: Deliveries, versions: set<int>)
    requires Within(p, versions) && version in versions
    ensures Within(UpdateAppAccess(p, enabled, version, ds).proc, versions)
  {
    hide Within, Send, TakeControl, CloseAccess;
    var control := TakeControl(p, At(ds, 0)).proc;
    ControlIsWithin(p, At(ds, 0), versions);
    SendingIsWithin(control, KillApp, At(ds, 1), versions);
    ClosingIsWithin(control, version, ds, versions);
    var ready := if enabled && control.version != version then CloseAccess(control, version, ds).proc else control;
    var toggled := Send(ready, SetApp(enabled, version), At(ds, 4)).proc;
    SendingIsWithin(ready, SetApp(enabled, version), At(ds, 4), versions);
    SendingIsWithin(toggled, KillApp, At(ds, 5), versions);
    var killed := if enabled then toggled else Send(toggled, KillApp, At(ds, 5)).proc;
    ControlIsWithin(killed, At(ds, 6), versions);
  }

  lemma RoleCommandsAreWithin(p: Proc, upstream: Uid, ds: Deliveries, versions: set<int>)
    requires Within(p, versions)
    ensures Within(PromoteProcess(p, ds).proc, versions) && Within(FollowProcess(p, upstream, ds).proc, versions)
    ensures Within(TakeControl(p, Answered).proc, versions)
  {
  }

  lemma RotationIsWithin(p: Proc, version: int, ds: Deliveries, versions: set<int>)
    requires Within(p, versions) && version in versions
    ensures
      var r := RotatePassword(p, version, ds);
      Within(r.proc, versions) && (r.ok ==> Within(r.proc, {version}))
  {
    RotationReplacesHash(p, version, ds);
  }

  lemma EventIsWithin(p: Proc, versions: set<int>)
    requires Within(p, versions)
    ensures p.pending.Some? ==> Within(Execute(p.(pending := None), p.pending.value), versions)
    ensures p.appOn ==> Within(p.(clients := p.clients + {p.version}), versions)
  {
  }

  // ---- steps ----

  /** Nothing changes in which versions are allowed; one process may have taken commands. */
  predicate SameRotation(a: Status, b: Status) {
    b.rotation == a.rotation && b.accepted.passwordVersion == a.accepted.passwordVersion
  }

  lemma CommandKeepsGate(s: State, t: State, id: Identity, q: Proc)
    requires Gated(s) && Real(s, id) && Same(ProcOf(s, id), q) && SameRotation(s.status, t.status)
    requires t.world == Put(s, id, q) && t.hashes == s.hashes
    requires ProcOf(s, id).alive ==> Within(q, Allowed(s.status, id))
    ensures Gated(t)
  {
  }

  lemma StatusKeepsGate(s: State, t: State)
    requires Gated(s) && t.world == s.world && SameRotation(s.status, t.status) && t.hashes == s.hashes
    ensures Gated(t)
  {
  }

  lemma AccessKeepsGate(s: State, t: State, id: Identity, enabled: bool, ds: Deliveries)
    requires Gated(s) && Real(s, id) && SameRotation(s.status, t.status) && t.hashes == s.hashes
    requires t.world ==
      Put(s, id, UpdateAppAccess(ProcOf(s, id), enabled, s.status.accepted.passwordVersion, ds).proc)
    ensures Gated(t)
  {
    if ProcOf(s, id).alive {
      AccessIsWithin(ProcOf(s, id), enabled, s.status.accepted.passwordVersion, ds, Allowed(s.status, id));
    }
  }

  lemma WorldKeepsGate(s: State, step: WorldStep)
    requires Gated(s) && CanHappen(s, step)
    ensures Gated(Happen(s, step))
  {
    hide Gated;
    match step
    case ProcessStarts(ordinal, id, version) => StartKeepsGate(s, ordinal, id, version);
    case ProcessDies(id) => DeathKeepsGate(s, id);
    case CommandArrives(id) => EventKeepsGate(s, id);
    case ClientConnects(id) => EventKeepsGate(s, id);
    case _ => StatusKeepsGate(s, Happen(s, step));
  }

  lemma StartKeepsGate(s: State, ordinal: nat, id: Identity, version: int)
    requires Gated(s) && CanStartProcess(s, ordinal, id)
    ensures Gated(StartProcess(s, ordinal, id, version))
  {
  }

  lemma DeathKeepsGate(s: State, id: Identity)
    requires Gated(s) && Alive(s, id)
    ensures Gated(Die(s, id))
  {
  }

  lemma EventKeepsGate(s: State, id: Identity)
    requires Gated(s)
    ensures CanDeliver(s, id) ==> Gated(Deliver(s, id))
    ensures CanConnect(s, id) ==> Gated(Connect(s, id))
  {
    if Alive(s, id) { EventIsWithin(ProcOf(s, id), Allowed(s.status, id)); }
  }

  lemma InspectionKeepsGate(s: State, o: nat, finding: Finding)
    requires Gated(s) && CanInspect(s, o, finding)
    ensures Gated(InspectFinding(s, o, finding))
  {
    hide Gated;
    var t := InspectFinding(s, o, finding);
    match finding
    case CloseApp(ds) => AccessKeepsGate(s, t, ContainerOf(s, o), false, ds);
    case Answer(replication, ready, control, gone) =>
      if control { ControlKeepsGate(s, t, ContainerOf(s, o)); } else { StatusKeepsGate(s, t); }
    case _ => StatusKeepsGate(s, t);
  }

  lemma ControlKeepsGate(s: State, t: State, id: Identity)
    requires Gated(s) && Alive(s, id) && SameRotation(s.status, t.status) && t.hashes == s.hashes
    requires t.world == Put(s, id, TakeControl(ProcOf(s, id), Answered).proc)
    ensures Gated(t)
  {
    ControlIsWithin(ProcOf(s, id), Answered, Allowed(s.status, id));
  }

  lemma AcceptKeepsGate(s: State, spec: Spec)
    requires Gated(s) && CanWatch(s, SpecRead(spec))
    ensures Gated(AfterWatch(s, SpecRead(spec)))
  {
    var t := AfterWatch(s, SpecRead(spec));
    forall u | u in t.world && t.world[u].alive ensures Within(t.world[u], Allowed(t.status, t.world[u].id)) {
      WiderIsWithin(s.world[u], Allowed(s.status, s.world[u].id), Allowed(t.status, s.world[u].id));
    }
  }

  lemma WatchKeepsGate(s: State, watch: Watch)
    requires Gated(s) && CanWatch(s, watch)
    ensures Gated(AfterWatch(s, watch))
  {
    hide Gated;
    match watch
    case SpecRead(spec) => AcceptKeepsGate(s, spec);
    case Inspected(o, finding) =>
      InspectionKeepsGate(s, o, finding);
      StatusKeepsGate(InspectFinding(s, o, finding), AfterWatch(s, watch));
    case _ => StatusKeepsGate(s, AfterWatch(s, watch));
  }

  // ---- the rotation itself ----

  lemma ConfirmationKeepsGate(s: State, id: Identity, ds: Deliveries)
    requires Sound(s) && Gated(s) && CanRotate(s, id)
    ensures Gated(Rotate(s, id, ds))
  {
    hide RotationSteps.Outstanding, KeepsCourse, LeavesAlone, SameProcesses;
    KnownIsSound(s, id);
    var t := Rotate(s, id, ds);
    var p := ProcOf(s, id);
    RotationIsWithin(p, s.status.accepted.passwordVersion, ds, Allowed(s.status, id));
    if RotationConfirmed(s, id, ds) {
      forall u | u in t.world && t.world[u].alive ensures Within(t.world[u], Allowed(t.status, t.world[u].id)) {
        if u != id.podUID { OthersKeepAllowance(s, id, s.world[u].id); }
      }
    }
  }

  /** Confirming one process changes nothing for the others. */
  lemma OthersKeepAllowance(s: State, id: Identity, other: Identity)
    requires Sound(s) && CanRotate(s, id) && other != id
    ensures
      Allowed(RotationSteps.Confirm(s.status, KnownProcess(s.status, id).value), other) == Allowed(s.status, other)
  {
    KnownIsSound(s, id);
  }

  /** Once both groups are complete, every live process accepts only the new version. */
  lemma CompleteMeansNew(s: State, u: Uid)
    requires Good(s) && Gated(s) && s.status.rotation.Some? && u in s.world && s.world[u].alive
    requires RotationSteps.RoleComplete(s.status, true) && RotationSteps.RoleComplete(s.status, false)
    ensures Within(s.world[u], {s.status.accepted.passwordVersion})
  {
    var p := s.world[u];
    if Listed(s.status, p) {
      if p.id in s.status.previous {
        assert EntrySound(s.world, s.status.previous[p.id]);
      } else {
        assert EntrySound(s.world, s.status.nodes[p.ordinal]);
      }
      assert RotationSteps.Confirmed(s.status.rotation.value, p.id);
    }
  }

  lemma StageKeepsGate(s: State)
    requires Good(s) && Gated(s) && RotationRuns(s.status) && s.status.rotation.value.stage != CleaningSecret
    ensures Gated(EndRotation(s))
  {
    var t := EndRotation(s);
    forall u | u in t.world && t.world[u].alive ensures Within(t.world[u], Allowed(t.status, t.world[u].id)) {
      if t.status.rotation.value.stage == CleaningSecret { CompleteMeansNew(s, u); }
    }
  }

  lemma CleaningKeepsGate(s: State)
    requires Gated(s) && (!RotationRuns(s.status) || s.status.rotation.value.stage == CleaningSecret)
    ensures Gated(EndRotation(s))
  {
    var t := EndRotation(s);
    assert forall id :: Allowed(t.status, id) == Allowed(s.status, id);
  }

  // ---- the other operations ----

  lemma FailoverKeepsGate(s: State, ds: Deliveries, now: Time)
    requires Gated(s)
    ensures Gated(ReconcileFailover(s, ds, now))
  {
    hide Gated, FailoverMove;
    var t := ReconcileFailover(s, ds, now);
    match FailoverOrder(s)
    case None => StatusKeepsGate(s, t);
    case Some(id) => FailoverCommandKeepsGate(s, t, id, ds);
  }

  lemma FailoverCommandKeepsGate(s: State, t: State, id: Identity, ds: Deliveries)
    requires Gated(s) && Alive(s, id) && SameRotation(s.status, t.status) && t.hashes == s.hashes
    requires t.world == Put(s, id, FailoverCommands(s, id, ds).proc)
    ensures Gated(t)
  {
    RoleCommandsAreWithin(ProcOf(s, id), 0, ds, Allowed(s.status, id));
    AccessIsWithin(ProcOf(s, id), false, s.status.accepted.passwordVersion, ds, Allowed(s.status, id));
    CommandKeepsGate(s, t, id, FailoverCommands(s, id, ds).proc);
  }

  lemma RoleCommandKeepsGate(s: State, t: State, id: Identity, upstream: Uid, ds: Deliveries)
    requires Gated(s) && Real(s, id) && SameRotation(s.status, t.status) && t.hashes == s.hashes
    requires
      || t.world == Put(s, id, PromoteProcess(ProcOf(s, id), ds).proc)
      || t.world == Put(s, id, FollowProcess(ProcOf(s, id), upstream, ds).proc)
    ensures Gated(t)
  {
    if ProcOf(s, id).alive { RoleCommandsAreWithin(ProcOf(s, id), upstream, ds, Allowed(s.status, id)); }
    var q := if t.world == Put(s, id, PromoteProcess(ProcOf(s, id), ds).proc)
      then PromoteProcess(ProcOf(s, id), ds).proc else FollowProcess(ProcOf(s, id), upstream, ds).proc;
    CommandKeepsGate(s, t, id, q);
  }

  lemma InitialPrimaryKeepsGate(s: State, ds: Deliveries)
    requires Gated(s)
    ensures Gated(ReconcileInitialPrimary(s, ds))
  {
    hide Gated, InitialDecision;
    var t := ReconcileInitialPrimary(s, ds);
    if InitialDecision(s).Command? && CurrentNode(s, 0) {
      RoleCommandKeepsGate(s, t, s.status.nodes[0].id, 0, ds);
    } else {
      StatusKeepsGate(s, t);
    }
  }

  lemma ReplicasKeepGate(s: State, ds: Deliveries)
    requires Gated(s)
    ensures Gated(ReconcileReplicas(s, ds))
  {
    hide Gated;
    var t := ReconcileReplicas(s, ds);
    match ReplicasOrder(s)
    case None => StatusKeepsGate(s, t);
    case Some(o) => RoleCommandKeepsGate(s, t, s.status.nodes[o].id, Upstream(s).value, ds);
  }

  lemma ReplicaAdmissionKeepsGate(s: State, ds: Deliveries, linked: bool)
    requires Gated(s)
    ensures Gated(ReconcileReplicaAdmission(s, ds, linked))
  {
    hide Gated;
    var t := ReconcileReplicaAdmission(s, ds, linked);
    match AdmissionTarget(s)
    case None => StatusKeepsGate(s, t);
    case Some(o) => AccessKeepsGate(s, t, s.status.nodes[o].id, true, ds);
  }

  lemma OpenPrimaryKeepsGate(s: State, node: NodeStatus, ds: Deliveries)
    requires Gated(s) && Real(s, node.id)
    ensures Gated(OpenPrimary(s, node, ds))
  {
    hide Gated, UpdateAppAccess;
    AccessKeepsGate(s, OpenPrimary(s, node, ds), node.id, true, ds);
  }

  lemma AppAdmissionKeepsGate(s: State, ds: Deliveries, routed: bool)
    requires Gated(s)
    ensures Gated(ReconcileAppAdmission(s, ds, routed))
  {
    hide Gated, OpenPrimary;
    var t := ReconcileAppAdmission(s, ds, routed);
    if PrimaryAdmissible(s) && routed && PrimaryToOpen(s).Some? {
      OpenPrimaryKeepsGate(s, PrimaryToOpen(s).value, ds);
    } else {
      StatusKeepsGate(s, t);
    }
  }

  lemma OperationKeepsGate(s: State, operation: Operation)
    requires Good(s) && Gated(s) && CanOperate(s, operation)
    ensures Gated(AfterOperation(s, operation))
  {
    hide Good, Gated;
    match operation
    case FailoverStep(ds, now) => FailoverKeepsGate(s, ds, now);
    case RotationCommand(id, ds) => GoodIsSound(s); ConfirmationKeepsGate(s, id, ds);
    case RotationDone =>
      if RotationRuns(s.status) && s.status.rotation.value.stage != CleaningSecret { StageKeepsGate(s); }
      else { CleaningKeepsGate(s); }
    case RolloutClose(o, ds) => AccessKeepsGate(s, Close(s, o, ds), s.status.nodes[o].id, false, ds);
    case RolloutStep(closed) => RolloutKeepsGate(s, closed);
    case InitialPrimaryStep(ds) => InitialPrimaryKeepsGate(s, ds);
    case ReplicasStep(ds) => ReplicasKeepGate(s, ds);
    case ReplicaAdmissionStep(ds, linked) => ReplicaAdmissionKeepsGate(s, ds, linked);
    case AppAdmissionStep(ds, routed) => AppAdmissionKeepsGate(s, ds, routed);
  }

  lemma RolloutKeepsGate(s: State, closed: bool)
    requires Gated(s)
    ensures Gated(ReconcileRollout(s, closed))
  {
    hide Gated, RolloutStatus, RolloutYields, RolloutVictim;
    StatusKeepsGate(s, ReconcileRollout(s, closed));
  }

  lemma GoodIsSound(s: State)
    requires Good(s)
    ensures Sound(s)
  {
  }

  lemma RemovalKeepsGate(s: State, removal: Removal)
    requires Gated(s) && CanRemove(s, removal)
    ensures Gated(AfterRemoval(s, removal))
  {
    hide Gated;
    match removal
    case DeletionCloses(o, ds) => AccessKeepsGate(s, AfterRemoval(s, removal), ContainerOf(s, o), false, ds);
    case DeletionInspects(o, finding) => InspectionKeepsGate(s, o, finding);
    case _ => StatusKeepsGate(s, AfterRemoval(s, removal));
  }

  lemma RequestKeepsGate(s: State, request: Request)
    requires Gated(s) && CanRequest(s, request)
    ensures Gated(AfterRequest(s, request))
  {
  }

  lemma StepKeepsGate(s: State, step: Step)
    requires Good(s) && Gated(s) && Enabled(s, step)
    ensures Gated(After(s, step))
  {
    hide Good, Gated;
    match step
    case World(world) => WorldKeepsGate(s, world);
    case Ask(request) => RequestKeepsGate(s, request);
    case Look(watch) => WatchKeepsGate(s, watch);
    case Operate(operation) => OperationKeepsGate(s, operation);
    case Remove(removal) => RemovalKeepsGate(s, removal);
  }

  lemma {:induction false} RunsAreGated(run: seq<State>, i: nat)
    requires IsRun(run) && i < |run|
    ensures Gated(run[i])
  {
    hide Good, Enabled, After;
    if i > 0 {
      RunsAreGated(run, i - 1);
      RunsAreGood(run, i - 1);
      assert Next(run[i - 1], run[i]);
      var step :| Enabled(run[i - 1], step) && run[i] == After(run[i - 1], step);
      StepKeepsGate(run[i - 1], step);
    }
  }

  // ---- the gate ----

  /**
   In every state of every run, a live process accepts, and its clients use, only the accepted password
   version or, until its rotation is confirmed, the previous one; the Secret holds all of these.
   */
  lemma OpenProcessesAcceptHeldVersions(run: seq<State>, i: nat, u: Uid)
    requires IsRun(run) && i < |run| && u in run[i].world && run[i].world[u].alive
    ensures
      var s, p := run[i], run[i].world[u];
      var versions := Allowed(s.status, p.id);
      && (p.appOn ==> p.version in versions) && p.clients <= versions && versions <= s.hashes
      && versions <= {s.status.accepted.passwordVersion} +
           (if s.status.rotation.Some? then {s.status.rotation.value.previous} else {})
  {
    RunsAreGated(run, i);
  }

  /** Nobody accepts this version, uses it, or will be told to accept it. */
  ghost predicate Unused(world: map<Uid, Proc>, version: int) {
    forall u :: u in world && world[u].alive ==>
      && !(world[u].appOn && world[u].version == version) && version !in world[u].clients
      && (world[u].pending.Some? && world[u].pending.value.SetApp? && world[u].pending.value.on ==>
            world[u].pending.value.version != version)
  }

  /** A hash leaves the Secret only in the last stage of a rotation away from it, when nobody uses it. */
  lemma HashIsRemovedWhenUnused(run: seq<State>, i: nat, version: int)
    requires IsRun(run) && i + 1 < |run| && version in run[i].hashes && version !in run[i + 1].hashes
    ensures run[i].status.rotation.Some? && run[i].status.rotation.value.stage == CleaningSecret
    ensures run[i].status.rotation.value.previous == version
    ensures Unused(run[i].world, version)
  {
    hide Enabled, After;
    RunsAreGated(run, i);
    assert Next(run[i], run[i + 1]);
    var step :| Enabled(run[i], step) && run[i + 1] == After(run[i], step);
    RemovalIsByRotation(run[i], step, version);
  }

  lemma RemovalIsByRotation(s: State, step: Step, version: int)
    requires Enabled(s, step) && version in s.hashes && version !in After(s, step).hashes
    ensures s.status.rotation.Some? && s.status.rotation.value.stage == CleaningSecret
    ensures s.status.rotation.value.previous == version
  {
    OnlyRotationEnds(s, step);
  }

  /** Every other step leaves the hashes in the Secret and the rotation under way. */
  lemma OnlyRotationEnds(s: State, step: Step)
    requires Enabled(s, step)
    ensures
      || step == Operate(RotationDone)
      || (s.hashes <= After(s, step).hashes && (s.status.rotation.Some? ==> After(s, step).status.rotation.Some?))
  {
    hide AfterWatch, AfterOperation, AfterRemoval, Happen;
  }

  /** The new version counts as applied only in the last stage, with the previous hash gone and unused. */
  lemma RotationFinishesAfterRemoval(run: seq<State>, i: nat)
    requires IsRun(run) && i + 1 < |run|
    requires run[i].status.rotation.Some? && run[i + 1].status.rotation.None?
    ensures run[i].status.rotation.value.stage == CleaningSecret
    ensures run[i].status.rotation.value.previous !in run[i].hashes
    ensures Unused(run[i].world, run[i].status.rotation.value.previous)
    ensures run[i + 1].status.appliedPasswordVersion == run[i].status.rotation.value.target
  {
    hide Enabled, After;
    RunsAreGated(run, i);
    assert Next(run[i], run[i + 1]);
    var step :| Enabled(run[i], step) && run[i + 1] == After(run[i], step);
    FinishIsByRotation(run[i], step);
  }

  lemma FinishIsByRotation(s: State, step: Step)
    requires Enabled(s, step) && s.status.rotation.Some? && After(s, step).status.rotation.None?
    ensures s.status.rotation.value.stage == CleaningSecret && s.status.rotation.value.previous !in s.hashes
    ensures After(s, step).status.appliedPasswordVersion == s.status.rotation.value.target
  {
    OnlyRotationEnds(s, step);
  }
}
