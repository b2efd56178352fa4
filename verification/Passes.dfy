/**
 Runs put together step by step.  Each lemma takes a state that some run reaches over one step, or over the
 steps of a pass that do nothing special, so that an example of a run only has to say what is found, decided
 and written.
 */
module Passes {
  import opened Options
  import opened OperatorTypes
  import opened Operator
  import Session
  import Contract
  import Observation
  import FailoverSteps
  import Workload

  const ALL_ANSWERED :=
    [Session.Answered, Session.Answered, Session.Answered, Session.Answered, Session.Answered, Session.Answered,
     Session.Answered]

  /** Some run ends in this state. */
  ghost predicate Reached(s: State) {
    exists run :: IsRun(run) && run[|run| - 1] == s
  }

  ghost predicate Leads(s: State, t: State, step: Step) { Enabled(s, step) && t == After(s, step) }

  lemma Begin(s: State, spec: Spec)
    requires Starts(s, spec)
    ensures Reached(s)
  {
    var run := [s];
    assert Starts(run[0], spec);
    assert IsRun(run);
  }

  lemma Extend(run: seq<State>, t: State, step: Step) returns (longer: seq<State>)
    requires IsRun(run) && Leads(run[|run| - 1], t, step)
    ensures IsRun(longer) && longer == run + [t]
  {
    hide Enabled, After;
    longer := run + [t];
    assert longer[0] == run[0];
    forall k | 0 <= k < |longer| - 1 ensures Next(longer[k], longer[k + 1]) {
      if k < |run| - 1 { assert Next(run[k], run[k + 1]); }
    }
  }

  lemma Go(s: State, t: State, step: Step)
    requires Reached(s) && Leads(s, t, step)
    ensures Reached(t)
  {
    hide Leads, Next, Starts;
    var run :| IsRun(run) && run[|run| - 1] == s;
    var longer := Extend(run, t, step);
    assert longer[|longer| - 1] == t;
  }

  // ---- what happens around the operator ----

  lemma Happens(s: State, step: WorldStep)
    requires Reached(s) && CanHappen(s, step)
    ensures Reached(Happen(s, step))
  {
    hide Reached, CanHappen, Happen;
    Go(s, Happen(s, step), World(step));
  }

  /** The pass ends; the next one starts over. */
  lemma Restarts(s: State)
    requires Reached(s) && s.finalizer
    ensures Reached(s.(at := Idle, seen := {}))
  {
    hide Reached, AfterWatch, AfterOperation, AfterRemoval, Happen;
    Go(s, s.(at := Idle, seen := {}), Ask(Interrupted(s.startedAt)));
  }

  // ---- the steps of a pass ----

  lemma Reads(s: State, spec: Spec)
    requires Reached(s) && s.at == Idle && s.finalizer && !s.deleting
    ensures
      var status := Contract.ReconcileAccepted(s.status, spec, s.hashes);
      Reached(End(s, status, s.world, if status == s.status then AtWorkload else Idle))
  {
    hide Reached, AfterOperation, AfterRemoval, Happen, AfterRequest, Contract.ReconcileAccepted;
    var status := Contract.ReconcileAccepted(s.status, spec, s.hashes);
    Go(s, End(s, status, s.world, if status == s.status then AtWorkload else Idle), Look(SpecRead(spec)));
  }

  lemma Creates(s: State, o: nat)
    requires Reached(s) && s.at == AtWorkload && s.finalizer && CanCreatePod(s, o)
    ensures Reached(CreatePod(s, o))
  {
    hide Reached, AfterOperation, AfterRemoval, Happen, AfterRequest, CanCreatePod, CreatePod;
    Go(s, CreatePod(s, o), Look(PodCreated(o)));
  }

  lemma StartsInspecting(s: State)
    requires Reached(s) && s.at == AtWorkload && s.finalizer
    ensures Reached(s.(at := AtInspection))
  {
    hide Reached, AfterOperation, AfterRemoval, Happen, AfterRequest;
    Go(s, s.(at := AtInspection), Look(WorkloadDone));
  }

  lemma Inspects(s: State, o: nat, finding: Finding)
    requires Reached(s) && s.at == AtInspection && s.finalizer && o !in s.seen
    requires o < ExpectedProcessCount(s.status.accepted.mode) && CanInspect(s, o, finding)
    ensures Reached(Inspect(s, o, finding))
  {
    hide Reached, AfterOperation, AfterRemoval, Happen, AfterRequest, CanInspect, Inspect;
    Go(s, Inspect(s, o, finding), Look(Inspected(o, finding)));
  }

  lemma StopsInspecting(s: State)
    requires Reached(s) && s.at == AtInspection && s.finalizer && AllSeen(s)
    ensures Reached(s.(at := AtFailover))
  {
    hide Reached, AfterOperation, AfterRemoval, Happen, AfterRequest, AllSeen;
    Go(s, s.(at := AtManualFencing), Look(InspectionDone));
    Go(s.(at := AtManualFencing), s.(at := AtFailover), Look(ManualFencingDone));
  }

  lemma Operates(s: State, operation: Operation)
    requires Reached(s) && s.finalizer && CanOperate(s, operation)
    ensures Reached(AfterOperation(s, operation))
  {
    hide Reached, CanOperate, AfterOperation, AfterWatch, AfterRemoval, Happen, AfterRequest;
    Go(s, AfterOperation(s, operation), Operate(operation));
  }

  /** Without a rotation its part of the pass does nothing. */
  lemma SkipsRotation(s: State)
    requires Reached(s) && s.finalizer && s.at == AtRotation && s.status.rotation.None?
    ensures Reached(s.(at := AtRollout))
  {
    hide Reached, ReconcileFailover, Rotate, Close, ReconcileRollout, ReconcileInitialPrimary, ReconcileReplicas,
         ReconcileReplicaAdmission, ReconcileAppAdmission, CanRotate, CanClose;
    Operates(s, RotationDone);
    assert EndRotation(s) == s.(at := AtRollout);
  }

  /** Without a failover, and with a primary that has not failed, its part of the pass does nothing either. */
  lemma SkipsFailover(s: State)
    requires Reached(s) && s.finalizer && s.at == AtFailover && s.status.accepted.mode == HA
    requires s.status.failover.None? && s.status.rotation.None? && !Workload.FullStopOwnsAvailability(s.status)
    requires s.status.initialized ==>
      && s.status.primaryOrdinal.Some? && KnownProcess(s.status, s.status.primaryId).Some?
      && !FailoverSteps.Failed(KnownProcess(s.status, s.status.primaryId).value, 0)
    ensures Reached(s.(at := AtRollout))
  {
    hide Reached, Rotate, Close, ReconcileRollout, ReconcileInitialPrimary, ReconcileReplicas, EndRotation,
         ReconcileReplicaAdmission, ReconcileAppAdmission, CanRotate, CanClose, KnownProcess, FailoverSteps.Failed;
    Operates(s, FailoverStep([], 0));
    assert ReconcileFailover(s, [], 0) == s.(at := AtRotation);
    SkipsRotation(s.(at := AtRotation));
  }

  lemma SkipsRollout(s: State)
    requires Reached(s) && s.finalizer && s.at == AtRollout && !RolloutRuns(s.status)
    ensures Reached(s.(at := AtInitialPrimary))
  {
    hide Reached, Rotate, Close, ReconcileFailover, ReconcileInitialPrimary, ReconcileReplicas, EndRotation,
         ReconcileReplicaAdmission, ReconcileAppAdmission, CanRotate, CanClose, RolloutStatus;
    Operates(s, RolloutStep(false));
    assert ReconcileRollout(s, false) == s.(at := AtInitialPrimary);
  }

  /** With a primary and no replica to re-point, the topology needs nothing. */
  lemma SkipsTopology(s: State)
    requires Reached(s) && s.finalizer && s.at == AtInitialPrimary && s.status.accepted.mode == HA
    requires InitialDecision(s).Done? && Upstream(s).Some? && ReplicasOrder(s).None?
    ensures Reached(s.(at := AtReplicaAdmission))
  {
    hide Reached, Rotate, Close, ReconcileFailover, ReconcileRollout, EndRotation, ReconcileReplicaAdmission,
         ReconcileAppAdmission, CanRotate, CanClose, InitialDecision, Upstream, ReplicasOrder;
    Operates(s, InitialPrimaryStep([]));
    assert ReconcileInitialPrimary(s, []) == s.(at := AtReplicas);
    SameLinks(s);
    Operates(s.(at := AtReplicas), ReplicasStep([]));
    assert ReconcileReplicas(s.(at := AtReplicas), []) == s.(at := AtReplicaAdmission);
  }

  lemma SameLinks(s: State)
    ensures Upstream(s.(at := AtReplicas)) == Upstream(s)
    ensures ReplicasOrder(s.(at := AtReplicas)) == ReplicasOrder(s)
  {
  }

  // ---- the inspections of a pass over an HA instance ----

  /** The process in the pod at this ordinal is the listed one, or the first; it answers with this entry. */
  predicate Shows(s: State, o: nat, e: NodeStatus) {
    && HasContainer(s, o) && ContainerOf(s, o) == e.id && Alive(s, e.id)
    && e == Observed(s, o, e.id, e.replication, e.readiness)
    && (o in s.status.nodes ==> SameProcess(s.status.nodes[o], e) && s.status.nodes[o].termination.None?)
  }

  function Entered(status: Status, o: nat, e: NodeStatus): Status {
    Observation.FlagUnsafeHistory(status.(nodes := status.nodes[o := e]))
  }

  lemma SeesLive(s: State, o: nat, e: NodeStatus)
    requires Reached(s) && s.at == AtInspection && s.finalizer && o !in s.seen && o < 3
    requires s.status.accepted.mode == HA && Shows(s, o, e)
    ensures Reached(s.(status := Entered(s.status, o, e), seen := s.seen + {o}))
  {
    hide Reached;
    var finding := Answer(e.replication, e.readiness, false, false);
    Inspects(s, o, finding);
    assert Observation.RecordSeen(s.status, e, None) == Entered(s.status, o, e);
  }

  /** A pod that has not started its container yet. */
  lemma SeesNothing(s: State, o: nat)
    requires Reached(s) && s.at == AtInspection && s.finalizer && o !in s.seen && o < 3
    requires s.status.accepted.mode == HA && o !in s.status.nodes
    requires !s.status.initialized || (s.status.primaryOrdinal.Some? && s.status.primaryOrdinal != Some(o))
    ensures Reached(s.(seen := s.seen + {o}))
  {
    hide Reached;
    Inspects(s, o, NotRunning);
    assert Observation.ProcessUnavailable(s.status, o) == s.status;
  }

  /** The start of a pass over a resource that has not changed. */
  lemma StartsPass(s: State, spec: Spec)
    requires Reached(s) && s.at == Idle && s.finalizer && !s.deleting && Contract.Unchanged(spec, s.status.accepted)
    ensures Reached(s.(at := AtInspection))
  {
    hide Reached;
    Reads(s, spec);
    StartsInspecting(s.(at := AtWorkload));
  }

  lemma AllThreeSeen(s: State)
    requires s.seen == {0, 1, 2} && s.status.accepted.mode == HA
    ensures AllSeen(s)
  {
  }

  /** A pass up to the failover in which only the first process runs. */
  lemma SurveysOne(s: State, spec: Spec, e: NodeStatus)
    requires Reached(s) && s.at == Idle && s.seen == {} && s.finalizer && !s.deleting
    requires Contract.Unchanged(spec, s.status.accepted) && s.status.accepted.mode == HA
    requires Shows(s, 0, e) && 1 !in s.status.nodes && 2 !in s.status.nodes
    requires s.status.initialized ==> s.status.primaryOrdinal == Some(0)
    ensures Reached(s.(status := Entered(s.status, 0, e), at := AtFailover, seen := {0, 1, 2}))
  {
    hide Reached, AllSeen;
    StartsPass(s, spec);
    var i := s.(at := AtInspection);
    assert Shows(i, 0, e);
    SeesLive(i, 0, e);
    var j := i.(status := Entered(s.status, 0, e), seen := {0});
    assert i.seen + {0} == {0};
    SeesNothing(j, 1);
    assert {0} + {1} == {0, 1} && {0, 1} + {2} == {0, 1, 2};
    SeesNothing(j.(seen := {0, 1}), 2);
    AllThreeSeen(j.(seen := {0, 1, 2}));
    StopsInspecting(j.(seen := {0, 1, 2}));
  }

  /** The same with the first two processes running. */
  lemma SurveysTwo(s: State, spec: Spec, e: NodeStatus, f: NodeStatus)
    requires Reached(s) && s.at == Idle && s.seen == {} && s.finalizer && !s.deleting
    requires Contract.Unchanged(spec, s.status.accepted) && s.status.accepted.mode == HA
    requires Shows(s, 0, e) && Shows(s, 1, f) && 2 !in s.status.nodes && s.status.primaryOrdinal == Some(0)
    ensures
      Reached(s.(status := Entered(Entered(s.status, 0, e), 1, f), at := AtFailover, seen := {0, 1, 2}))
  {
    hide Reached, AllSeen;
    StartsPass(s, spec);
    var i := s.(at := AtInspection);
    assert Shows(i, 0, e);
    SeesLive(i, 0, e);
    var j := i.(status := Entered(s.status, 0, e), seen := {0});
    assert i.seen + {0} == {0};
    SeesRest(j, f);
  }

  /** The rest of such a pass. */
  lemma SeesRest(j: State, f: NodeStatus)
    requires Reached(j) && j.at == AtInspection && j.seen == {0} && j.finalizer && j.status.accepted.mode == HA
    requires Shows(j, 1, f) && 2 !in j.status.nodes && j.status.primaryOrdinal == Some(0)
    ensures Reached(j.(status := Entered(j.status, 1, f), at := AtFailover, seen := {0, 1, 2}))
  {
    hide Reached, AllSeen;
    SeesLive(j, 1, f);
    assert {0} + {1} == {0, 1} && {0, 1} + {2} == {0, 1, 2};
    var k := j.(status := Entered(j.status, 1, f), seen := {0, 1});
    SeesNothing(k, 2);
    AllThreeSeen(k.(seen := {0, 1, 2}));
    StopsInspecting(k.(seen := {0, 1, 2}));
  }
}
