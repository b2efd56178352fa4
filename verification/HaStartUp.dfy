/**
 A run of an HA instance from the acceptance of its first configuration to its confirmation: the process at
 ordinal 0 is assigned, promoted and opened, while the two other pods have not started yet.  The runs of
 StrayHandOver and TimedOutRecovery go on from here.
 */
module HaStartUp {
  import opened Options
  import opened OperatorTypes
  import opened Operator
  import opened Passes
  import Session
  import Availability
  import Contract

  const SIZE := Size(1, 1)
  const ACCEPTED := Accepted(1, 1, HA, SIZE, 1, 0, 1, 1)
  const SPEC := Spec(1, 1, Some(HA), SIZE, 1, Whitelist(0), 1, 1)

  /** The first process, its pod, and what it reports about replication. */
  const FIRST := Identity(1, 11, 12, 13, 14)
  const DATA := Replication(7, 5, 0, false, false, false)
  const FIRST_POD := Pod(1, SIZE, false, true)

  function FirstProc(role: Role, open: bool): Session.Proc {
    Session.Proc(FIRST, 0, true, role, open, 1, {}, 0, None)
  }

  function FirstNode(role: Role, open: bool): NodeStatus {
    NodeStatus(0, FIRST, role, true, open, 1, Some(DATA), None, None)
  }

  const PODS := map[0 := FIRST_POD, 1 := Pod(2, SIZE, false, true), 2 := Pod(3, SIZE, false, true)]

  function Begun(): State { Initial(ACCEPTED) }

  /** Three pods, the process in the first has the given role and client access. */
  function Staffed(role: Role, open: bool): State {
    Begun().(pods := PODS, nextUid := 4, world := map[1 := FirstProc(role, open)])
  }

  /** The process is listed and named. */
  function Assigned(role: Role): Status {
    Begun().status.(nodes := map[0 := FirstNode(role, false)], primaryOrdinal := Some(0), primaryId := FIRST)
  }

  /** Clients are admitted and the generation is confirmed; the replicas are still missing. */
  function Serving(): State {
    Staffed(Primary, true).(status := Begun().status.(
      phase := Degraded, initialized := true, publicReady := true, observedGeneration := 1,
      appliedPasswordVersion := 1, applied := Some(Applied(HA, SIZE)),
      primaryOrdinal := Some(0), primaryId := FIRST, nodes := map[0 := FirstNode(Primary, true)]))
  }

  lemma Begins()
    ensures Reached(Begun())
  {
    Begin(Begun(), SPEC);
  }

  lemma CreatesPods()
    ensures Reached(Staffed(Replica, false).(world := map[]))
  {
    hide Reached;
    Begins();
    assert Contract.Unchanged(SPEC, ACCEPTED);
    Reads(Begun(), SPEC);
    var a := Begun().(at := AtWorkload);
    Creates(a, 0);
    Creates(CreatePod(a, 0), 1);
    Creates(CreatePod(CreatePod(a, 0), 1), 2);
    var d := CreatePod(CreatePod(CreatePod(a, 0), 1), 2);
    assert d.pods == PODS;
    Restarts(d);
    assert d.(at := Idle, seen := {}) == Staffed(Replica, false).(world := map[]);
  }

  lemma Starts()
    ensures Reached(Staffed(Replica, false))
  {
    hide Reached;
    CreatesPods();
    var s := Staffed(Replica, false).(world := map[]);
    Happens(s, ProcessStarts(0, FIRST, 1));
    assert StartProcess(s, 0, FIRST, 1) == Staffed(Replica, false);
  }

  /** The operator assigns the process in one pass, promotes it in the next, and then opens it. */
  lemma Assigns()
    ensures Reached(Staffed(Replica, false).(status := Assigned(Replica)))
  {
    hide Reached;
    Starts();
    var s := Staffed(Replica, false);
    SurveysOne(s, SPEC, FirstNode(Replica, false));
    var found := s.(status := s.status.(nodes := map[0 := FirstNode(Replica, false)]), at := AtFailover,
                    seen := {0, 1, 2});
    assert found.status == Entered(s.status, 0, FirstNode(Replica, false));
    SkipsFailover(found);
    SkipsRollout(found.(at := AtRollout));
    var t := found.(at := AtInitialPrimary);
    Operates(t, InitialPrimaryStep(ALL_ANSWERED));
    assert InitialDecision(t).Assign?;
    assert ReconcileInitialPrimary(t, ALL_ANSWERED) == Staffed(Replica, false).(status := Assigned(Replica));
  }

  lemma PromotesFirst()
    ensures Reached(Staffed(Primary, false).(status := Assigned(Replica)))
  {
    hide Reached;
    Assigns();
    var s := Staffed(Replica, false).(status := Assigned(Replica));
    SurveysOne(s, SPEC, FirstNode(Replica, false));
    var found := s.(at := AtFailover, seen := {0, 1, 2});
    assert found.status == Entered(s.status, 0, FirstNode(Replica, false));
    SkipsFailover(found);
    SkipsRollout(found.(at := AtRollout));
    var t := found.(at := AtInitialPrimary);
    Operates(t, InitialPrimaryStep(ALL_ANSWERED));
    FirstIsPromoted(t);
  }

  lemma FirstIsPromoted(t: State)
    requires t == Staffed(Replica, false).(status := Assigned(Replica), at := AtInitialPrimary, seen := {0, 1, 2})
    ensures ReconcileInitialPrimary(t, ALL_ANSWERED) == Staffed(Primary, false).(status := Assigned(Replica))
  {
    assert InitialDecision(t).Command?;
    assert CurrentNode(t, 0);
    assert Session.PromoteProcess(FirstProc(Replica, false), ALL_ANSWERED).proc == FirstProc(Primary, false);
  }

  lemma FindsPrimary()
    ensures Reached(Staffed(Primary, false).(status := Assigned(Primary), at := AtAppAdmission, seen := {0, 1, 2}))
  {
    hide Reached;
    PromotesFirst();
    var s := Staffed(Primary, false).(status := Assigned(Replica));
    SurveysOne(s, SPEC, FirstNode(Primary, false));
    var found := s.(status := Assigned(Primary), at := AtFailover, seen := {0, 1, 2});
    assert found.status == Entered(s.status, 0, FirstNode(Primary, false));
    SkipsFailover(found);
    SkipsRollout(found.(at := AtRollout));
    var t := found.(at := AtInitialPrimary);
    NobodyFollows(t);
    SkipsTopology(t);
    Operates(t.(at := AtReplicaAdmission), ReplicaAdmissionStep(ALL_ANSWERED, false));
    assert AdmissionTarget(t.(at := AtReplicaAdmission)).None?;
  }

  lemma NobodyFollows(t: State)
    requires t == Staffed(Primary, false).(status := Assigned(Primary), at := t.at, seen := {0, 1, 2})
    ensures Upstream(t) == Some(1) && ReplicasOrder(t).None? && InitialDecision(t).Done?
  {
    assert CurrentNode(t, 0);
  }

  lemma Serves()
    ensures Reached(Serving())
  {
    hide Reached;
    FindsPrimary();
    var t := Staffed(Primary, false).(status := Assigned(Primary), at := AtAppAdmission, seen := {0, 1, 2});
    Operates(t, AppAdmissionStep(ALL_ANSWERED, true));
    FirstIsOpened(t);
  }

  lemma FirstIsOpened(t: State)
    requires t == Staffed(Primary, false).(status := Assigned(Primary), at := AtAppAdmission, seen := {0, 1, 2})
    ensures ReconcileAppAdmission(t, ALL_ANSWERED, true) == Serving()
  {
    hide Availability.FinishAppAdmission, Availability.AdmissionPending;
    var node := FirstNode(Primary, false);
    assert PrimaryToOpen(t) == Some(node);
    assert ALL_ANSWERED[0] == ALL_ANSWERED[4] == ALL_ANSWERED[6] == Session.Answered;
    assert Open(t, FIRST, ALL_ANSWERED) == Session.Reply(FirstProc(Primary, true), true);
    FirstIsAdmitted();
  }

  lemma FirstIsAdmitted()
    ensures Availability.FinishAppAdmission(Assigned(Primary), FirstNode(Primary, false)) == Serving().status
  {
    var noted := Assigned(Primary).(
      initialized := true, publicReady := true, appliedPasswordVersion := 1, applied := Some(Applied(HA, SIZE)),
      nodes := Availability.Admit(Assigned(Primary), FirstNode(Primary, false)));
    assert noted.nodes == map[0 := FirstNode(Primary, true)];
    assert Availability.PrimaryPubliclyReady(noted);
    assert (set o | o in noted.nodes && Availability.ReplicaReady(noted, noted.nodes[o])) == {};
  }
}
