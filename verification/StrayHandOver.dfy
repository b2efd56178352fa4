/**
 Why NoSecondPromotion needs its condition.  While an instance is being resized the pod of its primary is
 replaced by force.  The old process lives on, open to clients; the new one takes its ordinal, and the
 resize hands over from that ordinal without asking whether it still holds the named primary
 (rollout.go:387-432).  The new process is fenced instead of the old one, and the candidate is promoted
 while clients still use the old primary.
 */
module StrayHandOver {
  import opened Options
  import opened OperatorTypes
  import opened Operator
  import opened Passes
  import opened HaStartUp
  import Session
  import Availability
  import Observation
  import Contract
  import Topology
  import FailoverSteps
  import RolloutSteps
  import Health
  import NoSecondPromotion
  import Displacement

  const LARGER := Size(1, 2)
  const SPEC_LARGER := SPEC.(size := LARGER, generation := 2)

  /** The replica that becomes the candidate, in a pod of the new size. */
  const SECOND := Identity(4, 41, 42, 43, 44)
  const SECOND_POD := Pod(4, LARGER, false, true)

  /** The process in the pod that took the place of the first one. */
  const COPY := Identity(5, 51, 52, 53, 54)
  const COPY_POD := Pod(5, SIZE, false, true)

  const SYNCED := Replication(7, 5, 1, true, false, true)

  function SecondProc(role: Role, open: bool): Session.Proc {
    Session.Proc(SECOND, 1, true, role, open, 1, {}, 0, None)
  }

  function SecondNode(open: bool): NodeStatus {
    NodeStatus(1, SECOND, Replica, true, open, 1, Some(SYNCED), None, None)
  }

  const COPY_PROC := Session.Proc(COPY, 0, true, Replica, false, 1, {}, 0, None)
  const COPY_NODE := NodeStatus(0, COPY, Replica, true, false, 1, Some(SYNCED), None, None)

  // ---- the resize, up to the switch of the primary ----

  function Resizing(stage: RolloutStage): Status {
    Serving().status.(
      accepted := ACCEPTED.(size := LARGER, generation := 2),
      rollout := Some(Rollout(2, LARGER, stage, false, None)), phase := Updating, reason := OtherReason)
  }

  lemma AcceptsLarger()
    ensures Reached(Serving().(status := Resizing(Preparing)))
  {
    hide Reached;
    Serves();
    assert !Contract.Unchanged(SPEC_LARGER, ACCEPTED);
    assert Contract.ReconcileAccepted(Serving().status, SPEC_LARGER, {1}) == Resizing(Preparing);
    Reads(Serving(), SPEC_LARGER);
  }

  /** A pass up to the rollout in which the first process is found as it was. */
  lemma ReachesRollout(stage: RolloutStage)
    requires Reached(Serving().(status := Resizing(stage)))
    ensures Reached(Serving().(status := Resizing(stage), at := AtRollout, seen := {0, 1, 2}))
  {
    hide Reached;
    var s := Serving().(status := Resizing(stage));
    SurveysOne(s, SPEC_LARGER, FirstNode(Primary, true));
    assert Entered(s.status, 0, FirstNode(Primary, true)) == s.status;
    SkipsFailover(s.(at := AtFailover, seen := {0, 1, 2}));
  }

  lemma Prepares()
    ensures Reached(Serving().(status := Resizing(UpdatingTemplate)))
  {
    hide Reached;
    AcceptsLarger();
    ReachesRollout(Preparing);
    var s := Serving().(status := Resizing(Preparing), at := AtRollout, seen := {0, 1, 2});
    Operates(s, RolloutStep(false));
    assert ReconcileRollout(s, false) == Serving().(status := Resizing(UpdatingTemplate));
  }

  lemma UpdatesTemplate()
    ensures Reached(Serving().(status := Resizing(ReplacingReplicas)))
  {
    hide Reached;
    Prepares();
    ReachesRollout(UpdatingTemplate);
    var s := Serving().(status := Resizing(UpdatingTemplate), at := AtRollout, seen := {0, 1, 2});
    Operates(s, RolloutStep(false));
    assert ReconcileRollout(s, false) == Serving().(status := Resizing(ReplacingReplicas));
  }

  /** The second pod, which never started, is removed by hand and created again with the new size. */
  function TwoPods(first: Pod): map<nat, Pod> { map[0 := first, 1 := SECOND_POD, 2 := Pod(3, SIZE, false, true)] }

  function Resized(open: bool, nodes: map<nat, NodeStatus>, stage: RolloutStage): State {
    Serving().(
      pods := TwoPods(FIRST_POD), nextUid := 5,
      world := map[1 := FirstProc(Primary, true), 4 := SecondProc(Replica, open)],
      status := Resizing(stage).(nodes := nodes))
  }

  function Alone(): map<nat, NodeStatus> { map[0 := FirstNode(Primary, true)] }

  function Both(open: bool): map<nat, NodeStatus> { map[0 := FirstNode(Primary, true), 1 := SecondNode(open)] }

  lemma LosesSecondPod()
    ensures Reached(Serving().(
      status := Resizing(ReplacingReplicas), pods := map[0 := FIRST_POD, 2 := Pod(3, SIZE, false, true)]))
  {
    hide Reached;
    UpdatesTemplate();
    var s := Serving().(status := Resizing(ReplacingReplicas));
    Happens(s, PodForcedAway(1));
    assert PODS - {1} == map[0 := FIRST_POD, 2 := Pod(3, SIZE, false, true)];
  }

  lemma RecreatesSecond()
    ensures Reached(Resized(false, Alone(), ReplacingReplicas).(world := map[1 := FirstProc(Primary, true)]))
  {
    hide Reached;
    LosesSecondPod();
    var t := Serving().(
      status := Resizing(ReplacingReplicas), pods := map[0 := FIRST_POD, 2 := Pod(3, SIZE, false, true)]);
    Reads(t, SPEC_LARGER);
    Creates(t.(at := AtWorkload), 1);
    var u := CreatePod(t.(at := AtWorkload), 1);
    assert u.pods == TwoPods(FIRST_POD);
    Restarts(u);
  }

  lemma StartsSecond()
    ensures Reached(Resized(false, Alone(), ReplacingReplicas))
  {
    hide Reached;
    RecreatesSecond();
    var s := Resized(false, Alone(), ReplacingReplicas).(world := map[1 := FirstProc(Primary, true)]);
    Happens(s, ProcessStarts(1, SECOND, 1));
    assert StartProcess(s, 1, SECOND, 1) == Resized(false, Alone(), ReplacingReplicas);
  }

  /** A pass up to the rollout in which both processes are found. */
  lemma ReachesRolloutWithBoth(open: bool, nodes: map<nat, NodeStatus>, stage: RolloutStage)
    requires Reached(Resized(open, nodes, stage)) && (nodes == Alone() || nodes == Both(open))
    ensures Reached(Resized(open, Both(open), stage).(at := AtRollout, seen := {0, 1, 2}))
  {
    hide Reached, KnownProcess;
    var s := Resized(open, nodes, stage);
    SurveysTwo(s, SPEC_LARGER, FirstNode(Primary, true), SecondNode(open));
    assert Entered(Entered(s.status, 0, FirstNode(Primary, true)), 1, SecondNode(open)).nodes == Both(open);
    FirstIsKnown(open, stage);
    SkipsFailover(Resized(open, Both(open), stage).(at := AtFailover, seen := {0, 1, 2}));
  }

  lemma FirstIsKnown(open: bool, stage: RolloutStage)
    ensures KnownProcess(Resizing(stage).(nodes := Both(open)), FIRST) == Some(FirstNode(Primary, true))
  {
  }

  lemma FindsSecond()
    ensures Reached(Resized(false, Both(false), ReplacingReplicas).(at := AtReplicaAdmission, seen := {0, 1, 2}))
  {
    hide Reached;
    StartsSecond();
    ReachesRolloutWithBoth(false, Alone(), ReplacingReplicas);
    var s := Resized(false, Both(false), ReplacingReplicas).(at := AtRollout, seen := {0, 1, 2});
    Operates(s, RolloutStep(false));
    SecondIsAwaited(s);
    FirstIsUpstream(s.(at := AtInitialPrimary));
    SkipsTopology(s.(at := AtInitialPrimary));
  }

  /** The new replica is on the target template but not open yet, so the pass goes on to admit it. */
  lemma SecondIsAwaited(s: State)
    requires s == Resized(false, Both(false), ReplacingReplicas).(at := AtRollout, seen := {0, 1, 2})
    ensures ReconcileRollout(s, false) == s.(at := AtInitialPrimary)
  {
    hide KeepsCourse;
    assert CurrentNode(s, 0) && CurrentNode(s, 1);
    assert 1 in Facts(s).present && 1 in Facts(s).matching;
    assert RollingDecision(s).Idle?;
  }

  lemma FirstIsUpstream(t: State)
    requires t == Resized(false, Both(false), ReplacingReplicas).(at := AtInitialPrimary, seen := {0, 1, 2})
    ensures InitialDecision(t).Done? && Upstream(t).Some? && ReplicasOrder(t).None?
  {
    assert CurrentNode(t, 0);
    assert Upstream(t) == Some(1);
  }

  lemma AdmitsSecond()
    ensures Reached(Resized(true, Both(true), ReplacingReplicas))
  {
    hide Reached;
    FindsSecond();
    var s := Resized(false, Both(false), ReplacingReplicas).(at := AtReplicaAdmission, seen := {0, 1, 2});
    Operates(s, ReplicaAdmissionStep(ALL_ANSWERED, true));
    SecondIsOpened(s);
  }

  lemma SecondIsOpened(s: State)
    requires s == Resized(false, Both(false), ReplacingReplicas).(at := AtReplicaAdmission, seen := {0, 1, 2})
    ensures ReconcileReplicaAdmission(s, ALL_ANSWERED, true) == Resized(true, Both(true), ReplacingReplicas)
  {
    hide Availability.FinishReplicaAdmission;
    assert CurrentNode(s, 0) && CurrentNode(s, 1);
    assert AdmissionTarget(s) == Some(1);
    assert ALL_ANSWERED[0] == ALL_ANSWERED[4] == ALL_ANSWERED[6] == Session.Answered;
    assert Open(s, SECOND, ALL_ANSWERED) == Session.Reply(SecondProc(Replica, true), true);
    assert Put(s, SECOND, SecondProc(Replica, true)) == Resized(true, Both(true), ReplacingReplicas).world;
    SecondIsAdmitted();
  }

  lemma SecondIsAdmitted()
    ensures
      Availability.FinishReplicaAdmission(Resizing(ReplacingReplicas).(nodes := Both(false)), SecondNode(false)) ==
      Resizing(ReplacingReplicas).(nodes := Both(true))
  {
    var status := Resizing(ReplacingReplicas).(nodes := Both(false));
    assert Availability.Admit(status, SecondNode(false)) == Both(true);
    assert Availability.PrimaryPubliclyReady(status.(nodes := Both(true)));
  }

  lemma ComesToSwitch()
    ensures Reached(Resized(true, Both(true), SwitchingPrimary))
  {
    hide Reached;
    AdmitsSecond();
    ReachesRolloutWithBoth(true, Both(true), ReplacingReplicas);
    var s := Resized(true, Both(true), ReplacingReplicas).(at := AtRollout, seen := {0, 1, 2});
    Operates(s, RolloutStep(false));
    ReplicasAreReplaced(s);
  }

  lemma ReplicasAreReplaced(s: State)
    requires s == Resized(true, Both(true), ReplacingReplicas).(at := AtRollout, seen := {0, 1, 2})
    ensures ReconcileRollout(s, false) == Resized(true, Both(true), SwitchingPrimary)
  {
    assert CurrentNode(s, 0) && CurrentNode(s, 1);
    assert 1 in Facts(s).present && 1 in Facts(s).matching;
    assert RolloutSteps.DecideNext(s.status, Facts(s), 2).Complete?;
    assert RollingDecision(s).Complete?;
  }

  // ---- the pod of the primary is replaced by force ----

  /** Both processes of ordinal 0 run; the status still lists the first. */
  function Replaced(): State {
    Resized(true, Both(true), SwitchingPrimary).(
      pods := TwoPods(COPY_POD), nextUid := 6,
      world := map[1 := FirstProc(Primary, true), 4 := SecondProc(Replica, true), 5 := COPY_PROC])
  }

  lemma ReplacesFirst()
    ensures Reached(Replaced())
  {
    hide Reached;
    ComesToSwitch();
    var s := Resized(true, Both(true), SwitchingPrimary);
    Happens(s, PodForceReplaced(0));
    var t := ForceReplace(s, 0);
    assert t == s.(pods := TwoPods(COPY_POD), nextUid := 6);
    Happens(t, ProcessStarts(0, COPY, 1));
    assert StartProcess(t, 0, COPY, 1) == Replaced();
  }

  /** The first process is listed as a former one whose end nobody proved. */
  function Displaced(open: bool): Status {
    Resizing(SwitchingPrimary).(
      phase := Unavailable, reason := FencingRequired,
      nodes := map[0 := COPY_NODE, 1 := SecondNode(open)], previous := map[FIRST := FirstNode(Primary, true)])
  }

  lemma Displaces()
    ensures Reached(Replaced().(status := Displaced(true), at := AtInspection, seen := {0}))
  {
    hide Reached;
    ReplacesFirst();
    StartsPass(Replaced(), SPEC_LARGER);
    var s := Replaced().(at := AtInspection);
    CopyIsRecorded(s);
    Inspects(s, 0, Answer(Some(SYNCED), true, false, false));
  }

  lemma NoticesNoFailure()
    ensures Reached(Replaced().(status := Displaced(true), at := AtRollout, seen := {0, 1, 2}))
  {
    hide Reached, KnownProcess, Entered;
    Displaces();
    var t := Replaced().(status := Displaced(true), at := AtInspection, seen := {0});
    SeesRest(t, SecondNode(true));
    SecondIsAsBefore();
    LostIsNoFailure();
    SkipsFailover(t.(at := AtFailover, seen := {0, 1, 2}));
  }

  lemma SecondIsAsBefore()
    ensures Entered(Displaced(true), 1, SecondNode(true)) == Displaced(true)
  {
    StaysFlagged(Displaced(true), true);
    assert Displaced(true).nodes[1 := SecondNode(true)] == Displaced(true).nodes;
  }

  /** The lost primary is known from the history, so no failure is noticed. */
  lemma LostIsNoFailure()
    ensures KnownProcess(Displaced(true), FIRST) == Some(FirstNode(Primary, true))
    ensures !FailoverSteps.Failed(FirstNode(Primary, true), 0)
  {
    assert OrdinalOf(Displaced(true).nodes, FIRST).None?;
  }

  lemma CopyIsRecorded(s: State)
    requires s == Replaced().(at := AtInspection)
    ensures CanInspect(s, 0, Answer(Some(SYNCED), true, false, false))
    ensures
      Inspect(s, 0, Answer(Some(SYNCED), true, false, false)) == s.(status := Displaced(true), seen := {0})
  {
    assert ContainerOf(s, 0) == COPY;
    assert Observed(s, 0, COPY, Some(SYNCED), true) == COPY_NODE;
    assert FIRST in Observation.RecordCurrentProcess(s.status, COPY_NODE, None).previous;
    assert Observation.RecordSeen(s.status, COPY_NODE, None) == Displaced(true);
  }

  /** With a lost process in the history an inspection marks the instance unavailable. */
  lemma StaysFlagged(status: Status, open: bool)
    requires status == Displaced(open).(phase := status.phase, reason := status.reason,
                                        failover := status.failover, nodes := status.nodes)
    ensures Observation.FlagUnsafeHistory(status) == status.(phase := Unavailable, reason := FencingRequired)
  {
    assert FIRST in status.previous && status.previous[FIRST].termination.None?;
  }

  // ---- the hand-over ----

  const STRAY := FailoverSteps.NewFailover(Resize, COPY, Some(SECOND))

  /** Between two passes of the failover; `open` is the client access of the candidate, `noted` as listed. */
  function Paused(f: Failover, open: bool, noted: bool, phase: Phase, reason: Reason): State {
    Replaced().(
      strayed := true,
      world := map[1 := FirstProc(Primary, true), 4 := SecondProc(Replica, open), 5 := COPY_PROC],
      status := Displaced(noted).(failover := Some(f), phase := phase, reason := reason))
  }

  function Chased(f: Failover, open: bool): Status { Displaced(open).(failover := Some(f)) }

  /** At the failover's part of a pass. */
  function Chasing(f: Failover, open: bool): State {
    Paused(f, open, open, Unavailable, FencingRequired).(status := Chased(f, open), at := AtFailover, seen := {0, 1, 2})
  }

  lemma HandsOverFromCopy()
    ensures Reached(Paused(STRAY, true, true, Updating, OtherReason))
  {
    hide Reached;
    NoticesNoFailure();
    var s := Replaced().(status := Displaced(true), at := AtRollout, seen := {0, 1, 2});
    Operates(s, RolloutStep(false));
    CopyIsTheSource(s);
  }

  lemma CopyIsTheSource(s: State)
    requires s == Replaced().(status := Displaced(true), at := AtRollout, seen := {0, 1, 2})
    ensures ReconcileRollout(s, false) == Paused(STRAY, true, true, Updating, OtherReason)
    ensures Astray(s.status, ReconcileRollout(s, false).status)
  {
    hide RolloutSteps.DecideSwitch, Facts;
    SwitchIsReady(s);
    SwitchHandsOver(s.status);
  }

  lemma SwitchHandsOver(status: Status)
    requires status == Displaced(true)
    ensures
      RolloutSteps.DecideSwitch(status, RolloutSteps.PodFacts({0, 1}, {1})) == RolloutSteps.HandOver(COPY, SECOND)
  {
    var pods := RolloutSteps.PodFacts({0, 1}, {1});
    var ready := map o | o in status.nodes && RolloutSteps.ProcessReady(status, status.nodes[o], pods) ::
      status.nodes[o];
    assert ready == map[1 := SecondNode(true)];
    assert FailoverSteps.ChooseCandidate(COPY_NODE, ready) == Some(SecondNode(true));
  }

  lemma SwitchIsReady(s: State)
    requires s == Replaced().(status := Displaced(true), at := AtRollout, seen := {0, 1, 2})
    ensures Facts(s) == RolloutSteps.PodFacts({0, 1}, {1})
  {
    assert CurrentNode(s, 0) && CurrentNode(s, 1);
    assert Facts(s).present == {0, 1} && Facts(s).matching == {1};
  }

  lemma Surveys(f: Failover, open: bool, noted: bool, phase: Phase, reason: Reason)
    requires Reached(Paused(f, open, noted, phase, reason))
    ensures Reached(Chasing(f, open))
  {
    hide Reached, Observation.FlagUnsafeHistory;
    var s := Paused(f, open, noted, phase, reason);
    SurveysTwo(s, SPEC_LARGER, COPY_NODE, SecondNode(open));
    var once := s.status.(nodes := s.status.nodes[0 := COPY_NODE]);
    StaysFlagged(once, noted);
    var twice := Entered(s.status, 0, COPY_NODE).(nodes := Displaced(open).nodes);
    StaysFlagged(twice, open);
    assert once.nodes == Displaced(noted).nodes;
    assert Entered(s.status, 0, COPY_NODE).nodes[1 := SecondNode(open)] == Displaced(open).nodes;
    assert Entered(Entered(s.status, 0, COPY_NODE), 1, SecondNode(open)) == Chasing(f, open).status;
  }

  // ---- the stages of the failover, one pass each ----

  const FENCED := STRAY.(sourceAppDisabled := true, sourceClientsKilled := true)
  const CHOOSING := FENCED.(stage := Choosing)
  const POINTED := CHOOSING.(replicationID := 7, controlOffset := 5, offsetDeadline := Some(5 * Health.SECOND))
  const CLOSED := POINTED.(candidateAppDisabled := true, candidateClientsKilled := true)
  const PROMOTING := CLOSED.(stage := Promoting)
  const ANNOUNCED := PROMOTING.(candidateMayBePrimary := true)

  /** The status a move writes in this state is the one of a paused failover. */
  predicate Moves(f: Failover, open: bool, done: bool, move: FailoverSteps.Move, t: State) {
    && FailoverSteps.Decide(Chased(f, open), done, PrimaryPod(Chasing(f, open)), 0) == move && !move.Skip?
    && FailoverSteps.Apply(Chased(f, open), move) == t.status
  }

  predicate Turns(f: Failover, open: bool, t: State) {
    ReconcileFailover(Chasing(f, open), ALL_ANSWERED, 0) == t
  }

  /** A pass of the failover that sends no command. */
  lemma QuietTurn(f: Failover, open: bool, move: FailoverSteps.Move, t: State)
    requires FailoverTarget(Chased(f, open)).None? && Moves(f, open, false, move, t)
    requires t == Chasing(f, open).(status := t.status, at := Idle, seen := {})
    ensures Turns(f, open, t)
  {
    hide FailoverTarget, FailoverSteps.Decide, FailoverSteps.Apply, PrimaryPod;
  }

  /** A pass of the failover in which every command is answered. */
  lemma CommandingTurn(f: Failover, open: bool, id: Identity, q: Session.Proc, move: FailoverSteps.Move, t: State)
    requires FailoverOrder(Chasing(f, open)) == Some(id) && Moves(f, open, true, move, t)
    requires FailoverCommands(Chasing(f, open), id, ALL_ANSWERED) == Session.Reply(q, true)
    requires t == Chasing(f, open).(status := t.status, world := Put(Chasing(f, open), id, q), at := Idle, seen := {})
    ensures Turns(f, open, t)
  {
    hide FailoverOrder, FailoverSteps.Decide, FailoverSteps.Apply, PrimaryPod, FailoverCommands;
  }

  lemma CopyIsKnown(f: Failover)
    ensures KnownProcess(Chased(f, true), COPY) == Some(COPY_NODE)
    ensures Addressable(Chasing(f, true), COPY)
  {
  }

  lemma SecondIsKnown(f: Failover, open: bool)
    ensures KnownProcess(Chased(f, open), SECOND) == Some(SecondNode(open))
    ensures Addressable(Chasing(f, open), SECOND)
  {
  }

  lemma CommandsAreAnswered()
    ensures Session.UpdateAppAccess(COPY_PROC, false, 1, ALL_ANSWERED) == Session.Reply(COPY_PROC, true)
    ensures
      Session.UpdateAppAccess(SecondProc(Replica, true), false, 1, ALL_ANSWERED) ==
      Session.Reply(SecondProc(Replica, false), true)
    ensures
      Session.PromoteProcess(SecondProc(Replica, false), ALL_ANSWERED) ==
      Session.Reply(SecondProc(Primary, false), true)
  {
    assert forall i :: 0 <= i < 7 ==> Session.At(ALL_ANSWERED, i) == Session.Answered;
  }

  lemma FencesCopy()
    ensures Turns(STRAY, true, Paused(FENCED, true, true, Unavailable, FencingRequired))
  {
    hide KnownProcess, Addressable, PrimaryPod, Session.UpdateAppAccess, Session.PromoteProcess, KeepsCourse;
    CopyIsKnown(STRAY);
    CommandsAreAnswered();
    var s := Chasing(STRAY, true);
    assert FailoverCommands(s, COPY, ALL_ANSWERED) == Session.Reply(COPY_PROC, true);
    assert Put(s, COPY, COPY_PROC) == s.world;
    var t := Paused(FENCED, true, true, Unavailable, FencingRequired);
    assert Moves(STRAY, true, true, FailoverSteps.MarkSourceFenced, t);
    CommandingTurn(STRAY, true, COPY, COPY_PROC, FailoverSteps.MarkSourceFenced, t);
  }

  lemma Chooses()
    ensures Turns(FENCED, true, Paused(CHOOSING, true, true, Unavailable, OtherReason))
  {
    hide KnownProcess, PrimaryPod, Turns;
    CopyIsKnown(FENCED);
    QuietTurn(FENCED, true, FailoverSteps.Choose, Paused(CHOOSING, true, true, Unavailable, OtherReason));
  }

  lemma SetsPoint()
    ensures Turns(CHOOSING, true, Paused(POINTED, true, true, Unavailable, FencingRequired))
  {
    hide KnownProcess, PrimaryPod, Turns;
    CopyIsKnown(CHOOSING);
    var point := FailoverSteps.ControlPoint(7, 5, 5 * Health.SECOND);
    assert Health.Stored(5 * Health.SECOND) == 5 * Health.SECOND;
    QuietTurn(CHOOSING, true, FailoverSteps.SetPoint(point), Paused(POINTED, true, true, Unavailable, FencingRequired));
  }

  lemma ClosesSecond()
    ensures Turns(POINTED, true, Paused(CLOSED, false, true, Unavailable, FencingRequired))
  {
    hide KnownProcess, Addressable, PrimaryPod, Session.UpdateAppAccess, Session.PromoteProcess, KeepsCourse;
    SecondIsKnown(POINTED, true);
    CommandsAreAnswered();
    var s := Chasing(POINTED, true);
    var q := SecondProc(Replica, false);
    assert FailoverCommands(s, SECOND, ALL_ANSWERED) == Session.Reply(q, true);
    var t := Paused(CLOSED, false, true, Unavailable, FencingRequired);
    assert Put(s, SECOND, q) == t.world;
    assert Moves(POINTED, true, true, FailoverSteps.MarkCandidateFenced, t);
    CommandingTurn(POINTED, true, SECOND, q, FailoverSteps.MarkCandidateFenced, t);
  }

  lemma BeginsPromotion()
    ensures Turns(CLOSED, false, Paused(PROMOTING, false, false, Unavailable, OtherReason))
  {
    hide KnownProcess, PrimaryPod, Turns;
    SecondIsKnown(CLOSED, false);
    QuietTurn(CLOSED, false, FailoverSteps.BeginPromotion, Paused(PROMOTING, false, false, Unavailable, OtherReason));
  }

  lemma Announces()
    ensures Turns(PROMOTING, false, Paused(ANNOUNCED, false, false, Unavailable, FencingRequired))
  {
    hide KnownProcess, PrimaryPod, Turns;
    SecondIsKnown(PROMOTING, false);
    QuietTurn(PROMOTING, false, FailoverSteps.Announce,
              Paused(ANNOUNCED, false, false, Unavailable, FencingRequired));
  }

  lemma PromotesSecond()
    ensures Turns(ANNOUNCED, false, Promoted())
  {
    hide KnownProcess, Addressable, PrimaryPod, Session.UpdateAppAccess, Session.PromoteProcess, KeepsCourse;
    SecondIsKnown(ANNOUNCED, false);
    CommandsAreAnswered();
    var s := Chasing(ANNOUNCED, false);
    var q := SecondProc(Primary, false);
    assert FailoverCommands(s, SECOND, ALL_ANSWERED) == Session.Reply(q, true);
    assert Put(s, SECOND, q) == Promoted().world;
    assert Moves(ANNOUNCED, false, true, FailoverSteps.Halt, Promoted());
    CommandingTurn(ANNOUNCED, false, SECOND, q, FailoverSteps.Halt, Promoted());
  }

  /** The second process has become a primary; the first still is one, and open. */
  function Promoted(): State {
    Paused(ANNOUNCED, false, false, Unavailable, FencingRequired).(
      world := map[1 := FirstProc(Primary, true), 4 := SecondProc(Primary, false), 5 := COPY_PROC])
  }

  lemma Turn(f: Failover, open: bool, t: State)
    requires Reached(Chasing(f, open)) && Turns(f, open, t)
    ensures Reached(t)
  {
    hide Reached;
    Operates(Chasing(f, open), FailoverStep(ALL_ANSWERED, 0));
  }

  lemma ComesToPromotion()
    ensures Reached(Chasing(ANNOUNCED, false))
  {
    hide Reached, Turns, Paused, Chasing;
    HandsOverFromCopy();
    Surveys(STRAY, true, true, Updating, OtherReason);
    FencesCopy();
    Turn(STRAY, true, Paused(FENCED, true, true, Unavailable, FencingRequired));
    Surveys(FENCED, true, true, Unavailable, FencingRequired);
    Chooses();
    Turn(FENCED, true, Paused(CHOOSING, true, true, Unavailable, OtherReason));
    Surveys(CHOOSING, true, true, Unavailable, OtherReason);
    SetsPoint();
    Turn(CHOOSING, true, Paused(POINTED, true, true, Unavailable, FencingRequired));
    Surveys(POINTED, true, true, Unavailable, FencingRequired);
    ClosesSecond();
    Turn(POINTED, true, Paused(CLOSED, false, true, Unavailable, FencingRequired));
    Surveys(CLOSED, false, true, Unavailable, FencingRequired);
    BeginsPromotion();
    Turn(CLOSED, false, Paused(PROMOTING, false, false, Unavailable, OtherReason));
    Surveys(PROMOTING, false, false, Unavailable, OtherReason);
    Announces();
    Turn(PROMOTING, false, Paused(ANNOUNCED, false, false, Unavailable, FencingRequired));
    Surveys(ANNOUNCED, false, false, Unavailable, FencingRequired);
  }

  /**
   There is a run in which a process is promoted while another live primary is open to clients.  By
   NoSecondPromotion a failover of this run began with a process that was not the named primary, and by
   Displacement one of its pods was replaced by force.
   */
  lemma LostPrimaryOutlivesPromotion() returns (run: seq<State>, i: nat, u: Uid, v: Uid)
    ensures IsRun(run) && i + 1 < |run|
    ensures NoSecondPromotion.Promotes(run[i], run[i + 1], u) && v != u && v in run[i + 1].world
    ensures
      var p := run[i + 1].world[v];
      p.alive && p.role == Primary && p.appOn && run[i + 1].status.accepted.mode == HA
    ensures !NoSecondPromotion.NeverAstray(run, i + 1) && !Displacement.NeverForced(run, i + 1)
  {
    hide Chasing, NoSecondPromotion.NeverAstray, Displacement.NeverForced, Leads, Enabled, After, Next;
    ComesToPromotion();
    var s := Chasing(ANNOUNCED, false);
    var before :| IsRun(before) && before[|before| - 1] == s;
    var t := ReconcileFailover(s, ALL_ANSWERED, 0);
    PromotionIsNext(s, t);
    run := Extend(before, t, Operate(FailoverStep(ALL_ANSWERED, 0)));
    i, u, v := |before| - 1, 4, 1;
    if NoSecondPromotion.NeverAstray(run, i + 1) { NoSecondPromotion.NoSecondPromotion(run, i, u, v); }
    if Displacement.NeverForced(run, i + 1) { Displacement.NoSecondPromotionUnforced(run, i, u, v); }
  }

  lemma PromotionIsNext(s: State, t: State)
    requires s == Chasing(ANNOUNCED, false) && t == ReconcileFailover(s, ALL_ANSWERED, 0)
    ensures Leads(s, t, Operate(FailoverStep(ALL_ANSWERED, 0)))
    ensures NoSecondPromotion.Promotes(s, t, 4) && t.status.accepted.mode == HA
    ensures 1 in t.world && t.world[1] == FirstProc(Primary, true)
  {
    hide ReconcileFailover, CanHappen, CanWatch, CanRemove, Happen, AfterWatch, AfterRemoval, AfterRequest;
    PromotesSecond();
  }
}
