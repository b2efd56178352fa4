/**
 A run in which an empty recovery times out.  The primary of an HA instance ends before its replicas ever
 started; its end is proved, its pod is let go and created again, and for two minutes nothing runs.  The
 recovery begins, and leaves the instance stranded in the sense of EmptyRecovery.
 */
module TimedOutRecovery {
  import opened Options
  import opened OperatorTypes
  import opened Operator
  import opened Passes
  import opened HaStartUp
  import Observation
  import Contract
  import FailoverSteps
  import Health
  import EmptyRecovery

  const GONE := FirstProc(Primary, true).(alive := false)
  const STOPPED := FirstNode(Primary, true).(readiness := false, termination := Some(ContainerStatus))
  const AGAIN_POD := Pod(4, SIZE, false, true)

  /** The process at ordinal 0 has ended; its pod is in this state. */
  function Ended(pod: Pod): State {
    Serving().(
      pods := map[0 := pod, 1 := Pod(2, SIZE, false, true), 2 := Pod(3, SIZE, false, true)], world := map[1 := GONE],
      nextUid := if pod == AGAIN_POD then 5 else 4)
  }

  function Stopped(f: Option<Failover>, reason: Reason): Status {
    Serving().status.(nodes := map[0 := STOPPED], phase := Unavailable, reason := reason, failover := f)
  }

  const STARTED := FailoverSteps.NewFailover(Failure, FIRST, None)
  const CHOOSING := STARTED.(stage := Choosing)
  const WATCHED := CHOOSING.(emptySince := Some(0))

  lemma Ends()
    ensures Reached(Ended(FIRST_POD))
  {
    hide Reached;
    Serves();
    Happens(Serving(), ProcessDies(FIRST));
    assert Die(Serving(), FIRST) == Ended(FIRST_POD);
  }

  /** The other two pods have not started. */
  lemma SeesNoOthers(s: State)
    requires Reached(s) && s.at == AtInspection && s.seen == {0} && s.finalizer && s.status.accepted.mode == HA
    requires s.status.nodes == map[0 := STOPPED] && s.status.primaryOrdinal == Some(0)
    ensures Reached(s.(at := AtFailover, seen := {0, 1, 2}))
  {
    hide Reached, AllSeen;
    SeesNothing(s, 1);
    assert {0} + {1} == {0, 1} && {0, 1} + {2} == {0, 1, 2};
    SeesNothing(s.(seen := {0, 1}), 2);
    AllThreeSeen(s.(seen := {0, 1, 2}));
    StopsInspecting(s.(seen := {0, 1, 2}));
  }

  /** A pass up to the failover that finds the ended container. */
  lemma FindsEnd(s: State, t: State)
    requires Reached(s) && s.at == Idle && s.seen == {} && s.finalizer && !s.deleting
    requires s.status.accepted == ACCEPTED && s.status.primaryOrdinal == Some(0) && Finds(s, t)
    requires t.status.nodes == map[0 := STOPPED] && t.status.primaryOrdinal == Some(0)
    requires t.status.accepted == ACCEPTED && t.finalizer
    ensures Reached(t.(at := AtFailover, seen := {0, 1, 2}))
  {
    hide Reached, InspectDead;
    StartsPass(s, SPEC);
    Inspects(s.(at := AtInspection), 0, ContainerDead);
    assert s.seen + {0} == {0};
    SeesNoOthers(t.(at := AtInspection, seen := {0}));
  }

  /** The inspection of the ended container leads from one state to the other. */
  predicate Finds(s: State, t: State) {
    var i := s.(at := AtInspection);
    CanInspect(i, 0, ContainerDead) && InspectDead(i, 0) == t.(at := AtInspection, seen := s.seen)
  }

  predicate Turns(s: State, now: Time, t: State) {
    ReconcileFailover(s.(at := AtFailover, seen := {0, 1, 2}), ALL_ANSWERED, now) == t
  }

  lemma FirstIsKnown(f: Option<Failover>, reason: Reason)
    ensures KnownProcess(Stopped(f, reason), FIRST) == Some(STOPPED)
  {
  }

  lemma Turn(s: State, now: Time, t: State)
    requires Reached(s.(at := AtFailover, seen := {0, 1, 2})) && s.finalizer && Turns(s, now, t)
    ensures Reached(t)
  {
    hide Reached;
    Operates(s.(at := AtFailover, seen := {0, 1, 2}), FailoverStep(ALL_ANSWERED, now));
  }

  // ---- the passes ----

  lemma NotesEnd()
    ensures Reached(Ended(FIRST_POD).(status := Stopped(None, PrimaryNotReady), at := AtFailover, seen := {0, 1, 2}))
  {
    hide Reached;
    Ends();
    var s := Ended(FIRST_POD);
    EndIsRecorded(s);
    FindsEnd(s, s.(status := Stopped(None, PrimaryNotReady)));
  }

  lemma EndIsRecorded(s: State)
    requires s == Ended(FIRST_POD)
    ensures Finds(s, s.(status := Stopped(None, PrimaryNotReady)))
  {
    assert ContainerOf(s, 0) == ContainerOf(s.(at := AtInspection), 0) == FIRST;
    var t := Observation.SaveContainerTermination(s.status, DeadContainer(0, FIRST));
    assert t.previous == map[] && t.nodes == map[0 := STOPPED];
  }

  lemma StartsFailover()
    ensures Reached(Ended(FIRST_POD).(status := Stopped(Some(STARTED), FencingRequired)))
  {
    hide Reached, Turns, KnownProcess;
    NotesEnd();
    FirstIsKnown(None, PrimaryNotReady);
    var s := Ended(FIRST_POD).(status := Stopped(None, PrimaryNotReady));
    FailureIsNoticed(s);
    Turn(s, 0, Ended(FIRST_POD).(status := Stopped(Some(STARTED), FencingRequired)));
  }

  lemma FailureIsNoticed(s: State)
    requires s == Ended(FIRST_POD).(status := Stopped(None, PrimaryNotReady))
    ensures Turns(s, 0, Ended(FIRST_POD).(status := Stopped(Some(STARTED), FencingRequired)))
  {
    hide KnownProcess;
    FirstIsKnown(None, PrimaryNotReady);
  }

  /** The pod is asked to go, and then let go, while the failover goes on. */
  lemma Chooses()
    ensures Reached(Ended(FIRST_POD.(deleting := true)).(status := Stopped(Some(CHOOSING), OtherReason)))
  {
    hide Reached, Turns;
    StartsFailover();
    var s := Ended(FIRST_POD).(status := Stopped(Some(STARTED), FencingRequired));
    var t := Ended(FIRST_POD.(deleting := true)).(status := s.status);
    PodIsReleased(FIRST_POD, s.status);
    FindsEnd(s, t);
    SourceIsStopped(t);
    Turn(t, 0, t.(status := Stopped(Some(CHOOSING), OtherReason)));
  }

  lemma PodIsReleased(pod: Pod, status: Status)
    requires pod.uid == 1 && status.nodes == map[0 := STOPPED]
    ensures Finds(Ended(pod).(status := status), Ended(Released(pod)).(status := status))
  {
    var s := Ended(pod).(status := status, at := AtInspection);
    assert ContainerOf(s, 0) == FIRST;
    assert ReleasePod(s, 0).pods == Ended(Released(pod)).pods;
  }

  lemma SourceIsStopped(t: State)
    requires t.status == Stopped(Some(STARTED), FencingRequired)
    requires t.at == Idle && t.seen == {}
    ensures Turns(t, 0, t.(status := Stopped(Some(CHOOSING), OtherReason)))
  {
    hide KnownProcess;
    FirstIsKnown(Some(STARTED), FencingRequired);
  }

  /** Nothing is left that could be chosen, so the wait begins. */
  lemma BeginsToWait()
    ensures Reached(
      Ended(FIRST_POD.(deleting := true, finalizer := false)).(status := Stopped(Some(WATCHED), OtherReason)))
  {
    hide Reached, Turns;
    Chooses();
    var pod := FIRST_POD.(deleting := true);
    var s := Ended(pod).(status := Stopped(Some(CHOOSING), OtherReason));
    var t := Ended(pod.(finalizer := false)).(status := s.status);
    PodIsReleased(pod, s.status);
    FindsEnd(s, t);
    NobodyIsLeft(t);
    Turn(t, 0, t.(status := Stopped(Some(WATCHED), OtherReason)));
  }

  lemma WaitingIsSafe(f: Failover, reason: Reason)
    requires f.reason == Failure && f.source == FIRST
    ensures FailoverSteps.EmptyRecoveryWaitingSafe(Stopped(Some(f), reason))
    ensures !FailoverSteps.EmptyRecoverySafe(Stopped(Some(f), reason))
    ensures FailoverSteps.ChooseCandidate(STOPPED, Stopped(Some(f), reason).nodes).None?
  {
  }

  lemma NobodyIsLeft(t: State)
    requires t.status == Stopped(Some(CHOOSING), OtherReason)
    requires t.at == Idle && t.seen == {}
    ensures Turns(t, 0, t.(status := Stopped(Some(WATCHED), OtherReason)))
  {
    hide KnownProcess, FailoverSteps.EmptyRecoveryWaitingSafe, FailoverSteps.EmptyRecoverySafe,
         FailoverSteps.ChooseCandidate;
    FirstIsKnown(Some(CHOOSING), OtherReason);
    WaitingIsSafe(CHOOSING, OtherReason);
    assert Health.Stored(0) == 0;
  }

  /** The pod vanishes and is created again; its container has not started. */
  lemma CreatesAgain()
    ensures Reached(Ended(AGAIN_POD).(status := Stopped(Some(WATCHED), OtherReason)))
  {
    hide Reached;
    BeginsToWait();
    var status := Stopped(Some(WATCHED), OtherReason);
    var s := Ended(FIRST_POD.(deleting := true, finalizer := false)).(status := status);
    Happens(s, PodVanishes(0));
    var t := s.(pods := s.pods - {0});
    assert Contract.Unchanged(SPEC, ACCEPTED);
    Reads(t, SPEC);
    Creates(t.(at := AtWorkload), 0);
    var u := CreatePod(t.(at := AtWorkload), 0);
    assert u.pods == Ended(AGAIN_POD).pods;
    Restarts(u);
  }

  function Waiting(): State { Ended(AGAIN_POD).(status := Stopped(Some(WATCHED), PrimaryNotReady)) }

  lemma FindsNothing()
    ensures Reached(Waiting().(at := AtFailover, seen := {0, 1, 2}))
  {
    hide Reached;
    CreatesAgain();
    var s := Ended(AGAIN_POD).(status := Stopped(Some(WATCHED), OtherReason));
    StartsPass(s, SPEC);
    Inspects(s.(at := AtInspection), 0, NotRunning);
    NothingRuns(s.(at := AtInspection));
    SeesNoOthers(Waiting().(at := AtInspection, seen := {0}));
  }

  lemma NothingRuns(s: State)
    requires s == Ended(AGAIN_POD).(status := Stopped(Some(WATCHED), OtherReason), at := AtInspection)
    ensures Inspect(s, 0, NotRunning) == Waiting().(at := AtInspection, seen := {0})
  {
    assert Observation.ProcessUnavailable(s.status, 0) == Stopped(Some(WATCHED), PrimaryNotReady);
    assert s.seen + {0} == {0};
  }

  lemma WaitIsOver()
    ensures FailoverMove(Waiting(), ALL_ANSWERED, Health.EMPTY_PRIMARY_TIMEOUT) == FailoverSteps.StartEmpty(true)
  {
    hide KnownProcess, FailoverSteps.EmptyRecoveryWaitingSafe, FailoverSteps.EmptyRecoverySafe,
         FailoverSteps.ChooseCandidate;
    FirstIsKnown(Some(WATCHED), PrimaryNotReady);
    WaitingIsSafe(WATCHED, PrimaryNotReady);
  }

  /** There is a run whose last step begins a recovery that timed out, and strands the instance. */
  lemma ARecoveryStrands() returns (run: seq<State>, i: nat)
    ensures IsRun(run) && i + 2 == |run|
    ensures FailoverMove(run[i], ALL_ANSWERED, Health.EMPTY_PRIMARY_TIMEOUT) == FailoverSteps.StartEmpty(true)
    ensures Leads(run[i], run[i + 1], Operate(FailoverStep(ALL_ANSWERED, Health.EMPTY_PRIMARY_TIMEOUT)))
    ensures EmptyRecovery.Stranded(run[i + 1].status)
  {
    hide Leads, Enabled, After, Next, Waiting, FailoverMove, EmptyRecovery.Stranded;
    FindsNothing();
    var s := Waiting().(at := AtFailover, seen := {0, 1, 2});
    var before :| IsRun(before) && before[|before| - 1] == s;
    LastStep(s);
    run := Extend(before, ReconcileFailover(s, ALL_ANSWERED, Health.EMPTY_PRIMARY_TIMEOUT),
                  Operate(FailoverStep(ALL_ANSWERED, Health.EMPTY_PRIMARY_TIMEOUT)));
    i := |before| - 1;
  }

  lemma LastStep(s: State)
    requires s == Waiting().(at := AtFailover, seen := {0, 1, 2})
    ensures
      var t := ReconcileFailover(s, ALL_ANSWERED, Health.EMPTY_PRIMARY_TIMEOUT);
      && Leads(s, t, Operate(FailoverStep(ALL_ANSWERED, Health.EMPTY_PRIMARY_TIMEOUT)))
      && EmptyRecovery.Stranded(t.status)
    ensures FailoverMove(s, ALL_ANSWERED, Health.EMPTY_PRIMARY_TIMEOUT) == FailoverSteps.StartEmpty(true)
  {
    hide CanHappen, CanWatch, CanRemove, Happen, AfterWatch, AfterRemoval, AfterRequest, FailoverSteps.Decide,
         EmptyRecovery.Stranded, FailoverSteps.EmptyRecoverySafe, ReconcileFailover, FailoverMove;
    WaitIsOver();
    WaitingIsSafe(WATCHED, PrimaryNotReady);
    SameMove(s, Waiting());
    EmptyRecovery.RecoveryOpensOnlyWithProof(s, ALL_ANSWERED, Health.EMPTY_PRIMARY_TIMEOUT);
    assert !EmptyRecovery.Restarting(s.status);
  }

  /** A move does not depend on the position of the pass. */
  lemma SameMove(s: State, t: State)
    requires s == t.(at := s.at, seen := s.seen)
    ensures FailoverMove(s, ALL_ANSWERED, Health.EMPTY_PRIMARY_TIMEOUT) ==
      FailoverMove(t, ALL_ANSWERED, Health.EMPTY_PRIMARY_TIMEOUT)
  {
    hide FailoverSteps.Decide;
  }
}
