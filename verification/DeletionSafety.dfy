/**
 Deleting an instance: the stages only move forward, and the resource is let go only after every listed
 process is proved stopped and every pod is gone; nothing of it runs from then on.
 */
module DeletionSafety {
  import opened Options
  import opened OperatorTypes
  import opened Session
  import opened Operator
  import opened Shape
  import opened OperationOrder
  import opened SingleWriter
  import opened RolloutSafety

  function StageRank(deletion: Option<DeletionStage>): nat {
    match deletion
    case None => 0
    case Some(RemovingNetwork) => 1
    case Some(DisablingApp) => 2
    case Some(StoppingPods) => 3
    case Some(VerifyingStop) => 4
  }

  predicate Forward(a: Status, b: Status) {
    StageRank(a.deletion) <= StageRank(b.deletion) <= StageRank(a.deletion) + 1
  }

  lemma RemovalIsForward(s: State, removal: Removal)
    requires CanRemove(s, removal)
    ensures Forward(s.status, AfterRemoval(s, removal).status)
  {
  }

  lemma StepIsForward(s: State, step: Step)
    requires Enabled(s, step)
    ensures Forward(s.status, After(s, step).status)
  {
    hide AfterWatch, AfterOperation, Happen, AfterRemoval;
    match step
    case Remove(removal) => RemovalIsForward(s, removal);
    case _ =>
  }

  /** No step of a run takes a stage of the deletion back, and none skips one. */
  lemma DeletionOnlyMovesForward(run: seq<State>, i: nat)
    requires IsRun(run) && i + 1 < |run|
    ensures Forward(run[i].status, run[i + 1].status)
  {
    hide Enabled, After;
    assert Next(run[i], run[i + 1]);
    var step :| Enabled(run[i], step) && run[i + 1] == After(run[i], step);
    StepIsForward(run[i], step);
  }

  // ---- letting go ----

  lemma FinalizerStays(s: State, step: Step)
    requires Enabled(s, step) && step != Remove(FinalizerRemoved)
    ensures After(s, step).finalizer == s.finalizer
  {
    hide AfterWatch, AfterOperation, Happen, AfterRemoval, AfterRequest;
  }

  /** The finalizer goes in the last stage, with every listed process proved stopped and no pod left. */
  lemma FinalizerGoesLast(s: State, step: Step)
    requires Enabled(s, step) && s.finalizer && !After(s, step).finalizer
    ensures step == Remove(FinalizerRemoved) && s.deleting && s.status.deletion == Some(VerifyingStop)
    ensures DeletionVerified(s)
  {
    if step != Remove(FinalizerRemoved) { FinalizerStays(s, step); }
  }

  lemma GoneMeansStopped(s: State)
    requires Sound(s) && DeletionVerified(s)
    ensures EverythingStopped(s)
  {
    forall u | u in s.world ensures Listed(s.status, s.world[u]) ==> !s.world[u].alive {
      ListedIsStopped(s, u);
    }
  }

  /** Without pods no process starts. */
  lemma StoppedStaysStopped(s: State, world: WorldStep)
    requires EverythingStopped(s) && CanHappen(s, world)
    ensures EverythingStopped(Happen(s, world))
  {
  }

  lemma StepKeepsGone(s: State, step: Step)
    requires Sound(s) && Enabled(s, step) && (!s.finalizer ==> EverythingStopped(s))
    ensures var t := After(s, step); !t.finalizer ==> EverythingStopped(t)
  {
    hide Sound, EverythingStopped;
    if s.finalizer {
      if !After(s, step).finalizer {
        FinalizerGoesLast(s, step);
        GoneMeansStopped(s);
        LettingGoStopsNothing(s);
      }
    } else {
      StoppedStaysStopped(s, step.world);
    }
  }

  lemma LettingGoStopsNothing(s: State)
    requires EverythingStopped(s)
    ensures EverythingStopped(s.(finalizer := false))
  {
  }

  /** After the resource was let go, no pod of it exists and no process it ever listed runs, for good. */
  lemma {:induction false} GoneStaysGone(run: seq<State>, i: nat)
    requires IsRun(run) && i < |run|
    ensures !run[i].finalizer ==> EverythingStopped(run[i])
  {
    hide Enabled, After, EverythingStopped;
    if i > 0 {
      GoneStaysGone(run, i - 1);
      RunsAreSound(run, i - 1);
      assert Next(run[i - 1], run[i]);
      var step :| Enabled(run[i - 1], step) && run[i] == After(run[i - 1], step);
      StepKeepsGone(run[i - 1], step);
    }
  }
}
