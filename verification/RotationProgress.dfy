/**
 A password rotation cannot go round in circles.  With the processes and the primary fixed, every
 confirmation and every change of stage lowers a bounded measure, although the stages for the replicas
 and for the primary lead to each other; and a rotation that stays where it is has a process to confirm.
 */
module RotationProgress {
  import opened Options
  import opened OperatorTypes
  import opened RotationSteps

  /** The identities that still have to be confirmed in one group. */
  function OutstandingIds(status: Status, primary: bool): set<Identity>
    requires status.rotation.Some?
  {
    (set o | o in status.nodes && Outstanding(status, status.nodes[o], primary) :: status.nodes[o].id) +
    (set id | id in status.previous && Outstanding(status, status.previous[id], primary) :: status.previous[id].id)
  }

  function Pending(status: Status): set<Identity>
    requires status.rotation.Some?
  {
    OutstandingIds(status, true) + OutstandingIds(status, false)
  }

  lemma CompleteMeansNoneOutstanding(status: Status, primary: bool)
    requires status.rotation.Some?
    ensures RoleComplete(status, primary) <==> OutstandingIds(status, primary) == {}
  {
    var ids := OutstandingIds(status, primary);
    if !RoleComplete(status, primary) {
      if o :| o in status.nodes && Outstanding(status, status.nodes[o], primary) {
        assert status.nodes[o].id in ids;
      } else {
        var id :| id in status.previous && Outstanding(status, status.previous[id], primary);
        assert status.previous[id].id in ids;
      }
    }
  }

  /** How many changes of stage are left before the rotation waits for a confirmation or is done. */
  function Rank(status: Status): nat
    requires status.rotation.Some?
  {
    var replicas, primary := RoleComplete(status, false), RoleComplete(status, true);
    match status.rotation.value.stage
    case CleaningSecret => 0
    case RotationPreparing => 3
    case UpdatingReplicas => if primary && !replicas then 1 else 2
    case UpdatingPrimary => if primary && !replicas then 2 else 1
  }

  function Measure(status: Status): nat
    requires status.rotation.Some?
  {
    4 * |Pending(status)| + Rank(status)
  }

  /** One confirmation of a process that was due, or one change of stage. */
  ghost predicate Advances(a: Status, b: Status) {
    a.rotation.Some? &&
    ((exists node, primary :: Due(a, node, primary) && b == Confirm(a, node)) ||
     (b != a && b == AdvanceStage(a)))
  }

  predicate Due(status: Status, node: NodeStatus, primary: bool) {
    && status.rotation.Some? && Outstanding(status, node, primary)
    && ((node.ordinal in status.nodes && status.nodes[node.ordinal] == node) ||
        (node.id in status.previous && status.previous[node.id] == node))
  }

  /** After a confirmation exactly the entries with this identity are no longer outstanding. */
  lemma OutstandingAfterConfirmation(status: Status, node: NodeStatus, m: NodeStatus, version: int, primary: bool)
    requires status.rotation.Some?
    ensures
      Outstanding(Confirm(status, node), m.(appVersion := version), primary) <==>
      Outstanding(status, m, primary) && m.id != node.id
  {
  }

  /** Confirming a process leaves the others outstanding exactly as they were. */
  lemma ConfirmationSettlesOne(status: Status, node: NodeStatus, primary: bool)
    requires Due(status, node, primary)
    ensures Pending(Confirm(status, node)) <= Pending(status) - {node.id}
    ensures node.id in Pending(status)
  {
    hide Outstanding;
    var t := Confirm(status, node);
    forall o, group | o in t.nodes && Outstanding(t, t.nodes[o], group)
      ensures t.nodes[o].id == status.nodes[o].id != node.id && Outstanding(status, status.nodes[o], group)
    {
      OutstandingAfterConfirmation(status, node, status.nodes[o], t.nodes[o].appVersion, group);
    }
    forall id, group | id in t.previous && Outstanding(t, t.previous[id], group)
      ensures t.previous[id].id != node.id && Outstanding(status, status.previous[id], group)
    {
      OutstandingAfterConfirmation(status, node, status.previous[id], status.previous[id].appVersion, group);
    }
  }

  lemma {:induction false} SmallerSet(a: set<Identity>, b: set<Identity>)
    requires a <= b
    ensures |a| <= |b|
  {
    if a != {} {
      var x :| x in a;
      SmallerSet(a - {x}, b - {x});
    }
  }

  lemma ConfirmationLowersMeasure(status: Status, node: NodeStatus, primary: bool)
    requires Due(status, node, primary)
    ensures Measure(Confirm(status, node)) < Measure(status)
  {
    hide Pending, Confirm;
    ConfirmationContinues(status, node);
    ConfirmationSettlesOne(status, node, primary);
    SmallerSet(Pending(Confirm(status, node)), Pending(status) - {node.id});
  }

  lemma StageChangeLowersMeasure(status: Status)
    requires status.rotation.Some? && AdvanceStage(status) != status
    ensures Measure(AdvanceStage(status)) < Measure(status)
  {
    hide Pending, RoleComplete;
    StageChangeKeepsGroups(status);
  }

  /** Every advance lowers the measure. */
  lemma AdvanceLowersMeasure(a: Status, b: Status)
    requires Advances(a, b)
    ensures b.rotation.Some? && Measure(b) < Measure(a)
  {
    hide Measure, Confirm, AdvanceStage;
    if node, primary :| Due(a, node, primary) && b == Confirm(a, node) {
      ConfirmationLowersMeasure(a, node, primary);
      ConfirmationContinues(a, node);
    } else {
      StageChangeLowersMeasure(a);
    }
  }

  lemma ConfirmationContinues(status: Status, node: NodeStatus)
    requires status.rotation.Some?
    ensures Confirm(status, node).rotation.Some?
  {
  }

  lemma StageChangeKeepsGroups(status: Status)
    requires status.rotation.Some?
    ensures
      var t := AdvanceStage(status);
      && Pending(t) == Pending(status)
      && RoleComplete(t, true) == RoleComplete(status, true)
      && RoleComplete(t, false) == RoleComplete(status, false)
  {
    var t := AdvanceStage(status);
    forall node: NodeStatus, group ensures Outstanding(t, node, group) == Outstanding(status, node, group) {
    }
    assert OutstandingIds(t, true) == OutstandingIds(status, true);
    assert OutstandingIds(t, false) == OutstandingIds(status, false);
  }

  /** However the replicas' and the primary's stages alternate, the number of advances is bounded. */
  lemma {:induction false} RotationCannotCycle(statuses: seq<Status>)
    requires statuses != [] && statuses[0].rotation.Some?
    requires forall i :: 0 <= i < |statuses| - 1 ==> Advances(statuses[i], statuses[i + 1])
    ensures statuses[|statuses| - 1].rotation.Some?
    ensures |statuses| - 1 + Measure(statuses[|statuses| - 1]) <= Measure(statuses[0])
    ensures |statuses| - 1 <= 4 * |Pending(statuses[0])| + 3
  {
    hide Advances, Pending;
    if |statuses| > 1 {
      RotationCannotCycle(statuses[..|statuses| - 1]);
      var last := |statuses| - 2;
      assert statuses[..|statuses| - 1][last] == statuses[last];
      AdvanceLowersMeasure(statuses[last], statuses[last + 1]);
    }
  }

  /** A rotation that keeps its stage is over but for the Secret, or its own group has a process to confirm. */
  lemma StayingMeansWork(status: Status)
    requires status.rotation.Some? && AdvanceStage(status) == status
    ensures
      || status.rotation.value.stage == CleaningSecret
      || (status.rotation.value.stage in {UpdatingReplicas, UpdatingPrimary}
          && OutstandingIds(status, status.rotation.value.stage == UpdatingPrimary) != {})
  {
    CompleteMeansNoneOutstanding(status, true);
    CompleteMeansNoneOutstanding(status, false);
  }

  /** The Secret is cleaned exactly when nothing is outstanding in either group. */
  lemma CleaningMeansAllConfirmed(status: Status)
    requires status.rotation.Some? && status.rotation.value.stage == UpdatingPrimary
    ensures AdvanceStage(status).rotation.value.stage == CleaningSecret <==> Pending(status) == {}
  {
    CompleteMeansNoneOutstanding(status, true);
    CompleteMeansNoneOutstanding(status, false);
  }
}
