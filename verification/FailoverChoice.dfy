/**
 The loops of the failover and of the password rotation over the listed processes (failover.go:656-683,
 credential_rotation.go:92-214), and what the chosen candidate is.
 */
module FailoverChoice {
  import opened Options
  import opened OperatorTypes
  import opened Listing
  import FailoverSteps
  import RotationSteps

  /** An instance has at most three processes. */
  predicate AtMostThree(nodes: seq<NodeStatus>) {
    Sorted(nodes) && forall k :: 0 <= k < |nodes| ==> nodes[k].ordinal < 3
  }

  /** Further than the other, or as far with a lower ordinal. */
  predicate Ahead(a: NodeStatus, b: NodeStatus)
    requires a.replication.Some? && b.replication.Some?
  {
    var left, right := a.replication.value.offset, b.replication.value.offset;
    left > right || (left == right && a.ordinal <= b.ordinal)
  }

  /** The eligible process no eligible process is ahead of; none only if there is none. */
  predicate Chosen(source: NodeStatus, nodes: map<nat, NodeStatus>, choice: Option<NodeStatus>) {
    match choice
    case None => forall o :: o in nodes ==> !FailoverSteps.Eligible(source, nodes[o])
    case Some(best) =>
      && best.ordinal in nodes && nodes[best.ordinal] == best && FailoverSteps.Eligible(source, best)
      && forall o :: o in nodes && FailoverSteps.Eligible(source, nodes[o]) ==> Ahead(best, nodes[o])
  }

  /** The model's choice is the process that lost the least. */
  lemma ChoiceIsFurthest(source: NodeStatus, nodes: map<nat, NodeStatus>)
    requires forall o :: o in nodes ==> o < 3 && nodes[o].ordinal == o
    ensures Chosen(source, nodes, FailoverSteps.ChooseCandidate(source, nodes))
  {
    assert forall o :: o in nodes ==> o == 0 || o == 1 || o == 2;
  }

  lemma ChoiceIsUnique(source: NodeStatus, nodes: map<nat, NodeStatus>, a: Option<NodeStatus>, b: Option<NodeStatus>)
    requires Chosen(source, nodes, a) && Chosen(source, nodes, b)
    ensures a == b
  {
  }

  /** chooseFailoverCandidate: drop what is not eligible, and take the first in the order of the sort. */
  method ChooseFailoverCandidate(source: NodeStatus, nodes: seq<NodeStatus>) returns (choice: Option<NodeStatus>)
    requires AtMostThree(nodes)
    ensures choice == FailoverSteps.ChooseCandidate(source, Nodes(nodes))
  {
    SortedIsDistinct(nodes);
    choice := None;
    for i := 0 to |nodes|
      invariant choice.None? ==> forall k :: 0 <= k < i ==> !FailoverSteps.Eligible(source, nodes[k])
      invariant choice.Some? ==>
        && choice.value in nodes[..i] && FailoverSteps.Eligible(source, choice.value)
        && forall k :: 0 <= k < i && FailoverSteps.Eligible(source, nodes[k]) ==> Ahead(choice.value, nodes[k])
    {
      if FailoverSteps.Eligible(source, nodes[i]) && (choice.None? || !Ahead(choice.value, nodes[i])) {
        choice := Some(nodes[i]);
      }
    }
    ListedChoice(source, nodes, choice);
    KeyedNodes(nodes);
    ChoiceIsFurthest(source, Nodes(nodes));
    ChoiceIsUnique(source, Nodes(nodes), choice, FailoverSteps.ChooseCandidate(source, Nodes(nodes)));
  }

  lemma KeyedNodes(nodes: seq<NodeStatus>)
    requires AtMostThree(nodes)
    ensures forall o :: o in Nodes(nodes) ==> o < 3 && Nodes(nodes)[o].ordinal == o
  {
    forall o | o in Nodes(nodes) ensures o < 3 && Nodes(nodes)[o].ordinal == o {
      var k := TableOnly(nodes, OrdinalKey(), o);
    }
  }

  lemma ListedChoice(source: NodeStatus, nodes: seq<NodeStatus>, choice: Option<NodeStatus>)
    requires AtMostThree(nodes)
    requires choice.None? ==> forall k :: 0 <= k < |nodes| ==> !FailoverSteps.Eligible(source, nodes[k])
    requires choice.Some? ==>
      && choice.value in nodes && FailoverSteps.Eligible(source, choice.value)
      && forall k :: 0 <= k < |nodes| && FailoverSteps.Eligible(source, nodes[k]) ==> Ahead(choice.value, nodes[k])
    ensures Chosen(source, Nodes(nodes), choice)
  {
    SortedIsDistinct(nodes);
    var table := Nodes(nodes);
    if choice.Some? {
      var k :| 0 <= k < |nodes| && nodes[k] == choice.value;
      TableHas(nodes, OrdinalKey(), k);
    }
    forall o | o in table && FailoverSteps.Eligible(source, table[o])
      ensures choice.Some? && Ahead(choice.value, table[o])
    {
      var k := TableOnly(nodes, OrdinalKey(), o);
    }
  }

  // ---- the rotation ----

  /** rotationRoleComplete. */
  method RoleComplete(status: Status, nodes: seq<NodeStatus>, previous: seq<NodeStatus>, primary: bool)
    returns (complete: bool)
    requires status.rotation.Some? && Sorted(nodes) && Distinct(previous, IdKey())
    requires status.nodes == Nodes(nodes) && status.previous == History(previous)
    ensures complete <==> RotationSteps.RoleComplete(status, primary)
  {
    var all := nodes + previous;
    for i := 0 to |all|
      invariant forall k :: 0 <= k < i ==> !RotationSteps.Outstanding(status, all[k], primary)
    {
      if RotationSteps.IsPrimaryProcess(status, all[i]) == primary && all[i].termination.None?
        && !RotationSteps.Confirmed(status.rotation.value, all[i].id)
      {
        OutstandingIsListed(status, nodes, previous, all[i], primary);
        return false;
      }
    }
    NothingOutstanding(status, nodes, previous, primary);
    complete := true;
  }

  lemma OutstandingIsListed(
    status: Status, nodes: seq<NodeStatus>, previous: seq<NodeStatus>, process: NodeStatus, primary: bool)
    requires status.rotation.Some? && Sorted(nodes) && Distinct(previous, IdKey())
    requires status.nodes == Nodes(nodes) && status.previous == History(previous)
    requires process in nodes + previous && RotationSteps.Outstanding(status, process, primary)
    ensures !RotationSteps.RoleComplete(status, primary)
  {
    SortedIsDistinct(nodes);
    if process in nodes {
      var k :| 0 <= k < |nodes| && nodes[k] == process;
      TableHas(nodes, OrdinalKey(), k);
    } else {
      var k :| 0 <= k < |previous| && previous[k] == process;
      TableHas(previous, IdKey(), k);
    }
  }

  lemma NothingOutstanding(status: Status, nodes: seq<NodeStatus>, previous: seq<NodeStatus>, primary: bool)
    requires status.rotation.Some? && status.nodes == Nodes(nodes) && status.previous == History(previous)
    requires forall k :: 0 <= k < |nodes + previous| ==>
      !RotationSteps.Outstanding(status, (nodes + previous)[k], primary)
    ensures RotationSteps.RoleComplete(status, primary)
  {
    forall o | o in status.nodes ensures !RotationSteps.Outstanding(status, status.nodes[o], primary) {
      var k := TableOnly(nodes, OrdinalKey(), o);
      assert (nodes + previous)[k] == nodes[k];
    }
    forall id | id in status.previous ensures !RotationSteps.Outstanding(status, status.previous[id], primary) {
      var k := TableOnly(previous, IdKey(), id);
      assert (nodes + previous)[|nodes| + k] == previous[k];
    }
  }
}
