/**
 The status object as the operator edits it in place: lists of processes that are searched, rebuilt and
 pruned in loops, and fields that are assigned one after the other.  Every method leaves behind exactly the
 status that the corresponding function of the model computes.
 */
module StatusObject {
  import opened Options
  import opened OperatorTypes
  import opened Listing
  import Availability
  import Contract
  import Observation
  import RotationSteps
  import Operator
  import Shape

  class InstanceStatus {
    var phase: Phase
    var reason: Reason
    var initialized: bool
    var publicReady: bool
    var dataLoss: Option<DataLoss>
    var observedGeneration: int
    var appliedPasswordVersion: int
    var accepted: Accepted
    var applied: Option<Applied>
    var primaryOrdinal: Option<nat>
    var primaryId: Identity
    var failover: Option<Failover>
    var rollout: Option<Rollout>
    var rotation: Option<Rotation>
    var deletion: Option<DeletionStage>
    var nodes: seq<NodeStatus>
    var previous: seq<NodeStatus>

    /** Sorted current processes, and a history without duplicates. */
    ghost predicate Valid()
      reads this
    {
      Sorted(nodes) && Distinct(previous, IdKey())
    }

    /** An identity in the history that is listed at this ordinal was there before (see HistoryKeepsOrdinals). */
    ghost predicate KeepsOrdinal(ordinal: nat)
      reads this
    {
      forall j, k ::
        0 <= j < |nodes| && 0 <= k < |previous| && nodes[j].ordinal == ordinal && previous[k].id == nodes[j].id ==>
        previous[k].ordinal == ordinal
    }

    ghost function Value(): Status
      reads this
    {
      Status(phase, reason, initialized, publicReady, dataLoss, observedGeneration, appliedPasswordVersion,
             accepted, applied, primaryOrdinal, primaryId, failover, rollout, rotation, deletion,
             Nodes(nodes), History(previous))
    }

    // ---- phases and the confirmation of a generation ----

    /** primaryPubliclyReady. */
    method PrimaryPubliclyReady() returns (ready: bool)
      requires Valid()
      ensures ready <==> Availability.PrimaryPubliclyReady(Value())
    {
      if !publicReady || primaryOrdinal.None? {
        return false;
      }
      var primary := Find(nodes, primaryOrdinal.value);
      ready := primary.Some? && primary.value.role == Primary && primary.value.termination.None?
        && primary.value.observation.None? && primary.value.readiness && primary.value.appEnabled
        && primary.value.appVersion == accepted.passwordVersion;
    }

    /** readyReplicaCount. */
    method ReadyReplicas() returns (count: nat)
      requires Valid()
      ensures count == Availability.ReadyReplicaCount(Value())
    {
      count := 0;
      ghost var ready: set<nat> := {};
      for i := 0 to |nodes|
        invariant count == |ready|
        invariant forall o :: o in ready <==>
          exists k :: 0 <= k < i && nodes[k].ordinal == o && Availability.ReplicaReady(Value(), nodes[k])
      {
        var node := nodes[i];
        if node.role == Replica && node.termination.None? && node.observation.None? && node.readiness
          && node.appEnabled && node.appVersion == accepted.passwordVersion && node.replication.Some?
          && node.replication.value.linkUp && !node.replication.value.syncInProgress && node.replication.value.synced
        {
          assert nodes[i].ordinal !in ready;
          ready := ready + {nodes[i].ordinal};
          count := count + 1;
        }
      }
      ReadyOrdinals(Value(), nodes, ready);
    }

    /** confirmAppliedGeneration. */
    method ConfirmAppliedGeneration()
      requires Valid()
      modifies this`observedGeneration
      ensures Valid() && Value() == Availability.ConfirmApplied(old(Value()))
    {
      if applied.Some? && applied.value.mode == accepted.mode && applied.value.size == accepted.size
        && appliedPasswordVersion == accepted.passwordVersion
      {
        observedGeneration := accepted.generation;
      }
    }

    /** applyOperationalPhase. */
    method ApplyOperationalPhase()
      requires Valid()
      modifies this`phase, this`reason, this`observedGeneration
      ensures Valid() && Value() == Availability.ApplyOperationalPhase(old(Value()))
    {
      hide Availability.PrimaryPubliclyReady, Availability.ReadyReplicaCount, HasUnterminatedPrevious, Sorted, Distinct,
           Availability.ConfirmApplied;
      if !initialized {
        return;
      }
      var ready := PrimaryPubliclyReady();
      var unproved := HasUnterminated(previous);
      if !ready || unproved {
        phase, reason := Unavailable, PrimaryNotReady;
        return;
      }
      var activeOperation := failover.Some? || rollout.Some? || rotation.Some?;
      if accepted.mode == HA {
        var readyReplicas := ReadyReplicas();
        if activeOperation {
          phase, reason := Updating, OtherReason;
          return;
        }
        if readyReplicas < 2 {
          phase, reason := Degraded, OtherReason;
          ConfirmAppliedGeneration();
          return;
        }
      }
      if activeOperation {
        phase, reason := Updating, OtherReason;
        return;
      }
      phase, reason := Running, OtherReason;
      ConfirmAppliedGeneration();
    }

    /** The closure of finishAppAdmission. */
    method FinishAppAdmission(node: NodeStatus)
      requires Valid()
      modifies this
      ensures Valid() && Value() == Availability.FinishAppAdmission(old(Value()), node)
    {
      hide *;
      NotedIsFinished(Value(), node);
      NoteAdmission(node);
      ApplyOperationalPhase();
    }

    method NoteAdmission(node: NodeStatus)
      requires Valid()
      modifies this
      ensures Valid() && Value() == Noted(old(Value()), node)
    {
      hide Availability.Admit, Sorted, Distinct, Nodes, History, SetPrimary;
      ghost var was := Value();
      AdmittingReadsNodes(
        was, Value().(initialized := true, primaryOrdinal := Some(node.ordinal), primaryId := node.id), node);
      var firstAdmission := !initialized;
      initialized := true;
      primaryOrdinal, primaryId := Some(node.ordinal), node.id;
      AdmitProcess(node);
      if firstAdmission {
        appliedPasswordVersion := accepted.passwordVersion;
        applied := Some(Applied(accepted.mode, accepted.size));
      }
      publicReady := true;
    }

    /** The loop that notes the access of one process. */
    method AdmitProcess(node: NodeStatus)
      requires Valid()
      modifies this`nodes
      ensures Valid() && Value() == old(Value()).(nodes := Availability.Admit(old(Value()), node))
    {
      hide Sorted, Distinct;
      ghost var was, status := nodes, Value();
      ghost var f := (n: NodeStatus) =>
        if SameProcess(n, node) then n.(appEnabled := true, appVersion := status.accepted.passwordVersion) else n;
      for i := 0 to |nodes|
        invariant |nodes| == |was| && accepted == status.accepted
        invariant forall k :: 0 <= k < |was| ==> nodes[k] == if k < i then f(was[k]) else was[k]
      {
        if SameProcess(nodes[i], node) {
          nodes := nodes[i := nodes[i].(appEnabled := true, appVersion := accepted.passwordVersion)];
        }
      }
      MappedNodes(was, nodes, f);
      assert Nodes(nodes) == Availability.Admit(status, node);
    }

    // ---- operations ----

    /** reconcileAcceptedConfiguration, for the password versions with a valid hash in the Secret. */
    method AcceptConfiguration(spec: Spec, hashes: set<int>)
      requires Valid()
      modifies this
      ensures Valid() && Value() == Contract.ReconcileAccepted(old(Value()), spec, hashes)
    {
      hide Sorted, Distinct, Nodes, History, Contract.NextAccepted, Contract.Unchanged, Contract.Accept;
      if Contract.Unchanged(spec, accepted) {
        return;
      }
      var verdict := Contract.NextAccepted(spec, accepted);
      if verdict.Rejected? {
        return;
      }
      if observedGeneration != accepted.generation || failover.Some? || rollout.Some? || rotation.Some? {
        return;
      }
      if verdict.accepted.passwordVersion !in hashes {
        return;
      }
      TakeUp(verdict.accepted);
    }

    method TakeUp(candidate: Accepted)
      requires Valid()
      modifies this
      ensures Valid() && Value() == Contract.Accept(old(Value()), candidate)
    {
      hide Sorted, Distinct, Nodes, History;
      var sizeChanged := candidate.size != accepted.size;
      var passwordChanged := candidate.passwordVersion != accepted.passwordVersion;
      if sizeChanged {
        rollout := Some(Rollout(candidate.generation, candidate.size, Preparing, false, None));
      }
      if passwordChanged {
        rotation := Some(Rotation(candidate.passwordVersion, accepted.passwordVersion, RotationPreparing, {}));
      }
      accepted := candidate;
      if !sizeChanged && !passwordChanged {
        observedGeneration := candidate.generation;
      } else if initialized && phase != Unavailable && phase != Failed {
        phase, reason := Updating, OtherReason;
      }
    }

    /** The closure of rotatePasswordForRole that confirms a process. */
    method ConfirmRotation(process: NodeStatus)
      requires Valid() && rotation.Some?
      modifies this`rotation, this`nodes
      ensures Valid() && Value() == RotationSteps.Confirm(old(Value()), process)
    {
      hide Sorted, Distinct;
      ghost var was := nodes;
      var target := rotation.value.target;
      rotation := Some(rotation.value.(
        confirmations := rotation.value.confirmations + {Confirmation(process.id, target)}));
      ghost var confirmed := rotation;
      ghost var f := (n: NodeStatus) => if SameProcess(n, process) then n.(appVersion := target) else n;
      for i := 0 to |nodes|
        invariant |nodes| == |was| && rotation == confirmed
        invariant forall k :: 0 <= k < |was| ==> nodes[k] == if k < i then f(was[k]) else was[k]
      {
        if SameProcess(nodes[i], process) {
          nodes := nodes[i := nodes[i].(appVersion := target)];
        }
      }
      MappedNodes(was, nodes, f);
      assert Nodes(nodes) == RotationSteps.Confirm(old(Value()), process).nodes;
    }

    // ---- what inspections write ----

    /** recordCurrentProcess. */
    method RecordCurrentProcess(observed: NodeStatus, prior: Option<Evidence>)
      requires Valid() && KeepsOrdinal(observed.ordinal)
      modifies this`nodes, this`previous
      ensures Valid()
      ensures Value() == Observation.RecordCurrentProcess(old(Value()), observed, prior)
    {
      var current := Find(nodes, observed.ordinal);
      FoundIsListed(nodes, observed.ordinal);
      if current.Some? && SameProcess(current.value, observed) {
        nodes := Replace(nodes, observed.(termination := current.value.termination));
        return;
      }
      if current.Some? {
        var displaced := if current.value.termination.None? && prior.Some?
          then current.value.(termination := prior) else current.value;
        previous := Append(previous, displaced);
      }
      nodes := Replace(nodes, observed);
    }

    /** Both closures that record a process seen alive. */
    method RecordSeen(observed: NodeStatus, prior: Option<Evidence>)
      requires Valid() && KeepsOrdinal(observed.ordinal)
      modifies this
      ensures Valid() && Value() == Observation.RecordSeen(old(Value()), observed, prior)
    {
      hide *;
      var current := FindCurrent(observed.ordinal);
      var changed := Changed(current, observed);
      SeeingIs(Value(), observed, prior);
      RecordCurrentProcess(observed, if changed then prior else None);
      AdoptPrimary(observed, changed, current);
      FlagUnsafeHistory();
    }

    method FindCurrent(ordinal: nat) returns (found: Option<NodeStatus>)
      requires Valid()
      ensures found == NodeAt(Value().nodes, ordinal)
    {
      found := Find(nodes, ordinal);
    }

    method AdoptPrimary(observed: NodeStatus, changed: bool, current: Option<NodeStatus>)
      requires Valid() && (changed ==> current.Some?)
      modifies this`primaryOrdinal, this`primaryId
      ensures Valid() && Value() == Adopted(old(Value()), observed, changed, current)
    {
      hide Sorted, Distinct, Nodes, History;
      if changed && accepted.mode == Single && current.value.termination.Some? {
        primaryOrdinal, primaryId := Some(observed.ordinal), observed.id;
      }
      if !changed && primaryOrdinal == Some(observed.ordinal) && primaryId.podUID == observed.id.podUID
        && primaryId.containerID == observed.id.containerID && primaryId.runID == 0 && accepted.mode == Single
      {
        primaryId := observed.id;
      }
    }

    method FlagUnsafeHistory()
      requires Valid()
      modifies this`phase, this`reason
      ensures Valid() && Value() == Observation.FlagUnsafeHistory(old(Value()))
    {
      hide Sorted, Distinct, Nodes, History, HasUnterminatedPrevious;
      var unproved := HasUnterminated(previous);
      if unproved && initialized {
        phase, reason := Unavailable, FencingRequired;
      }
    }

    /** The closure of saveContainerTermination. */
    method SaveContainerTermination(dead: NodeStatus)
      requires Valid() && KeepsOrdinal(dead.ordinal)
      modifies this
      ensures Valid() && Value() == Observation.SaveContainerTermination(old(Value()), dead)
    {
      hide *;
      SavingIs(Value(), dead);
      ListDead(dead);
      MarkPrimaryNotReady(dead.ordinal);
    }

    method MarkPrimaryNotReady(ordinal: nat)
      requires Valid()
      modifies this`phase, this`reason
      ensures Valid() && Value() == Observation.MarkPrimaryNotReady(old(Value()), ordinal)
    {
      hide Sorted, Distinct, Nodes, History;
      if initialized && (primaryOrdinal.None? || primaryOrdinal.value == ordinal) {
        phase, reason := Unavailable, PrimaryNotReady;
      }
    }

    method ListDead(dead: NodeStatus)
      requires Valid() && KeepsOrdinal(dead.ordinal)
      modifies this`nodes, this`previous
      ensures Valid() && Value() == DeadListed(old(Value()), dead)
    {
      ghost var was := Value();
      var node := KeepReplaced(dead);
      nodes := Replace(nodes, node);
      ghost var kept := previous;
      previous := EndContainer(previous, node);
      MappedHistory(kept, previous, Ending(node));
      assert History(previous) == Ended(History(kept), node);
    }

    /** The node to list for the dead container; a process it displaces goes to the history. */
    method KeepReplaced(dead: NodeStatus) returns (node: NodeStatus)
      requires Valid() && KeepsOrdinal(dead.ordinal)
      modifies this`previous
      ensures Valid() && node == SavedNode(old(Value()), dead) && node.ordinal == dead.ordinal
      ensures Value() == old(Value()).(previous := SavedHistory(old(Value()), dead))
    {
      var saved := Find(nodes, dead.ordinal);
      FoundIsListed(nodes, dead.ordinal);
      node := Observation.Terminated(dead, ContainerStatus);
      if saved.Some? {
        if SameContainer(saved.value, dead) {
          node := Observation.Terminated(saved.value, ContainerStatus);
        } else if deletion.Some? {
          previous := Append(previous, saved.value);
        }
      }
    }

    /** The closure of processUnavailable. */
    method ProcessUnavailable(ordinal: nat)
      requires Valid()
      modifies this
      ensures Valid() && Value() == Observation.ProcessUnavailable(old(Value()), ordinal)
    {
      hide Sorted, Distinct, Nodes, History;
      ghost var was := Value();
      MarkUnready(ordinal);
      UnreadyIsMarked(was, ordinal);
      if initialized && (primaryOrdinal.None? || primaryOrdinal.value == ordinal) {
        phase, reason := Unavailable, PrimaryNotReady;
      }
    }

    method MarkUnready(ordinal: nat)
      requires Valid()
      modifies this`nodes
      ensures Valid() && Value() == old(Value()).(nodes := Unready(old(Value()).nodes, ordinal))
    {
      hide Distinct;
      ghost var was := nodes;
      ghost var f := (n: NodeStatus) => if n.ordinal == ordinal then n.(readiness := false) else n;
      for i := 0 to |nodes|
        invariant |nodes| == |was|
        invariant forall k :: 0 <= k < |was| ==> nodes[k] == if k < i then f(was[k]) else was[k]
      {
        if nodes[i].ordinal == ordinal {
          nodes := nodes[i := nodes[i].(readiness := false)];
        }
      }
      MappedNodes(was, nodes, f);
      NodesAreKeyed(was);
      assert Nodes(nodes) == Unready(Nodes(was), ordinal);
    }

    /** The closure of reconcileManualFencing: both lists. */
    method AcceptManualFencing(id: Identity)
      requires Valid()
      modifies this`nodes, this`previous
      ensures Valid() && Value() == Observation.AcceptManualFencing(old(Value()), id)
    {
      hide Sorted, Distinct, Nodes, History, Vouching, Observation.AcceptManualFencing;
      ghost var was, before := nodes, previous;
      nodes := Fence(nodes, id);
      previous := Fence(previous, id);
      VouchingIs(old(Value()), was, before, nodes, previous, id);
    }

    /** The closure of reconcileProcessHistory. */
    method PruneHistory()
      requires Valid()
      modifies this`previous
      ensures Valid() && Value() == Observation.PruneHistory(old(Value()))
    {
      hide Sorted, Nodes;
      ghost var status := Value();
      var list := previous;
      var kept: seq<NodeStatus> := [];
      ghost var table: map<Identity, NodeStatus> := map[];
      for i := 0 to |list|
        invariant Value() == status
        invariant Distinct(kept, IdKey()) && History(kept) == table
        invariant forall k :: 0 <= k < |kept| ==> kept[k] in list[..i]
        invariant forall id :: id in table ==> exists k :: 0 <= k < i && list[k].id == id && table[id] == list[k]
        invariant forall k :: 0 <= k < i ==> (list[k].id in table <==> Kept(status, list[k]))
      {
        var process := list[i];
        if process.termination.None? || Required(process.id) {
          KeepingEntry(kept, process, list[..i]);
          table := table[process.id := process];
          kept := kept + [process];
        }
      }
      PrunedTable(status, list, table);
      previous := kept;
    }

    /** previousProcessRequired. */
    predicate Required(id: Identity)
      reads this
      ensures Required(id) == Observation.PreviousRequired(Value(), id)
    {
      || (primaryOrdinal.Some? && primaryId == id)
      || (failover.Some? && (failover.value.source == id || failover.value.candidate == Some(id)))
      || (rollout.Some? && rollout.value.process == Some(id))
    }
  }

  /** In a sound state an identity in the history was listed at the ordinal it is listed at now. */
  lemma HistoryKeepsOrdinals(s: Operator.State, o: nat, id: Identity)
    requires Shape.Sound(s) && o in s.status.nodes && id in s.status.previous && s.status.nodes[o].id == id
    ensures s.status.previous[id].ordinal == o
  {
  }

  function Ending(node: NodeStatus): NodeStatus -> NodeStatus {
    (n: NodeStatus) =>
      if SameContainer(n, node) && n.termination.None? then Observation.Terminated(n, ContainerStatus) else n
  }

  /** The loop over the history in saveContainerTermination. */
  method EndContainer(list: seq<NodeStatus>, node: NodeStatus) returns (ended: seq<NodeStatus>)
    ensures Mapped(list, ended, Ending(node))
  {
    ended := list;
    for i := 0 to |list|
      invariant |ended| == |list|
      invariant forall k :: 0 <= k < |list| ==> ended[k] == if k < i then Ending(node)(list[k]) else list[k]
    {
      if SameContainer(ended[i], node) && ended[i].termination.None? {
        ended := ended[i := ended[i].(readiness := false, termination := Some(ContainerStatus))];
      }
    }
  }

  function SavedNode(status: Status, dead: NodeStatus): NodeStatus {
    var saved := NodeAt(status.nodes, dead.ordinal);
    Observation.Terminated(
      if saved.Some? && SameContainer(saved.value, dead) then saved.value else dead, ContainerStatus)
  }

  function SavedHistory(status: Status, dead: NodeStatus): map<Identity, NodeStatus> {
    var saved := NodeAt(status.nodes, dead.ordinal);
    if saved.Some? && !SameContainer(saved.value, dead) && status.deletion.Some?
    then status.previous[saved.value.id := saved.value] else status.previous
  }

  function Ended(previous: map<Identity, NodeStatus>, node: NodeStatus): map<Identity, NodeStatus> {
    map id | id in previous :: Ending(node)(previous[id])
  }

  function DeadListed(status: Status, dead: NodeStatus): Status {
    var node := SavedNode(status, dead);
    status.(nodes := status.nodes[dead.ordinal := node], previous := Ended(SavedHistory(status, dead), node))
  }

  lemma SavingIs(status: Status, dead: NodeStatus)
    ensures Observation.SaveContainerTermination(status, dead) ==
      Observation.MarkPrimaryNotReady(DeadListed(status, dead), dead.ordinal)
  {
    var node := SavedNode(status, dead);
    var kept := SavedHistory(status, dead);
    assert Ended(kept, node) == map id | id in kept ::
      if SameContainer(kept[id], node) && kept[id].termination.None?
      then Observation.Terminated(kept[id], ContainerStatus) else kept[id];
  }

  predicate Changed(current: Option<NodeStatus>, observed: NodeStatus)
    ensures Changed(current, observed) ==> current.Some?
  {
    current.Some? && !SameProcess(current.value, observed)
  }

  /** What a process seen alive means for the primary of a single instance. */
  function Adopted(status: Status, observed: NodeStatus, changed: bool, current: Option<NodeStatus>): Status
    requires changed ==> current.Some?
  {
    var selected := if changed && status.accepted.mode == Single && current.value.termination.Some?
      then status.(primaryOrdinal := Some(observed.ordinal), primaryId := observed.id) else status;
    if !changed && selected.primaryOrdinal == Some(observed.ordinal)
      && selected.primaryId.podUID == observed.id.podUID
      && selected.primaryId.containerID == observed.id.containerID
      && selected.primaryId.runID == 0 && status.accepted.mode == Single
    then selected.(primaryId := observed.id) else selected
  }

  lemma SeeingIs(status: Status, observed: NodeStatus, prior: Option<Evidence>)
    ensures
      var current := NodeAt(status.nodes, observed.ordinal);
      var changed := Changed(current, observed);
      var recorded := Observation.RecordCurrentProcess(status, observed, if changed then prior else None);
      Observation.RecordSeen(status, observed, prior) ==
        Observation.FlagUnsafeHistory(Adopted(recorded, observed, changed, current))
  {
    hide Observation.FlagUnsafeHistory;
  }

  function Unready(nodes: map<nat, NodeStatus>, ordinal: nat): map<nat, NodeStatus> {
    if ordinal in nodes then nodes[ordinal := nodes[ordinal].(readiness := false)] else nodes
  }

  lemma UnreadyIsMarked(status: Status, ordinal: nat)
    ensures
      var unready := status.(nodes := Unready(status.nodes, ordinal));
      Observation.ProcessUnavailable(status, ordinal) ==
        if status.initialized && (status.primaryOrdinal.None? || status.primaryOrdinal.value == ordinal)
        then unready.(phase := Unavailable, reason := PrimaryNotReady) else unready
  {
  }

  predicate Kept(status: Status, process: NodeStatus) {
    process.termination.None? || Observation.PreviousRequired(status, process.id)
  }

  lemma FoundIsListed(nodes: seq<NodeStatus>, ordinal: nat)
    requires Sorted(nodes)
    ensures ordinal in Nodes(nodes) ==>
      Nodes(nodes)[ordinal].ordinal == ordinal && exists k :: 0 <= k < |nodes| && nodes[k] == Nodes(nodes)[ordinal]
  {
    if ordinal in Nodes(nodes) { var k := TableOnly(nodes, OrdinalKey(), ordinal); }
  }

  lemma NodesAreKeyed(nodes: seq<NodeStatus>)
    ensures forall o :: o in Nodes(nodes) ==> Nodes(nodes)[o].ordinal == o
  {
    forall o | o in Nodes(nodes) ensures Nodes(nodes)[o].ordinal == o {
      var k := TableOnly(nodes, OrdinalKey(), o);
    }
  }

  lemma HistoryIsKeyed(previous: seq<NodeStatus>)
    ensures forall id :: id in History(previous) ==> History(previous)[id].id == id
  {
    forall id | id in History(previous) ensures History(previous)[id].id == id {
      var k := TableOnly(previous, IdKey(), id);
    }
  }

  lemma MappedHistory(a: seq<NodeStatus>, b: seq<NodeStatus>, f: NodeStatus -> NodeStatus)
    requires Distinct(a, IdKey()) && Mapped(a, b, f) && forall n :: f(n).ordinal == n.ordinal && f(n).id == n.id
    ensures Distinct(b, IdKey()) && History(b).Keys == History(a).Keys
    ensures forall id :: id in History(a) ==> History(b)[id] == f(History(a)[id])
    ensures forall k :: 0 <= k < |a| ==> b[k].id == a[k].id && b[k].ordinal == a[k].ordinal
  {
    MappedTable(a, b, IdKey(), f);
  }

  lemma VouchingIs(
    status: Status, was: seq<NodeStatus>, before: seq<NodeStatus>, nodes: seq<NodeStatus>, previous: seq<NodeStatus>,
    id: Identity)
    requires Sorted(was) && Distinct(before, IdKey())
    requires Mapped(was, nodes, Vouching(id)) && Mapped(before, previous, Vouching(id))
    requires status.nodes == Nodes(was) && status.previous == History(before)
    ensures Sorted(nodes) && Distinct(previous, IdKey())
    ensures Observation.AcceptManualFencing(status, id) ==
      status.(nodes := Nodes(nodes), previous := History(previous))
  {
    hide Sorted, Distinct, Nodes, History, Mapped;
    MappedNodes(was, nodes, Vouching(id));
    MappedHistory(before, previous, Vouching(id));
    HistoryIsKeyed(before);
    assert History(previous) == Observation.TerminateWhere(History(before), id, ManualFencing);
  }

  function Vouching(id: Identity): NodeStatus -> NodeStatus {
    (n: NodeStatus) =>
      if n.id == id && n.termination.None? then Observation.Terminated(n, ManualFencing) else n
  }

  /** One of the two loops of reconcileManualFencing. */
  method Fence(list: seq<NodeStatus>, id: Identity) returns (fenced: seq<NodeStatus>)
    ensures Mapped(list, fenced, Vouching(id))
  {
    fenced := list;
    for i := 0 to |list|
      invariant |fenced| == |list|
      invariant forall k :: 0 <= k < |list| ==> fenced[k] == if k < i then Vouching(id)(list[k]) else list[k]
    {
      if fenced[i].id == id && fenced[i].termination.None? {
        fenced := fenced[i := fenced[i].(readiness := false, termination := Some(ManualFencing))];
      }
    }
  }

  lemma KeepingEntry(kept: seq<NodeStatus>, process: NodeStatus, seen: seq<NodeStatus>)
    requires Distinct(kept, IdKey()) && (forall k :: 0 <= k < |kept| ==> kept[k] in seen)
    requires forall n :: n in seen ==> n.id != process.id
    ensures Distinct(kept + [process], IdKey())
    ensures History(kept + [process]) == History(kept)[process.id := process]
  {
    assert (kept + [process])[..|kept|] == kept;
  }

  lemma PrunedTable(status: Status, previous: seq<NodeStatus>, table: map<Identity, NodeStatus>)
    requires Distinct(previous, IdKey()) && status.previous == History(previous)
    requires forall id :: id in table ==>
      exists k :: 0 <= k < |previous| && previous[k].id == id && table[id] == previous[k]
    requires forall k :: 0 <= k < |previous| ==> (previous[k].id in table <==> Kept(status, previous[k]))
    ensures table == Observation.PruneHistory(status).previous
  {
    var pruned := Observation.PruneHistory(status).previous;
    forall id | id in table ensures id in pruned && pruned[id] == table[id] {
      var k :| 0 <= k < |previous| && previous[k].id == id && table[id] == previous[k];
      TableHas(previous, IdKey(), k);
    }
    forall id | id in pruned ensures id in table {
      var k := TableOnly(previous, IdKey(), id);
    }
  }

  /** The status with an admitted primary, before its phase is set. */
  function Noted(status: Status, node: NodeStatus): Status {
    var first := !status.initialized;
    status.(
      initialized := true, publicReady := true, primaryOrdinal := Some(node.ordinal), primaryId := node.id,
      nodes := Availability.Admit(status, node),
      appliedPasswordVersion := if first then status.accepted.passwordVersion else status.appliedPasswordVersion,
      applied := if first then Some(Applied(status.accepted.mode, status.accepted.size)) else status.applied)
  }

  lemma NotedIsFinished(status: Status, node: NodeStatus)
    ensures Availability.FinishAppAdmission(status, node) == Availability.ApplyOperationalPhase(Noted(status, node))
  {
    hide Availability.ApplyOperationalPhase, Availability.Admit;
  }

  lemma AdmittingReadsNodes(a: Status, b: Status, node: NodeStatus)
    requires a.nodes == b.nodes && a.accepted == b.accepted
    ensures Availability.Admit(a, node) == Availability.Admit(b, node)
  {
  }

  /** Entries that keep their identity keep the list sorted and the table keyed. */
  lemma MappedNodes(a: seq<NodeStatus>, b: seq<NodeStatus>, f: NodeStatus -> NodeStatus)
    requires Sorted(a) && Mapped(a, b, f) && forall n :: f(n).ordinal == n.ordinal && f(n).id == n.id
    ensures Sorted(b) && Nodes(b).Keys == Nodes(a).Keys
    ensures forall o :: o in Nodes(a) ==> Nodes(b)[o] == f(Nodes(a)[o])
    ensures forall k :: 0 <= k < |a| ==> b[k].id == a[k].id && b[k].ordinal == a[k].ordinal
  {
    MappedTable(a, b, OrdinalKey(), f);
  }

  lemma ReadyOrdinals(status: Status, nodes: seq<NodeStatus>, ready: set<nat>)
    requires Sorted(nodes) && status.nodes == Nodes(nodes)
    requires forall o :: o in ready <==>
      exists k :: 0 <= k < |nodes| && nodes[k].ordinal == o && Availability.ReplicaReady(status, nodes[k])
    ensures ready == set o | o in status.nodes && Availability.ReplicaReady(status, status.nodes[o])
  {
    SortedIsDistinct(nodes);
    forall o | o in ready
      ensures o in status.nodes && Availability.ReplicaReady(status, status.nodes[o])
    {
      var k :| 0 <= k < |nodes| && nodes[k].ordinal == o && Availability.ReplicaReady(status, nodes[k]);
      TableHas(nodes, OrdinalKey(), k);
    }
    forall o | o in status.nodes && Availability.ReplicaReady(status, status.nodes[o]) ensures o in ready {
      var k := TableOnly(nodes, OrdinalKey(), o);
    }
  }
}
