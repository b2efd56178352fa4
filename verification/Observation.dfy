/**
 What an inspection of the processes writes into the status, and how a process enters, changes and
 leaves it (process_observation.go, process_termination.go, manual_fencing.go).
 */
module Observation {
  import opened Options
  import opened OperatorTypes
  import Health

  /** recordCurrentProcess. `prior` is the proof, if any, that the displaced process is stopped. */
  function RecordCurrentProcess(status: Status, observed: NodeStatus, prior: Option<Evidence>): Status {
    match NodeAt(status.nodes, observed.ordinal)
    case None => status.(nodes := status.nodes[observed.ordinal := observed])
    case Some(current) =>
      if SameProcess(current, observed) then
        status.(nodes := status.nodes[observed.ordinal := observed.(termination := current.termination)])
      else
        var displaced := if current.termination.None? then current.(termination := prior) else current;
        status.(
          previous := status.previous[current.id := displaced],
          nodes := status.nodes[observed.ordinal := observed])
  }

  /** A process with an unproved end makes the instance unavailable until it is fenced. */
  function FlagUnsafeHistory(status: Status): (r: Status)
    ensures r == status.(phase := r.phase, reason := r.reason)
    ensures r.reason == EmptyRecovery ==> status.reason == EmptyRecovery
  {
    if HasUnterminatedPrevious(status.previous) && status.initialized then
      status.(phase := Unavailable, reason := FencingRequired)
    else status
  }

  /** The status written for a process seen alive at its ordinal. */
  function RecordSeen(status: Status, observed: NodeStatus, prior: Option<Evidence>): (r: Status)
    ensures r == status.(nodes := r.nodes, previous := r.previous, phase := r.phase, reason := r.reason,
                         primaryOrdinal := r.primaryOrdinal, primaryId := r.primaryId)
    ensures status.accepted.mode == HA ==>
      r.primaryOrdinal == status.primaryOrdinal && r.primaryId == status.primaryId
    ensures status.primaryOrdinal.Some? ==> r.primaryOrdinal.Some?
    ensures r.reason == EmptyRecovery ==> status.reason == EmptyRecovery
  {
    var current := NodeAt(status.nodes, observed.ordinal);
    var changed := current.Some? && !SameProcess(current.value, observed);
    var recorded := RecordCurrentProcess(status, observed, if changed then prior else None);
    var selected :=
      if changed && status.accepted.mode == Single && current.value.termination.Some?
      then SetPrimary(recorded, observed)
      else recorded;
    var adopted :=
      if !changed && selected.primaryOrdinal == Some(observed.ordinal)
        && selected.primaryId.podUID == observed.id.podUID
        && selected.primaryId.containerID == observed.id.containerID
        && selected.primaryId.runID == 0 && status.accepted.mode == Single
      then selected.(primaryId := observed.id)
      else selected;
    FlagUnsafeHistory(adopted)
  }

  predicate FailureAffectsPrimary(status: Status, ordinal: nat) {
    status.primaryOrdinal.None? || status.primaryOrdinal.value == ordinal
  }

  function MarkPrimaryNotReady(status: Status, ordinal: nat): (r: Status)
    ensures r == status.(phase := r.phase, reason := r.reason)
    ensures r.reason == EmptyRecovery ==> status.reason == EmptyRecovery
  {
    if status.initialized && FailureAffectsPrimary(status, ordinal)
    then status.(phase := Unavailable, reason := PrimaryNotReady) else status
  }

  function MarkDegraded(status: Status): (r: Status)
    ensures r == status.(phase := r.phase, reason := r.reason)
    ensures r.reason == EmptyRecovery ==> status.reason == EmptyRecovery
  {
    if status.initialized && status.accepted.mode == HA
      && status.failover.None? && status.rollout.None? && status.rotation.None?
    then status.(phase := Degraded, reason := OtherReason) else status
  }

  /** processUnavailable. */
  function ProcessUnavailable(status: Status, ordinal: nat): (r: Status)
    ensures r == status.(nodes := r.nodes, phase := r.phase, reason := r.reason)
    ensures r.nodes == if ordinal in status.nodes
      then status.nodes[ordinal := status.nodes[ordinal].(readiness := false)] else status.nodes
    ensures r.reason == EmptyRecovery ==> status.reason == EmptyRecovery
  {
    var unready := if ordinal in status.nodes
      then status.(nodes := status.nodes[ordinal := status.nodes[ordinal].(readiness := false)]) else status;
    MarkPrimaryNotReady(unready, ordinal)
  }

  /** recordProcessObservationError; `known` when the current process is the one in the inspected pod. */
  function RecordError(
    status: Status, ordinal: nat, known: bool, kind: ObservationKind, ready: bool, now: Time, startedAt: Time)
    : (r: Status)
    requires known ==> ordinal in status.nodes
    ensures r == status.(nodes := r.nodes, phase := r.phase, reason := r.reason)
    ensures !known ==> r.nodes == status.nodes
    ensures known ==>
      && ordinal in r.nodes && r.nodes[ordinal].observation.Some?
      && r.nodes == status.nodes[ordinal :=
           status.nodes[ordinal].(readiness := ready, observation := r.nodes[ordinal].observation)]
    ensures r.reason == EmptyRecovery ==> status.reason == EmptyRecovery
  {
    var next := if known
      then Some(Health.NextObservation(Health.Retained(status.nodes[ordinal].observation, startedAt), kind, now))
      else None;
    var recorded := if known
      then status.(nodes :=
        status.nodes[ordinal := status.nodes[ordinal].(readiness := ready, observation := next)])
      else status;
    var confirmed := kind != TransportError ||
      (known && Health.ProcessThresholds(next, None, now).transportFailure);
    if status.initialized && FailureAffectsPrimary(status, ordinal) && confirmed
    then recorded.(phase := Unavailable, reason := OtherReason)
    else MarkDegraded(recorded)
  }

  function Terminated(node: NodeStatus, evidence: Evidence): NodeStatus {
    node.(readiness := false, termination := Some(evidence))
  }

  /** saveContainerTermination for the container `dead` of the pod at its ordinal (run ID unknown). */
  function SaveContainerTermination(status: Status, dead: NodeStatus): (r: Status)
    ensures r == status.(nodes := r.nodes, previous := r.previous, phase := r.phase, reason := r.reason)
    ensures r.reason == EmptyRecovery ==> status.reason == EmptyRecovery
  {
    var saved := NodeAt(status.nodes, dead.ordinal);
    var same := saved.Some? && SameContainer(saved.value, dead);
    var node := if same then Terminated(saved.value, ContainerStatus) else Terminated(dead, ContainerStatus);
    var kept := if saved.Some? && !same && status.deletion.Some?
      then status.previous[saved.value.id := saved.value] else status.previous;
    MarkPrimaryNotReady(
      status.(
        nodes := status.nodes[dead.ordinal := node],
        previous := map id | id in kept ::
          if SameContainer(kept[id], node) && kept[id].termination.None?
          then Terminated(kept[id], ContainerStatus) else kept[id]),
      dead.ordinal)
  }

  /** saveNodeDeletionTermination: the Kubernetes node of the current process no longer exists. */
  function SaveNodeDeletion(status: Status, ordinal: nat): (r: Status)
    requires ordinal in status.nodes
    ensures r == status.(nodes := r.nodes, phase := r.phase, reason := r.reason)
    ensures r.nodes == status.nodes[ordinal := Terminated(status.nodes[ordinal], NodeDeleted)]
    ensures r.reason == EmptyRecovery ==> status.reason == EmptyRecovery
  {
    var recorded := status.(
      nodes := status.nodes[ordinal := Terminated(status.nodes[ordinal], NodeDeleted)]);
    if status.initialized && FailureAffectsPrimary(status, ordinal)
    then MarkPrimaryNotReady(recorded, ordinal) else MarkDegraded(recorded)
  }

  function TerminateWhere(
    processes: map<Identity, NodeStatus>, id: Identity, evidence: Evidence): map<Identity, NodeStatus>
  {
    if id in processes && processes[id].termination.None?
    then processes[id := Terminated(processes[id], evidence)] else processes
  }

  /** reconcileManualFencing: an administrator vouches that this process no longer runs. */
  function AcceptManualFencing(status: Status, id: Identity): Status {
    status.(
      nodes := map o | o in status.nodes ::
        if status.nodes[o].id == id && status.nodes[o].termination.None?
        then Terminated(status.nodes[o], ManualFencing) else status.nodes[o],
      previous := TerminateWhere(status.previous, id, ManualFencing))
  }

  /** previousProcessRequired. */
  predicate PreviousRequired(status: Status, id: Identity) {
    || (status.primaryOrdinal.Some? && status.primaryId == id)
    || (status.failover.Some? &&
        (status.failover.value.source == id || status.failover.value.candidate == Some(id)))
    || (status.rollout.Some? && status.rollout.value.process == Some(id))
  }

  /** reconcileProcessHistory: forgets stopped processes no operation refers to. */
  function PruneHistory(status: Status): Status {
    status.(previous := map id |
      id in status.previous && (status.previous[id].termination.None? || PreviousRequired(status, id)) ::
      status.previous[id])
  }
}
