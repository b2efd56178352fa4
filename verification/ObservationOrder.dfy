/**
 The processes of an instance are inspected concurrently, and every inspection writes its result with an
 optimistic lock: in the end the updates were applied in some order.  They lead to the same lists whatever
 the order.
 */
module ObservationOrder {
  import opened Options
  import opened OperatorTypes
  import Listing
  import Observation
  import Shape

  /** What the inspection of one ordinal writes. */
  datatype Update =
    | Seen(observed: NodeStatus, prior: Option<Evidence>)
    | Dead(container: NodeStatus)
    | HostGone(ordinal: nat)
    | Missing(ordinal: nat)
    | Unanswered(ordinal: nat, known: bool, kind: ObservationKind, ready: bool, now: Time, startedAt: Time)

  function Place(u: Update): nat {
    match u
    case Seen(observed, _) => observed.ordinal
    case Dead(container) => container.ordinal
    case HostGone(ordinal) => ordinal
    case Missing(ordinal) => ordinal
    case Unanswered(ordinal, _, _, _, _, _) => ordinal
  }

  function Apply(status: Status, u: Update): Status {
    match u
    case Seen(observed, prior) => Observation.RecordSeen(status, observed, prior)
    case Dead(container) => Observation.SaveContainerTermination(status, container)
    case HostGone(ordinal) =>
      if ordinal in status.nodes then Observation.SaveNodeDeletion(status, ordinal) else status
    case Missing(ordinal) => Observation.ProcessUnavailable(status, ordinal)
    case Unanswered(ordinal, known, kind, ready, now, startedAt) =>
      Observation.RecordError(status, ordinal, known && ordinal in status.nodes, kind, ready, now, startedAt)
  }

  function ApplyAll(status: Status, us: seq<Update>): Status
    decreases |us|
  {
    if us == [] then status else ApplyAll(Apply(status, us[0]), us[1..])
  }

  /** The same current processes and the same history. */
  predicate Alike(a: Status, b: Status) {
    a.nodes == b.nodes && a.previous == b.previous && a.deletion == b.deletion
  }

  // ---- what an update does to the lists ----

  /** The process listed at the place of the update. */
  function Entry(current: Option<NodeStatus>, u: Update): Option<NodeStatus> {
    match u
    case Seen(observed, _) =>
      if current.Some? && SameProcess(current.value, observed)
      then Some(observed.(termination := current.value.termination)) else Some(observed)
    case Dead(container) => Some(Observation.Terminated(
        if current.Some? && SameContainer(current.value, container) then current.value else container,
        ContainerStatus))
    case HostGone(_) => if current.Some? then Some(Observation.Terminated(current.value, NodeDeleted)) else None
    case Missing(_) => if current.Some? then Some(current.value.(readiness := false)) else None
    case Unanswered(ordinal, known, kind, ready, now, startedAt) =>
      if current.Some? && known then Some(WithError(current.value, kind, ready, now, startedAt)) else current
  }

  function WithError(node: NodeStatus, kind: ObservationKind, ready: bool, now: Time, startedAt: Time): NodeStatus {
    node.(readiness := ready,
          observation := Some(Observation.Health.NextObservation(
            Observation.Health.Retained(node.observation, startedAt), kind, now)))
  }

  /** The process that moves from this place into the history. */
  function Moved(deleting: bool, current: Option<NodeStatus>, u: Update): Option<NodeStatus> {
    match u
    case Seen(observed, prior) =>
      if current.None? || SameProcess(current.value, observed) then None
      else Some(if current.value.termination.None? then current.value.(termination := prior) else current.value)
    case Dead(container) =>
      if current.Some? && !SameContainer(current.value, container) && deleting then current else None
    case _ => None
  }

  function Ended(n: NodeStatus, node: NodeStatus): NodeStatus {
    if SameContainer(n, node) && n.termination.None? then Observation.Terminated(n, ContainerStatus) else n
  }

  function WithMoved(previous: map<Identity, NodeStatus>, moved: Option<NodeStatus>): map<Identity, NodeStatus> {
    if moved.Some? then previous[moved.value.id := moved.value] else previous
  }

  function HistoryAfter(deleting: bool, previous: map<Identity, NodeStatus>, current: Option<NodeStatus>, u: Update)
    : map<Identity, NodeStatus>
  {
    var kept := WithMoved(previous, Moved(deleting, current, u));
    if u.Dead? then map id | id in kept :: Ended(kept[id], Entry(current, u).value) else kept
  }

  /** An update touches the process at its place, and the history. */
  lemma UpdateIsLocal(status: Status, u: Update)
    requires forall o :: o in status.nodes ==> status.nodes[o].ordinal == o
    ensures
      var t := Apply(status, u);
      var current := NodeAt(status.nodes, Place(u));
      && t.deletion == status.deletion
      && t.nodes == (if Entry(current, u).Some?
                     then status.nodes[Place(u) := Entry(current, u).value] else status.nodes)
      && t.previous == HistoryAfter(status.deletion.Some?, status.previous, current, u)
  {
    match u
    case Seen(observed, prior) => SeenIsLocal(status, observed, prior);
    case Dead(container) => DeadIsLocal(status, container);
    case _ =>
  }

  lemma SeenIsLocal(status: Status, observed: NodeStatus, prior: Option<Evidence>)
    ensures
      var u := Seen(observed, prior);
      var t := Observation.RecordSeen(status, observed, prior);
      var current := NodeAt(status.nodes, observed.ordinal);
      && t.nodes == status.nodes[observed.ordinal := Entry(current, u).value]
      && t.previous == HistoryAfter(status.deletion.Some?, status.previous, current, u)
  {
    hide Observation.RecordSeen;
    Shape.RecordSeenEntries(status, observed, prior);
  }

  lemma DeadIsLocal(status: Status, container: NodeStatus)
    ensures
      var u := Dead(container);
      var t := Observation.SaveContainerTermination(status, container);
      var current := NodeAt(status.nodes, container.ordinal);
      && t.nodes == status.nodes[container.ordinal := Entry(current, u).value]
      && t.previous == HistoryAfter(status.deletion.Some?, status.previous, current, u)
  {
    assert Observation.SaveContainerTermination(status, container).previous ==
      HistoryAfter(status.deletion.Some?, status.previous, NodeAt(status.nodes, container.ordinal), Dead(container));
  }

  // ---- two updates ----

  /** Every identity belongs to one ordinal. */
  ghost predicate Homed(status: Status, home: Identity -> nat) {
    forall o :: o in status.nodes ==> status.nodes[o].ordinal == o && home(status.nodes[o].id) == o
  }

  predicate HomedUpdate(u: Update, home: Identity -> nat) {
    match u
    case Seen(observed, _) => home(observed.id) == observed.ordinal
    case Dead(container) => home(container.id) == container.ordinal
    case _ => true
  }

  lemma UpdateKeepsHomes(status: Status, u: Update, home: Identity -> nat)
    requires Homed(status, home) && HomedUpdate(u, home)
    ensures Homed(Apply(status, u), home)
  {
    hide Apply;
    UpdateIsLocal(status, u);
  }

  function Get(previous: map<Identity, NodeStatus>, id: Identity): Option<NodeStatus> {
    if id in previous then Some(previous[id]) else None
  }

  /** What becomes of one identity of the history. */
  function After(saved: Option<NodeStatus>, id: Identity, moved: Option<NodeStatus>, ended: Option<NodeStatus>)
    : Option<NodeStatus>
  {
    var kept := if moved.Some? && moved.value.id == id then moved else saved;
    if kept.Some? && ended.Some? then Some(Ended(kept.value, ended.value)) else kept
  }

  function EndedBy(current: Option<NodeStatus>, u: Update): Option<NodeStatus> {
    if u.Dead? then Entry(current, u) else None
  }

  lemma HistoryIsPointwise(
    deleting: bool, previous: map<Identity, NodeStatus>, current: Option<NodeStatus>, u: Update, id: Identity)
    ensures Get(HistoryAfter(deleting, previous, current, u), id) ==
      After(Get(previous, id), id, Moved(deleting, current, u), EndedBy(current, u))
  {
  }

  lemma AftersCommute(
    saved: Option<NodeStatus>, id: Identity, p: nat, q: nat,
    m: Option<NodeStatus>, e: Option<NodeStatus>, n: Option<NodeStatus>, f: Option<NodeStatus>)
    requires p != q && (m.Some? && n.Some? ==> m.value.id != n.value.id)
    requires (m.Some? ==> m.value.ordinal == p) && (e.Some? ==> e.value.ordinal == p)
    requires (n.Some? ==> n.value.ordinal == q) && (f.Some? ==> f.value.ordinal == q)
    ensures After(After(saved, id, m, e), id, n, f) == After(After(saved, id, n, f), id, m, e)
  {
  }

  lemma MovedIsCurrent(deleting: bool, current: Option<NodeStatus>, u: Update)
    requires current.Some? ==> current.value.ordinal == Place(u)
    ensures Moved(deleting, current, u).Some? ==>
      current.Some? && Moved(deleting, current, u).value.id == current.value.id
      && Moved(deleting, current, u).value.ordinal == Place(u)
    ensures EndedBy(current, u).Some? ==> EndedBy(current, u).value.ordinal == Place(u)
  {
  }

  /** The histories of two updates at different places do not depend on their order. */
  lemma HistoriesCommute(
    deleting: bool, previous: map<Identity, NodeStatus>, a: Option<NodeStatus>, b: Option<NodeStatus>,
    u: Update, v: Update)
    requires Place(u) != Place(v)
    requires a.Some? ==> a.value.ordinal == Place(u)
    requires b.Some? ==> b.value.ordinal == Place(v)
    requires a.Some? && b.Some? ==> a.value.id != b.value.id
    ensures HistoryAfter(deleting, HistoryAfter(deleting, previous, a, u), b, v) ==
      HistoryAfter(deleting, HistoryAfter(deleting, previous, b, v), a, u)
  {
    hide HistoryAfter, After, Moved, EndedBy, Place;
    var x := HistoryAfter(deleting, HistoryAfter(deleting, previous, a, u), b, v);
    var y := HistoryAfter(deleting, HistoryAfter(deleting, previous, b, v), a, u);
    MovedIsCurrent(deleting, a, u);
    MovedIsCurrent(deleting, b, v);
    forall id: Identity ensures Get(x, id) == Get(y, id) {
      HistoryIsPointwise(deleting, previous, a, u, id);
      HistoryIsPointwise(deleting, previous, b, v, id);
      HistoryIsPointwise(deleting, HistoryAfter(deleting, previous, a, u), b, v, id);
      HistoryIsPointwise(deleting, HistoryAfter(deleting, previous, b, v), a, u, id);
      AftersCommute(Get(previous, id), id, Place(u), Place(v), Moved(deleting, a, u), EndedBy(a, u),
                    Moved(deleting, b, v), EndedBy(b, v));
    }
    SameEntries(x, y);
  }

  lemma SameEntries(x: map<Identity, NodeStatus>, y: map<Identity, NodeStatus>)
    requires forall id :: Get(x, id) == Get(y, id)
    ensures x == y
  {
    forall id ensures id in x <==> id in y { assert Get(x, id) == Get(y, id); }
    forall id | id in x ensures x[id] == y[id] { assert Get(x, id) == Get(y, id); }
  }

  lemma UpdatesCommute(status: Status, u: Update, v: Update, home: Identity -> nat)
    requires Homed(status, home) && HomedUpdate(u, home) && HomedUpdate(v, home) && Place(u) != Place(v)
    ensures Alike(Apply(Apply(status, u), v), Apply(Apply(status, v), u))
  {
    hide Apply, HistoryAfter, Entry;
    UpdateKeepsHomes(status, u, home);
    UpdateKeepsHomes(status, v, home);
    UpdateIsLocal(status, u);
    UpdateIsLocal(status, v);
    UpdateIsLocal(Apply(status, u), v);
    UpdateIsLocal(Apply(status, v), u);
    HistoriesCommute(status.deletion.Some?, status.previous, NodeAt(status.nodes, Place(u)),
                     NodeAt(status.nodes, Place(v)), u, v);
  }

  // ---- any order ----

  /** Updates read nothing but the lists. */
  lemma AlikeStaysAlike(a: Status, b: Status, u: Update, home: Identity -> nat)
    requires Homed(a, home) && Homed(b, home) && Alike(a, b)
    ensures Alike(Apply(a, u), Apply(b, u))
  {
    hide Apply, HistoryAfter, Entry;
    UpdateIsLocal(a, u);
    UpdateIsLocal(b, u);
  }

  ghost predicate AllHomed(us: seq<Update>, home: Identity -> nat) {
    forall k :: 0 <= k < |us| ==> HomedUpdate(us[k], home)
  }

  /** One update per ordinal. */
  ghost predicate Apart(us: seq<Update>) {
    forall j, k :: 0 <= j < k < |us| ==> Place(us[j]) != Place(us[k])
  }

  lemma {:induction false} AlikeRuns(a: Status, b: Status, us: seq<Update>, home: Identity -> nat)
    requires Homed(a, home) && Homed(b, home) && Alike(a, b) && AllHomed(us, home)
    ensures Alike(ApplyAll(a, us), ApplyAll(b, us))
    decreases |us|
  {
    hide Apply, Homed, HomedUpdate, Alike;
    if us != [] {
      AlikeStaysAlike(a, b, us[0], home);
      UpdateKeepsHomes(a, us[0], home);
      UpdateKeepsHomes(b, us[0], home);
      AlikeRuns(Apply(a, us[0]), Apply(b, us[0]), us[1..], home);
    }
  }

  function Without(us: seq<Update>, k: nat): seq<Update>
    requires k < |us|
  {
    us[..k] + us[k + 1..]
  }

  lemma LaterIsAfterFirst(us: seq<Update>, k: nat)
    requires 0 < k < |us|
    ensures
      var u, v, others := us[0], us[k], Without(us[1..], k - 1);
      && us[1..][k - 1] == v && Without(us, k) == [u] + others && ([v] + Without(us, k))[1..] == [u] + others
      && ([v] + others)[1..] == others && ([u] + others)[1..] == others
  {
  }

  /** Any update may as well come first. */
  lemma {:induction false} FirstOrLater(status: Status, us: seq<Update>, k: nat, home: Identity -> nat)
    requires Homed(status, home) && AllHomed(us, home) && Apart(us) && k < |us|
    ensures Alike(ApplyAll(status, us), ApplyAll(status, [us[k]] + Without(us, k)))
    decreases |us|
  {
    hide Apply, Homed, HomedUpdate;
    var front := [us[k]] + Without(us, k);
    if k == 0 {
      assert front == us;
    } else {
      var u, v, rest := us[0], us[k], us[1..];
      UpdateKeepsHomes(status, u, home);
      UpdateKeepsHomes(status, v, home);
      FirstOrLater(Apply(status, u), rest, k - 1, home);
      var others := Without(rest, k - 1);
      LaterIsAfterFirst(us, k);
      UpdateKeepsHomes(Apply(status, u), v, home);
      UpdateKeepsHomes(Apply(status, v), u, home);
      UpdatesCommute(status, u, v, home);
      assert AllHomed(others, home);
      AlikeRuns(Apply(Apply(status, u), v), Apply(Apply(status, v), u), others, home);
    }
  }

  /** The same updates, one per ordinal, in two orders. */
  ghost predicate Reordered(us: seq<Update>, vs: seq<Update>) {
    |us| == |vs| && Apart(us) && Apart(vs) && forall u :: u in us <==> u in vs
  }

  lemma WithoutFirst(us: seq<Update>, vs: seq<Update>, k: nat)
    requires Reordered(us, vs) && us != [] && k < |vs| && vs[k] == us[0]
    ensures Reordered(us[1..], Without(vs, k))
  {
    var others := Without(vs, k);
    forall j | 0 <= j < |others| ensures others[j] in us[1..] {
      var i := if j < k then j else j + 1;
      assert others[j] == vs[i] && vs[i] in us && Place(vs[i]) != Place(vs[k]);
    }
    forall j | 0 < j < |us| ensures us[j] in others {
      assert us[j] in vs;
      var i :| 0 <= i < |vs| && vs[i] == us[j];
      assert Place(us[j]) != Place(us[0]);
      assert others[if i < k then i else i - 1] == vs[i];
    }
    WithoutIsApart(vs, k);
  }

  lemma WithoutIsApart(us: seq<Update>, k: nat)
    requires Apart(us) && k < |us|
    ensures Apart(Without(us, k))
  {
    var others := Without(us, k);
    forall i, j | 0 <= i < j < |others| ensures Place(others[i]) != Place(others[j]) {
      assert others[i] == us[if i < k then i else i + 1] && others[j] == us[if j < k then j else j + 1];
    }
  }

  /** Updates of different ordinals lead to the same lists in every order. */
  lemma {:induction false} OrderDoesNotMatter(status: Status, us: seq<Update>, vs: seq<Update>, home: Identity -> nat)
    requires Homed(status, home) && AllHomed(us, home) && AllHomed(vs, home) && Reordered(us, vs)
    ensures Alike(ApplyAll(status, us), ApplyAll(status, vs))
    decreases |us|
  {
    hide Apply, Homed, HomedUpdate, Reordered, Apart;
    SameLength(us, vs);
    if us != [] {
      var k := FirstIn(us, vs);
      var others := Without(vs, k);
      FirstOrLater(status, vs, k, home);
      WithoutFirst(us, vs, k);
      UpdateKeepsHomes(status, us[0], home);
      OrderDoesNotMatter(Apply(status, us[0]), us[1..], others, home);
      assert ([us[0]] + others)[1..] == others;
    }
  }

  lemma SameLength(us: seq<Update>, vs: seq<Update>)
    requires Reordered(us, vs)
    ensures |us| == |vs|
  {
  }

  lemma FirstIn(us: seq<Update>, vs: seq<Update>) returns (k: nat)
    requires Reordered(us, vs) && us != []
    ensures k < |vs| && vs[k] == us[0] && Apart(vs)
  {
    assert us[0] in vs;
    k :| 0 <= k < |vs| && vs[k] == us[0];
  }

  /** So the list of current processes the resource ends up with is the same, entry by entry. */
  lemma SameListInAnyOrder(
    status: Status, us: seq<Update>, vs: seq<Update>, home: Identity -> nat, a: seq<NodeStatus>, b: seq<NodeStatus>)
    requires Homed(status, home) && AllHomed(us, home) && AllHomed(vs, home) && Reordered(us, vs)
    requires Listing.Sorted(a) && Listing.Nodes(a) == ApplyAll(status, us).nodes
    requires Listing.Sorted(b) && Listing.Nodes(b) == ApplyAll(status, vs).nodes
    ensures a == b && ApplyAll(status, us).previous == ApplyAll(status, vs).previous
  {
    hide Apply, ApplyAll, Listing.Nodes;
    OrderDoesNotMatter(status, us, vs, home);
    Listing.SortedIsUnique(a, b);
  }
}
