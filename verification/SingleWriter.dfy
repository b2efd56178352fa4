/**
 One writable primary.  In every run of Operator, whatever is interrupted, delayed or restarted, at
 most one live process is a primary that clients can reach.
 */
module SingleWriter {
  import opened Options
  import opened OperatorTypes
  import opened Session
  import opened Operator
  import opened Shape
  import opened OperationOrder
  import Availability
  import Contract
  import Observation
  import Topology
  import FailoverSteps
  import RolloutSteps
  import RotationSteps

  /** A process that accepts writes of clients, or is one pending command away from it. */
  predicate Hot(p: Proc) { p.alive && MayBePrimary(p) && Reachable(p) }

  /** The pod of the primary the status names; 0 when it names none. */
  function Named(status: Status): Uid {
    if status.primaryOrdinal.Some? then status.primaryId.podUID else 0
  }

  /** The pod whose process may be hot; 0 when none may. */
  function Designated(status: Status): Uid {
    if status.accepted.mode == Single then
      if 0 in status.nodes then status.nodes[0].id.podUID else 0
    else if status.failover.None? then Named(status)
    else
      var f := status.failover.value;
      match f.stage
      case Fencing => if FailoverSteps.SourceFenced(f) then 0 else f.source.podUID
      case Choosing => 0
      case Promoting => if f.candidate.Some? then f.candidate.value.podUID else 0
      case Reconfiguring => Named(status)
  }

  /** Displaced, and its end is not proved. */
  predicate Lost(status: Status, p: Proc) {
    p.id in status.previous && status.previous[p.id].termination.None?
  }

  /**
   The processes the invariant says nothing about: the lost ones, in an HA instance only once a failover
   was started from a process that was not the named primary.
   */
  predicate Excepted(status: Status, strayed: bool, p: Proc) {
    Lost(status, p) && (status.accepted.mode == HA ==> strayed)
  }

  predicate Listed(status: Status, p: Proc) {
    (p.ordinal in status.nodes && status.nodes[p.ordinal].id == p.id) || p.id in status.previous
  }

  predicate InPod(pods: map<nat, Pod>, u: Uid, p: Proc) {
    p.ordinal in pods && pods[p.ordinal].uid == u
  }

  /** As its container started it, or with the commands of a closing script on top. */
  predicate Newborn(mode: Mode, p: Proc) {
    && p.role == BirthRole(mode) && !p.appOn && p.clients == {}
    && (p.pending.Some? ==> p.pending.value.KillApp? || (p.pending.value.SetApp? && !p.pending.value.on))
  }

  ghost predicate OnlyHot(world: map<Uid, Proc>, d: Uid) {
    forall u :: u in world && Hot(world[u]) ==> u == d
  }

  ghost predicate AtMostOneHot(world: map<Uid, Proc>) {
    forall u, v :: u in world && v in world && Hot(world[u]) && Hot(world[v]) ==> u == v
  }

  /** Only the designated process is hot, or an excepted one. */
  ghost predicate HotIsDesignated(status: Status, strayed: bool, world: map<Uid, Proc>) {
    forall u :: u in world && Hot(world[u]) ==> u == Designated(status) || Excepted(status, strayed, world[u])
  }

  /** A process nobody has inspected yet is as it was started. */
  ghost predicate StrangersAreNewborn(status: Status, world: map<Uid, Proc>) {
    forall u :: u in world && world[u].alive && !Listed(status, world[u]) ==> Newborn(status.accepted.mode, world[u])
  }

  /** Clients cannot reach this process, if it still runs. */
  predicate Closed(world: map<Uid, Proc>, u: Uid) {
    u in world && world[u].alive ==> !Reachable(world[u])
  }

  /** What the failover has closed stays closed until the failover is almost over. */
  predicate FencedStayClosed(status: Status, world: map<Uid, Proc>) {
    status.failover.Some? && status.failover.value.stage != Reconfiguring ==>
      var f := status.failover.value;
      && (FailoverSteps.SourceFenced(f) ==> Closed(world, f.source.podUID))
      && (FailoverSteps.CandidateFenced(f) && f.candidate.Some? ==> Closed(world, f.candidate.value.podUID))
  }

  /** Nobody else is about to be promoted. */
  ghost predicate NoOtherPromise(status: Status, strayed: bool, world: map<Uid, Proc>) {
    forall u :: u in world && world[u].alive && u != Designated(status) ==>
      world[u].pending != Some(Promote) || Excepted(status, strayed, world[u])
  }

  /** A listed process no replica admission would open. */
  predicate Suspect(n: NodeStatus) {
    n.role == Primary || n.observation.Some? || !n.readiness
  }

  /** Closed, and no inspection will find a reason to command it. */
  predicate Shut(p: Proc, version: int) {
    && !p.appOn && p.version == version
    && (p.pending.None? || p.pending.value in {SetApp(false, version), KillApp})
  }

  /** The source whose fencing was stored by the previous pass and which was not inspected since. */
  predicate JustFenced(status: Status, p: Proc, seen: set<nat>) {
    && FailoverSteps.AtStage(status, Fencing) && FailoverSteps.SourceFenced(status.failover.value)
    && status.failover.value.source == p.id && p.ordinal !in seen
    && Shut(p, status.accepted.passwordVersion)
  }

  /** A live primary in its pod, listed as current. */
  predicate Exposed(status: Status, pods: map<nat, Pod>, u: Uid, p: Proc) {
    && p.alive && p.role == Primary && InPod(pods, u, p)
    && p.ordinal in status.nodes && status.nodes[p.ordinal].id == p.id
  }

  /** A primary in its pod that is not the designated one is known not to be a plain replica. */
  ghost predicate OthersAreSuspect(status: Status, world: map<Uid, Proc>, pods: map<nat, Pod>, seen: set<nat>) {
    forall u :: u in world && u != Designated(status) && Exposed(status, pods, u, world[u]) ==>
      Suspect(status.nodes[world[u].ordinal]) || JustFenced(status, world[u], seen)
  }

  /** Outside the first stages of a failover nothing but the named primary is hot, or that one is closed. */
  ghost predicate NamedIsSafe(status: Status, world: map<Uid, Proc>) {
    status.failover.None? || FailoverSteps.AtStage(status, Reconfiguring) ==>
      OnlyHot(world, Named(status)) || (Named(status) != 0 && Closed(world, Named(status)))
  }

  /** While a first primary may be assigned without regard to the old one, nothing else is hot. */
  ghost predicate StartIsSafe(status: Status, world: map<Uid, Proc>) {
    !status.initialized || (status.reason == EmptyRecovery && status.dataLoss == Some(AllProcessesStopped)) ==>
      OnlyHot(world, Named(status))
  }

  /** The named primary is a process that was inspected, and it is not forgotten while it lives. */
  predicate NameIsKnown(status: Status, world: map<Uid, Proc>) {
    status.primaryOrdinal.Some? ==>
      && Named(status) in world && world[Named(status)].id == status.primaryId
      && world[Named(status)].ordinal == status.primaryOrdinal.value
      && (world[Named(status)].alive ==> Listed(status, world[Named(status)]))
  }

  ghost predicate SafeHA(s: State) {
    && FencedStayClosed(s.status, s.world)
    && NoOtherPromise(s.status, s.strayed, s.world)
    && OthersAreSuspect(s.status, s.world, s.pods, s.seen)
    && NamedIsSafe(s.status, s.world) && StartIsSafe(s.status, s.world)
    && NameIsKnown(s.status, s.world)
  }

  ghost predicate Safe(s: State) {
    && AtMostOneHot(s.world) && HotIsDesignated(s.status, s.strayed, s.world)
    && StrangersAreNewborn(s.status, s.world)
    && (s.status.accepted.mode == HA ==> SafeHA(s))
  }

  // ---- commands that open and promote nothing ----

  predicate Calm(p: Proc, q: Proc) {
    && q.id == p.id && q.ordinal == p.ordinal && (q.alive ==> p.alive)
    && (Reachable(q) ==> Reachable(p))
    && (q.role == Primary ==> p.role == Primary || p.pending == Some(Promote))
    && (q.pending == Some(Promote) ==> p.pending == Some(Promote))
  }

  /** A source that was just fenced stays as it is. */
  predicate StaysShut(status: Status, p: Proc, q: Proc) {
    FailoverSteps.AtStage(status, Fencing) ==>
      Shut(p, status.accepted.passwordVersion) ==> Shut(q, status.accepted.passwordVersion)
  }

  lemma CalmIsNotHotter(p: Proc, q: Proc)
    requires Calm(p, q)
    ensures Hot(q) ==> Hot(p)
  {
  }

  lemma CalmKeepsSafe(s: State, id: Identity, q: Proc)
    requires Sound(s) && Safe(s) && Real(s, id) && Calm(ProcOf(s, id), q)
    requires StaysShut(s.status, ProcOf(s, id), q)
    requires Listed(s.status, q) || q == ProcOf(s, id) || !q.alive || Newborn(s.status.accepted.mode, q)
    ensures Safe(Update(s, id, q))
  {
    hide SafeHA, AtMostOneHot, HotIsDesignated, StrangersAreNewborn, Sound, StaysShut, Hot;
    CalmIsNotHotter(ProcOf(s, id), q);
    CalmKeepsHot(s, id, q);
    CalmKeepsStrangers(s, id, q);
    if s.status.accepted.mode == HA { CalmKeepsSafeHA(s, id, q); }
  }

  lemma CalmKeepsStrangers(s: State, id: Identity, q: Proc)
    requires StrangersAreNewborn(s.status, s.world) && Real(s, id)
    requires Listed(s.status, q) || q == ProcOf(s, id) || !q.alive || Newborn(s.status.accepted.mode, q)
    ensures StrangersAreNewborn(s.status, Put(s, id, q))
  {
  }

  lemma CalmKeepsHot(s: State, id: Identity, q: Proc)
    requires Real(s, id) && Calm(ProcOf(s, id), q)
    requires Hot(q) ==> Hot(ProcOf(s, id))
    ensures AtMostOneHot(s.world) ==> AtMostOneHot(Put(s, id, q))
    ensures HotIsDesignated(s.status, s.strayed, s.world) ==> HotIsDesignated(s.status, s.strayed, Put(s, id, q))
    ensures forall d :: OnlyHot(s.world, d) ==> OnlyHot(Put(s, id, q), d)
  {
  }

  lemma CalmKeepsSafeHA(s: State, id: Identity, q: Proc)
    requires Sound(s) && Real(s, id) && Calm(ProcOf(s, id), q) && SafeHA(s)
    requires StaysShut(s.status, ProcOf(s, id), q)
    requires Hot(q) ==> Hot(ProcOf(s, id))
    ensures SafeHA(Update(s, id, q))
  {
    hide AtMostOneHot, HotIsDesignated, OthersAreSuspect, EntrySound, PodsDistinct, PodsSound, NodesSound, StaysShut;
    var t := Update(s, id, q);
    CalmKeepsHot(s, id, q);
    assert FencedStayClosed(t.status, t.world);
    assert NoOtherPromise(t.status, t.strayed, t.world);
    CalmKeepsSuspicion(s, id, q);
  }

  lemma CalmKeepsSuspicion(s: State, id: Identity, q: Proc)
    requires Real(s, id) && Calm(ProcOf(s, id), q) && StaysShut(s.status, ProcOf(s, id), q)
    requires WorldSound(s.world, s.nextUid) && HistorySound(s.world, s.pods, s.status.previous)
    requires NoOtherPromise(s.status, s.strayed, s.world)
    requires OthersAreSuspect(s.status, s.world, s.pods, s.seen)
    ensures OthersAreSuspect(s.status, Put(s, id, q), s.pods, s.seen)
  {
    forall u | u in s.world && u != Designated(s.status) && Exposed(s.status, s.pods, u, Put(s, id, q)[u])
      ensures Suspect(s.status.nodes[s.world[u].ordinal]) || JustFenced(s.status, Put(s, id, q)[u], s.seen)
    {
      assert Exposed(s.status, s.pods, u, s.world[u]);
    }
  }

  lemma DisablingIsCalm(p: Proc, version: int, ds: Deliveries)
    ensures
      var q := UpdateAppAccess(p, false, version, ds).proc;
      Calm(p, q) && (Shut(p, version) ==> Shut(q, version)) && forall mode :: Newborn(mode, p) ==> Newborn(mode, q)
  {
  }

  lemma FollowingIsCalm(p: Proc, upstream: Uid, ds: Deliveries)
    ensures Calm(p, FollowProcess(p, upstream, ds).proc)
  {
  }

  lemma RotatingIsCalm(p: Proc, version: int, ds: Deliveries)
    ensures Calm(p, RotatePassword(p, version, ds).proc)
  {
  }

  predicate CalmEvent(p: Proc, q: Proc, version: int) {
    Calm(p, q) && (Shut(p, version) ==> Shut(q, version))
  }

  lemma EventIsCalm(p: Proc, version: int)
    ensures CalmEvent(p, p.(alive := false, clients := {}, pending := None), version)
    ensures CalmEvent(p, p.(pending := None), version)
    ensures p.pending.Some? ==> CalmEvent(p, Execute(p.(pending := None), p.pending.value), version)
    ensures p.appOn ==> CalmEvent(p, p.(clients := p.clients + {p.version}), version)
  {
  }

  // ---- what happens around the operator ----

  /** The pods of t that run a process did so in s. */
  predicate PodsRemain(s: State, t: State) {
    forall o :: o in t.pods && t.pods[o].uid in t.world ==> o in s.pods && s.pods[o].uid == t.pods[o].uid
  }

  /** The entries as far as roles and readiness go. */
  predicate SameFaces(a: map<nat, NodeStatus>, b: map<nat, NodeStatus>) {
    && a.Keys == b.Keys
    && forall o :: o in b ==>
      && b[o].id == a[o].id && b[o].role == a[o].role
      && b[o].observation == a[o].observation && b[o].readiness == a[o].readiness
  }

  /** What the invariant reads from the status. */
  predicate SameHeart(a: Status, b: Status) {
    && SameFaces(a.nodes, b.nodes) && b.previous == a.previous
    && b.primaryOrdinal == a.primaryOrdinal && b.primaryId == a.primaryId
    && b.failover == a.failover && b.initialized == a.initialized && b.accepted.mode == a.accepted.mode
    && (b.accepted == a.accepted || a.failover.None?)
    && (b.reason == EmptyRecovery ==> a.reason == EmptyRecovery)
    && (b.dataLoss == Some(AllProcessesStopped) ==> a.dataLoss == Some(AllProcessesStopped))
  }

  lemma SameHeartKeepsSafe(s: State, t: State)
    requires Safe(s) && t.world == s.world && t.strayed == s.strayed && PodsRemain(s, t) && t.seen <= s.seen
    requires SameHeart(s.status, t.status)
    ensures Safe(t)
  {
    assert Designated(t.status) == Designated(s.status);
    if s.status.accepted.mode == HA { SameHeartKeepsSafeHA(s, t); }
  }

  lemma SameHeartKeepsSafeHA(s: State, t: State)
    requires SafeHA(s) && s.status.accepted.mode == HA
    requires t.world == s.world && t.strayed == s.strayed && PodsRemain(s, t) && t.seen <= s.seen
    requires SameHeart(s.status, t.status)
    ensures SafeHA(t)
  {
    assert NoOtherPromise(t.status, t.strayed, t.world);
    SameHeartKeepsSuspicion(s, t);
  }

  lemma SameHeartKeepsSuspicion(s: State, t: State)
    requires OthersAreSuspect(s.status, s.world, s.pods, s.seen) && s.status.accepted.mode == HA
    requires t.world == s.world && t.strayed == s.strayed && PodsRemain(s, t) && t.seen <= s.seen
    requires SameHeart(s.status, t.status)
    ensures OthersAreSuspect(t.status, t.world, t.pods, t.seen)
  {
    forall u | u in t.world && u != Designated(t.status) && Exposed(t.status, t.pods, u, t.world[u])
      ensures Suspect(t.status.nodes[t.world[u].ordinal]) || JustFenced(t.status, t.world[u], t.seen)
    {
      assert Exposed(s.status, s.pods, u, s.world[u]);
    }
  }

  lemma StartKeepsSafe(s: State, ordinal: nat, id: Identity, version: int)
    requires Safe(s) && CanStartProcess(s, ordinal, id)
    ensures Safe(StartProcess(s, ordinal, id, version))
  {
    var t := StartProcess(s, ordinal, id, version);
    assert Newborn(t.status.accepted.mode, t.world[id.podUID]) && !Hot(t.world[id.podUID]);
    assert AtMostOneHot(t.world) && HotIsDesignated(t.status, t.strayed, t.world);
    if s.status.accepted.mode == HA { StartKeepsSafeHA(s, ordinal, id, version); }
  }

  lemma StartKeepsSafeHA(s: State, ordinal: nat, id: Identity, version: int)
    requires SafeHA(s) && CanStartProcess(s, ordinal, id) && s.status.accepted.mode == HA
    ensures SafeHA(StartProcess(s, ordinal, id, version))
  {
    var t := StartProcess(s, ordinal, id, version);
    assert NoOtherPromise(t.status, t.strayed, t.world);
    assert OthersAreSuspect(t.status, t.world, t.pods, t.seen);
    assert !Hot(t.world[id.podUID]);
    assert forall d :: OnlyHot(s.world, d) ==> OnlyHot(t.world, d);
  }

  lemma WorldKeepsSafe(s: State, step: WorldStep)
    requires Sound(s) && Safe(s) && CanHappen(s, step)
    ensures Safe(Happen(s, step))
  {
    hide Safe;
    match step
    case ProcessStarts(ordinal, id, version) => StartKeepsSafe(s, ordinal, id, version);
    case ProcessDies(id) =>
      EventIsCalm(ProcOf(s, id), s.status.accepted.passwordVersion);
      CalmKeepsSafe(s, id, ProcOf(s, id).(alive := false, clients := {}, pending := None));
    case CommandArrives(id) => ArrivalKeepsSafe(s, id);
    case ClientConnects(id) => ConnectionKeepsSafe(s, id);
    case _ => PodEventKeepsSafe(s, step);
  }

  lemma ArrivalKeepsSafe(s: State, id: Identity)
    requires Sound(s) && Safe(s) && CanDeliver(s, id)
    ensures Safe(Deliver(s, id))
  {
    var p := ProcOf(s, id);
    EventIsCalm(p, s.status.accepted.passwordVersion);
    assert Listed(s.status, p) || Newborn(s.status.accepted.mode, p);
    CalmKeepsSafe(s, id, Execute(p.(pending := None), p.pending.value));
  }

  lemma ConnectionKeepsSafe(s: State, id: Identity)
    requires Sound(s) && Safe(s) && CanConnect(s, id)
    ensures Safe(Connect(s, id))
  {
    var p := ProcOf(s, id);
    EventIsCalm(p, s.status.accepted.passwordVersion);
    assert Listed(s.status, p);
    CalmKeepsSafe(s, id, p.(clients := p.clients + {p.version}));
  }

  lemma PodEventKeepsSafe(s: State, step: WorldStep)
    requires Sound(s) && Safe(s) && CanHappen(s, step)
    requires step.PodVanishes? || step.PodForcedAway? || step.PodForceReplaced?
    ensures Safe(Happen(s, step))
  {
    assert s.nextUid !in s.world;
    SameHeartKeepsSafe(s, Happen(s, step));
  }

  lemma RequestKeepsSafe(s: State, request: Request)
    requires Safe(s) && CanRequest(s, request)
    ensures Safe(AfterRequest(s, request))
  {
    hide Safe;
    SameHeartKeepsSafe(s, AfterRequest(s, request));
  }

  // ---- what the operator writes about the processes ----

  /** No live process is forgotten, and none leaves the history. */
  ghost predicate Remembers(s: State, t: State) {
    && t.world == s.world && SamePods(s.pods, t.pods) && t.strayed == s.strayed
    && (forall u :: u in s.world && s.world[u].alive && Listed(s.status, s.world[u]) ==> Listed(t.status, s.world[u]))
    && (forall u :: u in s.world && s.world[u].alive && s.world[u].id in s.status.previous ==>
          s.world[u].id in t.status.previous)
  }

  /** The operations are left alone. */
  predicate SameOperations(a: Status, b: Status) {
    && b.failover == a.failover && b.initialized == a.initialized && b.accepted == a.accepted
    && b.dataLoss == a.dataLoss && (b.reason == EmptyRecovery ==> a.reason == EmptyRecovery)
    && (a.accepted.mode == HA ==> b.primaryOrdinal == a.primaryOrdinal && b.primaryId == a.primaryId)
  }

  /** The designated process is still the same, or the old one is excepted or not hot. */
  ghost predicate HandsOver(s: State, t: State) {
    || Designated(t.status) == Designated(s.status)
    || (forall u :: u in t.world && u == Designated(s.status) && Hot(t.world[u]) ==>
          Excepted(t.status, t.strayed, t.world[u]))
  }

  lemma LostStaysLost(s: State, t: State, u: Uid)
    requires Sound(t) && WorldSound(s.world, s.nextUid) && Remembers(s, t)
    requires u in s.world && s.world[u].alive && Lost(s.status, s.world[u])
    ensures Lost(t.status, t.world[u])
  {
    assert EntrySound(t.world, t.status.previous[s.world[u].id]);
  }

  lemma EntriesKeepSafe(s: State, t: State)
    requires Sound(s) && Safe(s) && Sound(t) && Remembers(s, t) && SameOperations(s.status, t.status)
    requires HandsOver(s, t)
    requires s.status.accepted.mode == HA ==> OthersAreSuspect(t.status, t.world, t.pods, t.seen)
    ensures Safe(t)
  {
    forall u | u in t.world && Hot(t.world[u])
      ensures u == Designated(t.status) || Excepted(t.status, t.strayed, t.world[u])
    {
      if Lost(s.status, s.world[u]) { LostStaysLost(s, t, u); }
    }
    if s.status.accepted.mode == HA { EntriesKeepSafeHA(s, t); }
  }

  lemma EntriesKeepSafeHA(s: State, t: State)
    requires Sound(s) && Sound(t)
    requires SafeHA(s) && s.status.accepted.mode == HA && Remembers(s, t) && SameOperations(s.status, t.status)
    requires OthersAreSuspect(t.status, t.world, t.pods, t.seen)
    ensures SafeHA(t)
  {
    forall u | u in t.world && t.world[u].alive && u != Designated(t.status)
      ensures t.world[u].pending != Some(Promote) || Excepted(t.status, t.strayed, t.world[u])
    {
      if Lost(s.status, s.world[u]) { LostStaysLost(s, t, u); }
    }
  }

  /** Only the entry at this ordinal may differ. */
  predicate OnlyAt(a: map<nat, NodeStatus>, b: map<nat, NodeStatus>, o: nat) {
    forall q :: q in b && q != o ==> q in a && b[q] == a[q]
  }

  /** The process in the pod of this ordinal is no unsuspected primary. */
  predicate SuspectAt(t: State, o: nat) {
    o in t.pods && o in t.status.nodes && t.pods[o].uid in t.world && t.world[t.pods[o].uid].ordinal == o
      && Exposed(t.status, t.pods, t.pods[o].uid, t.world[t.pods[o].uid])
    ==> Suspect(t.status.nodes[o])
  }

  /** An inspection that leaves nothing unsuspected at its own ordinal leaves nothing unsuspected. */
  lemma OneOrdinalStaysSuspect(s: State, t: State, o: nat)
    requires OthersAreSuspect(s.status, s.world, s.pods, s.seen) && s.status.accepted.mode == HA
    requires t.world == s.world && SamePods(s.pods, t.pods) && t.seen == s.seen + {o}
    requires SameOperations(s.status, t.status) && OnlyAt(s.status.nodes, t.status.nodes, o) && SuspectAt(t, o)
    ensures OthersAreSuspect(t.status, t.world, t.pods, t.seen)
  {
    forall u | u in t.world && u != Designated(t.status) && Exposed(t.status, t.pods, u, t.world[u])
      ensures Suspect(t.status.nodes[t.world[u].ordinal]) || JustFenced(t.status, t.world[u], t.seen)
    {
      if t.world[u].ordinal != o { assert Exposed(s.status, s.pods, u, s.world[u]); }
    }
  }

  function Marked(t: State, o: nat): State { t.(seen := t.seen + {o}) }

  /** A finding after which the process at the ordinal is known not to be a fit replica, or is another one. */
  lemma FindingKeepsSafe(s: State, t: State, o: nat)
    requires Sound(s) && Safe(s) && Sound(t) && Remembers(s, t) && SameOperations(s.status, t.status)
    requires HandsOver(s, t) && t.seen == s.seen
    requires OnlyAt(s.status.nodes, t.status.nodes, o) && SuspectAt(t, o)
    ensures Safe(Marked(t, o))
  {
    var m := Marked(t, o);
    if s.status.accepted.mode == HA { OneOrdinalStaysSuspect(s, m, o); }
    FrameKeepsSound(t, m);
    EntriesKeepSafe(s, m);
  }

  /** The same processes are listed; only what is known about the one at this ordinal changes. */
  predicate Rewrites(a: Status, b: Status, o: nat) {
    && SameOperations(a, b) && b.previous == a.previous && b.nodes.Keys == a.nodes.Keys
    && OnlyAt(a.nodes, b.nodes, o) && (o in b.nodes ==> b.nodes[o].id == a.nodes[o].id)
  }

  lemma RewritingKeepsSafe(s: State, status: Status, o: nat)
    requires Sound(s) && Safe(s) && Rewrites(s.status, status, o)
    requires Sound(s.(status := status)) && SuspectAt(s.(status := status), o)
    ensures Safe(Marked(s.(status := status), o))
  {
    hide Safe;
    var t := s.(status := status);
    assert Remembers(s, t) && Designated(t.status) == Designated(s.status);
    FindingKeepsSafe(s, t, o);
  }

  lemma UnavailableKeepsSafe(s: State, o: nat)
    requires Sound(s) && Safe(s)
    ensures Safe(Marked(s.(status := Observation.ProcessUnavailable(s.status, o)), o))
  {
    hide Safe;
    SameEntriesKeepSound(s, Observation.ProcessUnavailable(s.status, o));
    RewritingKeepsSafe(s, Observation.ProcessUnavailable(s.status, o), o);
  }

  lemma HostGoneKeepsSafe(s: State, o: nat)
    requires Sound(s) && Safe(s) && o in s.status.nodes && s.status.nodes[o].termination.None?
    requires Dead(s, s.status.nodes[o].id)
    ensures Safe(Marked(s.(status := Observation.SaveNodeDeletion(s.status, o)), o))
  {
    hide Safe;
    HostGoneKeepsSound(s, o);
    RewritingKeepsSafe(s, Observation.SaveNodeDeletion(s.status, o), o);
  }

  lemma NoAnswerKeepsSafe(s: State, o: nat, known: bool, kind: ObservationKind, ready: bool, now: Time)
    requires Sound(s) && Safe(s) && HasContainer(s, o)
    requires known == (o in s.status.nodes && s.status.nodes[o].id == ContainerOf(s, o))
    ensures
      Safe(Marked(s.(status := Observation.RecordError(s.status, o, known, kind, ready, now, s.startedAt)), o))
  {
    hide Safe;
    var status := Observation.RecordError(s.status, o, known, kind, ready, now, s.startedAt);
    SameEntriesKeepSound(s, status);
    RewritingKeepsSafe(s, status, o);
  }

  // ---- a process that answered ----

  lemma RecordingKeepsSafe(s: State, observed: NodeStatus, prior: Option<Evidence>)
    requires Sound(s) && Safe(s) && observed.ordinal < Count(s)
    requires observed.termination.None? && Current(s, observed.ordinal, observed.id)
    requires observed.role == ProcOf(s, observed.id).role
    requires prior.Some? ==> observed.ordinal in s.status.nodes && Dead(s, s.status.nodes[observed.ordinal].id)
    ensures Safe(Marked(s.(status := Observation.RecordSeen(s.status, observed, prior)), observed.ordinal))
  {
    hide Safe;
    RecordSeenEntries(s.status, observed, prior);
    RecordKeepsSound(s, observed, prior);
    var t := s.(status := Observation.RecordSeen(s.status, observed, prior));
    RecordingRemembers(s, observed, prior);
    RecordingHandsOver(s, observed, prior);
    FindingKeepsSafe(s, t, observed.ordinal);
  }

  lemma RecordingRemembers(s: State, observed: NodeStatus, prior: Option<Evidence>)
    requires NodesSound(s.world, Count(s), s.status.nodes)
    requires Current(s, observed.ordinal, observed.id)
    ensures Remembers(s, s.(status := Observation.RecordSeen(s.status, observed, prior)))
  {
    RecordSeenEntries(s.status, observed, prior);
    var t := Observation.RecordSeen(s.status, observed, prior);
    forall p | Listed(s.status, p) ensures Listed(t, p) {
      if p.ordinal == observed.ordinal && p.id !in s.status.previous { assert s.status.nodes[p.ordinal].id == p.id; }
    }
  }

  lemma RecordingHandsOver(s: State, observed: NodeStatus, prior: Option<Evidence>)
    requires WorldSound(s.world, s.nextUid) && NodesSound(s.world, Count(s), s.status.nodes)
    requires Current(s, observed.ordinal, observed.id)
    requires prior.Some? ==> observed.ordinal in s.status.nodes && Dead(s, s.status.nodes[observed.ordinal].id)
    requires observed.ordinal < Count(s)
    ensures HandsOver(s, s.(status := Observation.RecordSeen(s.status, observed, prior)))
  {
    hide Observation.RecordSeen;
    if s.status.accepted.mode == HA {
      assert Designated(Observation.RecordSeen(s.status, observed, prior)) == Designated(s.status);
    } else {
      RecordSeenEntries(s.status, observed, prior);
      var t := Observation.RecordSeen(s.status, observed, prior);
      if 0 in s.status.nodes && !SameProcess(s.status.nodes[0], observed) {
        var current := s.status.nodes[0];
        assert EntrySound(s.world, current);
        assert current.id in t.previous;
        assert Hot(s.world[current.id.podUID]) ==> Lost(t, s.world[current.id.podUID]);
      }
    }
  }

  lemma AnswerKeepsSafe(
    s: State, o: nat, replication: Option<Replication>, ready: bool, control: bool, gone: bool)
    requires Sound(s) && Safe(s) && o < Count(s) && CanInspect(s, o, Answer(replication, ready, control, gone))
    ensures Safe(Marked(InspectFinding(s, o, Answer(replication, ready, control, gone)), o))
  {
    hide Safe;
    var id := ContainerOf(s, o);
    var q := TakeControl(ProcOf(s, id), Answered).proc;
    var t := if control then Update(s, id, q) else s;
    if control {
      EventIsCalm(ProcOf(s, id), s.status.accepted.passwordVersion);
      ControlKeepsSafe(s, id);
      CommandKeepsSound(s, id, q);
    }
    RecordingKeepsSafe(t, Observed(t, o, id, replication, ready), if gone then Some(NodeDeleted) else None);
  }

  /** Taking control clears what was in flight; a process nobody has inspected has nothing in flight. */
  lemma ControlKeepsSafe(s: State, id: Identity)
    requires Sound(s) && Safe(s) && Alive(s, id)
    ensures Safe(Update(s, id, TakeControl(ProcOf(s, id), Answered).proc))
  {
    var p := ProcOf(s, id);
    EventIsCalm(p, s.status.accepted.passwordVersion);
    CalmKeepsSafe(s, id, p.(pending := None));
  }

  // ---- a process found stopped ----

  lemma DeadPodKeepsSafe(s: State, o: nat)
    requires Sound(s) && Safe(s) && o < Count(s) && CanInspect(s, o, ContainerDead)
    ensures Safe(Marked(InspectDead(s, o), o))
  {
    hide Safe, Sound, Observation.SaveContainerTermination;
    var id := ContainerOf(s, o);
    DeadPodKeepsSound(s, o);
    var current := NodeAt(s.status.nodes, o);
    var displaced := current.Some? && !SamePodContainer(current.value.id, id);
    if displaced && s.status.deletion.None? {
      RewritingKeepsSafe(s, InspectDead(s, o).status, o);
    } else if current.Some? && !displaced && current.value.termination.Some? {
      ReleaseKeepsSafe(s, o);
    } else {
      var t := s.(status := Observation.SaveContainerTermination(s.status, DeadContainer(o, id)));
      DeadEntriesRemembered(s, o);
      FindingKeepsSafe(s, t, o);
    }
  }

  lemma ReleaseKeepsSafe(s: State, o: nat)
    requires Sound(s) && Safe(s) && HasContainer(s, o) && !s.world[s.pods[o].uid].alive
    ensures Safe(Marked(ReleasePod(s, o), o))
  {
    hide Safe;
    var t := ReleasePod(s, o);
    PodMarkKeepsSound(s, o, Released(s.pods[o]));
    FindingKeepsSafe(s, t, o);
  }

  lemma DeadEntriesRemembered(s: State, o: nat)
    requires Sound(s) && o < Count(s) && CanInspect(s, o, ContainerDead)
    requires o in s.status.nodes && !SamePodContainer(s.status.nodes[o].id, ContainerOf(s, o)) ==>
      s.status.deletion.Some?
    requires o in s.status.nodes && SamePodContainer(s.status.nodes[o].id, ContainerOf(s, o)) ==>
      s.status.nodes[o].termination.None?
    ensures
      var t := s.(status := Observation.SaveContainerTermination(s.status, DeadContainer(o, ContainerOf(s, o))));
      && Remembers(s, t) && HandsOver(s, t) && OnlyAt(s.status.nodes, t.status.nodes, o) && SuspectAt(t, o)
  {
    ContainerTerminationEntries(s.status, DeadContainer(o, ContainerOf(s, o)));
    if o in s.status.nodes { assert EntrySound(s.world, s.status.nodes[o]); }
  }

  // ---- a process whose client access an inspection closes ----

  lemma ClosingKeepsSafe(s: State, o: nat, ds: Deliveries)
    requires Sound(s) && Safe(s) && o < Count(s) && CanInspect(s, o, CloseApp(ds))
    ensures Safe(Marked(InspectFinding(s, o, CloseApp(ds)), o))
  {
    hide Safe;
    var m := Marked(s, o);
    LookingKeepsSafe(s, o);
    CommandClosesSafely(m, ContainerOf(s, o), ds);
  }

  /** An inspection about to close client access finds no process that was just fenced. */
  lemma LookingKeepsSafe(s: State, o: nat)
    requires Sound(s) && Safe(s) && RunsAt(s, o) && MustCloseOnInspection(s, ContainerOf(s, o))
    requires o in s.status.nodes ==> s.status.nodes[o].id == ContainerOf(s, o)
    ensures Safe(Marked(s, o))
  {
    var m := Marked(s, o);
    if s.status.accepted.mode == HA {
      forall u | u in m.world && u != Designated(m.status) && Exposed(m.status, m.pods, u, m.world[u])
        ensures Suspect(m.status.nodes[m.world[u].ordinal]) || JustFenced(m.status, m.world[u], m.seen)
      {
        assert Exposed(s.status, s.pods, u, s.world[u]);
      }
    }
  }

  lemma StrangerIsNewborn(s: State, id: Identity)
    requires Safe(s) && Alive(s, id)
    ensures Listed(s.status, ProcOf(s, id)) || Newborn(s.status.accepted.mode, ProcOf(s, id))
  {
  }

  lemma CommandClosesSafely(s: State, id: Identity, ds: Deliveries)
    requires Sound(s) && Safe(s) && Alive(s, id)
    ensures
      var q := UpdateAppAccess(ProcOf(s, id), false, s.status.accepted.passwordVersion, ds).proc;
      Sound(Update(s, id, q)) && Safe(Update(s, id, q))
  {
    hide Safe;
    StrangerIsNewborn(s, id);
    var v := s.status.accepted.passwordVersion;
    var q := UpdateAppAccess(ProcOf(s, id), false, v, ds).proc;
    DisablingIsCalm(ProcOf(s, id), v, ds);
    CommandKeepsSound(s, id, q);
    CalmKeepsSafe(s, id, q);
  }

  lemma FindingsKeepSafe(s: State, o: nat, finding: Finding)
    requires Sound(s) && Safe(s) && o < Count(s) && CanInspect(s, o, finding)
    ensures Safe(Marked(InspectFinding(s, o, finding), o))
  {
    hide Safe, Sound;
    match finding
    case PodMissing(gone) => if gone { HostGoneKeepsSafe(s, o); } else { UnavailableKeepsSafe(s, o); }
    case NotRunning => UnavailableKeepsSafe(s, o);
    case ContainerDead => DeadPodKeepsSafe(s, o);
    case HostGone => HostGoneKeepsSafe(s, o);
    case NoAnswer(kind, ready, now) =>
      NoAnswerKeepsSafe(s, o, o in s.status.nodes && s.status.nodes[o].id == ContainerOf(s, o), kind, ready, now);
    case Answer(replication, ready, control, gone) => AnswerKeepsSafe(s, o, replication, ready, control, gone);
    case CloseApp(ds) => ClosingKeepsSafe(s, o, ds);
  }

  lemma InspectionKeepsSafe(s: State, o: nat, finding: Finding)
    requires Sound(s) && Safe(s) && o < Count(s) && CanInspect(s, o, finding)
    ensures Safe(Inspect(s, o, finding)) && Safe(InspectFinding(s, o, finding))
  {
    hide Safe, Sound, InspectFinding;
    FindingsKeepSafe(s, o, finding);
    var m := Marked(InspectFinding(s, o, finding), o);
    SameHeartKeepsSafe(m, Inspect(s, o, finding));
    SameHeartKeepsSafe(m, InspectFinding(s, o, finding));
  }

  // ---- proofs of the end of a process, and forgetting it ----

  /** The entries of the second status are older ones, some now with a proof of the end. */
  predicate OnlyProofs(a: Status, b: Status) {
    && SameOperations(a, b) && b.primaryOrdinal == a.primaryOrdinal && b.primaryId == a.primaryId
    && b.nodes.Keys == a.nodes.Keys
    && (forall o :: o in b.nodes ==>
          && b.nodes[o].id == a.nodes[o].id && b.nodes[o].role == a.nodes[o].role
          && b.nodes[o].observation == a.nodes[o].observation && (b.nodes[o].readiness ==> a.nodes[o].readiness))
    && b.previous.Keys <= a.previous.Keys
    && (forall id :: id in a.previous && a.previous[id].termination.None? ==> id in b.previous)
  }

  lemma ProofsKeepSafe(s: State, status: Status)
    requires Sound(s) && Safe(s) && OnlyProofs(s.status, status) && Sound(s.(status := status))
    ensures Safe(s.(status := status))
  {
    var t := s.(status := status);
    forall u | u in s.world && s.world[u].alive && s.world[u].id in s.status.previous
      ensures s.world[u].id in t.status.previous
    {
      assert EntrySound(s.world, s.status.previous[s.world[u].id]);
    }
    assert Remembers(s, t);
    assert Designated(t.status) == Designated(s.status);
    if s.status.accepted.mode == HA { ProofsKeepSuspicion(s, status); }
    EntriesKeepSafe(s, t);
  }

  lemma ProofsKeepSuspicion(s: State, status: Status)
    requires OthersAreSuspect(s.status, s.world, s.pods, s.seen) && s.status.accepted.mode == HA
    requires OnlyProofs(s.status, status)
    ensures OthersAreSuspect(status, s.world, s.pods, s.seen)
  {
    forall u | u in s.world && u != Designated(status) && Exposed(status, s.pods, u, s.world[u])
      ensures Suspect(status.nodes[s.world[u].ordinal]) || JustFenced(status, s.world[u], s.seen)
    {
      assert Exposed(s.status, s.pods, u, s.world[u]);
    }
  }

  lemma ManualFencingKeepsSafe(s: State, id: Identity)
    requires Sound(s) && Safe(s) && KnownProcess(s.status, id).Some? && Dead(s, id)
    ensures Safe(s.(status := Observation.AcceptManualFencing(s.status, id)))
  {
    hide Safe;
    ManualFencingKeepsSound(s, id);
    ProofsKeepSafe(s, Observation.AcceptManualFencing(s.status, id));
  }

  lemma PruningKeepsSafe(s: State)
    requires Sound(s) && Safe(s)
    ensures Safe(s.(status := Observation.PruneHistory(s.status)))
  {
    hide Safe;
    FrameKeepsSound(s, s.(status := Observation.PruneHistory(s.status)));
    ProofsKeepSafe(s, Observation.PruneHistory(s.status));
  }

  lemma CopiedProofKeepsSafe(s: State, id: Identity)
    requires Sound(s) && Safe(s) && CanCopyProof(s, id)
    ensures Safe(WithProof(s, id, ContainerStatus))
  {
    hide Safe;
    CopiedProofKeepsSound(s, id);
    ProofsKeepSafe(s, WithProof(s, id, ContainerStatus).status);
  }

  lemma HostProofKeepsSafe(s: State, id: Identity)
    requires Sound(s) && Safe(s) && id in s.status.previous && Dead(s, id)
    ensures Safe(WithProof(s, id, NodeDeleted))
  {
    hide Safe;
    HostProofKeepsSound(s, id);
    ProofsKeepSafe(s, WithProof(s, id, NodeDeleted).status);
  }

  // ---- the steps of a pass that watch, and those of a deletion ----

  lemma AcceptKeepsHeart(status: Status, spec: Spec, hashes: set<int>)
    ensures SameHeart(status, Contract.ReconcileAccepted(status, spec, hashes))
  {
  }

  lemma WatchKeepsSafe(s: State, watch: Watch)
    requires Sound(s) && Safe(s) && CanWatch(s, watch)
    ensures Safe(AfterWatch(s, watch))
  {
    hide Safe, Sound;
    var t := AfterWatch(s, watch);
    match watch
    case SpecRead(spec) =>
      AcceptKeepsHeart(s.status, spec, s.hashes);
      SameHeartKeepsSafe(s, t);
    case PodCreated(ordinal) => PodCreationKeepsSafe(s, ordinal);
    case Inspected(ordinal, finding) => InspectionKeepsSafe(s, ordinal, finding);
    case FencedManually(id) =>
      ManualFencingKeepsSafe(s, id);
      SameHeartKeepsSafe(s.(status := Observation.AcceptManualFencing(s.status, id)), t);
    case HistoryPruned =>
      PruningKeepsSafe(s);
      SameHeartKeepsSafe(s.(status := Observation.PruneHistory(s.status)), t);
    case _ => SameHeartKeepsSafe(s, t);
  }

  lemma PodCreationKeepsSafe(s: State, ordinal: nat)
    requires Sound(s) && Safe(s)
    ensures Safe(CreatePod(s, ordinal))
  {
    assert s.nextUid !in s.world;
    SameHeartKeepsSafe(s, CreatePod(s, ordinal));
  }

  lemma CloseKeepsSafe(s: State, ordinal: nat, ds: Deliveries)
    requires Sound(s) && Safe(s) && CurrentNode(s, ordinal)
    ensures Safe(Close(s, ordinal, ds))
  {
    CommandClosesSafely(s, s.status.nodes[ordinal].id, ds);
  }

  lemma RemovalKeepsSafe(s: State, removal: Removal)
    requires Sound(s) && Safe(s) && CanRemove(s, removal)
    ensures Safe(AfterRemoval(s, removal))
  {
    hide Safe, Sound;
    match removal
    case DeletionCloses(ordinal, ds) => CommandClosesSafely(s, ContainerOf(s, ordinal), ds);
    case DeletionInspects(ordinal, finding) => InspectionKeepsSafe(s, ordinal, finding);
    case DeletionCopiesProof(id) => CopiedProofKeepsSafe(s, id);
    case DeletionProvesHostGone(id) => HostProofKeepsSafe(s, id);
    case _ => SameHeartKeepsSafe(s, AfterRemoval(s, removal));
  }

  // ---- the failover ----

  /** No process that is not designated is an unsuspected primary; nothing was just fenced. */
  ghost predicate AllSuspect(s: State) {
    forall u :: u in s.world && u != Designated(s.status) && Exposed(s.status, s.pods, u, s.world[u]) ==>
      Suspect(s.status.nodes[s.world[u].ordinal])
  }

  lemma SeenMeansSuspect(s: State)
    requires Safe(s) && s.status.accepted.mode == HA && AllSeen(s) && NodesSound(s.world, Count(s), s.status.nodes)
    ensures AllSuspect(s)
  {
  }

  /** The process that was designated has ended, or is excepted. */
  predicate Retired(s: State, t: State) {
    var d := Designated(s.status);
    || d == Designated(t.status) || d == 0 || d !in s.world || !s.world[d].alive
    || Excepted(s.status, t.strayed, s.world[d])
  }

  /** What a change of the failover or of the named primary has to bring with it. */
  ghost predicate Justified(s: State, t: Status) {
    && FencedStayClosed(t, s.world) && NamedIsSafe(t, s.world) && StartIsSafe(t, s.world) && NameIsKnown(t, s.world)
  }

  predicate SameEntries(a: Status, b: Status) {
    b.nodes == a.nodes && b.previous == a.previous && b.accepted == a.accepted && b.initialized == a.initialized
  }

  lemma ShiftKeepsSafe(s: State, t: State)
    requires Sound(s) && Safe(s) && AllSuspect(s) && s.status.accepted.mode == HA
    requires t.world == s.world && SamePods(s.pods, t.pods) && SameEntries(s.status, t.status)
    requires (s.strayed ==> t.strayed) && Retired(s, t) && Justified(s, t.status)
    ensures Safe(t)
  {
    assert HotIsDesignated(t.status, t.strayed, t.world);
    ShiftKeepsPromises(s, t);
  }

  lemma ShiftKeepsPromises(s: State, t: State)
    requires WorldSound(s.world, s.nextUid) && HistorySound(s.world, s.pods, s.status.previous)
    requires AllSuspect(s) && NoOtherPromise(s.status, s.strayed, s.world)
    requires t.world == s.world && SamePods(s.pods, t.pods) && SameEntries(s.status, t.status)
    requires (s.strayed ==> t.strayed) && Retired(s, t)
    ensures NoOtherPromise(t.status, t.strayed, t.world)
    ensures OthersAreSuspect(t.status, t.world, t.pods, t.seen)
  {
    forall u | u in t.world && u != Designated(t.status) && Exposed(t.status, t.pods, u, t.world[u])
      ensures Suspect(t.status.nodes[t.world[u].ordinal])
    {
      assert Exposed(s.status, s.pods, u, s.world[u]);
    }
  }

  /** Storing that the source is closed: nobody is designated any more. */
  lemma FenceKeepsSafe(s: State, t: State)
    requires Sound(s) && Safe(s) && AllSuspect(s) && s.status.accepted.mode == HA
    requires t.world == s.world && SamePods(s.pods, t.pods) && SameEntries(s.status, t.status)
    requires t.seen == {} && t.strayed == s.strayed
    requires FailoverSteps.AtStage(s.status, Fencing) && !FailoverSteps.SourceFenced(s.status.failover.value)
    requires t.status.failover == FailoverSteps.NextFailover(s.status.failover.value, FailoverSteps.MarkSourceFenced)
    requires
      var source := s.status.failover.value.source;
      && Real(s, source) && Fenced(ProcOf(s, source))
      && ProcOf(s, source).version == s.status.accepted.passwordVersion
    requires Justified(s, t.status)
    ensures Safe(t)
  {
    assert HotIsDesignated(t.status, t.strayed, t.world);
    FencePromises(s, t);
  }

  lemma FencePromises(s: State, t: State)
    requires AllSuspect(s) && NoOtherPromise(s.status, s.strayed, s.world) && s.status.accepted.mode == HA
    requires t.world == s.world && SamePods(s.pods, t.pods) && SameEntries(s.status, t.status)
    requires t.seen == {} && t.strayed == s.strayed
    requires FailoverSteps.AtStage(s.status, Fencing) && !FailoverSteps.SourceFenced(s.status.failover.value)
    requires t.status.failover == FailoverSteps.NextFailover(s.status.failover.value, FailoverSteps.MarkSourceFenced)
    requires
      var source := s.status.failover.value.source;
      && Real(s, source) && Fenced(ProcOf(s, source))
      && ProcOf(s, source).version == s.status.accepted.passwordVersion
    ensures NoOtherPromise(t.status, t.strayed, t.world)
    ensures OthersAreSuspect(t.status, t.world, t.pods, t.seen)
  {
    forall u | u in t.world && u != Designated(t.status) && Exposed(t.status, t.pods, u, t.world[u])
      ensures Suspect(t.status.nodes[t.world[u].ordinal]) || JustFenced(t.status, t.world[u], t.seen)
    {
      assert Exposed(s.status, s.pods, u, s.world[u]);
    }
  }

  /** REPLICAOF NO ONE sent to the designated process while nothing else is hot, or while it is closed. */
  lemma PromotionKeepsSafe(s: State, id: Identity, ds: Deliveries)
    requires Sound(s) && Safe(s) && Alive(s, id) && Listed(s.status, ProcOf(s, id))
    requires s.status.accepted.mode == HA && Designated(s.status) == id.podUID
    requires !Reachable(ProcOf(s, id)) || OnlyHot(s.world, id.podUID)
    requires Named(s.status) == id.podUID || (s.status.initialized && s.status.reason != EmptyRecovery)
    requires FailoverSteps.AtStage(s.status, Fencing) ==> false
    ensures Safe(Update(s, id, PromoteProcess(ProcOf(s, id), ds).proc))
  {
    var p := ProcOf(s, id);
    var q := PromoteProcess(p, ds).proc;
    PromotionTouchesRole(p, ds);
    assert Reachable(q) ==> Reachable(p);
    PromotedKeepsHot(s, id, q);
    PromotedKeepsSafeHA(s, id, q);
  }

  lemma PromotedKeepsHot(s: State, id: Identity, q: Proc)
    requires Sound(s) && Safe(s) && Alive(s, id) && Designated(s.status) == id.podUID
    requires Same(ProcOf(s, id), q) && (Reachable(q) ==> Reachable(ProcOf(s, id)))
    requires Listed(s.status, ProcOf(s, id))
    requires !Reachable(ProcOf(s, id)) || OnlyHot(s.world, id.podUID)
    ensures
      var w := Put(s, id, q);
      && AtMostOneHot(w) && HotIsDesignated(s.status, s.strayed, w) && StrangersAreNewborn(s.status, w)
      && (OnlyHot(s.world, id.podUID) ==> OnlyHot(w, id.podUID))
  {
  }

  lemma PromotedKeepsSafeHA(s: State, id: Identity, q: Proc)
    requires Sound(s) && SafeHA(s) && Alive(s, id) && Designated(s.status) == id.podUID
    requires s.status.accepted.mode == HA && !FailoverSteps.AtStage(s.status, Fencing)
    requires Same(ProcOf(s, id), q) && (Reachable(q) ==> Reachable(ProcOf(s, id)))
    requires OnlyHot(s.world, id.podUID) ==> OnlyHot(Put(s, id, q), id.podUID)
    requires Named(s.status) == id.podUID || (s.status.initialized && s.status.reason != EmptyRecovery)
    ensures SafeHA(Update(s, id, q))
  {
    var t := Update(s, id, q);
    assert FencedStayClosed(t.status, t.world);
    assert NoOtherPromise(t.status, t.strayed, t.world);
    forall u | u in t.world && u != Designated(t.status) && Exposed(t.status, t.pods, u, t.world[u])
      ensures Suspect(t.status.nodes[t.world[u].ordinal]) || JustFenced(t.status, t.world[u], t.seen)
    {
      assert Exposed(s.status, s.pods, u, s.world[u]);
    }
  }

  predicate Stopped(world: map<Uid, Proc>, id: Identity) {
    id.podUID in world && !world[id.podUID].alive
  }

  /** What holds in the world when the failover makes this move. */
  predicate Granted(s: State, move: FailoverSteps.Move) {
    var f := s.status.failover;
    match move
    case Skip => true
    case Halt => true
    case Await => true
    case Drop => false
    case Start(source) => f.None? && s.status.primaryOrdinal.Some? && source == s.status.primaryId
    case MarkSourceFenced =>
      && FailoverSteps.AtStage(s.status, Fencing) && !FailoverSteps.SourceFenced(f.value)
      && Real(s, f.value.source) && Fenced(ProcOf(s, f.value.source))
      && ProcOf(s, f.value.source).version == s.status.accepted.passwordVersion
    case Choose =>
      && FailoverSteps.AtStage(s.status, Fencing)
      && (FailoverSteps.SourceFenced(f.value) || Stopped(s.world, f.value.source))
    case Pick(_, _) => FailoverSteps.AtStage(s.status, Choosing) && f.value.candidate.None?
    case SetPoint(_) => FailoverSteps.AtStage(s.status, Choosing)
    case MarkCandidateFenced =>
      && FailoverSteps.AtStage(s.status, Choosing) && f.value.candidate.Some?
      && Closed(s.world, f.value.candidate.value.podUID)
    case BeginPromotion => FailoverSteps.AtStage(s.status, Choosing) && f.value.candidate.Some?
    case Announce => FailoverSteps.AtStage(s.status, Promoting)
    case Succeed(n) =>
      && FailoverSteps.AtStage(s.status, Promoting) && f.value.candidate == Some(n.id)
      && Real(s, n.id) && ProcOf(s, n.id).ordinal == n.ordinal && Listed(s.status, ProcOf(s, n.id))
    case GiveUp =>
      && (FailoverSteps.AtStage(s.status, Choosing) || FailoverSteps.AtStage(s.status, Promoting))
      && f.value.candidate.Some? && Stopped(s.world, f.value.candidate.value)
    case Refence(primary) =>
      FailoverSteps.AtStage(s.status, Reconfiguring) && s.status.primaryOrdinal.Some? && primary == s.status.primaryId
    case Complete => FailoverSteps.AtStage(s.status, Reconfiguring)
    case WatchEmpty(_) => FailoverSteps.AtStage(s.status, Choosing) && f.value.candidate.None?
    case StartEmpty(_) =>
      FailoverSteps.AtStage(s.status, Choosing) && f.value.candidate.None? &&
      (FailoverSteps.EmptyRecoverySafe(s.status) || FailoverSteps.EmptyRecoveryWaitingSafe(s.status))
  }

  /** Before starting over with an empty cache every lost process is closed. */
  lemma EmptyMeansLostIsClosed(s: State, p: Proc)
    requires FencedStayClosed(s.status, s.world) && FailoverSteps.AtStage(s.status, Choosing)
    requires FailoverSteps.EmptyRecoverySafe(s.status) || FailoverSteps.EmptyRecoveryWaitingSafe(s.status)
    requires p.id.podUID in s.world && s.world[p.id.podUID] == p && Lost(s.status, p)
    ensures !Hot(p)
  {
    if FailoverSteps.EmptyRecoveryWaitingSafe(s.status) {
      assert FailoverSteps.ClosedByOperation(s.status.failover.value, p.id);
    }
  }

  lemma EmptyMeansNothingHot(s: State)
    requires Sound(s) && Safe(s) && s.status.accepted.mode == HA && FailoverSteps.AtStage(s.status, Choosing)
    requires FailoverSteps.EmptyRecoverySafe(s.status) || FailoverSteps.EmptyRecoveryWaitingSafe(s.status)
    ensures OnlyHot(s.world, 0)
  {
    hide FailoverSteps.EmptyRecoverySafe, FailoverSteps.EmptyRecoveryWaitingSafe;
    forall u | u in s.world && Lost(s.status, s.world[u]) ensures !Hot(s.world[u]) {
      EmptyMeansLostIsClosed(s, s.world[u]);
    }
  }

  lemma GrantedRetires(s: State, move: FailoverSteps.Move)
    requires Sound(s) && Orderly(s.status) && s.status.accepted.mode == HA
    requires Granted(s, move) && !move.MarkSourceFenced?
    ensures Retired(s, s.(status := FailoverSteps.Apply(s.status, move)))
  {
    hide FailoverSteps.Apply, FailoverSteps.EmptyRecoverySafe, FailoverSteps.EmptyRecoveryWaitingSafe;
  }

  lemma GrantedStaysFenced(s: State, move: FailoverSteps.Move)
    requires Orderly(s.status) && FencedStayClosed(s.status, s.world)
    requires Granted(s, move)
    ensures FencedStayClosed(FailoverSteps.Apply(s.status, move), s.world)
  {
  }

  lemma GrantedNamesSafely(s: State, move: FailoverSteps.Move)
    requires WorldSound(s.world, s.nextUid) && Orderly(s.status) && SafeHA(s) && s.status.initialized
    requires Granted(s, move) && (move.StartEmpty? ==> OnlyHot(s.world, 0))
    ensures NamedIsSafe(FailoverSteps.Apply(s.status, move), s.world)
    ensures StartIsSafe(FailoverSteps.Apply(s.status, move), s.world)
  {
    hide FailoverSteps.EmptyRecoverySafe, FailoverSteps.EmptyRecoveryWaitingSafe, Availability.ApplyOperationalPhase,
         FailoverSteps.Apply, OthersAreSuspect, NoOtherPromise;
  }

  lemma GrantedNamesKnown(s: State, move: FailoverSteps.Move)
    requires NameIsKnown(s.status, s.world) && Granted(s, move)
    ensures NameIsKnown(FailoverSteps.Apply(s.status, move), s.world)
  {
  }

  lemma MoveKeepsSafe(s: State, move: FailoverSteps.Move, t: State)
    requires Sound(s) && Safe(s) && Orderly(s.status) && AllSuspect(s)
    requires s.status.accepted.mode == HA && s.status.initialized && Granted(s, move)
    requires t == s.(status := FailoverSteps.Apply(s.status, move), at := t.at, seen := t.seen)
    requires !move.Skip? ==> t.seen == {}
    ensures Safe(t)
  {
    hide Safe, AllSuspect, FailoverSteps.Apply;
    if move.StartEmpty? { EmptyMeansNothingHot(s); }
    SafeIsSafeHA(s);
    GrantedStaysFenced(s, move);
    GrantedNamesSafely(s, move);
    GrantedNamesKnown(s, move);
    if move.MarkSourceFenced? {
      FenceKeepsSafe(s, t);
    } else {
      GrantedRetires(s, move);
      ShiftKeepsSafe(s, t);
    }
  }

  lemma SafeIsSafeHA(s: State)
    requires Safe(s) && s.status.accepted.mode == HA
    ensures SafeHA(s)
  {
  }

  lemma KnownIsSound(s: State, id: Identity)
    requires NodesSound(s.world, Count(s), s.status.nodes) && HistorySound(s.world, s.pods, s.status.previous)
    requires KnownProcess(s.status, id).Some?
    ensures
      var n := KnownProcess(s.status, id).value;
      n.id == id && EntrySound(s.world, n)
      && (n.termination.None? ==> Real(s, id) && Listed(s.status, ProcOf(s, id)))
  {
    match OrdinalOf(s.status.nodes, id)
    case Some(o) => assert EntrySound(s.world, s.status.nodes[o]);
    case None => assert EntrySound(s.world, s.status.previous[id]);
  }

  /** What a stage that sent its commands, or did not, finds in the world afterwards. */
  predicate Verdict(s: State, done: bool) {
    && (done && FailoverSteps.MustFenceSource(s.status) ==>
          var source := s.status.failover.value.source;
          && Real(s, source) && Fenced(ProcOf(s, source))
          && ProcOf(s, source).version == s.status.accepted.passwordVersion)
    && (done && FailoverSteps.MustFenceCandidate(s.status) ==>
          Closed(s.world, s.status.failover.value.candidate.value.podUID))
  }

  lemma StartIsGranted(s: State, now: Time)
    requires Sound(s) && s.status.failover.None?
    ensures Granted(s, FailoverSteps.DecideStart(s.status, now))
  {
    if s.status.primaryOrdinal.Some? && KnownProcess(s.status, s.status.primaryId).Some? {
      KnownIsSound(s, s.status.primaryId);
    }
  }

  lemma FencingIsGranted(s: State, done: bool)
    requires Sound(s) && FailoverSteps.AtStage(s.status, Fencing) && Verdict(s, done)
    ensures Granted(s, FailoverSteps.DecideFencing(s.status, done))
  {
    var source := s.status.failover.value.source;
    if KnownProcess(s.status, source).Some? { KnownIsSound(s, source); }
  }

  lemma ChoosingIsGranted(s: State, done: bool, now: Time)
    requires Sound(s) && FailoverSteps.AtStage(s.status, Choosing) && Verdict(s, done)
    ensures Granted(s, FailoverSteps.DecideChoosing(s.status, done, now))
  {
    hide FailoverSteps.EmptyRecoverySafe, FailoverSteps.EmptyRecoveryWaitingSafe, FailoverSteps.ChooseCandidate,
         FailoverSteps.OffsetReached;
    var candidate := s.status.failover.value.candidate;
    if candidate.Some? && KnownProcess(s.status, candidate.value).Some? { KnownIsSound(s, candidate.value); }
  }

  lemma PromotingIsGranted(s: State, done: bool)
    requires Sound(s) && FailoverSteps.AtStage(s.status, Promoting)
    ensures Granted(s, FailoverSteps.DecidePromoting(s.status, done))
  {
    var candidate := s.status.failover.value.candidate;
    if candidate.Some? && KnownProcess(s.status, candidate.value).Some? { KnownIsSound(s, candidate.value); }
  }

  lemma ReconfiguringIsGranted(s: State, pod: Option<Uid>, now: Time)
    requires Sound(s) && FailoverSteps.AtStage(s.status, Reconfiguring)
    ensures Granted(s, FailoverSteps.DecideReconfiguring(s.status, pod, now))
  {
    if s.status.primaryOrdinal.Some? && KnownProcess(s.status, s.status.primaryId).Some? {
      KnownIsSound(s, s.status.primaryId);
    }
  }

  lemma DecisionIsGranted(s: State, done: bool, pod: Option<Uid>, now: Time)
    requires Sound(s) && Orderly(s.status) && Verdict(s, done)
    ensures Granted(s, FailoverSteps.Decide(s.status, done, pod, now))
  {
    hide Sound, Verdict, Granted;
    if s.status.failover.None? {
      StartIsGranted(s, now);
      SkippingIsGranted(s);
    } else {
      match s.status.failover.value.stage
      case Fencing => FencingIsGranted(s, done);
      case Choosing => ChoosingIsGranted(s, done, now);
      case Promoting => PromotingIsGranted(s, done);
      case Reconfiguring => ReconfiguringIsGranted(s, pod, now);
    }
  }

  lemma SkippingIsGranted(s: State)
    ensures Granted(s, FailoverSteps.Skip)
  {
  }

  /** The state between the commands of a failover and what is stored about them. */
  function Commanded(s: State, ds: Deliveries): State { s.(world := FailoverWorld(s, ds)) }

  lemma OrderIsListed(s: State, id: Identity)
    requires Sound(s) && FailoverOrder(s) == Some(id)
    ensures Alive(s, id) && Listed(s.status, ProcOf(s, id))
  {
    KnownIsSound(s, id);
  }

  lemma OrderIsForStage(s: State, id: Identity)
    requires FailoverOrder(s) == Some(id)
    ensures s.status.accepted.mode == HA && s.status.initialized
    ensures
      || (FailoverSteps.MustFenceSource(s.status) && id == s.status.failover.value.source)
      || (FailoverSteps.MustFenceCandidate(s.status) && Some(id) == s.status.failover.value.candidate)
      || (FailoverSteps.AtStage(s.status, Promoting) && Some(id) == s.status.failover.value.candidate)
  {
  }

  lemma FailoverPromotionKeepsSafe(s: State, id: Identity, ds: Deliveries)
    requires Sound(s) && Safe(s) && Orderly(s.status) && FailoverOrder(s) == Some(id)
    requires FailoverSteps.AtStage(s.status, Promoting)
    ensures Sound(Commanded(s, ds)) && Safe(Commanded(s, ds))
  {
    OrderIsListed(s, id);
    OrderIsForStage(s, id);
    CommandKeepsSound(s, id, PromoteProcess(ProcOf(s, id), ds).proc);
    PromotionKeepsSafe(s, id, ds);
  }

  lemma FailoverFencingKeepsSafe(s: State, id: Identity, ds: Deliveries)
    requires Sound(s) && Safe(s) && FailoverOrder(s) == Some(id)
    requires !FailoverSteps.AtStage(s.status, Promoting)
    ensures Sound(Commanded(s, ds)) && Safe(Commanded(s, ds))
  {
    hide Safe, Sound;
    OrderIsListed(s, id);
    CommandClosesSafely(s, id, ds);
  }

  lemma CommandsKeepSafe(s: State, ds: Deliveries)
    requires Sound(s) && Safe(s) && Orderly(s.status)
    ensures Sound(Commanded(s, ds)) && Safe(Commanded(s, ds))
  {
    hide Safe, Sound, Orderly;
    match FailoverOrder(s)
    case None => assert Commanded(s, ds) == s;
    case Some(id) =>
      if FailoverSteps.AtStage(s.status, Promoting) { FailoverPromotionKeepsSafe(s, id, ds); }
      else { FailoverFencingKeepsSafe(s, id, ds); }
  }

  function CommandsDone(s: State, ds: Deliveries): bool {
    FailoverOrder(s).Some? && FailoverCommands(s, FailoverOrder(s).value, ds).ok
  }

  lemma CommandsTellTheTruth(s: State, ds: Deliveries)
    requires Sound(s)
    ensures Verdict(Commanded(s, ds), CommandsDone(s, ds))
  {
    if CommandsDone(s, ds) {
      var id := FailoverOrder(s).value;
      OrderIsForStage(s, id);
      OrderIsListed(s, id);
      DisableAccessFences(ProcOf(s, id), s.status.accepted.passwordVersion, ds);
    }
  }

  lemma FailoverKeepsSafe(s: State, ds: Deliveries, now: Time)
    requires Sound(s) && Safe(s) && Orderly(s.status) && InOrder(s) && s.at == AtFailover
    ensures Safe(ReconcileFailover(s, ds, now))
  {
    hide Safe, Sound, Orderly, Verdict, Granted, FailoverSteps.Decide, FailoverSteps.Apply;
    var t := ReconcileFailover(s, ds, now);
    var c := Commanded(s, ds);
    CommandsKeepSafe(s, ds);
    CommandsTellTheTruth(s, ds);
    DecisionIsGranted(c, CommandsDone(s, ds), PrimaryPod(s), now);
    if s.status.accepted.mode == HA && s.status.initialized {
      AllSeenMeansSuspect(c);
      MoveKeepsSafe(c, FailoverMove(s, ds, now), t);
    } else {
      IdleFailover(s, ds, now);
      SameHeartKeepsSafe(s, t);
    }
  }

  lemma AllSeenMeansSuspect(s: State)
    requires Sound(s) && Safe(s) && s.status.accepted.mode == HA && InOrder(s) && s.at == AtFailover
    ensures AllSuspect(s)
  {
    SeenMeansSuspect(s);
  }

  /** Without a started HA instance a failover does nothing. */
  lemma IdleFailover(s: State, ds: Deliveries, now: Time)
    requires Orderly(s.status) && !(s.status.accepted.mode == HA && s.status.initialized)
    ensures ReconcileFailover(s, ds, now) == s.(at := AtRotation)
  {
  }

  // ---- the other operations ----

  /** In a single instance only the listed processes matter. */
  lemma SingleKeepsSafe(s: State, t: State)
    requires Safe(s) && s.status.accepted.mode == Single
    requires t.world == s.world && SameEntries(s.status, t.status)
    ensures Safe(t)
  {
  }

  predicate NotFencing(status: Status) {
    status.failover.None? || FailoverSteps.AtStage(status, Reconfiguring)
  }

  lemma ListedIsStopped(s: State, u: Uid)
    requires Sound(s) && RolloutSteps.AllKnownStopped(s.status) && u in s.world
    ensures Listed(s.status, s.world[u]) ==> !s.world[u].alive
  {
    var p := s.world[u];
    if p.ordinal in s.status.nodes { assert EntrySound(s.world, s.status.nodes[p.ordinal]); }
    if p.id in s.status.previous { assert EntrySound(s.world, s.status.previous[p.id]); }
  }

  lemma StoppedMeansNothingHot(s: State)
    requires Sound(s) && Safe(s) && RolloutSteps.AllKnownStopped(s.status)
    ensures OnlyHot(s.world, 0)
    ensures NameIsKnown(s.status, s.world) && Named(s.status) in s.world ==> !s.world[Named(s.status)].alive
  {
    forall u | u in s.world ensures Listed(s.status, s.world[u]) ==> !s.world[u].alive {
      ListedIsStopped(s, u);
    }
  }

  /** The end of a full stop takes the primary out of the status. */
  lemma ClearingKeepsSafe(s: State, t: State)
    requires Sound(s) && Safe(s) && AllSuspect(s) && s.status.accepted.mode == HA
    requires RolloutSteps.AllKnownStopped(s.status) && s.status.failover.None? && s.status.rollout.Some?
    requires t == s.(status := RolloutSteps.FinishStopping(s.status), at := Idle, seen := {})
    ensures Safe(t)
  {
    StoppedMeansNothingHot(s);
    assert NameIsKnown(s.status, s.world);
    ShiftKeepsSafe(s, t);
  }

  /** A resize hands over from the current primary's ordinal. */
  lemma HandOverKeepsSafe(s: State, t: State, source: Identity, candidate: Identity)
    requires Sound(s) && Safe(s) && AllSuspect(s) && s.status.accepted.mode == HA && s.status.initialized
    requires s.status.failover.None? && s.status.primaryOrdinal.Some?
    requires s.status.primaryOrdinal.value in s.status.nodes
    requires source == s.status.nodes[s.status.primaryOrdinal.value].id
    requires t == s.(status := FailoverSteps.StartResize(s.status, source, candidate), at := Idle, seen := {},
                     strayed := s.strayed || source != s.status.primaryId)
    ensures Safe(t)
  {
    assert NameIsKnown(s.status, s.world);
    assert EntrySound(s.world, s.status.nodes[s.status.primaryOrdinal.value]);
    if s.world[Named(s.status)].alive && s.status.primaryId in s.status.previous {
      assert EntrySound(s.world, s.status.previous[s.status.primaryId]);
    }
    ShiftKeepsSafe(s, t);
  }

  lemma SwitchIsFromPrimary(status: Status, pods: RolloutSteps.PodFacts)
    requires status.rollout.Some? && RolloutSteps.DecideSwitch(status, pods).HandOver?
    ensures status.primaryOrdinal.Some? && status.primaryOrdinal.value in status.nodes
    ensures RolloutSteps.DecideSwitch(status, pods).source == status.nodes[status.primaryOrdinal.value].id
  {
  }

  /** Everything a rollout writes besides clearing the primary and handing it over. */
  lemma QuietRolloutKeepsHeart(s: State, closed: bool)
    requires RolloutRuns(s.status)
    requires s.status.rollout.value.stage == Stopping ==> !s.status.rollout.value.accessClosed || !AllStopped(s)
    requires s.status.rollout.value.stage == SwitchingPrimary ==>
      !RolloutSteps.DecideSwitch(s.status, Facts(s)).HandOver?
    ensures SameHeart(s.status, RolloutStatus(s, closed))
  {
    hide RolloutSteps.DecideRolling, RolloutSteps.DecideSwitch, Facts, RolloutSteps.CompositionReady, AllStopped;
    match s.status.rollout.value.stage
    case SwitchingPrimary => SwitchKeepsHeart(s.status, RolloutSteps.DecideSwitch(s.status, Facts(s)));
    case ReplacingReplicas => ReplacementKeepsHeart(s.status, RollingDecision(s), SwitchingPrimary);
    case ReplacingPrimary => ReplacementKeepsHeart(s.status, RollingDecision(s), Verifying);
    case Verifying => FinishKeepsHeart(s.status);
    case _ =>
  }

  lemma SwitchKeepsHeart(status: Status, decision: RolloutSteps.Switch)
    requires status.rollout.Some? && !decision.HandOver?
    ensures SameHeart(status, RolloutSteps.SwitchPrimary(status, decision))
  {
  }

  lemma ReplacementKeepsHeart(status: Status, decision: RolloutSteps.Replacement, next: RolloutStage)
    requires status.rollout.Some?
    ensures SameHeart(status, ReplacementStatus(status, decision, next))
  {
  }

  lemma FinishKeepsHeart(status: Status)
    requires status.rollout.Some?
    ensures SameHeart(status, RolloutSteps.Finish(status))
  {
  }

  lemma StoppingKeepsSafe(s: State, closed: bool)
    requires Sound(s) && Safe(s) && AllSuspect(s) && s.status.accepted.mode == HA && RolloutRuns(s.status)
    requires s.status.rollout.value.stage == Stopping && s.status.rollout.value.accessClosed && AllStopped(s)
    ensures Safe(ReconcileRollout(s, closed))
  {
    hide Safe, Sound, AllSuspect;
    ClearingKeepsSafe(s, ReconcileRollout(s, closed));
  }

  lemma SwitchingKeepsSafe(s: State, closed: bool)
    requires Sound(s) && Safe(s) && AllSuspect(s) && Orderly(s.status) && s.status.accepted.mode == HA
    requires RolloutRuns(s.status) && s.status.rollout.value.stage == SwitchingPrimary
    requires RolloutSteps.DecideSwitch(s.status, Facts(s)).HandOver?
    ensures Safe(ReconcileRollout(s, closed))
  {
    var decision := RolloutSteps.DecideSwitch(s.status, Facts(s));
    SwitchIsFromPrimary(s.status, Facts(s));
    HandOverKeepsSafe(s, ReconcileRollout(s, closed), decision.source, decision.candidate);
  }

  lemma RolloutKeepsSafe(s: State, closed: bool)
    requires Sound(s) && Safe(s) && Orderly(s.status) && InOrder(s) && s.at == AtRollout
    ensures Safe(ReconcileRollout(s, closed))
  {
    hide Safe, Sound, Orderly, AllSuspect, RolloutSteps.DecideRolling, RolloutSteps.DecideSwitch, RolloutYields;
    var t := ReconcileRollout(s, closed);
    if s.status.accepted.mode == Single {
      SingleKeepsSafe(s, t);
    } else if !RolloutRuns(s.status) {
      SameHeartKeepsSafe(s, t);
    } else {
      PassMeansSuspect(s);
      var rollout := s.status.rollout.value;
      if rollout.stage == Stopping && rollout.accessClosed && AllStopped(s) {
        StoppingKeepsSafe(s, closed);
      } else if rollout.stage == SwitchingPrimary && RolloutSteps.DecideSwitch(s.status, Facts(s)).HandOver? {
        SwitchingKeepsSafe(s, closed);
      } else {
        QuietRolloutKeepsHeart(s, closed);
        SameHeartKeepsSafe(s, t);
      }
    }
  }

  lemma PassMeansSuspect(s: State)
    requires Sound(s) && Safe(s) && s.status.accepted.mode == HA && InOrder(s) && Past(s.at, AtInspection)
    ensures AllSuspect(s)
  {
    SeenMeansSuspect(s);
  }

  // ---- the first primary ----

  lemma AssignmentMeansNothingHot(s: State)
    requires Sound(s) && SafeHA(s) && s.status.accepted.mode == HA && NotFencing(s.status)
    requires Topology.AssignmentAllowed(s.status) && Topology.DecideInitialPrimary(s.status).Assign?
    ensures OnlyHot(s.world, 0)
    ensures Named(s.status) == 0 || Stopped(s.world, s.status.primaryId)
  {
    if s.status.primaryOrdinal.Some? {
      assert EntrySound(s.world, s.status.previous[s.status.primaryId]);
    }
  }

  lemma AssignmentKeepsSafe(s: State, t: State)
    requires Sound(s) && Safe(s) && AllSuspect(s) && s.status.accepted.mode == HA && NotFencing(s.status)
    requires Topology.AssignmentAllowed(s.status) && Topology.DecideInitialPrimary(s.status).Assign?
    requires 0 in s.status.nodes
    requires t == s.(status := SetPrimary(s.status, s.status.nodes[0]), at := Idle, seen := {})
    ensures Safe(t)
  {
    AssignmentMeansNothingHot(s);
    assert EntrySound(s.world, s.status.nodes[0]);
    ShiftKeepsSafe(s, t);
  }

  lemma FirstPromotionKeepsSafe(s: State, ds: Deliveries)
    requires Sound(s) && Safe(s) && s.status.accepted.mode == HA && NotFencing(s.status)
    requires InitialDecision(s).Command? && CurrentNode(s, 0)
    ensures Safe(s.(world := InitialWorld(s, ds)))
  {
    var id := s.status.nodes[0].id;
    assert EntrySound(s.world, s.status.nodes[0]);
    assert s.status.primaryId == id && Designated(s.status) == id.podUID;
    assert NamedIsSafe(s.status, s.world);
    PromotionKeepsSafe(s, id, ds);
  }

  lemma InitialPrimaryKeepsSafe(s: State, ds: Deliveries)
    requires Sound(s) && Safe(s) && InOrder(s) && s.at == AtInitialPrimary
    ensures Safe(ReconcileInitialPrimary(s, ds))
  {
    hide Safe, Sound, AllSuspect, Topology.AssignmentAllowed, Topology.DecideInitialPrimary;
    var t := ReconcileInitialPrimary(s, ds);
    if s.status.accepted.mode == Single {
      SameHeartKeepsSafe(s, t);
    } else if InitialDecision(s).Assign? && 0 in s.status.nodes {
      PassMeansSuspect(s);
      AssignmentKeepsSafe(s, t);
    } else if InitialDecision(s).Command? && CurrentNode(s, 0) {
      FirstPromotionKeepsSafe(s, ds);
      SameHeartKeepsSafe(s.(world := InitialWorld(s, ds)), t);
    } else {
      SameHeartKeepsSafe(s, t);
    }
  }

  // ---- replicas ----

  /** A calm command to a current process outside the fencing stage. */
  lemma CalmCommandKeepsSafe(s: State, o: nat, q: Proc)
    requires Sound(s) && Safe(s) && CurrentNode(s, o) && NotFencing(s.status)
    requires Same(ProcOf(s, s.status.nodes[o].id), q) && Calm(ProcOf(s, s.status.nodes[o].id), q)
    ensures Safe(Update(s, s.status.nodes[o].id, q))
  {
    assert EntrySound(s.world, s.status.nodes[o]);
    CalmKeepsSafe(s, s.status.nodes[o].id, q);
  }

  lemma ReplicasKeepSafe(s: State, ds: Deliveries)
    requires Sound(s) && Safe(s) && InOrder(s) && s.at == AtReplicas
    ensures Safe(ReconcileReplicas(s, ds))
  {
    hide Safe, Sound;
    var t := ReconcileReplicas(s, ds);
    match ReplicasOrder(s)
    case None => SameHeartKeepsSafe(s, t);
    case Some(o) =>
      var p := ProcOf(s, s.status.nodes[o].id);
      FollowingIsCalm(p, Upstream(s).value, ds);
      CalmCommandKeepsSafe(s, o, FollowProcess(p, Upstream(s).value, ds).proc);
      SameHeartKeepsSafe(s.(world := t.world), t);
  }

  /** A process that replica admission is about to open is no primary and will not become one. */
  lemma AdmittedIsNoPrimary(s: State, o: nat)
    requires Sound(s) && Safe(s) && AllSuspect(s) && NotFencing(s.status) && MustAdmitReplica(s, o)
    ensures
      var p := ProcOf(s, s.status.nodes[o].id);
      !MayBePrimary(p) && p.id.podUID != Designated(s.status) && Listed(s.status, p)
  {
    var node := s.status.nodes[o];
    var primary := s.status.nodes[s.status.primaryOrdinal.value];
    assert EntrySound(s.world, node) && EntrySound(s.world, primary);
    assert Designated(s.status) == primary.id.podUID;
    var u := node.id.podUID;
    assert InPod(s.pods, u, s.world[u]);
    var p := s.world[u];
    assert p.role == Primary ==> Exposed(s.status, s.pods, u, p);
  }

  lemma OpeningReplicaKeepsSafe(s: State, id: Identity, q: Proc)
    requires Sound(s) && Safe(s) && Real(s, id) && s.status.accepted.mode == HA && NotFencing(s.status)
    requires Same(ProcOf(s, id), q) && q.role == ProcOf(s, id).role && !MayBePrimary(q)
    requires id.podUID != Designated(s.status) && Listed(s.status, ProcOf(s, id))
    ensures Safe(Update(s, id, q))
  {
    OpeningReplicaKeepsHot(s, id, q);
    OpeningReplicaKeepsSafeHA(s, id, q);
  }

  lemma OpeningReplicaKeepsHot(s: State, id: Identity, q: Proc)
    requires Safe(s) && Real(s, id) && Same(ProcOf(s, id), q) && !MayBePrimary(q)
    requires Listed(s.status, ProcOf(s, id))
    ensures
      var w := Put(s, id, q);
      && AtMostOneHot(w) && HotIsDesignated(s.status, s.strayed, w) && StrangersAreNewborn(s.status, w)
      && (forall d :: OnlyHot(s.world, d) ==> OnlyHot(w, d))
  {
  }

  lemma OpeningReplicaKeepsSafeHA(s: State, id: Identity, q: Proc)
    requires SafeHA(s) && Real(s, id) && s.status.accepted.mode == HA && NotFencing(s.status)
    requires Same(ProcOf(s, id), q) && q.role == ProcOf(s, id).role && !MayBePrimary(q)
    requires id.podUID != Designated(s.status)
    requires forall d :: OnlyHot(s.world, d) ==> OnlyHot(Put(s, id, q), d)
    ensures SafeHA(Update(s, id, q))
  {
    var t := Update(s, id, q);
    assert NoOtherPromise(t.status, t.strayed, t.world);
    forall u | u in t.world && u != Designated(t.status) && Exposed(t.status, t.pods, u, t.world[u])
      ensures Suspect(t.status.nodes[t.world[u].ordinal]) || JustFenced(t.status, t.world[u], t.seen)
    {
      assert Exposed(s.status, s.pods, u, s.world[u]);
    }
  }

  lemma ReplicaAdmissionKeepsSafe(s: State, ds: Deliveries, linked: bool)
    requires Sound(s) && Safe(s) && InOrder(s) && s.at == AtReplicaAdmission
    ensures Safe(ReconcileReplicaAdmission(s, ds, linked))
  {
    hide Safe, Sound, AllSuspect, MustAdmitReplica;
    var t := ReconcileReplicaAdmission(s, ds, linked);
    match AdmissionTarget(s)
    case None => SameHeartKeepsSafe(s, t);
    case Some(o) => AdmittingKeepsSafe(s, o, ds, t);
  }

  lemma AdmittingKeepsSafe(s: State, o: nat, ds: Deliveries, t: State)
    requires Sound(s) && Safe(s) && InOrder(s) && s.at == AtReplicaAdmission && MustAdmitReplica(s, o)
    requires t.world == Put(s, s.status.nodes[o].id, Open(s, s.status.nodes[o].id, ds).proc)
    requires t == s.(world := t.world, status := t.status, at := Idle, seen := {})
    requires t.status == s.status || t.status == Availability.FinishReplicaAdmission(s.status, s.status.nodes[o])
    ensures Safe(t)
  {
    hide Safe, Sound, AllSuspect;
    var id := s.status.nodes[o].id;
    PassMeansSuspect(s);
    AdmittedIsNoPrimary(s, o);
    EnableAccessOpens(ProcOf(s, id), s.status.accepted.passwordVersion, ds);
    OpeningIsNoPromotion(ProcOf(s, id), s.status.accepted.passwordVersion, ds);
    OpeningReplicaKeepsSafe(s, id, Open(s, id, ds).proc);
    SameHeartKeepsSafe(s.(world := t.world), t);
  }

  lemma OpeningIsNoPromotion(p: Proc, version: int, ds: Deliveries)
    ensures
      var q := UpdateAppAccess(p, true, version, ds).proc;
      q.role == p.role && (q.pending == Some(Promote) ==> p.pending == Some(Promote))
  {
  }

  // ---- the primary ----

  /** Without a lost process nothing but the admitted primary is hot, so opening it is safe. */
  lemma OpeningPrimaryKeepsSafe(s: State, id: Identity, q: Proc)
    requires Sound(s) && Safe(s) && Real(s, id) && Listed(s.status, ProcOf(s, id))
    requires s.status.accepted.mode == HA ==> NotFencing(s.status)
    requires Same(ProcOf(s, id), q) && q.role == ProcOf(s, id).role
    requires q.pending == Some(Promote) ==> ProcOf(s, id).pending == Some(Promote)
    requires id.podUID == Designated(s.status) && !HasUnterminatedPrevious(s.status.previous)
    ensures Safe(Update(s, id, q))
  {
    var t := Update(s, id, q);
    assert OnlyHot(s.world, id.podUID);
    assert OnlyHot(t.world, id.podUID);
    assert AtMostOneHot(t.world) && HotIsDesignated(t.status, t.strayed, t.world);
    assert StrangersAreNewborn(t.status, t.world);
    if s.status.accepted.mode == HA {
      assert NoOtherPromise(t.status, t.strayed, t.world);
      assert OthersAreSuspect(t.status, t.world, t.pods, t.seen);
    }
  }

  lemma AdmissibleIsDesignated(s: State)
    requires Sound(s) && PrimaryAdmissible(s) && (s.status.accepted.mode == HA ==> NotFencing(s.status))
    ensures
      var node := s.status.nodes[SelectedPrimaryOrdinal(s.status).value];
      && node.id.podUID == Designated(s.status) && Listed(s.status, ProcOf(s, node.id))
      && (s.status.accepted.mode == HA ==>
          s.status.primaryOrdinal == Some(node.ordinal) && s.status.primaryId == node.id)
  {
    var node := s.status.nodes[SelectedPrimaryOrdinal(s.status).value];
    assert EntrySound(s.world, node);
  }

  /** What is written about an admitted primary. */
  lemma AdmissionKeepsSafe(s: State, t: State)
    requires Sound(s) && Safe(s) && PrimaryAdmissible(s) && (s.status.accepted.mode == HA ==> NotFencing(s.status))
    requires t.world == s.world && t.pods == s.pods && t.seen <= s.seen
    requires t.strayed == s.strayed
    requires
      var node := s.status.nodes[SelectedPrimaryOrdinal(s.status).value];
      t.status == Availability.FinishAppAdmission(s.status, node)
    ensures Safe(t)
  {
    hide Availability.FinishAppAdmission;
    AdmissibleIsDesignated(s);
    assert Designated(t.status) == Designated(s.status);
    assert StrangersAreNewborn(t.status, t.world);
    if s.status.accepted.mode == HA {
      assert NoOtherPromise(t.status, t.strayed, t.world);
      forall u | u in t.world && u != Designated(t.status) && Exposed(t.status, t.pods, u, t.world[u])
        ensures Suspect(t.status.nodes[t.world[u].ordinal]) || JustFenced(t.status, t.world[u], t.seen)
      {
        assert Exposed(s.status, s.pods, u, s.world[u]);
      }
    }
  }

  lemma OpenPrimaryKeepsSafe(s: State, node: NodeStatus, ds: Deliveries)
    requires Sound(s) && Safe(s) && PrimaryAdmissible(s) && (s.status.accepted.mode == HA ==> NotFencing(s.status))
    requires node == s.status.nodes[SelectedPrimaryOrdinal(s.status).value]
    ensures Safe(OpenPrimary(s, node, ds))
  {
    hide Safe, Sound, Availability.FinishAppAdmission, HasUnterminatedPrevious;
    var q := Open(s, node.id, ds).proc;
    var c := Update(s, node.id, q);
    var t := OpenPrimary(s, node, ds);
    AdmissibleIsDesignated(s);
    OpeningIsNoPromotion(ProcOf(s, node.id), s.status.accepted.passwordVersion, ds);
    OpeningPrimaryKeepsSafe(s, node.id, q);
    CommandKeepsSound(s, node.id, q);
    if t.status == Availability.FinishAppAdmission(s.status, node) {
      StillAdmissible(s, q);
      AdmissionKeepsSafe(c, t);
    } else {
      SameHeartKeepsSafe(c, t);
    }
  }

  lemma StillAdmissible(s: State, q: Proc)
    requires PrimaryAdmissible(s)
    requires Same(ProcOf(s, s.status.nodes[SelectedPrimaryOrdinal(s.status).value].id), q)
    ensures PrimaryAdmissible(Update(s, s.status.nodes[SelectedPrimaryOrdinal(s.status).value].id, q))
  {
  }

  lemma AppAdmissionKeepsSafe(s: State, ds: Deliveries, routed: bool)
    requires Sound(s) && Safe(s) && InOrder(s) && s.at == AtAppAdmission
    ensures Safe(ReconcileAppAdmission(s, ds, routed))
  {
    hide Safe, Sound, PrimaryAdmissible;
    var t := ReconcileAppAdmission(s, ds, routed);
    if PrimaryAdmissible(s) && routed {
      if PrimaryToOpen(s).Some? {
        OpenPrimaryKeepsSafe(s, PrimaryToOpen(s).value, ds);
      } else {
        AdmissionKeepsSafe(s, t);
      }
    } else {
      SameHeartKeepsSafe(s, t);
    }
  }

  // ---- the rotation ----

  lemma ConfirmingKeepsHeart(status: Status, node: NodeStatus)
    requires status.rotation.Some?
    ensures SameHeart(status, RotationSteps.Confirm(status, node))
  {
  }

  lemma RotatedKeepsSafe(s: State, id: Identity, ds: Deliveries)
    requires Sound(s) && Safe(s) && CanRotate(s, id)
    ensures Safe(Update(s, id, RotationReply(s, id, ds).proc))
  {
    hide Safe;
    KnownIsSound(s, id);
    RotatingIsCalm(ProcOf(s, id), s.status.accepted.passwordVersion, ds);
    CalmKeepsSafe(s, id, RotationReply(s, id, ds).proc);
  }

  lemma RotationKeepsSafe(s: State, id: Identity, ds: Deliveries)
    requires Sound(s) && Safe(s) && CanRotate(s, id)
    ensures Safe(Rotate(s, id, ds))
  {
    hide Safe, Sound, RotationConfirmed, RotationSteps.Confirm;
    RotatedKeepsSafe(s, id, ds);
    ConfirmingKeepsHeart(s.status, KnownProcess(s.status, id).value);
    SameHeartKeepsSafe(Update(s, id, RotationReply(s, id, ds).proc), Rotate(s, id, ds));
  }

  // ---- every step ----

  lemma OperationKeepsSafe(s: State, operation: Operation)
    requires Sound(s) && Safe(s) && Orderly(s.status) && InOrder(s) && CanOperate(s, operation)
    ensures Safe(AfterOperation(s, operation))
  {
    hide Safe, Sound, Orderly, InOrder;
    match operation
    case FailoverStep(ds, now) => FailoverKeepsSafe(s, ds, now);
    case RotationCommand(id, ds) => RotationKeepsSafe(s, id, ds);
    case RotationDone => SameHeartKeepsSafe(s, EndRotation(s));
    case RolloutClose(ordinal, ds) => CloseKeepsSafe(s, ordinal, ds);
    case RolloutStep(closed) => RolloutKeepsSafe(s, closed);
    case InitialPrimaryStep(ds) => InitialPrimaryKeepsSafe(s, ds);
    case ReplicasStep(ds) => ReplicasKeepSafe(s, ds);
    case ReplicaAdmissionStep(ds, linked) => ReplicaAdmissionKeepsSafe(s, ds, linked);
    case AppAdmissionStep(ds, routed) => AppAdmissionKeepsSafe(s, ds, routed);
  }

  lemma StepKeepsSafe(s: State, step: Step)
    requires Sound(s) && Safe(s) && Orderly(s.status) && InOrder(s) && Enabled(s, step)
    ensures Safe(After(s, step))
  {
    hide Safe, Sound, Orderly, InOrder;
    match step
    case World(world) => WorldKeepsSafe(s, world);
    case Ask(request) => RequestKeepsSafe(s, request);
    case Look(watch) => WatchKeepsSafe(s, watch);
    case Operate(operation) => OperationKeepsSafe(s, operation);
    case Remove(removal) => RemovalKeepsSafe(s, removal);
  }

  // ---- every run ----

  ghost predicate Good(s: State) {
    Sound(s) && Orderly(s.status) && InOrder(s) && Safe(s)
  }

  lemma StartIsGood(s: State, spec: Spec)
    requires Starts(s, spec)
    ensures Good(s)
  {
  }

  lemma StepKeepsGood(s: State, step: Step)
    requires Good(s) && Enabled(s, step)
    ensures Good(After(s, step))
  {
    hide Safe, Sound, Orderly, InOrder;
    StepKeepsSound(s, step);
    StepIsOrderly(s, step);
    StepIsInOrder(s, step);
    StepKeepsSafe(s, step);
  }

  lemma {:induction false} RunsAreGood(run: seq<State>, i: nat)
    requires IsRun(run) && i < |run|
    ensures Good(run[i])
  {
    hide Good;
    if i == 0 {
      var spec :| Starts(run[0], spec);
      StartIsGood(run[0], spec);
    } else {
      RunsAreGood(run, i - 1);
      assert Next(run[i - 1], run[i]);
      var step :| Enabled(run[i - 1], step) && run[i] == After(run[i - 1], step);
      StepKeepsGood(run[i - 1], step);
    }
  }

  /** A live primary that clients use or can connect to. */
  predicate Writer(p: Proc) {
    p.alive && p.role == Primary && (p.appOn || p.clients != {})
  }

  /** In no state of any run are there two live primaries that clients can write to. */
  lemma OneWriter(run: seq<State>, i: nat, u: Uid, v: Uid)
    requires IsRun(run) && i < |run|
    requires u in run[i].world && v in run[i].world && Writer(run[i].world[u]) && Writer(run[i].world[v])
    ensures u == v
  {
    RunsAreGood(run, i);
    assert Hot(run[i].world[u]) && Hot(run[i].world[v]);
  }
}
