/**
 What the operator's command sequences do to one Valkey process (client.go and the three scripts
 updateAppAccess, promoteProcess, followProcess, rotateProcessPassword built on it).

 A command that times out may still be executed later, as long as its connection lives: it stays
 `pending` in the process until it is executed or until a later session takes control, which
 disconnects every other operator connection.  That no older session survives this is proved in
 Connections, and that an operator that lost its lease starts none in LeaseScope.
 */
module Session {
  import opened Options
  import opened OperatorTypes

  datatype Command =
    | SetApp(on: bool, version: int)     // ACL SETUSER app on|off resetpass #hash
    | RotateApp(version: int)            // ACL SETUSER app resetpass #hash
    | KillApp                            // CLIENT KILL USER app
    | Promote                            // REPLICAOF NO ONE
    | Follow(upstream: Uid)              // REPLICAOF host port

  /**
   One Valkey process.  `version` names the only accepted password hash, `clients` the password
   versions under which open client connections were authenticated.
   */
  datatype Proc = Proc(
    id: Identity, ordinal: nat, alive: bool, role: Role, appOn: bool, version: int, clients: set<int>,
    upstream: Uid, pending: Option<Command>)

  /** Commands change a process, never which process it is. */
  predicate Same(p: Proc, q: Proc) { q.id == p.id && q.ordinal == p.ordinal && q.alive == p.alive }

  function Execute(p: Proc, c: Command): (q: Proc)
    ensures Same(p, q)
  {
    match c
    case SetApp(on, version) => p.(appOn := on, version := version)
    case RotateApp(version) => p.(version := version)
    case KillApp => p.(clients := {})
    case Promote => p.(role := Primary, upstream := 0)
    case Follow(upstream) => p.(role := Replica, upstream := upstream)
  }

  /** What became of one command: executed, executed with the answer lost, still in flight, or never sent. */
  datatype Delivery = Answered | ReplyLost | InFlight | NotSent

  /** Deliveries of a script's commands in order; a script stops at the first that is not answered. */
  type Deliveries = seq<Delivery>

  function At(ds: Deliveries, i: nat): Delivery {
    if i < |ds| then ds[i] else NotSent
  }

  datatype Reply = Reply(proc: Proc, ok: bool)

  function Send(p: Proc, c: Command, d: Delivery): (r: Reply)
    ensures Same(p, r.proc)
  {
    match d
    case Answered => Reply(Execute(p, c), true)
    case ReplyLost => Reply(Execute(p, c), false)
    case InFlight => Reply(p.(pending := Some(c)), false)
    case NotSent => Reply(p, false)
  }

  /** AUTH, PING, CLIENT KILL of the other operator connections, then reading the state. */
  function TakeControl(p: Proc, d: Delivery): (r: Reply)
    ensures Same(p, r.proc)
  {
    match d
    case Answered => Reply(p.(pending := None), true)
    case ReplyLost => Reply(p.(pending := None), false)
    case _ => Reply(p, false)
  }

  /** Both steps of closing client access while installing a hash: app off first, then the open connections. */
  function CloseAccess(p: Proc, version: int, ds: Deliveries): (r: Reply)
    ensures Same(p, r.proc)
  {
    var off := Send(p, SetApp(false, version), At(ds, 1));
    if !off.ok then off else
    var killed := Send(off.proc, KillApp, At(ds, 2));
    if !killed.ok then killed else
    var checked := TakeControl(killed.proc, At(ds, 3));
    if !checked.ok then checked
    else Reply(checked.proc, !checked.proc.appOn && checked.proc.version == version)
  }

  /** updateAppAccess: ok means it returned a state with the wanted flag and only the wanted hash. */
  function UpdateAppAccess(p: Proc, enabled: bool, version: int, ds: Deliveries): (r: Reply)
    ensures Same(p, r.proc)
  {
    var control := TakeControl(p, At(ds, 0));
    if !control.ok then control
    else if control.proc.appOn == enabled && control.proc.version == version then
      if enabled then control else Send(control.proc, KillApp, At(ds, 1))
    else
      var ready := if enabled && control.proc.version != version
        then CloseAccess(control.proc, version, ds) else control;
      if !ready.ok then ready else
      var toggled := Send(ready.proc, SetApp(enabled, version), At(ds, 4));
      if !toggled.ok then toggled else
      var killed := if enabled then toggled else Send(toggled.proc, KillApp, At(ds, 5));
      if !killed.ok then killed else
      var checked := TakeControl(killed.proc, At(ds, 6));
      Reply(checked.proc, checked.ok && checked.proc.appOn == enabled && checked.proc.version == version)
  }

  /** promoteProcess: only a process that still reports the replica role is sent the command. */
  function PromoteProcess(p: Proc, ds: Deliveries): (r: Reply)
    ensures Same(p, r.proc)
  {
    var control := TakeControl(p, At(ds, 0));
    if !control.ok || control.proc.role != Replica then control
    else Send(control.proc, Promote, At(ds, 1))
  }

  /** followProcess: never demotes a primary whose client access is open. */
  function FollowProcess(p: Proc, upstream: Uid, ds: Deliveries): (r: Reply)
    ensures Same(p, r.proc)
  {
    var control := TakeControl(p, At(ds, 0));
    if !control.ok then control
    else if control.proc.role == Replica && control.proc.upstream == upstream then control
    else if control.proc.role == Primary && control.proc.appOn then control
    else Send(control.proc, Follow(upstream), At(ds, 1))
  }

  /** rotateProcessPassword: replaces the hash, drops client connections, and re-reads the state. */
  function RotatePassword(p: Proc, version: int, ds: Deliveries): (r: Reply)
    ensures Same(p, r.proc)
  {
    var control := TakeControl(p, At(ds, 0));
    if !control.ok then control else
    var rotated := Send(control.proc, RotateApp(version), At(ds, 1));
    if !rotated.ok then rotated else
    var killed := Send(rotated.proc, KillApp, At(ds, 2));
    if !killed.ok then killed else
    var checked := TakeControl(killed.proc, At(ds, 3));
    Reply(checked.proc, checked.ok && checked.proc.appOn == control.proc.appOn)
  }

  // ---- what the scripts guarantee ----

  /** Clients can enter, are still inside, or will be let in by a command still in flight. */
  predicate Reachable(p: Proc) {
    p.appOn || p.clients != {} || (p.pending.Some? && p.pending.value.SetApp? && p.pending.value.on)
  }

  /** A writer, or one command away from being one. */
  predicate MayBePrimary(p: Proc) {
    p.role == Primary || p.pending == Some(Promote)
  }

  /** A closed process: nothing in flight can reopen it. */
  predicate Fenced(p: Proc) {
    !p.appOn && p.clients == {} && p.pending.None?
  }

  predicate Pending(p: Proc, q: Proc, c: Command -> bool) {
    q.pending.None? || q.pending == p.pending || c(q.pending.value)
  }

  /**
   Disabling access, however it is interrupted, never opens anything and never changes the role; when it
   reports success the process is fenced, holds exactly the given hash and has no command in flight.
   */
  lemma DisableAccessFences(p: Proc, version: int, ds: Deliveries)
    ensures
      var r := UpdateAppAccess(p, false, version, ds);
      && r.proc.role == p.role && r.proc.upstream == p.upstream
      && (r.proc.appOn ==> p.appOn) && r.proc.clients <= p.clients
      && (r.proc.version == p.version || r.proc.version == version)
      && Pending(p, r.proc, c => c == SetApp(false, version) || c == KillApp)
      && (r.ok ==> Fenced(r.proc) && r.proc.version == version)
  {
  }

  /**
   Enabling access never changes the role; whatever it leaves open accepts only the given hash unless it
   was never touched, and success means open with that hash and nothing in flight.
   */
  lemma EnableAccessOpens(p: Proc, version: int, ds: Deliveries)
    ensures
      var r := UpdateAppAccess(p, true, version, ds);
      && r.proc.role == p.role && r.proc.upstream == p.upstream
      && Pending(p, r.proc, c => c == SetApp(false, version) || c == SetApp(true, version) || c == KillApp)
      && r.proc.clients <= p.clients
      && (r.proc.version == p.version || r.proc.version == version)
      && (r.proc.appOn ==> (r.proc.version == version || (r.proc.version == p.version && p.appOn)))
      && (r.ok ==> r.proc.appOn && r.proc.version == version && r.proc.pending.None?)
      && (r.ok ==> (p.version == version || r.proc.clients == {}))
  {
  }

  /** Promotion touches only the role, and only of a process found to be a replica. */
  lemma PromotionTouchesRole(p: Proc, ds: Deliveries)
    ensures
      var r := PromoteProcess(p, ds);
      && (r.proc == p || r.proc.(role := p.role, upstream := p.upstream, pending := p.pending) == p)
      && (r.proc.role == p.role || (p.role == Replica && r.proc.role == Primary))
      && Pending(p, r.proc, c => c == Promote)
      && (r.proc.role == Primary && r.proc.pending.Some? ==> r.proc == p)
      && (r.ok ==> (r.proc.role == Primary || p.role == NoRole) && r.proc.pending.None?)
  {
  }

  /** Following never makes a primary and never touches client access. */
  lemma FollowOnlyDemotes(p: Proc, upstream: Uid, ds: Deliveries)
    ensures
      var r := FollowProcess(p, upstream, ds);
      && r.proc.(role := p.role, upstream := p.upstream, pending := p.pending) == p
      && (r.proc.role == p.role || r.proc.role == Replica)
      && Pending(p, r.proc, c => c == Follow(upstream))
      && (p.role == Primary && p.appOn ==> r.proc.role == Primary && (r.proc == p || r.proc.pending.None?))
  {
  }

  /** Rotation keeps role and the app flag; success leaves only the new hash and no older connection. */
  lemma RotationReplacesHash(p: Proc, version: int, ds: Deliveries)
    ensures
      var r := RotatePassword(p, version, ds);
      && r.proc.role == p.role && r.proc.upstream == p.upstream && r.proc.appOn == p.appOn
      && r.proc.clients <= p.clients
      && (r.proc.version == p.version || r.proc.version == version)
      && Pending(p, r.proc, c => c == RotateApp(version) || c == KillApp)
      && (r.ok ==> r.proc.version == version && r.proc.clients == {} && r.proc.pending.None?)
  {
  }
}
