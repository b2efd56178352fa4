/**
 All operator connections to one Valkey process at once: of the current operator, of passes that gave
 up, and of operators that lost their lease.  A connection takes control by closing every other one, so
 at most one can have a changing command in flight, which is what Session assumes; and after a fence no
 older connection can undo it.
 */
module Connections {
  import opened Options
  import opened OperatorTypes
  import opened Session

  /** What a connection has sent and the server has not executed yet. */
  datatype Wire = TakeOver | Change(command: Command)

  /**
   One connection.  `usable` is the client's side: it may send.  `open` is the server's side: what it
   sent may be executed.  `controls` once the server has executed its takeover and the client knows it.
   */
  datatype Link = Link(lease: nat, usable: bool, open: bool, controls: bool, wire: Option<Wire>)

  /** `proc.pending` is not used here; `ended` are the leases that have ended, `next` the next fresh name. */
  datatype Server = Server(proc: Proc, links: map<nat, Link>, ended: set<nat>, next: nat)

  datatype Event =
    | Connect(lease: nat)                 // DialValkey and OpenSession
    | SendTakeOver(id: nat)               // killPreviousOperators
    | SendChange(id: nat, command: Command)
    | Execute(id: nat, answered: bool)    // the server executes; the answer arrives or is lost
    | GiveUp(id: nat)                     // a timeout: the client closes its side
    | Disconnect(id: nat)                 // the server sees the end of the connection
    | LeaseEnds(lease: nat)
    | ClientsMove(clients: set<int>)      // clients of the application come and go

  predicate MaySend(s: Server, id: nat) {
    && id in s.links && s.links[id].usable && s.links[id].open && s.links[id].wire.None?
    && s.links[id].lease !in s.ended
  }

  predicate Enabled(s: Server, e: Event) {
    match e
    case Connect(lease) => lease !in s.ended
    case SendTakeOver(id) => MaySend(s, id)
    case SendChange(id, _) => MaySend(s, id) && s.links[id].controls
    case Execute(id, _) => id in s.links && s.links[id].open && s.links[id].wire.Some?
    case GiveUp(id) => id in s.links
    case Disconnect(id) => id in s.links && !s.links[id].usable
    case LeaseEnds(_) => true
    case ClientsMove(clients) => !s.proc.appOn ==> clients <= s.proc.clients
  }

  /** The server closes every connection but this one. */
  function CloseOthers(links: map<nat, Link>, id: nat): map<nat, Link> {
    map other | other in links :: if other == id then links[other] else links[other].(open := false, wire := None)
  }

  function After(s: Server, e: Event): Server
    requires Enabled(s, e)
  {
    match e
    case Connect(lease) => s.(links := s.links[s.next := Link(lease, true, true, false, None)], next := s.next + 1)
    case SendTakeOver(id) => s.(links := s.links[id := s.links[id].(wire := Some(TakeOver))])
    case SendChange(id, command) => s.(links := s.links[id := s.links[id].(wire := Some(Change(command)))])
    case Execute(id, answered) =>
      var link := s.links[id];
      if link.wire.value.TakeOver? then
        s.(links := CloseOthers(s.links, id)[id := link.(wire := None, controls := link.controls || answered)])
      else
        s.(proc := Session.Execute(s.proc, link.wire.value.command), links := s.links[id := link.(wire := None)])
    case GiveUp(id) => s.(links := s.links[id := s.links[id].(usable := false)])
    case Disconnect(id) => s.(links := s.links[id := s.links[id].(open := false, wire := None)])
    case LeaseEnds(lease) => s.(ended := s.ended + {lease})
    case ClientsMove(clients) => s.(proc := s.proc.(clients := clients))
  }

  // ---- at most one connection can change anything ----

  predicate Changing(link: Link) {
    link.open && link.wire.Some? && link.wire.value.Change?
  }

  predicate Controlling(link: Link) { link.open && link.controls }

  ghost predicate Sound(s: Server) {
    && (forall id :: id in s.links ==> id < s.next)
    && (forall id :: id in s.links && Changing(s.links[id]) ==> s.links[id].controls)
    && (forall a, b :: a in s.links && b in s.links && Controlling(s.links[a]) && Controlling(s.links[b]) ==> a == b)
  }

  lemma EventKeepsSound(s: Server, e: Event)
    requires Sound(s) && Enabled(s, e)
    ensures Sound(After(s, e))
  {
  }

  lemma SoundHasOneChange(s: Server, a: nat, b: nat)
    requires Sound(s) && a in s.links && b in s.links && Changing(s.links[a]) && Changing(s.links[b])
    ensures a == b
  {
  }

  /** A process that has just started, with no connection. */
  function Fresh(p: Proc): Server { Server(p, map[], {}, 0) }

  /** Consecutive states of the server, joined by events. */
  ghost predicate IsHistory(states: seq<Server>, events: seq<Event>) {
    && |states| == |events| + 1
    && forall i :: 0 <= i < |events| ==> Enabled(states[i], events[i]) && states[i + 1] == After(states[i], events[i])
  }

  lemma {:induction false} HistoriesAreSound(states: seq<Server>, events: seq<Event>, p: Proc, i: nat)
    requires IsHistory(states, events) && states[0] == Fresh(p) && i <= |events|
    ensures Sound(states[i])
  {
    if i > 0 {
      HistoriesAreSound(states, events, p, i - 1);
      EventKeepsSound(states[i - 1], events[i - 1]);
    }
  }

  /** However many operators and sessions there were, at most one changing command is ever in flight. */
  lemma OneChangeInFlight(states: seq<Server>, events: seq<Event>, p: Proc, i: nat, a: nat, b: nat)
    requires IsHistory(states, events) && states[0] == Fresh(p) && i <= |events|
    requires a in states[i].links && b in states[i].links
    requires Changing(states[i].links[a]) && Changing(states[i].links[b])
    ensures a == b
  {
    HistoriesAreSound(states, events, p, i);
    SoundHasOneChange(states[i], a, b);
  }

  // ---- the single pending command of Session stands for all of them ----

  /** The process as Session sees it: the one changing command in flight is pending. */
  ghost predicate Represents(s: Server, p: Proc) {
    && p.(pending := None) == s.proc.(pending := None)
    && (p.pending.None? ==> forall id :: id in s.links ==> !Changing(s.links[id]))
    && (p.pending.Some? ==> exists id :: InFlight(s, id, p.pending.value))
  }

  predicate InFlight(s: Server, id: nat, command: Command) {
    id in s.links && s.links[id].open && s.links[id].wire == Some(Change(command))
  }

  /** What Session allows the process to do while this happens. */
  ghost predicate Allows(p: Proc, q: Proc, e: Event) {
    match e
    case Execute(_, _) =>
      || q == p.(pending := None)
      || (p.pending.Some? && q == Session.Execute(p.(pending := None), p.pending.value))
    case SendChange(_, command) => q == p.(pending := Some(command))
    case ClientsMove(clients) => q == p.(clients := clients)
    case _ => q == p || q == p.(pending := None)
  }

  /** The process as Session sees it, state by state. */
  ghost predicate Refines(states: seq<Server>, events: seq<Event>, procs: seq<Proc>)
    requires |states| == |events| + 1
  {
    && |procs| == |states|
    && (forall i :: 0 <= i < |states| ==> Represents(states[i], procs[i]))
    && (forall i :: 0 <= i < |events| ==> Allows(procs[i], procs[i + 1], events[i]))
  }

  /** Whatever happens on the connections to a process, Session tells a history of it, event by event. */
  lemma {:induction false} ConnectionsRefineSession(states: seq<Server>, events: seq<Event>, p: Proc)
    returns (procs: seq<Proc>)
    requires IsHistory(states, events) && states[0] == Fresh(p) && p.pending.None?
    ensures Refines(states, events, procs) && procs[0] == p
    decreases |events|
  {
    if events == [] {
      procs := [p];
    } else {
      var n := |events| - 1;
      var before := ConnectionsRefineSession(states[..n + 1], events[..n], p);
      HistoriesAreSound(states, events, p, n);
      var q := EventRefinesSession(states[n], events[n], before[n]);
      procs := before + [q];
      LongerRefines(states, events, before, q);
    }
  }

  lemma LongerRefines(states: seq<Server>, events: seq<Event>, before: seq<Proc>, q: Proc)
    requires events != [] && |states| == |events| + 1
    requires Refines(states[..|events|], events[..|events| - 1], before)
    requires Represents(states[|events|], q) && Allows(before[|events| - 1], q, events[|events| - 1])
    ensures Refines(states, events, before + [q])
  {
    hide Represents, Allows;
    var n := |events| - 1;
    forall i | 0 <= i < |states| ensures Represents(states[i], (before + [q])[i]) {
      if i <= n { assert Represents(states[..n + 1][i], before[i]); }
    }
    forall i | 0 <= i < |events| ensures Allows((before + [q])[i], (before + [q])[i + 1], events[i]) {
      if i < n { assert Allows(before[i], before[i + 1], events[..n][i]); }
    }
  }

  /** Every event on the real connections is one that Session knows about for the one process. */
  lemma EventRefinesSession(s: Server, e: Event, p: Proc) returns (q: Proc)
    requires Sound(s) && Enabled(s, e) && Represents(s, p)
    ensures Represents(After(s, e), q) && Allows(p, q, e)
  {
    match e
    case Execute(id, answered) => q := ExecutionRefines(s, id, answered, p);
    case SendChange(id, command) =>
      q := p.(pending := Some(command));
      assert InFlight(After(s, e), id, command);
    case Disconnect(id) => q := DisconnectRefines(s, id, p);
    case ClientsMove(clients) =>
      q := p.(clients := clients);
      InFlightStays(s, e, p);
    case _ =>
      q := p;
      InFlightStays(s, e, p);
  }

  /** Events that neither send, execute nor drop a changing command leave the pending one pending. */
  lemma InFlightStays(s: Server, e: Event, p: Proc)
    requires Sound(s) && Enabled(s, e) && Represents(s, p) && !e.Execute? && !e.SendChange? && !e.Disconnect?
    ensures p.pending.Some? ==> exists id :: InFlight(After(s, e), id, p.pending.value)
  {
    if p.pending.Some? {
      var id :| InFlight(s, id, p.pending.value);
      assert InFlight(After(s, e), id, p.pending.value);
    }
  }

  lemma ExecutionRefines(s: Server, id: nat, answered: bool, p: Proc) returns (q: Proc)
    requires Sound(s) && Enabled(s, Execute(id, answered)) && Represents(s, p)
    ensures Represents(After(s, Execute(id, answered)), q) && Allows(p, q, Execute(id, answered))
  {
    var link := s.links[id];
    if link.wire.value.TakeOver? {
      TakeOverClears(s, Execute(id, answered));
      q := p.(pending := None);
    } else {
      NothingElseChanges(s, id);
      assert p.pending.Some?;
      var other :| InFlight(s, other, p.pending.value);
      SoundHasOneChange(s, id, other);
      q := Session.Execute(p.(pending := None), p.pending.value);
    }
  }

  lemma DisconnectRefines(s: Server, id: nat, p: Proc) returns (q: Proc)
    requires Sound(s) && Enabled(s, Disconnect(id)) && Represents(s, p)
    ensures Represents(After(s, Disconnect(id)), q) && Allows(p, q, Disconnect(id))
  {
    if Changing(s.links[id]) {
      NothingElseChanges(s, id);
      q := p.(pending := None);
    } else {
      q := p;
      if p.pending.Some? {
        var other :| InFlight(s, other, p.pending.value);
        assert InFlight(After(s, Disconnect(id)), other, p.pending.value);
      }
    }
  }

  lemma TakeOverClears(s: Server, e: Event)
    requires Sound(s) && Enabled(s, e) && e.Execute? && s.links[e.id].wire == Some(TakeOver)
    ensures forall id :: id in After(s, e).links ==> !Changing(After(s, e).links[id])
  {
  }

  lemma NothingElseChanges(s: Server, id: nat)
    requires Sound(s) && id in s.links && Changing(s.links[id])
    ensures forall other :: other in s.links && other != id ==> !Changing(s.links[other])
  {
  }

  // ---- a fence cannot be undone by anything older ----

  /** Client access is off, and the connection that turned it off has closed all others. */
  ghost predicate FencedBy(s: Server, fencer: nat) {
    && !s.proc.appOn && (fencer in s.links ==> s.links[fencer].wire.None?)
    && forall id :: id in s.links && id != fencer ==> !s.links[id].open
  }

  /** A connection that may legitimately open access again: the fencing one, or one made afterwards. */
  predicate Later(fenced: Server, fencer: nat, id: nat) { id == fencer || id >= fenced.next }

  predicate Opens(link: Link) {
    link.open && link.wire.Some? && link.wire.value.Change?
    && link.wire.value.command.SetApp? && link.wire.value.command.on
  }

  /** The i-th event orders access to be opened, over a later connection whose lease holds. */
  ghost predicate OrderedAt(states: seq<Server>, events: seq<Event>, fencer: nat, i: nat) {
    && i < |events| && i < |states| && events[i].SendChange? && events[i].command.SetApp? && events[i].command.on
    && Later(states[0], fencer, events[i].id)
    && events[i].id in states[i].links && states[i].links[events[i].id].lease !in states[i].ended
  }

  lemma {:induction false} FenceIsStable(states: seq<Server>, events: seq<Event>, fencer: nat)
    requires IsHistory(states, events) && Sound(states[0]) && FencedBy(states[0], fencer)
    ensures
      var s := states[|events|];
      && Sound(s) && s.next >= states[0].next
      && (forall id :: id in s.links && !Later(states[0], fencer, id) ==> !s.links[id].open)
      && (s.proc.appOn || (exists id :: id in s.links && Opens(s.links[id])) ==>
            exists i :: OrderedAt(states, events, fencer, i))
    decreases |events|
  {
    var n := |events|;
    if n > 0 {
      var before, history := states[..n], events[..n - 1];
      forall i | 0 <= i < |history|
        ensures Enabled(before[i], history[i]) && before[i + 1] == After(before[i], history[i])
      {
        assert history[i] == events[i] && before[i] == states[i] && before[i + 1] == states[i + 1];
      }
      FenceIsStable(before, history, fencer);
      var s := states[n - 1];
      assert s == before[|history|];
      EventKeepsSound(s, events[n - 1]);
      if i :| OrderedAt(before, history, fencer, i) {
        assert OrderedAt(states, events, fencer, i);
      } else {
        if events[n - 1].SendChange? && events[n - 1].command.SetApp? && events[n - 1].command.on {
          assert OrderedAt(states, events, fencer, n - 1);
        } else {
          OnlyOrdersOpen(s, events[n - 1]);
        }
      }
    }
  }

  /** Without an order in flight, only a new order can lead to access being opened. */
  lemma OnlyOrdersOpen(s: Server, e: Event)
    requires Enabled(s, e) && !s.proc.appOn && (forall id :: id in s.links ==> !Opens(s.links[id]))
    requires !(e.SendChange? && e.command.SetApp? && e.command.on)
    ensures !After(s, e).proc.appOn && forall id :: id in After(s, e).links ==> !Opens(After(s, e).links[id])
  {
  }

  /**
   After a fence, client access can only be opened by an order sent later, over the fencing connection or
   a newer one, by an operator whose lease had not ended; nothing that was connected before can do it.
   */
  lemma OnlyALaterOrderOpens(states: seq<Server>, events: seq<Event>, fencer: nat)
    requires IsHistory(states, events) && Sound(states[0]) && FencedBy(states[0], fencer)
    requires states[|events|].proc.appOn
    ensures exists i :: OrderedAt(states, events, fencer, i)
  {
    FenceIsStable(states, events, fencer);
  }

  /** Executing the takeover that ends a closing script leaves the process fenced. */
  lemma TakeOverFences(s: Server, id: nat, answered: bool)
    requires Sound(s) && Enabled(s, Execute(id, answered)) && s.links[id].wire == Some(TakeOver)
    requires !s.proc.appOn
    ensures FencedBy(After(s, Execute(id, answered)), id)
  {
  }
}
