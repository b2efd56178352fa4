/**
 The connections of one operator (lease_scope.go): they are handed out only while its lease holds, and
 when the lease ends every one that was handed out is closed, including those dialled meanwhile.
 */
module LeaseScope {
  /** The context of a lease; once it has ended it stays ended. */
  class Lease {
    var ended: bool

    constructor ()
      ensures !ended
    {
      ended := false;
    }

    method End()
      modifies this
      ensures ended
    {
      ended := true;
    }
  }

  /** A connection to a Valkey process under a lease; commands are sent only while both last. */
  class Connection {
    const lease: Lease
    var closed: bool

    constructor (lease: Lease)
      ensures this.lease == lease && !closed
    {
      this.lease := lease;
      closed := false;
    }

    method Close()
      modifies this
      ensures closed
    {
      closed := true;
    }

    /** The check execute makes before every command. */
    predicate MaySend()
      reads this, lease
    {
      !closed && !lease.ended
    }
  }

  class LeaseScope {
    var lease: Lease?
    var active: bool
    var connections: set<Connection>
    ghost var issued: set<Connection>   // every connection a caller ever got

    /** A connection somebody holds is closed or registered here; none is registered while inactive. */
    ghost predicate Valid()
      reads this, issued
    {
      && (active ==> lease != null)
      && connections <= issued
      && (!active ==> connections == {})
      && (forall c :: c in issued ==> c.closed || c in connections)
      && (forall c :: c in connections ==> c.lease == lease)
    }

    constructor ()
      ensures Valid() && !active && issued == {}
    {
      lease := null;
      active := false;
      connections := {};
      issued := {};
    }

    /** Start, up to the wait for the end of the lease. */
    method Start(l: Lease)
      requires Valid() && !active
      modifies this
      ensures Valid() && active && lease == l && issued == old(issued)
    {
      lease := l;
      active := true;
    }

    method Active() returns (yes: bool)
      requires Valid()
      ensures yes <==> active && lease != null && !lease.ended
    {
      yes := active && !lease.ended;
    }

    /** DialValkey before it dials: the lease the new connection will be bound to. */
    method BeginDial() returns (l: Lease?)
      requires Valid()
      ensures l != null <==> active && lease != null && !lease.ended
      ensures l != null ==> l == lease
    {
      l := if active && !lease.ended then lease else null;
    }

    /**
     DialValkey after it dialled.  Anything may have happened in between: a connection whose lease is
     not the current one any more, or has ended, is closed instead of being handed out.
     */
    method FinishDial(l: Lease, c: Connection) returns (ok: bool)
      requires Valid() && c.lease == l && !c.closed && c !in issued
      modifies this, c
      ensures Valid() && active == old(active) && lease == old(lease)
      ensures ok <==> old(active) && old(lease) == l && !l.ended
      ensures ok ==> c in connections && !c.closed && issued == old(issued) + {c}
      ensures !ok ==> c.closed && issued == old(issued)
      ensures c.MaySend() ==> active && lease == c.lease
    {
      if !active || lease != l || l.ended {
        c.Close();
        ok := false;
      } else {
        connections := connections + {c};
        issued := issued + {c};
        ok := true;
      }
    }

    /** Close of a client, with the removal it triggers. */
    method Drop(c: Connection)
      requires Valid() && c in issued
      modifies this, c
      ensures Valid() && c.closed && c !in connections && issued == old(issued)
      ensures active == old(active) && lease == old(lease)
    {
      c.Close();
      connections := connections - {c};
    }

    /** closeConnections: the set is emptied under the lock, then every connection is closed. */
    method CloseConnections()
      requires Valid()
      modifies this, connections
      ensures Valid() && !active && connections == {} && issued == old(issued)
      ensures forall c :: c in issued ==> c.closed
    {
      active := false;
      var closing := connections;
      connections := {};
      while closing != {}
        invariant closing <= old(connections)
        invariant !active && connections == {} && issued == old(issued)
        invariant forall c :: c in issued ==> c.closed || c in closing
      {
        var c :| c in closing;
        c.Close();
        closing := closing - {c};
      }
    }
  }

  /** After the end of the lease was handled, no connection that was ever handed out sends anything. */
  method EndOfLease(scope: LeaseScope, l: Lease)
    requires scope.Valid() && scope.lease == l
    modifies l, scope, scope.connections
    ensures scope.Valid() && !scope.active
    ensures forall c: Connection :: c in scope.issued ==> !c.MaySend()
  {
    l.End();
    scope.CloseConnections();
  }
}
