/**
 The limit on authorization requests (api/rate_limit.go).  The pruned lists of the limiter are exactly the
 accepted requests of the current window, so a request is accepted if and only if fewer than `limit` were,
 and the announced delay is exact.  Times are in nanoseconds.
 */
module RateLimiting {
  import opened OperatorTypes

  type Address = nat

  const SECOND := 1_000_000_000

  datatype Accept = Accept(address: Address, at: Time)

  // ---- specification ----

  /** When requests of this address were accepted after the cutoff, in order. */
  function Window(log: seq<Accept>, address: Address, cutoff: Time): seq<Time> {
    if log == [] then []
    else
      var last := log[|log| - 1];
      Window(log[..|log| - 1], address, cutoff)
      + if last.address == address && last.at > cutoff then [last.at] else []
  }

  function Later(values: seq<Time>, cutoff: Time): seq<Time> {
    if values == [] then []
    else
      Later(values[..|values| - 1], cutoff) + if values[|values| - 1] > cutoff then [values[|values| - 1]] else []
  }

  predicate Sorted(values: seq<Time>) {
    forall j, k :: 0 <= j < k < |values| ==> values[j] <= values[k]
  }

  /** The log is in the order of time, up to `clock`. */
  predicate Ordered(log: seq<Accept>, clock: Time) {
    && (forall j, k :: 0 <= j < k < |log| ==> log[j].at <= log[k].at)
    && (forall j :: 0 <= j < |log| ==> log[j].at <= clock)
  }

  lemma {:induction false} WindowIsSorted(log: seq<Accept>, address: Address, cutoff: Time, clock: Time)
    requires Ordered(log, clock)
    ensures Sorted(Window(log, address, cutoff))
    ensures forall k :: 0 <= k < |Window(log, address, cutoff)| ==>
      cutoff < Window(log, address, cutoff)[k] <= clock
  {
    if log != [] {
      WindowIsSorted(log[..|log| - 1], address, cutoff, log[|log| - 1].at);
    }
  }

  /** A later window is what is left of an earlier one. */
  lemma {:induction false} WindowNarrows(log: seq<Accept>, address: Address, cutoff: Time, later: Time)
    requires cutoff <= later
    ensures Window(log, address, later) == Later(Window(log, address, cutoff), later)
  {
    if log != [] {
      var before, last := log[..|log| - 1], log[|log| - 1];
      WindowNarrows(before, address, cutoff, later);
      var values := Window(before, address, cutoff);
      LaterOfLonger(values, last.at, later);
      assert values + [] == values && Later(values, later) + [] == Later(values, later);
    }
  }

  lemma NothingIsLater(cutoff: Time)
    ensures Later([], cutoff) == []
  {
  }

  lemma OrderedUntil(log: seq<Accept>, clock: Time, now: Time)
    requires Ordered(log, clock) && clock <= now
    ensures Ordered(log, now)
  {
  }

  lemma LaterOfLonger(values: seq<Time>, value: Time, cutoff: Time)
    ensures Later(values + [value], cutoff) == Later(values, cutoff) + if value > cutoff then [value] else []
  {
    assert (values + [value])[..|values|] == values;
  }

  lemma WindowOfLonger(log: seq<Accept>, accept: Accept, address: Address, cutoff: Time)
    ensures Window(log + [accept], address, cutoff) == Window(log, address, cutoff)
      + if accept.address == address && accept.at > cutoff then [accept.at] else []
  {
    assert (log + [accept])[..|log|] == log;
  }

  lemma {:induction false} LaterIsSuffix(values: seq<Time>, cutoff: Time, first: nat)
    requires Sorted(values) && first <= |values|
    requires forall k :: 0 <= k < first ==> values[k] <= cutoff
    requires first < |values| ==> values[first] > cutoff
    ensures Later(values, cutoff) == values[first..]
  {
    if values != [] {
      var before := values[..|values| - 1];
      if first == |values| {
        LaterIsSuffix(before, cutoff, first - 1);
      } else {
        LaterIsSuffix(before, cutoff, first);
        assert values[first..] == before[first..] + [values[|values| - 1]];
      }
    }
  }

  // ---- the limiter ----

  function Entry(entries: map<Address, seq<Time>>, address: Address): seq<Time> {
    if address in entries then entries[address] else []
  }

  /** discardExpired. */
  method DiscardExpired(values: seq<Time>, cutoff: Time) returns (kept: seq<Time>)
    requires Sorted(values)
    ensures kept == Later(values, cutoff)
  {
    var first := 0;
    while first < |values| && values[first] <= cutoff
      invariant 0 <= first <= |values|
      invariant forall k :: 0 <= k < first ==> values[k] <= cutoff
    {
      first := first + 1;
    }
    LaterIsSuffix(values, cutoff, first);
    kept := values[first..];
  }

  /** The whole seconds until `delay` nanoseconds have passed, and at least one. */
  function Seconds(delay: int): (s: int)
    ensures s >= 1 && s * SECOND >= delay && (s > 1 ==> (s - 1) * SECOND < delay)
  {
    var s := (delay + SECOND - 1) / SECOND;
    if s < 1 then 1 else s
  }

  /** `log` is every accepted request, `clock` the time of the last request. */
  class RateLimiter {
    const limit: nat
    const window: Time
    var entries: map<Address, seq<Time>>
    ghost var log: seq<Accept>
    ghost var clock: Time

    ghost predicate Valid()
      reads this
    {
      && 1 <= limit && 0 < window && Ordered(log, clock) && Limited(log, limit, window)
      && (forall a :: a in entries ==> entries[a] != [])
      && forall a :: Entry(entries, a) == Window(log, a, clock - window)
    }

    constructor (limit: nat, window: Time, now: Time)
      requires 1 <= limit && 0 < window
      ensures Valid() && this.limit == limit && this.window == window && log == [] && clock == now
    {
      this.limit, this.window := limit, window;
      entries, log, clock := map[], [], now;
    }

    /** The first loop of Allow. */
    method Prune(now: Time)
      requires Valid() && clock <= now
      modifies this`entries, this`clock
      ensures Valid() && clock == now
    {
      hide Window, Later, Limited, Ordered, Sorted;
      NothingIsLater(now - window);
      OrderedUntil(log, clock, now);
      var keys := entries.Keys;
      ghost var was := entries;
      while keys != {}
        invariant keys <= was.Keys && clock == old(clock)
        invariant forall a :: a in keys ==> a in entries && entries[a] == was[a]
        invariant forall a :: a !in keys ==>
          Entry(entries, a) == Later(Entry(was, a), now - window) && (a in entries ==> entries[a] != [])
        decreases keys
      {
        var key :| key in keys;
        WindowIsSorted(log, key, clock - window, clock);
        assert Entry(was, key) == Window(log, key, clock - window);
        var kept := DiscardExpired(entries[key], now - window);
        entries := if kept == [] then entries - {key} else entries[key := kept];
        keys := keys - {key};
      }
      forall a ensures Entry(entries, a) == Window(log, a, now - window) {
        assert Entry(was, a) == Window(log, a, clock - window);
        WindowNarrows(log, a, clock - window, now - window);
      }
      clock := now;
    }

    /** Accepts exactly the requests that find fewer than `limit` accepted ones in their window. */
    method Allow(address: Address, now: Time) returns (allowed: bool, retryAfter: int)
      requires Valid() && clock <= now
      modifies this
      ensures Valid() && clock == now
      ensures allowed <==> |Window(old(log), address, now - window)| < limit
      ensures log == if allowed then old(log) + [Accept(address, now)] else old(log)
      ensures retryAfter == if allowed then 0
        else Seconds(Window(old(log), address, now - window)[0] + window - now)
    {
      hide Window, Limited, Ordered;
      Prune(now);
      var values := Entry(entries, address);
      assert values == Window(log, address, now - window);
      if |values| >= limit {
        return false, Seconds(values[0] + window - now);
      }
      LimitedGrows(log, Accept(address, now), limit, window);
      OrderedGrows(log, Accept(address, now), now);
      ghost var was, before := entries, log;
      entries, log := entries[address := values + [now]], log + [Accept(address, now)];
      forall a ensures Entry(entries, a) == Window(log, a, now - window) {
        assert Entry(was, a) == Window(before, a, now - window);
        WindowOfLonger(before, Accept(address, now), a, now - window);
      }
      return true, 0;
    }
  }

  // ---- what it means ----

  /** Every accepted request found fewer than `limit` before it in its window. */
  predicate Limited(log: seq<Accept>, limit: nat, window: Time) {
    forall k: nat :: k < |log| ==> Admitted(log, k, limit, window)
  }

  predicate Admitted(log: seq<Accept>, k: nat, limit: nat, window: Time)
    requires k < |log|
  {
    |Window(log[..k], log[k].address, log[k].at - window)| < limit
  }

  lemma AdmittedInPrefix(log: seq<Accept>, accept: Accept, k: nat, limit: nat, window: Time)
    requires k < |log|
    ensures Admitted(log + [accept], k, limit, window) <==> Admitted(log, k, limit, window)
  {
    assert (log + [accept])[..k] == log[..k];
  }

  lemma LimitedGrows(log: seq<Accept>, accept: Accept, limit: nat, window: Time)
    requires Limited(log, limit, window) && |Window(log, accept.address, accept.at - window)| < limit
    ensures Limited(log + [accept], limit, window)
  {
    hide Window, Admitted;
    forall k: nat | k < |log + [accept]| ensures Admitted(log + [accept], k, limit, window) {
      if k < |log| {
        AdmittedInPrefix(log, accept, k, limit, window);
      } else {
        LastIsAdmitted(log, accept, limit, window);
      }
    }
  }

  lemma LastIsAdmitted(log: seq<Accept>, accept: Accept, limit: nat, window: Time)
    requires |Window(log, accept.address, accept.at - window)| < limit
    ensures Admitted(log + [accept], |log|, limit, window)
  {
    assert (log + [accept])[..|log|] == log;
  }

  lemma PrefixIsLimited(log: seq<Accept>, limit: nat, window: Time)
    requires log != [] && Limited(log, limit, window)
    ensures Limited(log[..|log| - 1], limit, window)
  {
    hide Window, Admitted;
    var before, last := log[..|log| - 1], log[|log| - 1];
    assert log == before + [last];
    forall k: nat | k < |before| ensures Admitted(before, k, limit, window) {
      AdmittedInPrefix(before, last, k, limit, window);
    }
  }

  lemma OrderedGrows(log: seq<Accept>, accept: Accept, clock: Time)
    requires Ordered(log, clock) && accept.at == clock
    ensures Ordered(log + [accept], clock)
  {
  }

  /** The accepted requests of an address up to time `t`, and after the cutoff. */
  function Between(log: seq<Accept>, address: Address, cutoff: Time, t: Time): nat {
    if log == [] then 0
    else
      var last := log[|log| - 1];
      Between(log[..|log| - 1], address, cutoff, t)
      + if last.address == address && cutoff < last.at <= t then 1 else 0
  }

  lemma {:induction false} BetweenIsWindow(log: seq<Accept>, address: Address, cutoff: Time, t: Time)
    ensures Between(log, address, cutoff, t) <= |Window(log, address, cutoff)|
  {
    if log != [] { BetweenIsWindow(log[..|log| - 1], address, cutoff, t); }
  }

  lemma {:induction false} LaterCutoffCountsLess(log: seq<Accept>, address: Address, cutoff: Time, later: Time, t: Time)
    requires cutoff <= later
    ensures Between(log, address, later, t) <= Between(log, address, cutoff, t)
  {
    if log != [] { LaterCutoffCountsLess(log[..|log| - 1], address, cutoff, later, t); }
  }

  /** No window of this length, wherever it ends, holds more than `limit` accepted requests of an address. */
  lemma {:induction false} NoWindowHoldsMore(
    log: seq<Accept>, clock: Time, limit: nat, window: Time, address: Address, t: Time)
    requires Ordered(log, clock) && Limited(log, limit, window) && 1 <= limit
    ensures Between(log, address, t - window, t) <= limit
  {
    if log != [] {
      var before, last := log[..|log| - 1], log[|log| - 1];
      PrefixIsLimited(log, limit, window);
      assert Admitted(log, |log| - 1, limit, window);
      if last.address == address && t - window < last.at <= t {
        LaterCutoffCountsLess(before, address, last.at - window, t - window, t);
        BetweenIsWindow(before, address, last.at - window, t);
      } else {
        NoWindowHoldsMore(before, clock, limit, window, address, t);
      }
    }
  }

  /**
   A refused address that waits the announced time is accepted; one that asks before its oldest request
   leaves the window is refused again.
   */
  lemma WaitingIsExact(log: seq<Accept>, clock: Time, limit: nat, window: Time, address: Address, now: Time, t: Time)
    requires Ordered(log, clock) && Limited(log, limit, window) && 1 <= limit && 0 < window && clock <= now <= t
    requires |Window(log, address, now - window)| >= limit
    ensures
      var oldest := Window(log, address, now - window)[0];
      && (t >= now + Seconds(oldest + window - now) * SECOND ==> |Window(log, address, t - window)| < limit)
      && (t < oldest + window ==> |Window(log, address, t - window)| >= limit)
  {
    hide Window, Later, Limited, Ordered;
    var values := Window(log, address, now - window);
    WindowIsSorted(log, address, now - window, clock);
    WindowNarrows(log, address, now - window, t - window);
    WindowIsBounded(log, clock, limit, window, address, now);
    LaterIsShorter(values, t - window);
    if t < values[0] + window { LaterIsSuffix(values, t - window, 0); }
  }

  lemma {:induction false} LaterIsShorter(values: seq<Time>, cutoff: Time)
    ensures |Later(values, cutoff)| <= |values|
    ensures values != [] && values[0] <= cutoff ==> |Later(values, cutoff)| < |values|
  {
    if values != [] { LaterIsShorter(values[..|values| - 1], cutoff); }
  }

  lemma {:induction false} BetweenIsAll(log: seq<Accept>, clock: Time, address: Address, cutoff: Time, t: Time)
    requires Ordered(log, clock) && clock <= t
    ensures Between(log, address, cutoff, t) == |Window(log, address, cutoff)|
  {
    if log != [] { BetweenIsAll(log[..|log| - 1], clock, address, cutoff, t); }
  }

  lemma WindowIsBounded(log: seq<Accept>, clock: Time, limit: nat, window: Time, address: Address, now: Time)
    requires Ordered(log, clock) && Limited(log, limit, window) && 1 <= limit && clock <= now
    ensures |Window(log, address, now - window)| <= limit
  {
    BetweenIsAll(log, clock, address, now - window, now);
    NoWindowHoldsMore(log, clock, limit, window, address, now);
  }
}
