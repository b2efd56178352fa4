/**
 Billing is conserved: in every history the periods of an instance follow each other without gap or
 overlap from its creation, exactly one is open until its deletion is requested, it carries the desired
 size and its price, and the lengths add up to the time the instance was ordered.
 */
module Billing {
  import opened Options
  import opened OperatorTypes
  import opened Ledger

  predicate IsOpen(p: Period) { p.endedAt.None? }

  /** The bill of a row matches what was ordered. */
  predicate Matches(c: Config, row: Row, p: Period) {
    && p.mode == row.mode && p.size == row.size
    && p.processes == Processes(row.mode) && p.price == Price(c, row.mode, row.size)
  }

  /** Periods without gap or overlap; all but the last have ended. */
  predicate Contiguous(periods: seq<Period>, clock: Time) {
    && (forall k :: 0 <= k < |periods| ==> periods[k].startedAt <= clock)
    && (forall k :: 0 <= k < |periods| && periods[k].endedAt.Some? ==>
          periods[k].startedAt <= periods[k].endedAt.value <= clock)
    && (forall k :: 0 <= k < |periods| - 1 ==> periods[k].endedAt == Some(periods[k + 1].startedAt))
  }

  predicate Billed(c: Config, row: Row, periods: seq<Period>, clock: Time) {
    && periods != [] && Contiguous(periods, clock)
    && periods[0].startedAt == row.createdAt
    && Matches(c, row, periods[|periods| - 1])
    && periods[|periods| - 1].endedAt == row.deletionRequestedAt
  }

  ghost predicate AllBilled(c: Config, b: Books) {
    && b.periods.Keys == b.rows.Keys
    && forall id :: id in b.rows ==> Billed(c, b.rows[id], b.periods[id], b.clock)
  }

  /** Ending the open period and opening the next one. */
  lemma RebillingIsBilled(c: Config, row: Row, resized: Row, periods: seq<Period>, clock: Time, now: Time)
    requires Billed(c, row, periods, clock) && clock <= now && row.deletionRequestedAt.None?
    requires resized == row.(size := resized.size, desired := resized.desired)
    ensures Billed(c, resized, CloseAll(periods, now) + [OpenPeriod(c, resized, now)], now)
  {
    var closed := CloseAll(periods, now);
    var next := closed + [OpenPeriod(c, resized, now)];
    forall k | 0 <= k < |next| - 1 ensures next[k].endedAt == Some(next[k + 1].startedAt) {
      if k < |periods| - 1 {
        assert periods[k].endedAt == Some(periods[k + 1].startedAt);
        assert closed[k] == periods[k] && closed[k + 1].startedAt == periods[k + 1].startedAt;
      }
    }
  }

  lemma ClosingIsBilled(c: Config, row: Row, periods: seq<Period>, clock: Time, now: Time)
    requires Billed(c, row, periods, clock) && clock <= now && row.deletionRequestedAt.None?
    ensures Billed(c, row.(deletionRequestedAt := Some(now)), CloseAll(periods, now), now)
  {
    var closed := CloseAll(periods, now);
    forall k | 0 <= k < |closed| - 1 ensures closed[k].endedAt == Some(closed[k + 1].startedAt) {
      assert periods[k].endedAt == Some(periods[k + 1].startedAt);
      assert closed[k] == periods[k] && closed[k + 1].startedAt == periods[k + 1].startedAt;
    }
  }

  /** A transaction that changes one row without touching its bill. */
  lemma RowChangeIsBilled(c: Config, b: Books, t: Books, id: Uid)
    requires AllBilled(c, b) && id in b.rows && id in t.rows && b.clock <= t.clock && t.periods == b.periods
    requires t.rows == b.rows[id := t.rows[id]]
    requires t.rows[id].mode == b.rows[id].mode && t.rows[id].size == b.rows[id].size
    requires t.rows[id].createdAt == b.rows[id].createdAt
    requires t.rows[id].deletionRequestedAt == b.rows[id].deletionRequestedAt
    ensures AllBilled(c, t)
  {
  }

  lemma SameRowsAreBilled(c: Config, b: Books, t: Books)
    requires AllBilled(c, b) && t.rows == b.rows && t.periods == b.periods && b.clock <= t.clock
    ensures AllBilled(c, t)
  {
  }

  lemma CreationKeepsBills(c: Config, b: Books, input: CreateInput, newId: Uid, now: Time)
    requires AllBilled(c, b) && Possible(b, CreateOp(input, newId), now)
    ensures AllBilled(c, Create(c, b, input, newId, now).books)
  {
    hide Create, CheckQuota;
    var t := Create(c, b, input, newId, now).books;
    if t.rows == b.rows && t.periods == b.periods { SameRowsAreBilled(c, b, t); }
  }

  lemma ResizeKeepsBills(c: Config, b: Books, input: ResizeInput, now: Time)
    requires AllBilled(c, b) && now >= b.clock
    ensures AllBilled(c, Ledger.Resize(c, b, input, now).books)
  {
    hide Ledger.Resize, CheckQuota, NotReady;
    var t := Ledger.Resize(c, b, input, now).books;
    if t.rows == b.rows && t.periods == b.periods {
      SameRowsAreBilled(c, b, t);
    } else {
      var row := b.rows[input.id];
      RebillingIsBilled(c, row, Resized(row, input.size), b.periods[input.id], b.clock, now);
    }
  }

  lemma DeletionKeepsBills(c: Config, b: Books, user: Uid, id: Uid, now: Time)
    requires AllBilled(c, b) && now >= b.clock
    ensures AllBilled(c, Delete(b, user, id, now).books)
  {
    var t := Delete(b, user, id, now).books;
    if t.rows == b.rows && t.periods == b.periods {
      SameRowsAreBilled(c, b, t);
    } else {
      ClosingIsBilled(c, b.rows[id], b.periods[id], b.clock, now);
    }
  }

  lemma RowOperationKeepsBills(c: Config, b: Books, op: Op, now: Time)
    requires AllBilled(c, b) && Possible(b, op, now) && !op.CreateOp? && !op.ResizeOp? && !op.DeleteOp?
    ensures AllBilled(c, After(c, b, op, now))
  {
    hide AllBilled, Rename, Rewhitelist, Rotate, ImportAllowed;
    var t := After(c, b, op, now);
    if t.rows == b.rows {
      SameRowsAreBilled(c, b, t);
    } else {
      RowChangeIsBilled(c, b, t, if op.RotateOp? then op.rotate.id else op.id);
    }
  }

  lemma OperationKeepsBills(c: Config, b: Books, op: Op, now: Time)
    requires AllBilled(c, b) && Possible(b, op, now)
    ensures AllBilled(c, After(c, b, op, now))
  {
    hide AllBilled, Create, Ledger.Resize, Delete;
    match op
    case CreateOp(input, newId) => CreationKeepsBills(c, b, input, newId, now);
    case ResizeOp(input) => ResizeKeepsBills(c, b, input, now);
    case DeleteOp(user, id) => DeletionKeepsBills(c, b, user, id, now);
    case _ => RowOperationKeepsBills(c, b, op, now);
  }

  lemma NothingIsBilled(c: Config)
    ensures AllBilled(c, EMPTY)
  {
  }

  lemma {:induction false} HistoriesAreBilled(c: Config, states: seq<Books>, ops: seq<Op>, times: seq<Time>, i: nat)
    requires IsHistory(c, states, ops, times) && i < |states|
    ensures AllBilled(c, states[i])
  {
    hide AllBilled, After;
    if i == 0 {
      NothingIsBilled(c);
    } else {
      HistoriesAreBilled(c, states, ops, times, i - 1);
      OperationKeepsBills(c, states[i - 1], ops[i - 1], times[i - 1]);
    }
  }

  // ---- what it means ----

  function OpenCount(periods: seq<Period>): nat {
    if periods == [] then 0
    else OpenCount(periods[..|periods| - 1]) + if IsOpen(periods[|periods| - 1]) then 1 else 0
  }

  /** The length of all periods up to `t`, the open one counted as far as it goes. */
  function BilledTime(periods: seq<Period>, t: Time): int {
    if periods == [] then 0
    else
      var last := periods[|periods| - 1];
      BilledTime(periods[..|periods| - 1], t) + (if last.endedAt.Some? then last.endedAt.value else t) - last.startedAt
  }

  lemma {:induction false} EndedPeriodsTelescope(periods: seq<Period>, clock: Time, t: Time)
    requires periods != [] && Contiguous(periods, clock)
    ensures
      var last := periods[|periods| - 1];
      && BilledTime(periods, t) == (if last.endedAt.Some? then last.endedAt.value else t) - periods[0].startedAt
      && OpenCount(periods) == if IsOpen(last) then 1 else 0
  {
    if |periods| > 1 {
      var before := periods[..|periods| - 1];
      assert Contiguous(before, clock);
      EndedPeriodsTelescope(before, clock, t);
      assert before[|before| - 1] == periods[|periods| - 2] && before[0] == periods[0];
    } else {
      assert periods[..0] == [];
    }
  }

  /**
   In every state of every history: the periods of an instance add up to the time from its creation to the
   request to delete it, or to `t`; exactly one is open unless deletion was requested, and it has the
   current size and price.
   */
  lemma BillingIsConserved(c: Config, states: seq<Books>, ops: seq<Op>, times: seq<Time>, i: nat, id: Uid, t: Time)
    requires IsHistory(c, states, ops, times) && i < |states| && id in states[i].rows
    ensures
      var row := states[i].rows[id];
      && id in states[i].periods
      && var periods := states[i].periods[id];
         && Billed(c, row, periods, states[i].clock)
         && OpenCount(periods) == (if row.deletionRequestedAt.None? then 1 else 0)
         && BilledTime(periods, t) ==
              (if row.deletionRequestedAt.Some? then row.deletionRequestedAt.value else t) - row.createdAt
  {
    HistoriesAreBilled(c, states, ops, times, i);
    EndedPeriodsTelescope(states[i].periods[id], states[i].clock, t);
  }
}
