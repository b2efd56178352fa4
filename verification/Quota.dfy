/**
 Quotas over histories: no transaction raises the reserve of a user or of the cluster above the larger
 of the limit and what it was before, nor the number of instances above 32; so a system that keeps its
 limits once keeps them in every later state.
 */
module Quota {
  import opened Options
  import opened OperatorTypes
  import opened Ledger

  lemma {:induction false} SumSplit(ids: set<Uid>, weight: Uid -> int, x: Uid)
    requires x in ids
    ensures Sum(ids, weight) == weight(x) + Sum(ids - {x}, weight)
  {
    var y :| y in ids && Sum(ids, weight) == weight(y) + Sum(ids - {y}, weight);
    if y != x {
      SumSplit(ids - {y}, weight, x);
      SumSplit(ids - {x}, weight, y);
      assert ids - {y} - {x} == ids - {x} - {y};
    }
  }

  lemma {:induction false} SumSame(ids: set<Uid>, v: Uid -> int, w: Uid -> int)
    requires forall id :: id in ids ==> v(id) == w(id)
    ensures Sum(ids, v) == Sum(ids, w)
  {
    if ids != {} {
      var x :| x in ids;
      SumSplit(ids, v, x);
      SumSplit(ids, w, x);
      SumSame(ids - {x}, v, w);
    }
  }

  /** A sum in which only one term changed, or joined. */
  lemma SumChanges(rows: map<Uid, Row>, t: map<Uid, Row>, id: Uid, v: Uid -> int, w: Uid -> int)
    requires id in t && t == rows[id := t[id]]
    requires id !in rows ==> v(id) == 0
    requires forall other :: other in rows && other != id ==> v(other) == w(other)
    ensures Sum(t.Keys, w) == Sum(rows.Keys, v) - v(id) + w(id)
  {
    var rest := rows.Keys - {id};
    SumSplit(t.Keys, w, id);
    assert t.Keys - {id} == rest;
    SumSame(rest, v, w);
    if id in rows { SumSplit(rows.Keys, v, id); } else { assert rest == rows.Keys; }
  }

  lemma UsageChanges(rows: map<Uid, Row>, t: map<Uid, Row>, id: Uid, user: Option<Uid>, r: Resource)
    requires id in t && t == rows[id := t[id]]
    ensures Usage(t, user, r) == Usage(rows, user, r) - Weight(rows, user, r)(id) + Weight(t, user, r)(id)
  {
    SumChanges(rows, t, id, Weight(rows, user, r), Weight(t, user, r));
  }

  lemma InstancesChange(rows: map<Uid, Row>, t: map<Uid, Row>, id: Uid)
    requires id in t && t == rows[id := t[id]]
    ensures Instances(t) == Instances(rows) - One(rows)(id) + One(t)(id)
  {
    SumChanges(rows, t, id, One(rows), One(t));
  }

  // ---- one transaction ----

  predicate UserStays(c: Config, before: int, after: int, user: Uid, r: Resource) {
    after <= Max(UserLimit(c, user, r), before)
  }

  predicate ClusterStays(c: Config, before: int, after: int, r: Resource) {
    after * Unit(r) <= Max(ClusterLimit(c, r), before * Unit(r))
  }

  /** Usage and number of instances stay under the limits or under what they were. */
  ghost predicate StaysWithin(c: Config, a: map<Uid, Row>, b: map<Uid, Row>) {
    && (forall user, r :: UserStays(c, Usage(a, Some(user), r), Usage(b, Some(user), r), user, r))
    && (forall r :: ClusterStays(c, Usage(a, None, r), Usage(b, None, r), r))
    && Instances(b) <= Max(INSTANCE_LIMIT, Instances(a))
  }

  lemma SameRowsStayWithin(c: Config, rows: map<Uid, Row>)
    ensures StaysWithin(c, rows, rows)
  {
  }

  /** One row changes in a way that reserves no more, and counts for nobody new. */
  lemma SmallerRowStaysWithin(c: Config, rows: map<Uid, Row>, t: map<Uid, Row>, id: Uid)
    requires id in rows && id in t && t == rows[id := t[id]]
    requires t[id].user == rows[id].user && (rows[id].deletedAt.Some? ==> t[id].deletedAt.Some?)
    requires forall r ::
      (Reserve(t[id].mode, t[id].size, t[id].applied, r) <= Reserve(rows[id].mode, rows[id].size, rows[id].applied, r))
    requires forall r :: 0 <= Reserve(rows[id].mode, rows[id].size, rows[id].applied, r)
    ensures StaysWithin(c, rows, t)
  {
    forall user: Uid, r ensures UserStays(c, Usage(rows, Some(user), r), Usage(t, Some(user), r), user, r) {
      UsageChanges(rows, t, id, Some(user), r);
    }
    forall r ensures ClusterStays(c, Usage(rows, None, r), Usage(t, None, r), r) {
      UsageChanges(rows, t, id, None, r);
    }
    InstancesChange(rows, t, id);
  }

  /** A row that a quota check was made for, before and after. */
  predicate Checked(rows: map<Uid, Row>, t: map<Uid, Row>, id: Uid, user: Uid, isCreate: bool) {
    && id in t && t == rows[id := t[id]] && t[id].user == user && t[id].deletedAt.None?
    && if isCreate then id !in rows else id in rows && rows[id].user == user && rows[id].deletedAt.None?
  }

  ghost predicate IsGrowth(rows: map<Uid, Row>, t: map<Uid, Row>, id: Uid, delta: Resource -> int) {
    forall r :: delta(r) == Weight(t, None, r)(id) - Weight(rows, None, r)(id)
  }

  lemma UserCheckHolds(
    c: Config, rows: map<Uid, Row>, t: map<Uid, Row>, id: Uid, user: Uid, delta: Resource -> int, isCreate: bool,
    other: Uid, r: Resource)
    requires Checked(rows, t, id, user, isCreate) && IsGrowth(rows, t, id, delta) && !OverUser(c, rows, user, delta)
    ensures UserStays(c, Usage(rows, Some(other), r), Usage(t, Some(other), r), other, r)
  {
    hide Usage;
    UsageChanges(rows, t, id, Some(other), r);
    if other == user {
      assert !Exceeds(Usage(rows, Some(user), r) + delta(r), Usage(rows, Some(user), r), UserLimit(c, user, r));
      assert Weight(t, Some(user), r)(id) == Weight(t, None, r)(id);
      assert Weight(rows, Some(user), r)(id) == Weight(rows, None, r)(id);
    }
  }

  lemma ClusterCheckHolds(
    c: Config, rows: map<Uid, Row>, t: map<Uid, Row>, id: Uid, user: Uid, delta: Resource -> int, isCreate: bool,
    r: Resource)
    requires Checked(rows, t, id, user, isCreate) && IsGrowth(rows, t, id, delta) && !OverCluster(c, rows, delta)
    ensures ClusterStays(c, Usage(rows, None, r), Usage(t, None, r), r)
  {
    hide Usage;
    UsageChanges(rows, t, id, None, r);
    assert !Exceeds((Usage(rows, None, r) + delta(r)) * Unit(r), Usage(rows, None, r) * Unit(r), ClusterLimit(c, r));
  }

  /** What an accepted quota check says, in terms of the usage after the change. */
  lemma CheckedRowStaysWithin(
    c: Config, rows: map<Uid, Row>, t: map<Uid, Row>, id: Uid, user: Uid, delta: Resource -> int, isCreate: bool)
    requires Checked(rows, t, id, user, isCreate) && IsGrowth(rows, t, id, delta)
    requires CheckQuota(c, rows, user, delta, isCreate).None?
    ensures StaysWithin(c, rows, t)
  {
    hide Usage, OverUser, OverCluster;
    forall other: Uid, r ensures UserStays(c, Usage(rows, Some(other), r), Usage(t, Some(other), r), other, r) {
      UserCheckHolds(c, rows, t, id, user, delta, isCreate, other, r);
    }
    forall r ensures ClusterStays(c, Usage(rows, None, r), Usage(t, None, r), r) {
      ClusterCheckHolds(c, rows, t, id, user, delta, isCreate, r);
    }
    InstancesChange(rows, t, id);
  }

  // ---- every transaction ----

  /** Sizes are sizes, and only rows that are not deleted can still be asked for anything. */
  ghost predicate RowsSane(rows: map<Uid, Row>) {
    forall id :: id in rows ==>
      && 0 <= rows[id].size.vcpu && 0 <= rows[id].size.ramGB
      && 0 <= rows[id].applied.vcpu && 0 <= rows[id].applied.ramGB
      && (rows[id].deletedAt.Some? ==> rows[id].deletionRequestedAt.Some?)
  }

  ghost predicate CatalogSane(c: Config) {
    forall size :: size in c.sizes ==> 0 <= size.vcpu && 0 <= size.ramGB
  }

  /** An accepted observation brings the size that was applied before, or the desired one (see Reservation). */
  predicate BringsKnownSize(b: Books, op: Op) {
    op.ImportOp? && op.id in b.rows && ImportAllowed(b.rows[op.id], op.seen) && op.seen.applied.Some? ==>
      op.seen.applied.value.size in {b.rows[op.id].applied, b.rows[op.id].size}
  }

  lemma CreationStaysWithin(c: Config, b: Books, input: CreateInput, newId: Uid, now: Time)
    requires Possible(b, CreateOp(input, newId), now)
    ensures StaysWithin(c, b.rows, Create(c, b, input, newId, now).books.rows)
  {
    hide Create, CheckQuota, StaysWithin;
    var t := Create(c, b, input, newId, now).books.rows;
    if t == b.rows {
      SameRowsStayWithin(c, b.rows);
    } else {
      CheckedRowStaysWithin(c, b.rows, t, newId, input.user, NewReserve(input), true);
    }
  }

  lemma ResizeStaysWithin(c: Config, b: Books, input: ResizeInput, now: Time)
    requires RowsSane(b.rows)
    ensures StaysWithin(c, b.rows, Ledger.Resize(c, b, input, now).books.rows)
  {
    hide Ledger.Resize, CheckQuota, StaysWithin, NotReady;
    var t := Ledger.Resize(c, b, input, now).books.rows;
    if t == b.rows {
      SameRowsStayWithin(c, b.rows);
    } else {
      CheckedRowStaysWithin(c, b.rows, t, input.id, input.user, Growth(b.rows[input.id], input.size), false);
    }
  }

  lemma RowOperationStaysWithin(c: Config, b: Books, op: Op, now: Time)
    requires RowsSane(b.rows) && BringsKnownSize(b, op) && !op.CreateOp? && !op.ResizeOp?
    ensures StaysWithin(c, b.rows, After(c, b, op, now).rows)
  {
    hide StaysWithin, Rename, Rewhitelist, Rotate, NotReady;
    var t := After(c, b, op, now).rows;
    if t == b.rows {
      SameRowsStayWithin(c, b.rows);
    } else {
      SmallerRowStaysWithin(c, b.rows, t, if op.RotateOp? then op.rotate.id else op.id);
    }
  }

  /** No transaction takes usage over a limit it was not over before. */
  lemma OperationStaysWithin(c: Config, b: Books, op: Op, now: Time)
    requires RowsSane(b.rows) && Possible(b, op, now) && BringsKnownSize(b, op)
    ensures StaysWithin(c, b.rows, After(c, b, op, now).rows)
  {
    hide StaysWithin, RowsSane, Create, Ledger.Resize;
    match op
    case CreateOp(input, newId) => CreationStaysWithin(c, b, input, newId, now);
    case ResizeOp(input) => ResizeStaysWithin(c, b, input, now);
    case _ => RowOperationStaysWithin(c, b, op, now);
  }

  lemma OperationKeepsRowsSane(c: Config, b: Books, op: Op, now: Time)
    requires CatalogSane(c) && RowsSane(b.rows) && Possible(b, op, now)
    ensures RowsSane(After(c, b, op, now).rows)
  {
    hide Rename, Rewhitelist, Rotate, NotReady, CheckQuota;
    if op.CreateOp? { CreationIsFromCatalog(c, b, op.create, op.newId, now); }
    if op.ResizeOp? { ResizeIsFromCatalog(c, b, op.resize, now); }
  }

  lemma CreationIsFromCatalog(c: Config, b: Books, input: CreateInput, newId: Uid, now: Time)
    ensures Create(c, b, input, newId, now).books.rows == b.rows || input.size in c.sizes
  {
    hide CheckQuota, NameExists, FindKey;
  }

  lemma ResizeIsFromCatalog(c: Config, b: Books, input: ResizeInput, now: Time)
    ensures Ledger.Resize(c, b, input, now).books.rows == b.rows || input.size in c.sizes
  {
    hide CheckQuota, NotReady, FindKey;
  }

  /** Every user, the cluster, and the number of instances within their limits. */
  ghost predicate WithinLimits(c: Config, rows: map<Uid, Row>) {
    && (forall user, r :: Usage(rows, Some(user), r) <= UserLimit(c, user, r))
    && (forall r :: Usage(rows, None, r) * Unit(r) <= ClusterLimit(c, r))
    && Instances(rows) <= INSTANCE_LIMIT
  }

  lemma StayingKeepsLimits(c: Config, a: map<Uid, Row>, b: map<Uid, Row>)
    requires StaysWithin(c, a, b) && WithinLimits(c, a)
    ensures WithinLimits(c, b)
  {
    forall user: Uid, r ensures Usage(b, Some(user), r) <= UserLimit(c, user, r) {
      assert UserStays(c, Usage(a, Some(user), r), Usage(b, Some(user), r), user, r);
    }
    forall r ensures Usage(b, None, r) * Unit(r) <= ClusterLimit(c, r) {
      assert ClusterStays(c, Usage(a, None, r), Usage(b, None, r), r);
    }
  }

  ghost predicate ImportsAreKnown(states: seq<Books>, ops: seq<Op>) {
    forall i :: 0 <= i < |ops| && i < |states| ==> BringsKnownSize(states[i], ops[i])
  }

  lemma {:induction false} RowsStaySane(c: Config, states: seq<Books>, ops: seq<Op>, times: seq<Time>, i: nat)
    requires CatalogSane(c) && IsHistory(c, states, ops, times) && i < |states|
    ensures RowsSane(states[i].rows)
  {
    hide After;
    if i > 0 {
      RowsStaySane(c, states, ops, times, i - 1);
      OperationKeepsRowsSane(c, states[i - 1], ops[i - 1], times[i - 1]);
    }
  }

  /** Once within the limits, the users, the cluster and the number of instances stay there for good. */
  lemma {:induction false} LimitsAreKept(
    c: Config, states: seq<Books>, ops: seq<Op>, times: seq<Time>, i: nat, j: nat)
    requires CatalogSane(c) && IsHistory(c, states, ops, times) && ImportsAreKnown(states, ops)
    requires i <= j < |states| && WithinLimits(c, states[i].rows)
    ensures WithinLimits(c, states[j].rows)
    decreases j - i
  {
    hide After, WithinLimits, StaysWithin;
    if i < j {
      LimitsAreKept(c, states, ops, times, i, j - 1);
      RowsStaySane(c, states, ops, times, j - 1);
      OperationStaysWithin(c, states[j - 1], ops[j - 1], times[j - 1]);
      StayingKeepsLimits(c, states[j - 1].rows, states[j].rows);
    }
  }

  /** A system that starts empty, with limits that are not negative, never exceeds one of them. */
  lemma LimitsHoldFromTheStart(c: Config, states: seq<Books>, ops: seq<Op>, times: seq<Time>, i: nat)
    requires CatalogSane(c) && IsHistory(c, states, ops, times) && ImportsAreKnown(states, ops) && i < |states|
    requires forall user, r :: 0 <= UserLimit(c, user, r)
    requires forall r :: 0 <= ClusterLimit(c, r)
    ensures WithinLimits(c, states[i].rows)
  {
    assert WithinLimits(c, EMPTY.rows);
    LimitsAreKept(c, states, ops, times, 0, i);
  }
}
