/**
 What the API reserves covers what runs: at every moment the pods of an instance fit into the reserve of its
 row, so that all pods together fit into the usage the API counts, and into the quotas and the cluster.
 */
module Reservation {
  import opened Options
  import opened OperatorTypes
  import opened Platform
  import opened Handshake
  import opened Agreement
  import Confirmation
  import Ledger
  import Operator
  import Quota
  import RolloutSafety

  // ---- one instance ----

  function PodWeight(pods: map<nat, Operator.Pod>, r: Ledger.Resource): Uid -> int {
    (o: Uid) => if o in pods then Ledger.Amount(pods[o].size, r) else 0
  }

  /** What the pods of an instance take. */
  ghost function Taken(link: Link, r: Ledger.Resource): int {
    if link.operator.None? then 0
    else Ledger.Sum(link.operator.value.pods.Keys, PodWeight(link.operator.value.pods, r))
  }

  /** No pod is larger than the size ordered or the size that was applied, as the row knows them. */
  ghost predicate PodsCovered(i: Instance) {
    i.link.operator.Some? ==>
      var pods := i.link.operator.value.pods;
      forall o :: o in pods ==>
        o < ExpectedProcessCount(i.row.mode) && pods[o].size in {i.row.size, i.row.applied}
  }

  lemma ReachableIsTruthful(s: Operator.State)
    requires Reachable(s)
    ensures Confirmation.Truthful(s)
  {
    hide Operator.Enabled, Operator.After, Confirmation.Truthful;
    var history :| EndsIn(history, s);
    Confirmation.RunsAreTruthful(history, |history| - 1);
  }

  lemma TrustedPodsAreCovered(i: Instance)
    requires Trusted(i)
    ensures PodsCovered(i)
  {
    hide Handshaken, Reachable;
    if i.link.operator.Some? {
      ReachableIsTruthful(i.link.operator.value);
      SizesAreKnown(i);
    }
  }

  /** The accepted and the applied size of the operator are the ones the row knows. */
  lemma SizesAreKnown(i: Instance)
    requires Agreed(i) && i.link.operator.Some?
    ensures
      var status := i.link.operator.value.status;
      && status.accepted.mode == i.row.mode
      && status.accepted.size in {i.row.size, i.row.applied}
      && (status.applied.Some? ==> status.applied.value.size in {i.row.size, i.row.applied})
  {
    OperatorKeepsUp(i);
  }

  lemma OneMore(n: int, bound: int)
    ensures (n + 1) * bound == bound + n * bound
  {
  }

  lemma FewerTakeLess(m: int, n: int, bound: int)
    requires m <= n && 0 <= bound
    ensures m * bound <= n * bound
  {
  }

  lemma {:induction false} SumIsBounded(ids: set<Uid>, weight: Uid -> int, bound: int)
    requires forall id :: id in ids ==> weight(id) <= bound
    ensures Ledger.Sum(ids, weight) <= |ids| * bound
  {
    if ids != {} {
      var x :| x in ids;
      Quota.SumSplit(ids, weight, x);
      SumIsBounded(ids - {x}, weight, bound);
      OneMore(|ids - {x}|, bound);
      assert |ids| == |ids - {x}| + 1;
    }
  }

  lemma {:induction false} SumIsMonotone(ids: set<Uid>, v: Uid -> int, w: Uid -> int)
    requires forall id :: id in ids ==> v(id) <= w(id)
    ensures Ledger.Sum(ids, v) <= Ledger.Sum(ids, w)
  {
    if ids != {} {
      var x :| x in ids;
      Quota.SumSplit(ids, v, x);
      Quota.SumSplit(ids, w, x);
      SumIsMonotone(ids - {x}, v, w);
    }
  }

  predicate SizesSane(row: Row) {
    0 <= row.size.vcpu && 0 <= row.size.ramGB && 0 <= row.applied.vcpu && 0 <= row.applied.ramGB
  }

  lemma InstanceIsReserved(i: Instance, r: Ledger.Resource)
    requires PodsCovered(i) && SizesSane(i.row)
    ensures Taken(i.link, r) <= Ledger.Reserve(i.row.mode, i.row.size, i.row.applied, r)
  {
    hide Ledger.Sum;
    var bound := Ledger.Max(Ledger.Amount(i.row.size, r), Ledger.Amount(i.row.applied, r));
    FewerTakeLess(0, ExpectedProcessCount(i.row.mode), bound);
    if i.link.operator.Some? { PodsAreBounded(i.link.operator.value.pods, i.row.mode, r, bound); }
  }

  lemma PodsAreBounded(pods: map<nat, Operator.Pod>, mode: Mode, r: Ledger.Resource, bound: int)
    requires forall o :: o in pods ==> o < ExpectedProcessCount(mode) && Ledger.Amount(pods[o].size, r) <= bound
    requires 0 <= bound
    ensures Ledger.Sum(pods.Keys, PodWeight(pods, r)) <= ExpectedProcessCount(mode) * bound
  {
    hide Ledger.Sum;
    SumIsBounded(pods.Keys, PodWeight(pods, r), bound);
    RolloutSafety.SubsetIsSmaller(pods.Keys, RolloutSafety.Ordinals(mode));
    FewerTakeLess(|pods.Keys|, ExpectedProcessCount(mode), bound);
  }

  // ---- all instances ----

  /** What the pods of an instance take, if it is this user's. */
  ghost function TakenBy(s: Service, user: Option<Uid>, r: Ledger.Resource, id: Uid): int {
    if Has(s, id) && (user.Some? ==> s.books.rows[id].user == user.value) then Taken(s.links[id], r) else 0
  }

  /** What all pods of the user's instances take, or those of all users. */
  ghost function Running(s: Service, user: Option<Uid>, r: Ledger.Resource): int {
    Ledger.Sum(s.books.rows.Keys, (id: Uid) => TakenBy(s, user, r, id))
  }

  lemma NothingTaken(link: Link, r: Ledger.Resource)
    requires link.operator.Some? ==> link.operator.value.pods == map[]
    ensures Taken(link, r) == 0
  {
  }

  /** An instance takes no more than what the API counts for it, and nothing once it is deleted. */
  lemma InstanceIsCounted(c: Ledger.Config, run: seq<Service>, k: nat, id: Uid, user: Option<Uid>, r: Ledger.Resource)
    requires IsRun(c, run) && k < |run| && Has(run[k], id) && SizesSane(run[k].books.rows[id])
    ensures TakenBy(run[k], user, r, id) <= Ledger.Weight(run[k].books.rows, user, r)(id)
  {
    hide CanStep, Stepped, IsRun, Trusted, PodsCovered, Taken;
    var i := InstanceAt(run[k], id);
    if i.row.deletedAt.Some? {
      DeletedMeansStopped(c, run, k, id);
      NothingTaken(i.link, r);
    } else {
      InstancesAreTrusted(c, run, k, id);
      TrustedPodsAreCovered(i);
      InstanceIsReserved(i, r);
    }
    ReserveIsNotNegative(i.row, r);
  }

  lemma ReserveIsNotNegative(row: Row, r: Ledger.Resource)
    requires SizesSane(row)
    ensures 0 <= Ledger.Reserve(row.mode, row.size, row.applied, r)
  {
    FewerTakeLess(0, ExpectedProcessCount(row.mode),
                  Ledger.Max(Ledger.Amount(row.size, r), Ledger.Amount(row.applied, r)));
  }

  /** All pods of a user, or of all users, fit into the usage the API counts. */
  lemma UsageCoversWhatRuns(c: Ledger.Config, run: seq<Service>, k: nat, user: Option<Uid>, r: Ledger.Resource)
    requires IsRun(c, run) && k < |run| && Quota.RowsSane(run[k].books.rows)
    ensures Running(run[k], user, r) <= Ledger.Usage(run[k].books.rows, user, r)
  {
    hide CanStep, Stepped, IsRun, TakenBy, Ledger.Weight, Ledger.Sum;
    var rows := run[k].books.rows;
    ServicesAreWellFormed(c, run, k);
    forall id | id in rows.Keys ensures TakenBy(run[k], user, r, id) <= Ledger.Weight(rows, user, r)(id) {
      InstanceIsCounted(c, run, k, id, user, r);
    }
    SumIsMonotone(rows.Keys, (id: Uid) => TakenBy(run[k], user, r, id), Ledger.Weight(rows, user, r));
  }

  // ---- limits ----

  /** The transaction a step of the service carries out, if any. */
  function Transaction(s: Service, step: Step): Option<(Ledger.Op, Time)>
    requires CanStep(s, step)
  {
    match step
    case UserActs(op, now) => Some((op, now))
    case ImportStep(id, now) => Some((Ledger.ImportOp(id, s.links[id].observation.value), now))
    case CompletionStep(id, now) => Some((Ledger.CompleteOp(id), now))
    case _ => None
  }

  lemma StepsAreTransactions(c: Ledger.Config, s: Service, step: Step)
    requires CanStep(s, step)
    ensures
      match Transaction(s, step)
      case None => Stepped(c, s, step).books == s.books
      case Some((op, now)) =>
        Ledger.Possible(s.books, op, now) && Stepped(c, s, step).books == Ledger.After(c, s.books, op, now)
  {
    hide CanMove, Moved, CanOperate, Operated, Ledger.Create, Ledger.Resize, Ledger.Rename, Ledger.Rewhitelist,
         Ledger.Rotate, Ledger.Delete, Ledger.Import, Ledger.Complete;
  }

  /** An observation brings the size the row has as applied, or the one it orders. */
  lemma ImportsAreKnown(i: Instance)
    requires Agreed(i) && i.link.observation.Some? && i.link.observation.value.applied.Some?
    requires i.row.observed <= i.link.observation.value.observed
    ensures i.link.observation.value.applied.value.size in {i.row.applied, i.row.size}
  {
  }

  lemma TransactionBringsKnownSize(c: Ledger.Config, run: seq<Service>, k: nat, step: Step)
    requires IsRun(c, run) && k < |run| && CanStep(run[k], step) && Transaction(run[k], step).Some?
    ensures Quota.BringsKnownSize(run[k].books, Transaction(run[k], step).value.0)
  {
    hide Stepped, IsRun, CanMove, Moved, CanOperate, Operated, Runs, Handshaken, Agreed;
    if step.ImportStep? {
      InstancesAreTrusted(c, run, k, step.id);
      var i := InstanceAt(run[k], step.id);
      if Ledger.ImportAllowed(i.row, i.link.observation.value) && i.link.observation.value.applied.Some? {
        ImportsAreKnown(i);
      }
    }
  }

  ghost predicate Limited(c: Ledger.Config, s: Service) {
    Quota.RowsSane(s.books.rows) && Quota.WithinLimits(c, s.books.rows)
  }

  lemma TransactionKeepsLimits(c: Ledger.Config, b: Ledger.Books, op: Ledger.Op, now: Time)
    requires Quota.CatalogSane(c) && Quota.RowsSane(b.rows) && Quota.WithinLimits(c, b.rows)
    requires Ledger.Possible(b, op, now) && Quota.BringsKnownSize(b, op)
    ensures Quota.RowsSane(Ledger.After(c, b, op, now).rows)
    ensures Quota.WithinLimits(c, Ledger.After(c, b, op, now).rows)
  {
    hide Ledger.After, Quota.RowsSane, Quota.WithinLimits, Quota.StaysWithin;
    Quota.OperationKeepsRowsSane(c, b, op, now);
    Quota.OperationStaysWithin(c, b, op, now);
    Quota.StayingKeepsLimits(c, b.rows, Ledger.After(c, b, op, now).rows);
  }

  ghost predicate ConfigSane(c: Ledger.Config) {
    && Quota.CatalogSane(c)
    && (forall user, r :: 0 <= Ledger.UserLimit(c, user, r)) && (forall r :: 0 <= Ledger.ClusterLimit(c, r))
  }

  lemma {:induction false} ServicesAreLimited(c: Ledger.Config, run: seq<Service>, k: nat)
    requires ConfigSane(c) && IsRun(c, run) && k < |run|
    ensures Limited(c, run[k])
  {
    hide CanStep, Stepped, Quota.RowsSane, Quota.WithinLimits, Quota.CatalogSane, Ledger.After, Transaction,
         Quota.BringsKnownSize;
    if k == 0 {
      EmptyIsLimited(c);
    } else {
      ServicesAreLimited(c, run, k - 1);
      var s := run[k - 1];
      assert Follows(c, s, run[k]);
      var step :| CanStep(s, step) && run[k] == Stepped(c, s, step);
      StepsAreTransactions(c, s, step);
      if Transaction(s, step).Some? {
        TransactionBringsKnownSize(c, run, k - 1, step);
        TransactionKeepsLimits(c, s.books, Transaction(s, step).value.0, Transaction(s, step).value.1);
      }
    }
  }

  lemma EmptyIsLimited(c: Ledger.Config)
    requires ConfigSane(c)
    ensures Limited(c, START)
  {
  }

  /**
   In every state of every run of the service, whatever is being created, resized, rolled back or deleted:
   the pods that exist fit into their user's quota, and all of them into the cluster; at most 32 instances
   are not deleted.
   */
  lemma WhatRunsFits(c: Ledger.Config, run: seq<Service>, k: nat, user: Uid, r: Ledger.Resource)
    requires ConfigSane(c) && IsRun(c, run) && k < |run|
    ensures Running(run[k], Some(user), r) <= Ledger.UserLimit(c, user, r)
    ensures Running(run[k], None, r) * Ledger.Unit(r) <= Ledger.ClusterLimit(c, r)
    ensures Ledger.Instances(run[k].books.rows) <= Ledger.INSTANCE_LIMIT
  {
    hide CanStep, Stepped, IsRun, Running, Quota.RowsSane, Ledger.Usage, Ledger.Instances;
    ServicesAreLimited(c, run, k);
    UsageCoversWhatRuns(c, run, k, Some(user), r);
    UsageCoversWhatRuns(c, run, k, None, r);
  }
}
