/**
 The tables as the API's transactions change them (mutations.go, store/valkey.go): sums and updates run over
 rows one by one, and the writes of a transaction follow each other.  Every method leaves behind exactly the
 books, and gives the outcome, that the corresponding function of the ledger computes.
 */
module LedgerTables {
  import opened Options
  import opened OperatorTypes
  import L = Ledger
  import Billing
  import Quota

  datatype ResourceUsage = ResourceUsage(vcpu: int, ramGB: int, instances: int)

  function Used(usage: ResourceUsage, r: L.Resource): int { if r == L.Cpu then usage.vcpu else usage.ramGB }

  class Tables {
    const config: L.Config
    var rows: map<Uid, L.Row>
    var periods: map<Uid, seq<L.Period>>
    var keys: map<L.KeyId, L.SavedKey>
    var clock: Time

    function Value(): L.Books
      reads this
    {
      L.Books(rows, periods, keys, clock)
    }

    /** Every instance is billed as it is ordered (see Billing). */
    ghost predicate Valid()
      reads this
    {
      Billing.AllBilled(config, Value())
    }

    constructor (config: L.Config)
      ensures Valid() && Value() == L.EMPTY && this.config == config
    {
      this.config := config;
      rows, periods, keys, clock := map[], map[], map[], 0;
    }

    /** ValkeyUsage: the rows that count are summed up. */
    method Usage(user: Option<Uid>) returns (usage: ResourceUsage)
      ensures forall r :: Used(usage, r) == L.Usage(rows, user, r)
      ensures user.None? ==> usage.instances == L.Instances(rows)
    {
      hide L.Sum, L.Reserve;
      NothingSums(rows, user);
      usage := ResourceUsage(0, 0, 0);
      var rest := rows.Keys;
      while rest != {}
        invariant rest <= rows.Keys
        invariant usage.vcpu + L.Sum(rest, L.Weight(rows, user, L.Cpu)) == L.Usage(rows, user, L.Cpu)
        invariant usage.ramGB + L.Sum(rest, L.Weight(rows, user, L.Ram)) == L.Usage(rows, user, L.Ram)
        invariant user.None? ==> usage.instances + L.Sum(rest, L.One(rows)) == L.Instances(rows)
        decreases rest
      {
        var id :| id in rest;
        Quota.SumSplit(rest, L.Weight(rows, user, L.Cpu), id);
        Quota.SumSplit(rest, L.Weight(rows, user, L.Ram), id);
        Quota.SumSplit(rest, L.One(rows), id);
        var row := rows[id];
        if row.deletedAt.None? && (user.None? || row.user == user.value) {
          usage := ResourceUsage(
            usage.vcpu + L.Reserve(row.mode, row.size, row.applied, L.Cpu),
            usage.ramGB + L.Reserve(row.mode, row.size, row.applied, L.Ram),
            usage.instances + 1);
        }
        rest := rest - {id};
      }
    }

    /** checkQuota, for what the change adds to the reserve. */
    method CheckQuota(user: Uid, vcpu: int, ramGB: int, isCreate: bool) returns (failure: Option<L.Failure>)
      ensures failure == L.CheckQuota(config, rows, user, Added(vcpu, ramGB), isCreate)
    {
      hide L.Usage, L.Instances;
      ghost var delta := Added(vcpu, ramGB);
      if user !in config.quotas {
        return Some(L.NotFound);
      }
      var quota := config.quotas[user];
      var own := Usage(Some(user));
      UserCheckIs(config, rows, user, own, vcpu, ramGB);
      if L.Exceeds(own.vcpu + vcpu, own.vcpu, quota.vcpu) || L.Exceeds(own.ramGB + ramGB, own.ramGB, quota.ramGB) {
        return Some(L.QuotaExceeded);
      }
      var all := Usage(None);
      if isCreate && all.instances + 1 > L.INSTANCE_LIMIT {
        return Some(L.LimitReached);
      }
      ClusterCheckIs(config, rows, all, vcpu, ramGB);
      if L.Exceeds((all.vcpu + vcpu) * 1000, all.vcpu * 1000, config.cpuMilli)
        || L.Exceeds((all.ramGB + ramGB) * 1024, all.ramGB * 1024, config.ramMiB)
      {
        return Some(L.NotEnoughResources);
      }
      failure := None;
    }

    /** CloseBillingPeriod: an update of every open period, which has to find exactly one. */
    method CloseBillingPeriod(id: Uid, now: Time) returns (affected: nat)
      requires id in periods
      modifies this`periods
      ensures periods == old(periods)[id := L.CloseAll(old(periods)[id], now)]
      ensures affected == Billing.OpenCount(old(periods)[id])
    {
      affected := 0;
      var list := periods[id];
      var closed: seq<L.Period> := [];
      for i := 0 to |list|
        invariant |closed| == i && affected == Billing.OpenCount(list[..i])
        invariant forall k :: 0 <= k < i ==>
          closed[k] == if list[k].endedAt.None? then list[k].(endedAt := Some(now)) else list[k]
        invariant periods == old(periods)
      {
        assert list[..i + 1][..i] == list[..i];
        if list[i].endedAt.None? {
          closed := closed + [list[i].(endedAt := Some(now))];
          affected := affected + 1;
        } else {
          closed := closed + [list[i]];
        }
      }
      assert list[..|list|] == list;
      assert closed == L.CloseAll(list, now);
      periods := periods[id := closed];
    }

    /** openBillingPeriod. */
    method OpenBillingPeriod(id: Uid, row: L.Row, now: Time)
      modifies this`periods
      ensures periods == old(periods)[id :=
        (if id in old(periods) then old(periods)[id] else []) + [L.OpenPeriod(config, row, now)]]
    {
      var period := L.Period(now, None, row.mode, row.size, L.Processes(row.mode), L.Price(config, row.mode, row.size));
      periods := periods[id := (if id in periods then periods[id] else []) + [period]];
    }

    /** The transaction of Create, for the identifier the database gives the new row. */
    method Create(input: L.CreateInput, id: Uid, now: Time) returns (outcome: L.Outcome)
      requires Valid() && id !in rows && clock <= now
      modifies this
      ensures Valid()
      ensures L.Commit(Value(), outcome) == L.Create(config, old(Value()), input, id, now)
    {
      hide L.CheckQuota, Billing.AllBilled, L.FindKey, L.NameExists;
      Billing.CreationKeepsBills(config, Value(), input, id, now);
      PeriodsAreOfRows(config, Value(), id);
      CreationQuota(config, rows, input);
      if input.size !in config.sizes {
        return L.Rejected(L.Unsupported);
      }
      var key := L.KeyId(input.user, input.key);
      var saved := L.FindKey(Value(), key, input.request, now);
      if saved.Mismatch? {
        return L.Rejected(L.KeyMismatch);
      }
      if saved.Live? {
        clock := now;
        return L.Done(saved.response, true);
      }
      if L.NameExists(rows, input.user, input.name, None) {
        return L.Rejected(L.NameTaken);
      }
      var failure := CheckQuota(
        input.user, L.Reserve(input.mode, input.size, L.NO_SIZE, L.Cpu),
        L.Reserve(input.mode, input.size, L.NO_SIZE, L.Ram), true);
      if failure.Some? {
        return L.Rejected(failure.value);
      }
      var row := L.NewRow(input, now);
      rows := rows[id := row];
      OpenBillingPeriod(id, row, now);
      assert [] + [L.OpenPeriod(config, row, now)] == [L.OpenPeriod(config, row, now)];
      var response := L.Response(202, row);
      keys := keys[key := L.SavedKey(input.request, response, now)];
      clock := now;
      outcome := L.Done(response, false);
    }

    /** The transaction of Resize. */
    method Resize(input: L.ResizeInput, now: Time) returns (outcome: L.Outcome)
      requires Valid() && clock <= now
      modifies this
      ensures Valid()
      ensures L.Commit(Value(), outcome) == L.Resize(config, old(Value()), input, now)
    {
      hide L.CheckQuota, Billing.AllBilled, L.FindKey, L.NotReady, L.CloseAll;
      Billing.ResizeKeepsBills(config, Value(), input, now);
      PeriodsAreOfRows(config, Value(), input.id);
      if input.size !in config.sizes {
        return L.Rejected(L.Unsupported);
      }
      if input.id !in rows || rows[input.id].user != input.user {
        return L.Rejected(L.NotFound);
      }
      var row := rows[input.id];
      GrowthQuota(config, rows, row, input);
      var key := L.KeyId(input.user, input.key);
      var saved := L.FindKey(Value(), key, input.request, now);
      if saved.Mismatch? {
        return L.Rejected(L.KeyMismatch);
      }
      if saved.Live? {
        clock := now;
        return L.Done(saved.response, true);
      }
      if row.deletionRequestedAt.Some? {
        return L.Rejected(L.Deleting);
      }
      if row.size == input.size {
        keys := keys[key := L.SavedKey(input.request, L.Response(200, row), now)];
        clock := now;
        return L.Done(L.Response(200, row), false);
      }
      var notReady := L.NotReady(row, now);
      if notReady.Some? {
        return L.Rejected(notReady.value);
      }
      var growth := L.Growth(row, input.size);
      var failure := CheckQuota(input.user, growth(L.Cpu), growth(L.Ram), false);
      if failure.Some? {
        return L.Rejected(failure.value);
      }
      ghost var was := Value();
      row := row.(size := input.size, desired := row.desired + 1);
      rows := rows[input.id := row];
      var affected := CloseBillingPeriod(input.id, now);
      OnePeriodIsOpen(config, was, input.id);
      assert affected == 1;
      OpenBillingPeriod(input.id, row, now);
      var response := L.Response(202, row);
      keys := keys[key := L.SavedKey(input.request, response, now)];
      clock := now;
      outcome := L.Done(response, false);
      assert Value() == L.Resize(config, old(Value()), input, now).books;
    }

    /** The transaction of Delete. */
    method Delete(user: Uid, id: Uid, now: Time) returns (outcome: L.Outcome)
      requires Valid() && clock <= now
      modifies this
      ensures Valid()
      ensures L.Commit(Value(), outcome) == L.Delete(old(Value()), user, id, now)
    {
      hide Billing.AllBilled, L.CloseAll;
      Billing.DeletionKeepsBills(config, Value(), user, id, now);
      PeriodsAreOfRows(config, Value(), id);
      if id !in rows || rows[id].user != user {
        return L.Rejected(L.NotFound);
      }
      var row := rows[id];
      if row.deletionRequestedAt.Some? {
        clock := now;
        return L.Done(L.Response(204, row), false);
      }
      ghost var was := Value();
      row := row.(deletionRequestedAt := Some(now));
      rows := rows[id := row];
      var affected := CloseBillingPeriod(id, now);
      OnePeriodIsOpen(config, was, id);
      assert affected == 1;
      clock := now;
      outcome := L.Done(L.Response(204, row), false);
    }
  }

  /** An instance has billing periods if and only if it has a row. */
  lemma PeriodsAreOfRows(c: L.Config, b: L.Books, id: Uid)
    requires Billing.AllBilled(c, b)
    ensures id in b.periods <==> id in b.rows
  {
  }

  /** So the update that closes a period finds exactly one, and its error branch is never taken. */
  lemma OnePeriodIsOpen(c: L.Config, b: L.Books, id: Uid)
    requires Billing.AllBilled(c, b) && id in b.rows && b.rows[id].deletionRequestedAt.None?
    ensures id in b.periods && Billing.OpenCount(b.periods[id]) == 1
  {
    Billing.EndedPeriodsTelescope(b.periods[id], b.clock, b.clock);
  }

  lemma CreationQuota(c: L.Config, rows: map<Uid, L.Row>, input: L.CreateInput)
    ensures
      var vcpu := L.Reserve(input.mode, input.size, L.NO_SIZE, L.Cpu);
      var ramGB := L.Reserve(input.mode, input.size, L.NO_SIZE, L.Ram);
      L.CheckQuota(c, rows, input.user, Added(vcpu, ramGB), true)
        == L.CheckQuota(c, rows, input.user, L.NewReserve(input), true)
  {
    var vcpu := L.Reserve(input.mode, input.size, L.NO_SIZE, L.Cpu);
    var ramGB := L.Reserve(input.mode, input.size, L.NO_SIZE, L.Ram);
    SameDelta(c, rows, input.user, Added(vcpu, ramGB), L.NewReserve(input), true);
  }

  lemma GrowthQuota(c: L.Config, rows: map<Uid, L.Row>, row: L.Row, input: L.ResizeInput)
    ensures
      var growth := L.Growth(row, input.size);
      L.CheckQuota(c, rows, input.user, Added(growth(L.Cpu), growth(L.Ram)), false)
        == L.CheckQuota(c, rows, input.user, growth, false)
  {
    var growth := L.Growth(row, input.size);
    SameDelta(c, rows, input.user, Added(growth(L.Cpu), growth(L.Ram)), growth, false);
  }

  lemma SameDelta(
    c: L.Config, rows: map<Uid, L.Row>, user: Uid, a: L.Resource -> int, b: L.Resource -> int, isCreate: bool)
    requires forall r :: a(r) == b(r)
    ensures L.CheckQuota(c, rows, user, a, isCreate) == L.CheckQuota(c, rows, user, b, isCreate)
  {
    hide L.Usage, L.Instances;
    assert L.OverUser(c, rows, user, a) == L.OverUser(c, rows, user, b);
    assert L.OverCluster(c, rows, a) == L.OverCluster(c, rows, b);
  }

  lemma NothingSums(rows: map<Uid, L.Row>, user: Option<Uid>)
    ensures forall r :: L.Sum({}, L.Weight(rows, user, r)) == 0
    ensures L.Sum({}, L.One(rows)) == 0
  {
  }

  function Added(vcpu: int, ramGB: int): L.Resource -> int {
    (r: L.Resource) => if r == L.Cpu then vcpu else ramGB
  }

  lemma UserCheckIs(c: L.Config, rows: map<Uid, L.Row>, user: Uid, own: ResourceUsage, vcpu: int, ramGB: int)
    requires user in c.quotas && forall r :: Used(own, r) == L.Usage(rows, Some(user), r)
    ensures L.OverUser(c, rows, user, Added(vcpu, ramGB)) <==>
      (L.Exceeds(own.vcpu + vcpu, own.vcpu, c.quotas[user].vcpu) ||
       L.Exceeds(own.ramGB + ramGB, own.ramGB, c.quotas[user].ramGB))
  {
    hide L.Usage;
    assert Used(own, L.Cpu) == L.Usage(rows, Some(user), L.Cpu);
    assert Used(own, L.Ram) == L.Usage(rows, Some(user), L.Ram);
  }

  lemma ClusterCheckIs(c: L.Config, rows: map<Uid, L.Row>, all: ResourceUsage, vcpu: int, ramGB: int)
    requires forall r :: Used(all, r) == L.Usage(rows, None, r)
    ensures L.OverCluster(c, rows, Added(vcpu, ramGB)) <==>
      (L.Exceeds((all.vcpu + vcpu) * 1000, all.vcpu * 1000, c.cpuMilli) ||
       L.Exceeds((all.ramGB + ramGB) * 1024, all.ramGB * 1024, c.ramMiB))
  {
    hide L.Usage;
    assert Used(all, L.Cpu) == L.Usage(rows, None, L.Cpu);
    assert Used(all, L.Ram) == L.Usage(rows, None, L.Ram);
  }
}
