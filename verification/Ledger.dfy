/**
 The API's tables and the mutations on them (mutations.go, service.go, catalog.go, store/valkey.go):
 each operation is one transaction under the advisory lock, and a rejected one leaves nothing behind.
 Times are in nanoseconds; `clock` is the database time of the last transaction.
 */
module Ledger {
  import opened Options
  import opened OperatorTypes

  const INSTANCE_LIMIT := 32
  const MINUTE := 60 * 1_000_000_000
  const IDEMPOTENCY_TTL := 24 * 60 * MINUTE

  /** A row of valkey_instances. Names, hashes and whitelists are opaque. */
  datatype Row = Row(
    user: Uid, name: Uid, mode: Mode, size: Size, desired: int, observed: int,
    password: int, hash: Uid, whitelist: Uid, applied: Size, appliedPassword: int,
    phase: Phase, observedAt: Option<Time>, createdAt: Time,
    deletionRequestedAt: Option<Time>, deletedAt: Option<Time>)

  /** A row of billing_periods. */
  datatype Period = Period(
    startedAt: Time, endedAt: Option<Time>, mode: Mode, size: Size, processes: int, price: int)

  datatype KeyId = KeyId(user: Uid, key: Uid)
  datatype Response = Response(status: int, row: Row)
  datatype SavedKey = SavedKey(request: Uid, response: Response, createdAt: Time)

  /** `periods` holds the billing periods of each instance in the order they were opened. */
  datatype Books = Books(
    rows: map<Uid, Row>, periods: map<Uid, seq<Period>>, keys: map<KeyId, SavedKey>, clock: Time)

  datatype Config = Config(
    sizes: set<Size>, vcpuPrice: int, ramPrice: int, cpuMilli: int, ramMiB: int, quotas: map<Uid, Size>)

  datatype Failure =
    | Unsupported | NotFound | NameTaken | QuotaExceeded | LimitReached | NotEnoughResources
    | Deleting | OperationInProgress | InvalidPhase | StaleObservation
    | VersionMismatch | SamePassword | KeyMismatch

  datatype Outcome = Done(response: Response, replay: bool) | Rejected(failure: Failure)

  // ---- catalog.go ----

  function Processes(mode: Mode): int { ExpectedProcessCount(mode) }

  function Max(a: int, b: int): int { if a < b then b else a }

  datatype Resource = Cpu | Ram

  function Amount(size: Size, r: Resource): int { if r == Cpu then size.vcpu else size.ramGB }

  /** Reserve: what an instance may take while it is being changed. */
  function Reserve(mode: Mode, desired: Size, applied: Size, r: Resource): int {
    Processes(mode) * Max(Amount(desired, r), Amount(applied, r))
  }

  function Price(c: Config, mode: Mode, size: Size): int {
    (c.vcpuPrice * size.vcpu + c.ramPrice * size.ramGB) * Processes(mode)
  }

  // ---- usage ----

  ghost function Sum(ids: set<Uid>, weight: Uid -> int): int {
    if ids == {} then 0
    else
      var id :| id in ids;
      weight(id) + Sum(ids - {id}, weight)
  }

  /** The rows ValkeyUsage counts: not deleted, and of this user if one is given. */
  predicate Counted(row: Row, user: Option<Uid>) {
    row.deletedAt.None? && (user.Some? ==> row.user == user.value)
  }

  function Weight(rows: map<Uid, Row>, user: Option<Uid>, r: Resource): Uid -> int {
    (id: Uid) => if id in rows && Counted(rows[id], user)
      then Reserve(rows[id].mode, rows[id].size, rows[id].applied, r) else 0
  }

  ghost function Usage(rows: map<Uid, Row>, user: Option<Uid>, r: Resource): int {
    Sum(rows.Keys, Weight(rows, user, r))
  }

  function One(rows: map<Uid, Row>): Uid -> int {
    (id: Uid) => if id in rows && rows[id].deletedAt.None? then 1 else 0
  }

  ghost function Instances(rows: map<Uid, Row>): int { Sum(rows.Keys, One(rows)) }

  // ---- checkQuota ----

  predicate Exceeds(requested: int, used: int, limit: int) {
    requested > limit && requested > used
  }

  /** What a user may reserve, and what the cluster has, in the units of each. */
  function UserLimit(c: Config, user: Uid, r: Resource): int {
    if user in c.quotas then Amount(c.quotas[user], r) else 0
  }

  function Unit(r: Resource): int { if r == Cpu then 1000 else 1024 }

  function ClusterLimit(c: Config, r: Resource): int { if r == Cpu then c.cpuMilli else c.ramMiB }

  /** `delta` is what the change adds to the reserve. */
  ghost predicate OverUser(c: Config, rows: map<Uid, Row>, user: Uid, delta: Resource -> int) {
    exists r :: Exceeds(Usage(rows, Some(user), r) + delta(r), Usage(rows, Some(user), r), UserLimit(c, user, r))
  }

  ghost predicate OverCluster(c: Config, rows: map<Uid, Row>, delta: Resource -> int) {
    exists r :: Exceeds((Usage(rows, None, r) + delta(r)) * Unit(r), Usage(rows, None, r) * Unit(r), ClusterLimit(c, r))
  }

  ghost function CheckQuota(
    c: Config, rows: map<Uid, Row>, user: Uid, delta: Resource -> int, isCreate: bool): Option<Failure>
  {
    if user !in c.quotas then Some(NotFound)
    else if OverUser(c, rows, user, delta) then Some(QuotaExceeded)
    else if isCreate && Instances(rows) + 1 > INSTANCE_LIMIT then Some(LimitReached)
    else if OverCluster(c, rows, delta) then Some(NotEnoughResources)
    else None
  }

  // ---- idempotency ----

  datatype KeyState = Unknown | Expired | Mismatch | Live(response: Response)

  /** liveIdempotencyKey. */
  function FindKey(b: Books, id: KeyId, request: Uid, now: Time): KeyState {
    if id !in b.keys then Unknown
    else if b.keys[id].createdAt <= now - IDEMPOTENCY_TTL then Expired
    else if b.keys[id].request != request then Mismatch
    else Live(b.keys[id].response)
  }

  function SaveKey(b: Books, id: KeyId, request: Uid, response: Response, now: Time): Books {
    b.(keys := b.keys[id := SavedKey(request, response, now)])
  }

  // ---- billing ----

  function OpenPeriod(c: Config, row: Row, now: Time): Period {
    Period(now, None, row.mode, row.size, Processes(row.mode), Price(c, row.mode, row.size))
  }

  /** CloseBillingPeriod: UPDATE of every open period of the instance. */
  function CloseAll(periods: seq<Period>, now: Time): (r: seq<Period>)
    ensures |r| == |periods|
  {
    seq(|periods|, i requires 0 <= i < |periods| =>
      if periods[i].endedAt.None? then periods[i].(endedAt := Some(now)) else periods[i])
  }

  // ---- readiness ----

  predicate Stale(row: Row, now: Time) {
    row.observedAt.None? || now - row.observedAt.value > MINUTE
  }

  /** ensureReady. */
  function NotReady(row: Row, now: Time): Option<Failure> {
    if row.desired != row.observed then Some(OperationInProgress)
    else if row.phase != Running && row.phase != Degraded then Some(InvalidPhase)
    else if Stale(row, now) then Some(StaleObservation)
    else None
  }

  // ---- the mutations ----

  /** What a transaction leaves behind; a rejected one is rolled back. */
  datatype Commit = Commit(books: Books, outcome: Outcome)

  function Reject(b: Books, failure: Failure): Commit { Commit(b, Rejected(failure)) }

  predicate NameExists(rows: map<Uid, Row>, user: Uid, name: Uid, but: Option<Uid>) {
    exists id :: id in rows && Some(id) != but &&
      rows[id].user == user && rows[id].name == name && rows[id].deletedAt.None?
  }

  datatype CreateInput = CreateInput(
    user: Uid, name: Uid, mode: Mode, size: Size, hash: Uid, whitelist: Uid, key: Uid, request: Uid)

  const NO_SIZE := Size(0, 0)

  function NewRow(input: CreateInput, now: Time): Row {
    Row(input.user, input.name, input.mode, input.size, 1, 0, 1, input.hash, input.whitelist, NO_SIZE, 0,
        Provisioning, None, now, None, None)
  }

  function NewReserve(input: CreateInput): Resource -> int {
    (r: Resource) => Reserve(input.mode, input.size, NO_SIZE, r)
  }

  /** Create, for the identifier the database gives the new row. */
  ghost function Create(c: Config, b: Books, input: CreateInput, id: Uid, now: Time): (r: Commit)
    ensures r.books.clock in {b.clock, now}
    ensures (r.books.rows == b.rows && r.books.periods == b.periods) ||
      (CheckQuota(c, b.rows, input.user, NewReserve(input), true).None? &&
       r.books.rows == b.rows[id := NewRow(input, now)] && r.books.clock == now &&
       r.books.periods == b.periods[id := [OpenPeriod(c, NewRow(input, now), now)]])
  {
    var key := KeyId(input.user, input.key);
    if input.size !in c.sizes then Reject(b, Unsupported)
    else match FindKey(b, key, input.request, now)
      case Mismatch => Reject(b, KeyMismatch)
      case Live(response) => Commit(b.(clock := now), Done(response, true))
      case _ =>
        if NameExists(b.rows, input.user, input.name, None) then Reject(b, NameTaken)
        else
          match CheckQuota(c, b.rows, input.user, NewReserve(input), true)
          case Some(failure) => Reject(b, failure)
          case None =>
            var row := NewRow(input, now);
            var response := Response(202, row);
            Commit(
              SaveKey(b.(rows := b.rows[id := row], periods := b.periods[id := [OpenPeriod(c, row, now)]],
                         clock := now),
                      key, input.request, response, now),
              Done(response, false))
  }

  predicate Owned(b: Books, user: Uid, id: Uid) { id in b.rows && b.rows[id].user == user }

  datatype ResizeInput = ResizeInput(user: Uid, id: Uid, size: Size, key: Uid, request: Uid)

  /** Resize. */
  ghost function Resize(c: Config, b: Books, input: ResizeInput, now: Time): (r: Commit)
    ensures r.books.clock in {b.clock, now}
    ensures (r.books.rows == b.rows && r.books.periods == b.periods) ||
      (Owned(b, input.user, input.id) && b.rows[input.id].deletionRequestedAt.None? &&
       NotReady(b.rows[input.id], now).None? && r.books.clock == now &&
       CheckQuota(c, b.rows, input.user, Growth(b.rows[input.id], input.size), false).None? &&
       r.books.rows == b.rows[input.id := Resized(b.rows[input.id], input.size)] &&
       r.books.periods == Rebill(c, b.periods, input.id, Resized(b.rows[input.id], input.size), now))
  {
    var key := KeyId(input.user, input.key);
    if input.size !in c.sizes then Reject(b, Unsupported)
    else if !Owned(b, input.user, input.id) then Reject(b, NotFound)
    else
      var row := b.rows[input.id];
      match FindKey(b, key, input.request, now)
      case Mismatch => Reject(b, KeyMismatch)
      case Live(response) => Commit(b.(clock := now), Done(response, true))
      case _ =>
        if row.deletionRequestedAt.Some? then Reject(b, Deleting)
        else if row.size == input.size then
          Commit(SaveKey(b.(clock := now), key, input.request, Response(200, row), now),
                 Done(Response(200, row), false))
        else if NotReady(row, now).Some? then Reject(b, NotReady(row, now).value)
        else
          match CheckQuota(c, b.rows, input.user, Growth(row, input.size), false)
          case Some(failure) => Reject(b, failure)
          case None =>
            var resized := Resized(row, input.size);
            var response := Response(202, resized);
            Commit(
              SaveKey(b.(rows := b.rows[input.id := resized], periods := Rebill(c, b.periods, input.id, resized, now),
                         clock := now),
                      key, input.request, response, now),
              Done(response, false))
  }

  /** What resizing a row adds to its reserve. */
  function Growth(row: Row, size: Size): Resource -> int {
    (r: Resource) => Reserve(row.mode, size, row.applied, r) - Reserve(row.mode, row.size, row.applied, r)
  }

  function Resized(row: Row, size: Size): Row { row.(size := size, desired := row.desired + 1) }

  /** The open period ends and one for the new size begins. */
  function Rebill(c: Config, periods: map<Uid, seq<Period>>, id: Uid, row: Row, now: Time): map<Uid, seq<Period>> {
    periods[id := (if id in periods then CloseAll(periods[id], now) else []) + [OpenPeriod(c, row, now)]]
  }

  /** Patch of the name; maintenance windows are not part of this model. */
  function Rename(b: Books, user: Uid, id: Uid, name: Uid, now: Time): (r: Commit)
    ensures r.books.clock in {b.clock, now} && r.books.periods == b.periods && r.books.keys == b.keys
    ensures r.books.rows == b.rows ||
      (id in b.rows && b.rows[id].deletionRequestedAt.None? && id in r.books.rows &&
       r.books.rows == b.rows[id := r.books.rows[id]] &&
       r.books.rows[id] == b.rows[id].(name := name))
  {
    if !Owned(b, user, id) then Reject(b, NotFound)
    else
      var row := b.rows[id];
      if row.deletionRequestedAt.Some? then Reject(b, Deleting)
      else if row.name == name then Commit(b.(clock := now), Done(Response(200, row), false))
      else if NameExists(b.rows, user, name, Some(id)) then Reject(b, NameTaken)
      else
        var renamed := row.(name := name);
        Commit(b.(rows := b.rows[id := renamed], clock := now), Done(Response(200, renamed), false))
  }

  /** UpdateWhitelist. */
  function Rewhitelist(b: Books, user: Uid, id: Uid, whitelist: Uid, now: Time): (r: Commit)
    ensures r.books.clock in {b.clock, now} && r.books.periods == b.periods && r.books.keys == b.keys
    ensures r.books.rows == b.rows ||
      (id in b.rows && b.rows[id].deletionRequestedAt.None? && id in r.books.rows &&
       r.books.rows == b.rows[id := r.books.rows[id]] &&
       b.rows[id].desired == b.rows[id].observed &&
       r.books.rows[id] == b.rows[id].(whitelist := whitelist, desired := b.rows[id].desired + 1))
  {
    if !Owned(b, user, id) then Reject(b, NotFound)
    else
      var row := b.rows[id];
      if row.deletionRequestedAt.Some? then Reject(b, Deleting)
      else if row.whitelist == whitelist then Commit(b.(clock := now), Done(Response(200, row), false))
      else if NotReady(row, now).Some? then Reject(b, NotReady(row, now).value)
      else
        var changed := row.(whitelist := whitelist, desired := row.desired + 1);
        Commit(b.(rows := b.rows[id := changed], clock := now), Done(Response(202, changed), false))
  }

  datatype RotateInput = RotateInput(user: Uid, id: Uid, hash: Uid, expected: int, key: Uid, request: Uid)

  function Rotated(row: Row, hash: Uid): Row {
    row.(hash := hash, password := row.password + 1, desired := row.desired + 1)
  }

  /** RotatePassword. */
  function Rotate(b: Books, input: RotateInput, now: Time): (r: Commit)
    ensures r.books.clock in {b.clock, now} && r.books.periods == b.periods
    ensures r.books.rows == b.rows ||
      (input.id in b.rows && b.rows[input.id].deletionRequestedAt.None? &&
       b.rows[input.id].desired == b.rows[input.id].observed &&
       r.books.rows == b.rows[input.id := Rotated(b.rows[input.id], input.hash)])
  {
    var key := KeyId(input.user, input.key);
    if input.expected < 1 then Reject(b, Unsupported)
    else if !Owned(b, input.user, input.id) then Reject(b, NotFound)
    else
      var row := b.rows[input.id];
      match FindKey(b, key, input.request, now)
      case Mismatch => Reject(b, KeyMismatch)
      case Live(response) => Commit(b.(clock := now), Done(response, true))
      case _ =>
        if row.deletionRequestedAt.Some? then Reject(b, Deleting)
        else if NotReady(row, now).Some? then Reject(b, NotReady(row, now).value)
        else if row.password != input.expected then Reject(b, VersionMismatch)
        else if row.hash == input.hash then Reject(b, SamePassword)
        else
          var rotated := Rotated(row, input.hash);
          var response := Response(202, rotated);
          Commit(SaveKey(b.(rows := b.rows[input.id := rotated], clock := now), key, input.request, response, now),
                 Done(response, false))
  }

  /** Delete. */
  function Delete(b: Books, user: Uid, id: Uid, now: Time): Commit {
    if !Owned(b, user, id) then Reject(b, NotFound)
    else
      var row := b.rows[id];
      if row.deletionRequestedAt.Some? then Commit(b.(clock := now), Done(Response(204, row), false))
      else
        var deleted := row.(deletionRequestedAt := Some(now));
        Commit(
          b.(rows := b.rows[id := deleted],
             periods := b.periods[id := if id in b.periods then CloseAll(b.periods[id], now) else []],
             clock := now),
          Done(Response(204, deleted), false))
  }

  // ---- what the synchronization writes ----

  datatype Seen = Seen(
    observed: int, appliedPassword: int, applied: Option<Applied>, phase: Phase, observedAt: Time)

  /** validateValkeyObservation. */
  predicate ImportAllowed(row: Row, seen: Seen) {
    && row.deletedAt.None? && row.deletionRequestedAt.None?
    && row.observed <= seen.observed <= row.desired
    && row.appliedPassword <= seen.appliedPassword <= row.password
    && (row.observedAt.Some? ==> row.observedAt.value <= seen.observedAt)
    && (seen.applied.Some? ==>
        && seen.applied.value.mode == row.mode
        && seen.applied.value.size.vcpu > 0 && seen.applied.value.size.ramGB > 0)
  }

  function Imported(row: Row, seen: Seen): Row {
    row.(observed := seen.observed, appliedPassword := seen.appliedPassword, phase := seen.phase,
         observedAt := Some(seen.observedAt),
         applied := if seen.applied.Some? then seen.applied.value.size else row.applied)
  }

  /** ImportValkeyObservation. */
  function Import(b: Books, id: Uid, seen: Seen, now: Time): Books {
    if id in b.rows && ImportAllowed(b.rows[id], seen)
    then b.(rows := b.rows[id := Imported(b.rows[id], seen)], clock := now) else b
  }

  /** CompleteValkeyDeletion, once the namespace is prepared. */
  function Complete(b: Books, id: Uid, now: Time): Books {
    if id in b.rows && b.rows[id].deletedAt.None? && b.rows[id].deletionRequestedAt.Some?
    then b.(rows := b.rows[id := b.rows[id].(deletedAt := Some(now))], clock := now) else b
  }

  // ---- histories ----

  datatype Op =
    | CreateOp(create: CreateInput, newId: Uid)
    | ResizeOp(resize: ResizeInput)
    | RenameOp(user: Uid, id: Uid, name: Uid)
    | WhitelistOp(user: Uid, id: Uid, whitelist: Uid)
    | RotateOp(rotate: RotateInput)
    | DeleteOp(user: Uid, id: Uid)
    | ImportOp(id: Uid, seen: Seen)
    | CompleteOp(id: Uid)

  /** New rows get new identifiers, and the database time does not go back. */
  predicate Possible(b: Books, op: Op, now: Time) {
    now >= b.clock && (op.CreateOp? ==> op.newId !in b.rows)
  }

  ghost function After(c: Config, b: Books, op: Op, now: Time): Books {
    match op
    case CreateOp(input, newId) => Create(c, b, input, newId, now).books
    case ResizeOp(input) => Resize(c, b, input, now).books
    case RenameOp(user, id, name) => Rename(b, user, id, name, now).books
    case WhitelistOp(user, id, whitelist) => Rewhitelist(b, user, id, whitelist, now).books
    case RotateOp(input) => Rotate(b, input, now).books
    case DeleteOp(user, id) => Delete(b, user, id, now).books
    case ImportOp(id, seen) => Import(b, id, seen, now)
    case CompleteOp(id) => Complete(b, id, now)
  }

  const EMPTY := Books(map[], map[], map[], 0)

  /** States of the tables, one after every transaction. */
  ghost predicate IsHistory(c: Config, states: seq<Books>, ops: seq<Op>, times: seq<Time>) {
    && |states| == |ops| + 1 == |times| + 1 && states[0] == EMPTY
    && forall i :: 0 <= i < |ops| ==>
      Possible(states[i], ops[i], times[i]) && states[i + 1] == After(c, states[i], ops[i], times[i])
  }
}
