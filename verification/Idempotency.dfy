/**
 Retries.  A keyed request that was carried out once is answered again with the stored response, and
 changes nothing, however often it is repeated and whatever happened in between, until its key expires;
 the same key for another request is refused.
 */
module Idempotency {
  import opened Options
  import opened OperatorTypes
  import opened Ledger

  predicate Keyed(op: Op) { op.CreateOp? || op.ResizeOp? || op.RotateOp? }

  function KeyOf(op: Op): KeyId
    requires Keyed(op)
  {
    match op
    case CreateOp(input, _) => KeyId(input.user, input.key)
    case ResizeOp(input) => KeyId(input.user, input.key)
    case RotateOp(input) => KeyId(input.user, input.key)
  }

  function RequestOf(op: Op): Uid
    requires Keyed(op)
  {
    match op
    case CreateOp(input, _) => input.request
    case ResizeOp(input) => input.request
    case RotateOp(input) => input.request
  }

  ghost function Result(c: Config, b: Books, op: Op, now: Time): Commit
    requires Keyed(op)
  {
    match op
    case CreateOp(input, newId) => Create(c, b, input, newId, now)
    case ResizeOp(input) => Ledger.Resize(c, b, input, now)
    case RotateOp(input) => Ledger.Rotate(b, input, now)
  }

  /** What the request is checked for before its key is looked at. */
  predicate Admissible(c: Config, b: Books, op: Op)
    requires Keyed(op)
  {
    match op
    case CreateOp(input, _) => input.size in c.sizes
    case ResizeOp(input) => input.size in c.sizes && Owned(b, input.user, input.id)
    case RotateOp(input) => input.expected >= 1 && Owned(b, input.user, input.id)
  }

  /** The response to this very request is stored and has not expired. */
  predicate Remembered(b: Books, op: Op, response: Response, now: Time)
    requires Keyed(op)
  {
    && KeyOf(op) in b.keys && b.keys[KeyOf(op)].request == RequestOf(op)
    && b.keys[KeyOf(op)].response == response && now < b.keys[KeyOf(op)].createdAt + IDEMPOTENCY_TTL
  }

  /** Carrying a request out stores its response. */
  lemma CarriedOutIsRemembered(c: Config, b: Books, op: Op, now: Time)
    requires Keyed(op) && Result(c, b, op, now).outcome.Done? && !Result(c, b, op, now).outcome.replay
    ensures Remembered(Result(c, b, op, now).books, op, Result(c, b, op, now).outcome.response, now)
    ensures Admissible(c, b, op)
  {
    hide CheckQuota, NameExists, NotReady;
  }

  /** A remembered request is replayed: the same response, and nothing but the clock moves. */
  lemma RememberedIsReplayed(c: Config, b: Books, op: Op, response: Response, now: Time)
    requires Keyed(op) && Admissible(c, b, op) && Remembered(b, op, response, now)
    ensures Result(c, b, op, now) == Commit(b.(clock := now), Done(response, true))
  {
    hide CheckQuota, NameExists, NotReady;
  }

  /** The key of one request is refused for another. */
  lemma ReusedKeyIsRefused(c: Config, b: Books, op: Op, now: Time)
    requires Keyed(op) && Admissible(c, b, op)
    requires KeyOf(op) in b.keys && b.keys[KeyOf(op)].request != RequestOf(op)
    requires now < b.keys[KeyOf(op)].createdAt + IDEMPOTENCY_TTL
    ensures Result(c, b, op, now) == Commit(b, Rejected(KeyMismatch))
  {
    hide CheckQuota, NameExists, NotReady;
  }

  /** A key that has not expired survives every transaction. */
  lemma KeySurvives(c: Config, b: Books, op: Op, now: Time, id: KeyId)
    requires id in b.keys && now < b.keys[id].createdAt + IDEMPOTENCY_TTL
    ensures id in After(c, b, op, now).keys && After(c, b, op, now).keys[id] == b.keys[id]
  {
    hide CheckQuota, NameExists, NotReady;
    match op
    case CreateOp(input, newId) => CreationKeepsKey(c, b, input, newId, now, id);
    case ResizeOp(input) => ResizeKeepsKey(c, b, input, now, id);
    case RotateOp(input) => RotationKeepsKey(b, input, now, id);
    case _ =>
  }

  lemma CreationKeepsKey(c: Config, b: Books, input: CreateInput, newId: Uid, now: Time, id: KeyId)
    requires id in b.keys && now < b.keys[id].createdAt + IDEMPOTENCY_TTL
    ensures
      var t := Create(c, b, input, newId, now).books;
      id in t.keys && t.keys[id] == b.keys[id]
  {
    hide CheckQuota, NameExists;
  }

  lemma ResizeKeepsKey(c: Config, b: Books, input: ResizeInput, now: Time, id: KeyId)
    requires id in b.keys && now < b.keys[id].createdAt + IDEMPOTENCY_TTL
    ensures
      var t := Ledger.Resize(c, b, input, now).books;
      id in t.keys && t.keys[id] == b.keys[id]
  {
    hide CheckQuota, NotReady;
  }

  lemma RotationKeepsKey(b: Books, input: RotateInput, now: Time, id: KeyId)
    requires id in b.keys && now < b.keys[id].createdAt + IDEMPOTENCY_TTL
    ensures
      var t := Ledger.Rotate(b, input, now).books;
      id in t.keys && t.keys[id] == b.keys[id]
  {
    hide NotReady;
  }

  /** Rows stay, with their owners. */
  lemma OwnersStay(c: Config, b: Books, op: Op, now: Time, user: Uid, id: Uid)
    requires Possible(b, op, now) && Owned(b, user, id)
    ensures Owned(After(c, b, op, now), user, id)
  {
    hide Create, Ledger.Resize, Ledger.Rotate, Rename, Rewhitelist, CheckQuota, NotReady;
    if op.CreateOp? { assert op.newId != id; }
    if op.RenameOp? || op.WhitelistOp? { RowChangesKeepOwners(b, op, now); }
  }

  lemma RowChangesKeepOwners(b: Books, op: Op, now: Time)
    requires op.RenameOp? || op.WhitelistOp?
    ensures
      var t := if op.RenameOp? then Rename(b, op.user, op.id, op.name, now).books.rows
               else Rewhitelist(b, op.user, op.id, op.whitelist, now).books.rows;
      forall id :: id in b.rows ==> id in t && t[id].user == b.rows[id].user
  {
    hide NotReady, NameExists;
  }

  /** The owner, the size and the key a request was carried out with stay as they were until the key expires. */
  lemma {:induction false} RequestsAreRemembered(
    c: Config, states: seq<Books>, ops: seq<Op>, times: seq<Time>, i: nat, j: nat, now: Time)
    requires IsHistory(c, states, ops, times) && i < j < |states| && Keyed(ops[i])
    requires
      var result := Result(c, states[i], ops[i], times[i]);
      result.outcome.Done? && !result.outcome.replay
    requires times[i] <= now < times[i] + IDEMPOTENCY_TTL && forall m :: i < m < j ==> times[m] <= now
    ensures Admissible(c, states[j], ops[i])
    ensures Remembered(states[j], ops[i], Result(c, states[i], ops[i], times[i]).outcome.response, now)
    decreases j - i
  {
    hide After, Result, Admissible;
    var op, t := ops[i], times[i];
    if j == i + 1 {
      CarriedOutIsRemembered(c, states[i], op, t);
      ResultIsAfter(c, states[i], op, t);
      KeyIsSavedNow(c, states[i], op, t);
      StepsKeepAdmissible(c, states[i], op, t, op);
    } else {
      RequestsAreRemembered(c, states, ops, times, i, j - 1, now);
      assert states[j] == After(c, states[j - 1], ops[j - 1], times[j - 1]);
      StepsKeepAdmissible(c, states[j - 1], ops[j - 1], times[j - 1], op);
      assert times[j - 1] <= now;
      KeySurvives(c, states[j - 1], ops[j - 1], times[j - 1], KeyOf(op));
    }
  }

  lemma ResultIsAfter(c: Config, b: Books, op: Op, now: Time)
    requires Keyed(op)
    ensures Result(c, b, op, now).books == After(c, b, op, now)
  {
    hide Create, Ledger.Resize, Ledger.Rotate;
  }

  lemma KeyIsSavedNow(c: Config, b: Books, op: Op, now: Time)
    requires Keyed(op) && Result(c, b, op, now).outcome.Done? && !Result(c, b, op, now).outcome.replay
    ensures KeyOf(op) in After(c, b, op, now).keys && After(c, b, op, now).keys[KeyOf(op)].createdAt == now
  {
    hide CheckQuota, NameExists, NotReady;
  }

  lemma StepsKeepAdmissible(c: Config, b: Books, op: Op, now: Time, request: Op)
    requires Possible(b, op, now) && Keyed(request) && Admissible(c, b, request)
    ensures Admissible(c, After(c, b, op, now), request)
  {
    hide After;
    match request
    case CreateOp(_, _) =>
    case ResizeOp(input) => OwnersStay(c, b, op, now, input.user, input.id);
    case RotateOp(input) => OwnersStay(c, b, op, now, input.user, input.id);
  }

  /**
   In every history: a request that was carried out, sent again with its key after any other transactions and
   before the key expires, gets the first response again and changes nothing.
   */
  lemma RetriesAreReplayed(
    c: Config, states: seq<Books>, ops: seq<Op>, times: seq<Time>, i: nat, j: nat, now: Time)
    requires IsHistory(c, states, ops, times) && i < j < |states| && Keyed(ops[i])
    requires
      var result := Result(c, states[i], ops[i], times[i]);
      result.outcome.Done? && !result.outcome.replay
    requires times[i] <= now < times[i] + IDEMPOTENCY_TTL && forall m :: i < m < j ==> times[m] <= now
    ensures Result(c, states[j], ops[i], now) ==
      Commit(states[j].(clock := now), Done(Result(c, states[i], ops[i], times[i]).outcome.response, true))
  {
    hide After, Result, Admissible, Remembered;
    RequestsAreRemembered(c, states, ops, times, i, j, now);
    RememberedIsReplayed(c, states[j], ops[i], Result(c, states[i], ops[i], times[i]).outcome.response, now);
  }
}
