/**
 Paging through the audit log of an instance (audit/page.go, store/audit.go).  Whoever follows the cursors
 gets every entry that was there at the first request exactly once, in order, and in as few pages as
 possible, even while newer entries keep being added.  Times are in nanoseconds; 0 is the zero time.
 */
module AuditPaging {
  import opened Options
  import opened OperatorTypes

  const MAX_PAGE_LIMIT := 200
  const MICROSECOND := 1000

  datatype Entry = Entry(id: Uid, createdAt: Time, action: nat, email: nat)

  datatype Position = Position(createdAt: Time, id: Uid)

  datatype Page = Page(items: seq<Entry>, next: Option<Position>)

  datatype Answer = Ok(page: Page) | OutOfRange

  function PositionOf(entry: Entry): Position { Position(entry.createdAt, entry.id) }

  /** The row comparison (created_at, id) < (?, ?). */
  predicate Less(a: Position, b: Position) {
    a.createdAt < b.createdAt || (a.createdAt == b.createdAt && a.id < b.id)
  }

  /** The rows of one resource in the order of the query: newest first, no two at the same position. */
  predicate Descending(log: seq<Entry>) {
    forall j, k :: 0 <= j < k < |log| ==> Less(PositionOf(log[k]), PositionOf(log[j]))
  }

  /** The database keeps times to the microsecond, and sets a time and an identifier. */
  predicate Stored(log: seq<Entry>) {
    && Descending(log)
    && forall k :: 0 <= k < |log| ==>
      log[k].createdAt % MICROSECOND == 0 && log[k].createdAt != 0 && log[k].id != 0
  }

  predicate Selected(entry: Entry, before: Option<Position>) {
    before.Some? ==> Less(PositionOf(entry), before.value)
  }

  function Below(log: seq<Entry>, before: Option<Position>): seq<Entry> {
    if log == [] then []
    else (if Selected(log[0], before) then [log[0]] else []) + Below(log[1..], before)
  }

  /** ListAudit. */
  function ListAudit(log: seq<Entry>, before: Option<Position>, limit: nat): seq<Entry> {
    var rows := Below(log, before);
    if |rows| <= limit then rows else rows[..limit]
  }

  /** encodeCursor; the encoding of the payload is one-to-one and not modelled. */
  function EncodeCursor(entry: Entry): Position {
    Position(entry.createdAt - entry.createdAt % MICROSECOND, entry.id)
  }

  /** decodeCursor. */
  function DecodeCursor(cursor: Position): Option<Position> {
    if cursor.createdAt == 0 || cursor.id == 0 then None else Some(cursor)
  }

  /** ListResource. */
  function ListResource(log: seq<Entry>, before: Option<Position>, limit: int): Answer {
    if limit < 1 || limit > MAX_PAGE_LIMIT then OutOfRange
    else
      var items := ListAudit(log, before, limit + 1);
      if |items| <= limit then Ok(Page(items, None))
      else Ok(Page(items[..limit], Some(EncodeCursor(items[limit - 1]))))
  }

  // ---- cursors and rows ----

  /** A cursor leads back to the position of the last entry of its page. */
  lemma CursorsRoundTrip(log: seq<Entry>, k: nat)
    requires Stored(log) && k < |log|
    ensures DecodeCursor(EncodeCursor(log[k])) == Some(PositionOf(log[k]))
  {
  }

  /** The rows before an entry are the ones listed after it. */
  lemma {:induction false} BelowEntry(log: seq<Entry>, k: nat)
    requires Descending(log) && k < |log|
    ensures Below(log, Some(PositionOf(log[k]))) == log[k + 1..]
  {
    if k == 0 {
      AllBelow(log[1..], Some(PositionOf(log[0])));
    } else {
      BelowEntry(log[1..], k - 1);
    }
  }

  lemma {:induction false} AllBelow(log: seq<Entry>, before: Option<Position>)
    requires forall k :: 0 <= k < |log| ==> Selected(log[k], before)
    ensures Below(log, before) == log
  {
    if log != [] { AllBelow(log[1..], before); }
  }

  /** Newer entries are not below anything older. */
  lemma {:induction false} NewerIsNotBelow(added: seq<Entry>, log: seq<Entry>, k: nat)
    requires Descending(added + log) && k < |log|
    ensures Below(added + log, Some(PositionOf(log[k]))) == log[k + 1..]
  {
    var all := added + log;
    assert all[|added| + k] == log[k] && all[|added| + k + 1..] == log[k + 1..];
    BelowEntry(all, |added| + k);
  }

  // ---- following the cursors ----

  /** `added(k)` is what was newer than `log` at the k-th request of a client. */
  ghost predicate Growing(log: seq<Entry>, added: nat -> seq<Entry>) {
    added(0) == [] && forall k: nat :: Stored(added(k) + log)
  }

  /** The cursor of a request: none at first, then the one of the page before. */
  function Cursor(pages: seq<Page>, k: nat): Option<Position>
    requires k <= |pages|
  {
    if k == 0 || pages[k - 1].next.None? then None else DecodeCursor(pages[k - 1].next.value)
  }

  /** The k-th page is the answer to the cursor of the page before it. */
  predicate Answers(pages: seq<Page>, log: seq<Entry>, added: nat -> seq<Entry>, limit: int, k: nat)
    requires k < |pages|
  {
    && (k > 0 ==> pages[k - 1].next.Some?)
    && ListResource(added(k) + log, Cursor(pages, k), limit) == Ok(pages[k])
  }

  /** The pages a client got that asks for one page after the other. */
  ghost predicate IsWalk(pages: seq<Page>, log: seq<Entry>, added: nat -> seq<Entry>, limit: int) {
    forall k: nat :: k < |pages| ==> Answers(pages, log, added, limit, k)
  }

  /** Where the k-th page begins. */
  function Begin(k: nat, limit: nat): nat { if k == 0 then 0 else Begin(k - 1, limit) + limit }

  lemma {:induction false} BeginIsProduct(k: nat, limit: nat)
    ensures Begin(k, limit) == k * limit
  {
    if k > 0 {
      BeginIsProduct(k - 1, limit);
      assert k * limit == (k - 1) * limit + limit;
    }
  }

  /** The page of the log that begins after `from` entries. */
  function PageOf(log: seq<Entry>, from: nat, limit: nat): Page
    requires from <= |log| && 1 <= limit
  {
    if |log| - from <= limit then Page(log[from..], None)
    else Page(log[from..from + limit], Some(EncodeCursor(log[from + limit - 1])))
  }

  /** A list of rows is cut into a page the same way, whether it was read whole or one row too many. */
  lemma CuttingIsPage(log: seq<Entry>, from: nat, limit: nat)
    requires from <= |log| && 1 <= limit < |log| - from
    ensures
      var items := log[from..][..limit + 1];
      Page(items[..limit], Some(EncodeCursor(items[limit - 1]))) == PageOf(log, from, limit)
  {
    assert log[from..][..limit + 1][..limit] == log[from..from + limit];
  }

  lemma RowsMakePage(all: seq<Entry>, before: Option<Position>, log: seq<Entry>, from: nat, limit: nat)
    requires from <= |log| && 1 <= limit <= MAX_PAGE_LIMIT && Below(all, before) == log[from..]
    ensures ListResource(all, before, limit) == Ok(PageOf(log, from, limit))
  {
    hide Below, EncodeCursor;
    if |log| - from > limit { CuttingIsPage(log, from, limit); }
  }

  lemma FirstPage(log: seq<Entry>, added: nat -> seq<Entry>, limit: nat)
    requires Growing(log, added) && 1 <= limit <= MAX_PAGE_LIMIT
    ensures ListResource(added(0) + log, None, limit) == Ok(PageOf(log, 0, limit))
  {
    hide ListResource, PageOf;
    AllBelow(log, None);
    assert added(0) + log == log && log[0..] == log;
    RowsMakePage(log, None, log, 0, limit);
  }

  lemma LaterPage(log: seq<Entry>, added: nat -> seq<Entry>, k: nat, from: nat, limit: nat)
    requires Growing(log, added) && 0 < from <= |log| && 1 <= limit <= MAX_PAGE_LIMIT
    ensures
      ListResource(added(k) + log, DecodeCursor(EncodeCursor(log[from - 1])), limit) == Ok(PageOf(log, from, limit))
  {
    hide ListResource, PageOf, Below, EncodeCursor, DecodeCursor;
    assert Stored(added(k) + log) && Stored(added(0) + log) && added(0) + log == log;
    CursorsRoundTrip(log, from - 1);
    NewerIsNotBelow(added(k), log, from - 1);
    RowsMakePage(added(k) + log, Some(PositionOf(log[from - 1])), log, from, limit);
  }

  /** The k-th page a client gets is the k-th page of the log as it was at the first request. */
  lemma {:induction false} WalkAt(pages: seq<Page>, log: seq<Entry>, added: nat -> seq<Entry>, limit: int, k: nat)
    requires Growing(log, added) && 1 <= limit <= MAX_PAGE_LIMIT && IsWalk(pages, log, added, limit) && k < |pages|
    ensures Begin(k, limit) <= |log| && (k > 0 ==> Begin(k, limit) < |log|)
    ensures pages[k] == PageOf(log, Begin(k, limit), limit)
  {
    hide ListResource, EncodeCursor, DecodeCursor, Growing;
    assert Answers(pages, log, added, limit, k);
    if k == 0 {
      FirstPage(log, added, limit);
    } else {
      WalkAt(pages, log, added, limit, k - 1);
      LaterPage(log, added, k, Begin(k, limit), limit);
    }
  }

  function Items(pages: seq<Page>): seq<Entry> {
    if pages == [] then [] else Items(pages[..|pages| - 1]) + pages[|pages| - 1].items
  }

  lemma {:induction false} WalkedSoFar(pages: seq<Page>, log: seq<Entry>, added: nat -> seq<Entry>, limit: int, k: nat)
    requires Growing(log, added) && 1 <= limit <= MAX_PAGE_LIMIT && IsWalk(pages, log, added, limit) && k <= |pages|
    ensures Items(pages[..k]) == if Begin(k, limit) <= |log| then log[..Begin(k, limit)] else log
  {
    hide ListResource, EncodeCursor, DecodeCursor, Growing, IsWalk;
    if k > 0 {
      WalkedSoFar(pages, log, added, limit, k - 1);
      WalkAt(pages, log, added, limit, k - 1);
      assert pages[..k][..k - 1] == pages[..k - 1];
    }
  }

  /**
   A client that follows the cursors until there is none gets every entry that was there at its first request
   exactly once and in order, in the least number of pages of this size, whatever newer was added meanwhile.
   */
  lemma PagingIsComplete(pages: seq<Page>, log: seq<Entry>, added: nat -> seq<Entry>, limit: int)
    requires Growing(log, added) && 1 <= limit <= MAX_PAGE_LIMIT && IsWalk(pages, log, added, limit)
    requires pages != [] && pages[|pages| - 1].next.None?
    ensures Items(pages) == log
    ensures if log == [] then |pages| == 1 else (|pages| - 1) * limit < |log| <= |pages| * limit
  {
    hide ListResource, EncodeCursor, DecodeCursor, Growing, IsWalk;
    WalkAt(pages, log, added, limit, |pages| - 1);
    WalkedSoFar(pages, log, added, limit, |pages|);
    BeginIsProduct(|pages| - 1, limit);
    BeginIsProduct(|pages|, limit);
    assert pages[..|pages|] == pages;
  }

  /** As long as there is a cursor, the next request is answered with a page that is not empty. */
  lemma PagingContinues(pages: seq<Page>, log: seq<Entry>, added: nat -> seq<Entry>, limit: int)
    requires Growing(log, added) && 1 <= limit <= MAX_PAGE_LIMIT && IsWalk(pages, log, added, limit)
    requires pages != [] && pages[|pages| - 1].next.Some?
    ensures
      var answer := ListResource(added(|pages|) + log, Cursor(pages, |pages|), limit);
      answer.Ok? && answer.page.items != []
  {
    hide ListResource, EncodeCursor, DecodeCursor, Growing, IsWalk;
    WalkAt(pages, log, added, limit, |pages| - 1);
    LaterPage(log, added, |pages|, Begin(|pages|, limit), limit);
  }
}
