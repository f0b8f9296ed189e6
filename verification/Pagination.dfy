/** Keyset pagination: pages in descending (sort key, id) order under a
    watermark fixed by the first page, over a table that changes between pages. */
module Pagination {
  import opened Basics

  const DEFAULT_PAGE_LIMIT: nat := 50
  const MAX_PAGE_LIMIT: nat := 100
  const MAX_CURSOR_BYTES: nat := 2048
  const CURSOR_VERSION: nat := 1
  const MAX_KIND: nat := 64
  const FILTER_HASH_CHARS: nat := 64
  const MAX_TIMESTAMP: nat := 64
  const UUIDS: nat := 0x1_0000_0000_0000_0000_0000_0000_0000_0000

  // A row's place in the order, with the timestamp it displays.
  datatype Boundary = Boundary(sortKey: int, timestamp: string, id: nat)
  datatype Cursor = Cursor(version: nat, kind: string, filterHash: string, high: Boundary, after: Boundary)
  datatype Request = Request(limit: nat, cursor: Option<Cursor>)
  datatype Response = Response(items: seq<Boundary>, next: Option<string>, high: Option<Boundary>)

  // Text encodings are any functions; reading a timestamp gives its key if the text is canonical.
  datatype Codecs = Codecs(encode: Cursor -> string, decode: string -> Option<Cursor>,
                           sortKeyOf: string -> Option<int>, version7: nat -> bool)

  predicate Before(a: Boundary, b: Boundary) {
    a.sortKey < b.sortKey || (a.sortKey == b.sortKey && a.id < b.id)
  }

  predicate AtOrBefore(a: Boundary, b: Boundary) {
    a.sortKey < b.sortKey || (a.sortKey == b.sortKey && a.id <= b.id)
  }

  // A collection's kind is a short constant, and a filter hash prints as 64 hexadecimal digits.
  predicate ProperCollection(kind: string, filterHash: string) {
    |kind| <= MAX_KIND && |filterHash| == FILTER_HASH_CHARS
  }

  // The cursors the server can issue.
  predicate Issuable(codecs: Codecs, c: Cursor) {
    c.version == CURSOR_VERSION && ProperCollection(c.kind, c.filterHash) &&
    ValidBoundary(codecs, c.high) && ValidBoundary(codecs, c.after)
  }

  // Canonical timestamps are short, identifiers have 128 bits, and every cursor that can be issued reads back
  // from a text within the limit. Other texts may decode to anything.
  ghost predicate Reliable(codecs: Codecs) {
    && (forall text :: codecs.sortKeyOf(text).Some? ==> |text| <= MAX_TIMESTAMP)
    && (forall id: nat :: codecs.version7(id) ==> id < UUIDS)
    && (forall c :: Issuable(codecs, c) ==>
          codecs.decode(codecs.encode(c)) == Some(c) && |codecs.encode(c)| <= MAX_CURSOR_BYTES)
  }

  predicate ValidBoundary(codecs: Codecs, b: Boundary) {
    codecs.sortKeyOf(b.timestamp) == Some(b.sortKey) && codecs.version7(b.id)
  }

  function ParsePage(codecs: Codecs, limit: Option<nat>, cursor: Option<string>, kind: string,
                     filterHash: string): Option<Request> {
    var limit := if limit.Some? then limit.value else DEFAULT_PAGE_LIMIT;
    if !(1 <= limit <= MAX_PAGE_LIMIT) then None
    else if cursor.None? then Some(Request(limit, None))
    else if |cursor.value| > MAX_CURSOR_BYTES then None
    else
      match codecs.decode(cursor.value)
      case None => None
      case Some(c) =>
        if c.version != CURSOR_VERSION || c.kind != kind || c.filterHash != filterHash then None
        else if !ValidBoundary(codecs, c.high) || !ValidBoundary(codecs, c.after) then None
        else if !AtOrBefore(c.after, c.high) then None
        else Some(Request(limit, Some(c)))
  }

  /** Exactly which requests are accepted: a page limit of 1 to 100, 50 if none is given; and either no cursor, or a
      text of at most 2048 characters that decodes to a cursor of version 1 for this collection and these filters,
      whose boundaries are canonical and in order. */
  lemma ParsesIff(codecs: Codecs, limit: Option<nat>, text: Option<string>, kind: string, filterHash: string,
                  r: Request)
    ensures ParsePage(codecs, limit, text, kind, filterHash) == Some(r) <==>
      && r.limit == (if limit.Some? then limit.value else 50) && 1 <= r.limit <= 100
      && (r.cursor.None? <==> text.None?)
      && (text.Some? ==>
            && |text.value| <= 2048 && codecs.decode(text.value) == r.cursor
            && r.cursor.value.version == 1 && r.cursor.value.kind == kind && r.cursor.value.filterHash == filterHash
            && InOrder(codecs, r.cursor.value.after, r.cursor.value.high))
  {
  }

  // Two boundaries whose timestamps give their keys and whose identifiers are of version 7, the first at or before the
  // second: by key, and by identifier among equal keys.
  predicate InOrder(codecs: Codecs, a: Boundary, b: Boundary) {
    && codecs.sortKeyOf(a.timestamp) == Some(a.sortKey) && codecs.version7(a.id)
    && codecs.sortKeyOf(b.timestamp) == Some(b.sortKey) && codecs.version7(b.id)
    && (a.sortKey < b.sortKey || (a.sortKey == b.sortKey && a.id <= b.id))
  }

  /** A cursor issued for one collection and filter is refused by every other. */
  lemma ForeignCursorsAreRefused(codecs: Codecs, c: Cursor, limit: Option<nat>, kind: string, filterHash: string)
    requires Reliable(codecs) && Issuable(codecs, c) && (c.kind != kind || c.filterHash != filterHash)
    ensures ParsePage(codecs, limit, Some(codecs.encode(c)), kind, filterHash).None?
  {
    assert codecs.decode(codecs.encode(c)) == Some(c);
  }

  // ---- the query ----

  // A row has one place: identifiers are unique.
  ghost predicate Keyed(rows: set<Boundary>) {
    forall a, b :: a in rows && b in rows && a.id == b.id ==> a == b
  }

  predicate Matches(page: Request, b: Boundary) {
    page.cursor.Some? ==> AtOrBefore(b, page.cursor.value.high) && Before(b, page.cursor.value.after)
  }

  ghost function Matching(rows: set<Boundary>, page: Request): set<Boundary> {
    set b | b in rows && Matches(page, b)
  }

  ghost predicate DescendingOrder(q: seq<Boundary>) {
    forall i, j :: 0 <= i < j < |q| ==> Before(q[j], q[i])
  }

  lemma {:induction false} GreatestExists(rows: set<Boundary>) returns (m: Boundary)
    requires rows != {} && Keyed(rows)
    ensures m in rows && forall b :: b in rows && b != m ==> Before(b, m)
  {
    m :| m in rows;
    var rest := rows - {m};
    assert forall b :: b in rows ==> b == m || b in rest;
    if rest != {} {
      var n := GreatestExists(rest);
      if Before(m, n) {
        forall b | b in rows && b != n ensures Before(b, n) { assert b == m || b in rest; }
        m := n;
      } else {
        forall b | b in rows && b != m ensures Before(b, m) { assert b in rest; }
      }
    }
  }

  ghost function Greatest(rows: set<Boundary>): (m: Boundary)
    requires rows != {} && Keyed(rows)
    ensures m in rows && forall b :: b in rows && b != m ==> Before(b, m)
  {
    assert exists m :: m in rows && forall b :: b in rows && b != m ==> Before(b, m) by {
      var _ := GreatestExists(rows);
    }
    var m :| m in rows && forall b :: b in rows && b != m ==> Before(b, m);
    m
  }

  ghost function Descending(rows: set<Boundary>): (q: seq<Boundary>)
    requires Keyed(rows)
    ensures |q| == |rows| && DescendingOrder(q) && forall b :: b in q <==> b in rows
  {
    if rows == {} then []
    else
      var m := Greatest(rows);
      var rest := Descending(rows - {m});
      assert forall i :: 0 <= i < |rest| ==> rest[i] in rows - {m};
      [m] + rest
  }

  // ORDER BY sort key DESC, id DESC LIMIT limit + 1.
  ghost function QueryRows(rows: set<Boundary>, page: Request): seq<Boundary>
    requires Keyed(rows)
  {
    var q := Descending(Matching(rows, page));
    if |q| <= page.limit + 1 then q else q[..page.limit + 1]
  }

  function Last(items: seq<Boundary>): Boundary
    requires items != []
  {
    items[|items| - 1]
  }

  // What a page is, given the rows read for it: a prefix within the limit, all of them exactly when no cursor is
  // handed out, and a full page under the traversal's watermark when one is.
  predicate IsPage(codecs: Codecs, rows: seq<Boundary>, page: Request, kind: string, filterHash: string, r: Response) {
    && r.items <= rows && |r.items| <= page.limit
    && (r.next.None? <==> r.items == rows)
    && (page.cursor.Some? ==> r.high == Some(page.cursor.value.high))
    && (page.cursor.None? ==> (r.high.None? <==> rows == []) && (rows != [] ==> r.high == Some(rows[0])))
    && (r.next.Some? ==>
          && |r.items| == page.limit && r.items != [] && r.high.Some?
          && r.next.value == codecs.encode(Cursor(CURSOR_VERSION, kind, filterHash, r.high.value, Last(r.items))))
  }

  lemma PageIsUnique(codecs: Codecs, rows: seq<Boundary>, page: Request, kind: string, filterHash: string,
                     a: Response, b: Response)
    requires IsPage(codecs, rows, page, kind, filterHash, a) && IsPage(codecs, rows, page, kind, filterHash, b)
    ensures a == b
  {
    assert a.items == rows[..|a.items|] && b.items == rows[..|b.items|];
  }

  /** Turns the rows of a query into a page, keeping the first watermark. With reliable codecs and rows read from
      a valid table, the server accepts the cursor it hands out: the next request continues below the last item,
      under the same watermark. */
  method PageFromRows(codecs: Codecs, rows: seq<Boundary>, page: Request, kind: string, filterHash: string)
    returns (response: Response)
    requires page.limit > 0
    ensures IsPage(codecs, rows, page, kind, filterHash, response)
    ensures response.next.Some? <==> |rows| > page.limit
    ensures forall table, limit ::
      Reliable(codecs) && ProperCollection(kind, filterHash) && ValidTable(codecs, table) && ValidPage(codecs, page) &&
      rows == QueryRows(table, page) && response.next.Some? && 1 <= limit <= MAX_PAGE_LIMIT ==>
        ContinuesBelow(codecs, response, kind, filterHash, limit)
  {
    var kept := rows;
    var high := if page.cursor.Some? then Some(page.cursor.value.high) else if kept != [] then Some(kept[0]) else None;
    var hasNext := |kept| > page.limit;
    if hasNext { kept := kept[..page.limit]; }
    var next: Option<string> := None;
    if hasNext {
      var after := kept[|kept| - 1];
      next := Some(codecs.encode(Cursor(CURSOR_VERSION, kind, filterHash, high.value, after)));
    }
    response := Response(kept, next, high);
    forall table, limit |
      Reliable(codecs) && ProperCollection(kind, filterHash) && ValidTable(codecs, table) && ValidPage(codecs, page) &&
      rows == QueryRows(table, page) && response.next.Some? && 1 <= limit <= MAX_PAGE_LIMIT
      ensures ContinuesBelow(codecs, response, kind, filterHash, limit)
    {
      NextIsAccepted(codecs, table, page, kind, filterHash, response, limit);
    }
  }

  ghost predicate ValidTable(codecs: Codecs, rows: set<Boundary>) {
    Keyed(rows) && forall b :: b in rows ==> ValidBoundary(codecs, b)
  }

  // What parsing guarantees of a request.
  ghost predicate ValidPage(codecs: Codecs, page: Request) {
    page.limit > 0 && (page.cursor.Some? ==> ValidBoundary(codecs, page.cursor.value.high))
  }

  ghost predicate ContinuesBelow(codecs: Codecs, r: Response, kind: string, filterHash: string, limit: nat) {
    var parsed := ParsePage(codecs, Some(limit), r.next, kind, filterHash);
    && parsed.Some? && parsed.value.limit == limit && parsed.value.cursor.Some? && r.items != []
    && parsed.value.cursor.value.after == Last(r.items)
    && r.high == Some(parsed.value.cursor.value.high)
  }

  // Every cursor handed out over a valid table is one that can be issued.
  lemma HandsOutIssuable(codecs: Codecs, table: set<Boundary>, page: Request, kind: string, filterHash: string,
                         r: Response)
    requires ProperCollection(kind, filterHash) && ValidTable(codecs, table) && ValidPage(codecs, page)
    requires IsPage(codecs, QueryRows(table, page), page, kind, filterHash, r) && r.next.Some?
    ensures Issuable(codecs, Cursor(CURSOR_VERSION, kind, filterHash, r.high.value, Last(r.items)))
    ensures AtOrBefore(Last(r.items), r.high.value)
  {
    var q := QueryRows(table, page);
    QueryFacts(table, page);
    assert Last(r.items) in q && q[0] in q;
    assert Last(r.items) == q[|r.items| - 1];
  }

  lemma NextIsAccepted(codecs: Codecs, table: set<Boundary>, page: Request, kind: string, filterHash: string,
                       r: Response, limit: nat)
    requires Reliable(codecs) && ProperCollection(kind, filterHash) && ValidTable(codecs, table) &&
      ValidPage(codecs, page)
    requires IsPage(codecs, QueryRows(table, page), page, kind, filterHash, r) && r.next.Some?
    requires 1 <= limit <= MAX_PAGE_LIMIT
    ensures ContinuesBelow(codecs, r, kind, filterHash, limit)
  {
    HandsOutIssuable(codecs, table, page, kind, filterHash, r);
    AcceptsEncoded(codecs, Cursor(CURSOR_VERSION, kind, filterHash, r.high.value, Last(r.items)), kind, filterHash,
                   limit,
                   r.next.value);
  }

  lemma AcceptsEncoded(codecs: Codecs, c: Cursor, kind: string, filterHash: string, limit: nat, text: string)
    requires codecs.decode(text) == Some(c) && |text| <= MAX_CURSOR_BYTES
    requires c.version == CURSOR_VERSION && c.kind == kind && c.filterHash == filterHash
    requires ValidBoundary(codecs, c.high) && ValidBoundary(codecs, c.after) && AtOrBefore(c.after, c.high)
    requires 1 <= limit <= MAX_PAGE_LIMIT
    ensures ParsePage(codecs, Some(limit), Some(text), kind, filterHash) == Some(Request(limit, Some(c)))
  {
  }

  // ---- a whole traversal ----

  // Page k is served from tables[k]; its cursor is the one page k - 1 handed out.
  datatype Traversal = Traversal(tables: seq<set<Boundary>>, pages: seq<Request>, responses: seq<Response>)

  ghost predicate Served(codecs: Codecs, t: Traversal, kind: string, filterHash: string, k: nat)
    requires k < |t.tables| == |t.pages| == |t.responses|
  {
    && ValidTable(codecs, t.tables[k]) && t.pages[k].limit > 0
    && IsPage(codecs, QueryRows(t.tables[k], t.pages[k]), t.pages[k], kind, filterHash, t.responses[k])
    && if k == 0 then t.pages[k].cursor.None?
       else
         t.responses[k - 1].next.Some? &&
         ParsePage(codecs, Some(t.pages[k].limit), t.responses[k - 1].next, kind, filterHash) == Some(t.pages[k])
  }

  ghost predicate Valid(codecs: Codecs, t: Traversal, kind: string, filterHash: string) {
    && Reliable(codecs) && ProperCollection(kind, filterHash)
    && 0 < |t.tables| == |t.pages| == |t.responses|
    && forall k :: 0 <= k < |t.tables| ==> Served(codecs, t, kind, filterHash, k)
  }

  // The cursor of a later page continues the page before it, under the first page's watermark.
  ghost predicate Continues(t: Traversal, k: nat)
    requires 0 < k < |t.pages| == |t.responses|
  {
    && t.pages[k].cursor.Some? && t.responses[k - 1].items != []
    && t.pages[k].cursor.value.after == t.responses[k - 1].items[|t.responses[k - 1].items| - 1]
    && t.responses[0].items != [] && t.pages[k].cursor.value.high == t.responses[0].items[0]
  }

  lemma QueryFacts(rows: set<Boundary>, page: Request)
    requires Keyed(rows) && page.limit > 0
    ensures var q := QueryRows(rows, page);
      && DescendingOrder(q)
      && (forall b :: b in q ==> b in rows && Matches(page, b))
      && (forall b :: b in rows && Matches(page, b) && b !in q ==> |q| > page.limit && Before(b, Last(q)))
  {
    var all := Descending(Matching(rows, page));
    var q := QueryRows(rows, page);
    forall b | b in q ensures b in rows && Matches(page, b) { assert b in all; }
    forall b | b in rows && Matches(page, b) && b !in q ensures |q| > page.limit && Before(b, Last(q)) {
      assert b in Matching(rows, page);
      BeyondPrefix(all, |q|, b);
    }
  }

  // What a prefix of a descending sequence leaves out lies before its last element.
  lemma BeyondPrefix(all: seq<Boundary>, n: nat, b: Boundary)
    requires DescendingOrder(all) && n <= |all| && b in all && b !in all[..n]
    ensures n < |all| && (n > 0 ==> Before(b, all[n - 1]))
  {
    assert all == all[..n] + all[n..];
    var i :| 0 <= i < |all[n..]| && all[n..][i] == b;
    assert all[n + i] == b;
  }

  lemma ServedItems(codecs: Codecs, rows: set<Boundary>, page: Request, kind: string, filterHash: string, r: Response)
    requires Keyed(rows) && page.limit > 0 && IsPage(codecs, QueryRows(rows, page), page, kind, filterHash, r)
    ensures DescendingOrder(r.items)
    ensures forall b :: b in r.items ==> b in rows && Matches(page, b)
    ensures forall b :: b in rows && Matches(page, b) && b !in r.items ==>
      r.next.Some? && r.items != [] && Before(b, Last(r.items))
  {
    QueryFacts(rows, page);
    var q := QueryRows(rows, page);
    assert r.items == q[..|r.items|];
    forall b | b in rows && Matches(page, b) && b !in r.items
      ensures r.next.Some? && r.items != [] && Before(b, Last(r.items))
    {
      if b in q {
        BeyondPrefix(q, |r.items|, b);
      } else {
        assert |q| == page.limit + 1 && Before(b, Last(q)) && Before(Last(q), Last(r.items));
      }
    }
  }

  // The cursor of a response names its watermark and its last item.
  ghost predicate HandsOut(codecs: Codecs, kind: string, filterHash: string, r: Response) {
    && r.next.Some? && r.items != [] && r.high.Some?
    && codecs.decode(r.next.value) == Some(Cursor(CURSOR_VERSION, kind, filterHash, r.high.value, Last(r.items)))
  }

  // Page k was asked for by a request that parsing accepts.
  lemma PageIsValid(codecs: Codecs, t: Traversal, kind: string, filterHash: string, k: nat)
    requires Valid(codecs, t, kind, filterHash) && k < |t.tables|
    ensures ValidPage(codecs, t.pages[k])
  {
    assert Served(codecs, t, kind, filterHash, k);
  }

  lemma PageFacts(codecs: Codecs, t: Traversal, kind: string, filterHash: string, k: nat)
    requires Valid(codecs, t, kind, filterHash) && k < |t.tables|
    ensures t.responses[k].next.Some? ==> HandsOut(codecs, kind, filterHash, t.responses[k])
    ensures t.pages[k].cursor.Some? ==> t.responses[k].high == Some(t.pages[k].cursor.value.high)
    ensures t.pages[k].cursor.None? && t.responses[k].items != [] ==>
      t.responses[k].high == Some(t.responses[k].items[0])
  {
    assert Served(codecs, t, kind, filterHash, k);
    PageIsValid(codecs, t, kind, filterHash, k);
    if t.responses[k].next.Some? {
      HandsOutIssuable(codecs, t.tables[k], t.pages[k], kind, filterHash, t.responses[k]);
    }
  }

  lemma ParsedCursor(codecs: Codecs, t: Traversal, kind: string, filterHash: string, k: nat)
    requires Valid(codecs, t, kind, filterHash) && 0 < k < |t.tables|
    ensures t.responses[k - 1].next.Some? && t.pages[k].cursor == codecs.decode(t.responses[k - 1].next.value)
    ensures t.pages[k].cursor.Some?
  {
    assert Served(codecs, t, kind, filterHash, k);
  }

  lemma CursorContinues(codecs: Codecs, t: Traversal, kind: string, filterHash: string, k: nat)
    requires Valid(codecs, t, kind, filterHash) && 0 < k < |t.tables|
    requires k > 1 ==> Continues(t, k - 1)
    ensures Continues(t, k)
  {
    ParsedCursor(codecs, t, kind, filterHash, k);
    PageFacts(codecs, t, kind, filterHash, k - 1);
    if k == 1 { FirstPageFresh(codecs, t, kind, filterHash); }
  }

  lemma FirstPageFresh(codecs: Codecs, t: Traversal, kind: string, filterHash: string)
    requires Valid(codecs, t, kind, filterHash)
    ensures t.pages[0].cursor.None?
  {
    assert Served(codecs, t, kind, filterHash, 0);
  }

  lemma {:induction false} AllContinue(codecs: Codecs, t: Traversal, kind: string, filterHash: string, k: nat)
    requires Valid(codecs, t, kind, filterHash) && 0 < k < |t.tables|
    ensures Continues(t, k)
  {
    if k > 1 { AllContinue(codecs, t, kind, filterHash, k - 1); }
    CursorContinues(codecs, t, kind, filterHash, k);
  }

  // ---- one page ----

  lemma PageItems(codecs: Codecs, t: Traversal, kind: string, filterHash: string, k: nat)
    requires Valid(codecs, t, kind, filterHash) && k < |t.tables|
    ensures var r := t.responses[k];
      && DescendingOrder(r.items)
      && (forall b :: b in r.items ==> b in t.tables[k] && Matches(t.pages[k], b))
      && (forall b :: b in t.tables[k] && Matches(t.pages[k], b) && b !in r.items ==>
            r.next.Some? && r.items != [] && Before(b, Last(r.items)))
      && (r.next.Some? ==> r.items != [])
  {
    assert Served(codecs, t, kind, filterHash, k);
    ServedItems(codecs, t.tables[k], t.pages[k], kind, filterHash, t.responses[k]);
  }

  // ---- the traversal ----

  ghost function Emitted(responses: seq<Response>): seq<Boundary> {
    if responses == [] then [] else Emitted(responses[..|responses| - 1]) + responses[|responses| - 1].items
  }

  lemma {:induction false} EmittedSplits(responses: seq<Response>, n: nat)
    requires n < |responses|
    ensures Emitted(responses[..n + 1]) == Emitted(responses[..n]) + responses[n].items
  {
    assert responses[..n + 1][..n] == responses[..n];
  }

  // Descending, under the watermark.
  ghost predicate Ordered(q: seq<Boundary>, first: seq<Boundary>) {
    DescendingOrder(q) && forall b :: b in q ==> first != [] && AtOrBefore(b, first[0])
  }

  lemma FirstOrdered(codecs: Codecs, t: Traversal, kind: string, filterHash: string)
    requires Valid(codecs, t, kind, filterHash)
    ensures Ordered(t.responses[0].items, t.responses[0].items)
  {
    PageItems(codecs, t, kind, filterHash, 0);
    var items := t.responses[0].items;
    forall b | b in items ensures AtOrBefore(b, items[0]) { var i :| 0 <= i < |items| && items[i] == b; }
  }

  // A later page's items lie under the watermark and below its cursor.
  lemma LaterItems(codecs: Codecs, t: Traversal, kind: string, filterHash: string, n: nat)
    requires Valid(codecs, t, kind, filterHash) && 0 < n < |t.tables|
    ensures Continues(t, n) && DescendingOrder(t.responses[n].items)
    ensures forall b :: b in t.responses[n].items ==>
      Before(b, Last(t.responses[n - 1].items)) && AtOrBefore(b, t.responses[0].items[0])
  {
    PageItems(codecs, t, kind, filterHash, n);
    AllContinue(codecs, t, kind, filterHash, n);
    forall b | b in t.responses[n].items
      ensures Before(b, Last(t.responses[n - 1].items)) && AtOrBefore(b, t.responses[0].items[0])
    {
      assert Matches(t.pages[n], b);
    }
  }

  // What has been emitted before page n: descending, under the watermark, and ending with page n - 1.
  lemma {:induction false} EmittedDescends(codecs: Codecs, t: Traversal, kind: string, filterHash: string, n: nat)
    requires Valid(codecs, t, kind, filterHash) && n <= |t.tables|
    ensures Ordered(Emitted(t.responses[..n]), t.responses[0].items)
    ensures n > 0 && t.responses[n - 1].items != [] ==>
      Emitted(t.responses[..n]) != [] && Last(Emitted(t.responses[..n])) == Last(t.responses[n - 1].items)
  {
    if n > 0 {
      EmittedSplits(t.responses, n - 1);
      if n == 1 {
        assert Emitted(t.responses[..1]) == t.responses[0].items;
        FirstOrdered(codecs, t, kind, filterHash);
      } else {
        EmittedDescends(codecs, t, kind, filterHash, n - 1);
        LaterItems(codecs, t, kind, filterHash, n - 1);
        JoinDescends(Emitted(t.responses[..n - 1]), t.responses[n - 1].items, Last(t.responses[n - 2].items));
      }
    }
  }

  lemma JoinDescends(a: seq<Boundary>, b: seq<Boundary>, after: Boundary)
    requires DescendingOrder(a) && DescendingOrder(b)
    requires a != [] && a[|a| - 1] == after && forall x :: x in b ==> Before(x, after)
    ensures DescendingOrder(a + b)
  {
    forall i, j | 0 <= i < j < |a + b| ensures Before((a + b)[j], (a + b)[i]) {
      if i < |a| <= j {
        assert (a + b)[j] in b;
        assert i == |a| - 1 || Before(after, a[i]);
      }
    }
  }

  /** A traversal emits strictly descending keys, whatever is inserted or removed between its pages: nothing
      twice, nothing above the first page's watermark, and only rows present when their page was read. */
  lemma TraversalDescends(codecs: Codecs, t: Traversal, kind: string, filterHash: string)
    requires Valid(codecs, t, kind, filterHash)
    ensures FallingKeys(Emitted(t.responses))
    ensures forall b :: b in Emitted(t.responses) ==>
      t.responses[0].items != [] && AtOrBefore(b, t.responses[0].items[0])
    ensures forall b :: b in Emitted(t.responses) ==>
      exists k :: 0 <= k < |t.tables| && b in t.tables[k] && b in t.responses[k].items
    ensures forall k :: 0 <= k < |t.responses| && t.responses[0].items != [] ==>
      t.responses[k].high == Some(t.responses[0].items[0])
  {
    var n := |t.tables|;
    assert t.responses[..n] == t.responses;
    EmittedDescends(codecs, t, kind, filterHash, n);
    forall b | b in Emitted(t.responses)
      ensures exists k :: 0 <= k < n && b in t.tables[k] && b in t.responses[k].items
    {
      var k := EmittedBy(t.responses, n, b);
      PageItems(codecs, t, kind, filterHash, k);
    }
    forall k | 0 <= k < n && t.responses[0].items != [] ensures t.responses[k].high == Some(t.responses[0].items[0]) {
      assert Served(codecs, t, kind, filterHash, k);
      if k > 0 { AllContinue(codecs, t, kind, filterHash, k); }
    }
  }

  // Sort keys never rise, and identifiers fall among equal keys.
  ghost predicate FallingKeys(q: seq<Boundary>) {
    forall i, j :: 0 <= i < j < |q| ==>
      q[j].sortKey < q[i].sortKey || (q[j].sortKey == q[i].sortKey && q[j].id < q[i].id)
  }

  lemma {:induction false} EmittedBy(responses: seq<Response>, n: nat, b: Boundary) returns (k: nat)
    requires n <= |responses| && b in Emitted(responses[..n])
    ensures k < n && b in responses[k].items
  {
    if n == 0 {
      assert false;
    } else {
      EmittedSplits(responses, n - 1);
      k := n - 1;
      if b !in responses[n - 1].items { k := EmittedBy(responses, n - 1, b); }
    }
  }

  lemma {:induction false} StillToCome(codecs: Codecs, t: Traversal, kind: string, filterHash: string, b: Boundary,
                                       n: nat)
    requires Valid(codecs, t, kind, filterHash) && n <= |t.tables|
    requires forall k :: 0 <= k < n ==> b in t.tables[k]
    ensures b in Emitted(t.responses[..n]) || (n < |t.tables| ==> Matches(t.pages[n], b))
    ensures n > 0 && t.responses[n - 1].next.None? ==> b in Emitted(t.responses[..n])
  {
    if n == 0 {
      assert Served(codecs, t, kind, filterHash, 0);
    } else {
      StillToCome(codecs, t, kind, filterHash, b, n - 1);
      EmittedSplits(t.responses, n - 1);
      PageItems(codecs, t, kind, filterHash, n - 1);
      if b !in Emitted(t.responses[..n]) && n < |t.tables| {
        AllContinue(codecs, t, kind, filterHash, n);
        assert Served(codecs, t, kind, filterHash, n);
        BelowWatermark(codecs, t, kind, filterHash, b);
      }
    }
  }

  lemma BelowWatermark(codecs: Codecs, t: Traversal, kind: string, filterHash: string, b: Boundary)
    requires Valid(codecs, t, kind, filterHash) && b in t.tables[0] && t.responses[0].items != []
    ensures AtOrBefore(b, t.responses[0].items[0])
  {
    assert Served(codecs, t, kind, filterHash, 0);
    PageItems(codecs, t, kind, filterHash, 0);
    var items := t.responses[0].items;
    if b in items {
      var i :| 0 <= i < |items| && items[i] == b;
    } else {
      assert Before(b, items[|items| - 1]);
    }
  }

  /** A finished traversal emits every row that was present throughout, exactly once. Such a row cannot lie
      above the watermark, because the first page was read with it in the table. */
  lemma TraversalIsComplete(codecs: Codecs, t: Traversal, kind: string, filterHash: string, b: Boundary)
    requires Valid(codecs, t, kind, filterHash) && t.responses[|t.responses| - 1].next.None?
    requires forall k :: 0 <= k < |t.tables| ==> b in t.tables[k]
    ensures b in Emitted(t.responses) && multiset(Emitted(t.responses))[b] == 1
  {
    var n := |t.tables|;
    assert t.responses[..n] == t.responses;
    StillToCome(codecs, t, kind, filterHash, b, n);
    EmittedDescends(codecs, t, kind, filterHash, n);
    OnceInDescending(Emitted(t.responses), b);
  }

  lemma {:induction false} OnceInDescending(q: seq<Boundary>, b: Boundary)
    requires DescendingOrder(q)
    ensures multiset(q)[b] <= 1
    ensures b in q ==> multiset(q)[b] == 1
  {
    if q != [] {
      var n := |q| - 1;
      OnceInDescending(q[..n], b);
      assert q == q[..n] + [q[n]];
      if b == q[n] { assert b !in q[..n]; }
    }
  }

  /** When only rows above the watermark are inserted between two pages, fewer rows are left below the next
      cursor than below the last one: the traversal ends. */
  lemma FewerRowsLeft(codecs: Codecs, t: Traversal, kind: string, filterHash: string, k: nat)
    requires Valid(codecs, t, kind, filterHash) && 0 < k < |t.tables|
    requires t.responses[0].high.Some?
    requires forall b :: b in t.tables[k] && AtOrBefore(b, t.responses[0].high.value) ==> b in t.tables[k - 1]
    ensures |Matching(t.tables[k], t.pages[k])| < |Matching(t.tables[k - 1], t.pages[k - 1])|
  {
    LeavesLast(codecs, t, kind, filterHash, k);
    var last := t.pages[k].cursor.value.after;
    FewerIn(Matching(t.tables[k], t.pages[k]), Matching(t.tables[k - 1], t.pages[k - 1]) - {last});
  }

  lemma LeavesLast(codecs: Codecs, t: Traversal, kind: string, filterHash: string, k: nat)
    requires Valid(codecs, t, kind, filterHash) && 0 < k < |t.tables|
    requires t.responses[0].high.Some?
    requires forall b :: b in t.tables[k] && AtOrBefore(b, t.responses[0].high.value) ==> b in t.tables[k - 1]
    ensures t.pages[k].cursor.Some?
    ensures t.pages[k].cursor.value.after in Matching(t.tables[k - 1], t.pages[k - 1])
    ensures Matching(t.tables[k], t.pages[k]) <= Matching(t.tables[k - 1],
                                                          t.pages[k - 1]) - {t.pages[k].cursor.value.after}
  {
    AllContinue(codecs, t, kind, filterHash, k);
    if k > 1 { AllContinue(codecs, t, kind, filterHash, k - 1); }
    FirstPageFresh(codecs, t, kind, filterHash);
    PageFacts(codecs, t, kind, filterHash, 0);
    PageItems(codecs, t, kind, filterHash, k - 1);
    var last := t.pages[k].cursor.value.after;
    assert last in t.responses[k - 1].items;
    forall b | b in Matching(t.tables[k], t.pages[k])
      ensures b in Matching(t.tables[k - 1], t.pages[k - 1]) && b != last
    {
      assert Before(b, last) && Matches(t.pages[k - 1], last);
    }
  }

  lemma {:induction false} FewerIn(a: set<Boundary>, b: set<Boundary>)
    requires a <= b
    ensures |a| <= |b|
  {
    if a != {} {
      var x :| x in a;
      FewerIn(a - {x}, b - {x});
    }
  }

  /** The server accepts every cursor it hands out, at any page limit it allows, and continues from there, under
      the watermark of the first page. */
  lemma IssuedCursorsAreAccepted(codecs: Codecs, t: Traversal, kind: string, filterHash: string, k: nat, limit: nat)
    requires Valid(codecs, t, kind, filterHash) && k < |t.tables| && t.responses[k].next.Some?
    requires 1 <= limit <= MAX_PAGE_LIMIT
    ensures ContinuesBelow(codecs, t.responses[k], kind, filterHash, limit)
    ensures t.responses[k].high == t.responses[0].high
  {
    assert Served(codecs, t, kind, filterHash, k);
    PageIsValid(codecs, t, kind, filterHash, k);
    NextIsAccepted(codecs, t.tables[k], t.pages[k], kind, filterHash, t.responses[k], limit);
    PageFacts(codecs, t, kind, filterHash, k);
    PageFacts(codecs, t, kind, filterHash, 0);
    FirstPageFresh(codecs, t, kind, filterHash);
    if k > 0 { AllContinue(codecs, t, kind, filterHash, k); }
  }
}
