/** Codecs and a traversal for which the assumptions of the pagination theorems
    hold: a cursor text made of length-prefixed fields, and two pages between
    which a row is inserted above the watermark and another one removed. */
module PaginationExample {
  import opened Basics
  import opened Pagination

  // ---- a cursor text that reads back ----

  function Mark(n: nat): char {
    if n < 256 then n as char else ' '
  }

  function Field(s: string): string {
    [Mark(|s|)] + s
  }

  function Digits(n: nat): string {
    if n == 0 then [] else [Mark(n % 16)] + Digits(n / 16)
  }

  function Power16(w: nat): nat {
    if w == 0 then 1 else 16 * Power16(w - 1)
  }

  // The version is constant and the sort keys follow from the timestamps.
  function Encode(c: Cursor): string {
    Field(c.kind) + (Field(c.filterHash) + (Field(c.high.timestamp) + (Field(Digits(c.high.id)) +
    (Field(c.after.timestamp) + Field(Digits(c.after.id))))))
  }

  // A timestamp of this example denotes its own length.
  function KeyOf(text: string): Option<int> {
    if |text| <= MAX_TIMESTAMP then Some(|text|) else None
  }

  predicate Uuid(id: nat) {
    id < UUIDS
  }

  predicate ProperBoundary(b: Boundary) {
    KeyOf(b.timestamp) == Some(b.sortKey) && Uuid(b.id)
  }

  predicate Proper(c: Cursor) {
    c.version == CURSOR_VERSION && ProperCollection(c.kind, c.filterHash) && ProperBoundary(c.high) &&
    ProperBoundary(c.after)
  }

  ghost function Decode(text: string): Option<Cursor> {
    if exists c :: Proper(c) && Encode(c) == text then
      var c :| Proper(c) && Encode(c) == text; Some(c)
    else None
  }

  ghost function Sample(): Codecs {
    Codecs(c => Encode(c), text => Decode(text), text => KeyOf(text), (id: nat) => Uuid(id))
  }

  lemma {:induction false} DigitsInjective(a: nat, b: nat)
    requires Digits(a) == Digits(b)
    ensures a == b
  {
    if a != 0 && b != 0 {
      var p, q := Digits(a), Digits(b);
      assert p[0] == Mark(a % 16) && q[0] == Mark(b % 16);
      assert p[1..] == Digits(a / 16) && q[1..] == Digits(b / 16);
      DigitsInjective(a / 16, b / 16);
    }
  }

  lemma {:induction false} DigitsBounded(n: nat, w: nat)
    requires n < Power16(w)
    ensures |Digits(n)| <= w
  {
    if n != 0 {
      assert n / 16 < Power16(w - 1);
      DigitsBounded(n / 16, w - 1);
    }
  }

  lemma UuidDigits(id: nat)
    requires Uuid(id)
    ensures |Digits(id)| <= 32
  {
    assert Power16(8) == 0x1_0000_0000;
    assert Power16(16) == 0x1_0000_0000_0000_0000;
    assert Power16(24) == 0x1_0000_0000_0000_0000_0000_0000;
    assert Power16(32) == UUIDS;
    DigitsBounded(id, 32);
  }

  lemma FieldReads(s: string, x: string, t: string, y: string)
    requires |s| <= 64 && |t| <= 64 && Field(s) + x == Field(t) + y
    ensures s == t && x == y
  {
    var text := Field(s) + x;
    assert text[0] == Mark(|s|) && text[0] == Mark(|t|);
    assert Mark(|s|) as int == |s| && Mark(|t|) as int == |t|;
    assert text[1..1 + |s|] == s && text[1..1 + |t|] == t;
    assert text[1 + |s|..] == x && text[1 + |t|..] == y;
  }

  lemma EncodeInjective(a: Cursor, b: Cursor)
    requires Proper(a) && Proper(b) && Encode(a) == Encode(b)
    ensures a == b
  {
    UuidDigits(a.high.id); UuidDigits(b.high.id); UuidDigits(a.after.id); UuidDigits(b.after.id);
    var a5, b5 := Field(Digits(a.after.id)), Field(Digits(b.after.id));
    var a4, b4 := Field(a.after.timestamp) + a5, Field(b.after.timestamp) + b5;
    var a3, b3 := Field(Digits(a.high.id)) + a4, Field(Digits(b.high.id)) + b4;
    var a2, b2 := Field(a.high.timestamp) + a3, Field(b.high.timestamp) + b3;
    var a1, b1 := Field(a.filterHash) + a2, Field(b.filterHash) + b2;
    FieldReads(a.kind, a1, b.kind, b1);
    FieldReads(a.filterHash, a2, b.filterHash, b2);
    FieldReads(a.high.timestamp, a3, b.high.timestamp, b3);
    FieldReads(Digits(a.high.id), a4, Digits(b.high.id), b4);
    FieldReads(a.after.timestamp, a5, b.after.timestamp, b5);
    assert a5 + [] == a5 && b5 + [] == b5;
    FieldReads(Digits(a.after.id), [], Digits(b.after.id), []);
    DigitsInjective(a.high.id, b.high.id);
    DigitsInjective(a.after.id, b.after.id);
  }

  lemma EncodeFits(c: Cursor)
    requires Proper(c)
    ensures |Encode(c)| <= MAX_CURSOR_BYTES && Decode(Encode(c)) == Some(c)
  {
    UuidDigits(c.high.id);
    UuidDigits(c.after.id);
    var d := Decode(Encode(c)).value;
    EncodeInjective(c, d);
  }

  /** The assumptions on codecs can be met. */
  lemma SampleIsReliable()
    ensures Reliable(Sample())
  {
    forall c | Issuable(Sample(), c)
      ensures Sample().decode(Sample().encode(c)) == Some(c) && |Sample().encode(c)| <= MAX_CURSOR_BYTES
    {
      EncodeFits(c);
    }
  }

  // ---- a traversal ----

  function Row(id: nat): Boundary {
    Boundary(1, "t", id)
  }

  lemma InOrder(q: seq<Boundary>, rows: set<Boundary>, a: Boundary, b: Boundary)
    requires DescendingOrder(q) && rows == {a, b} && Before(b, a) && |q| == |rows|
    requires forall x :: x in q <==> x in rows
    ensures q == [a, b]
  {
    assert a != b;
    assert |rows| == 2;
    assert q[0] in q && q[1] in q;
  }

  lemma FirstQuery(page: Request)
    requires page == Request(1, None)
    ensures QueryRows({Row(1), Row(2)}, page) == [Row(2), Row(1)]
  {
    var rows := {Row(1), Row(2)};
    assert Matching(rows, page) == rows;
    InOrder(Descending(rows), rows, Row(2), Row(1));
  }

  lemma SecondQuery(page: Request)
    requires page.limit == 1 && page.cursor.Some? && page.cursor.value.high == page.cursor.value.after == Row(2)
    ensures QueryRows({Row(1), Row(3)}, page) == [Row(1)]
  {
    var rows := {Row(1), Row(3)};
    assert Matching(rows, page) == {Row(1)};
    var q := Descending({Row(1)});
    assert q[0] in q;
  }

  function CursorAt(filterHash: string): Cursor {
    Cursor(CURSOR_VERSION, "snapshots", filterHash, Row(2), Row(2))
  }

  function FirstResponse(filterHash: string): Response {
    Response([Row(2)], Some(Encode(CursorAt(filterHash))), Some(Row(2)))
  }

  function SecondResponse(): Response {
    Response([Row(1)], None, Some(Row(2)))
  }

  lemma CursorIsProper(filterHash: string)
    requires |filterHash| == FILTER_HASH_CHARS
    ensures Proper(CursorAt(filterHash))
  {
    assert |"t"| == 1 && |"snapshots"| == 9;
  }

  lemma FirstIsPage(filterHash: string)
    ensures IsPage(Sample(), [Row(2), Row(1)], Request(1, None), "snapshots", filterHash, FirstResponse(filterHash))
  {
    assert Sample().encode(CursorAt(filterHash)) == Encode(CursorAt(filterHash));
    assert [Row(2)] == [Row(2), Row(1)][..1];
  }

  lemma SecondIsPage(filterHash: string)
    ensures IsPage(Sample(), [Row(1)], Request(1, Some(CursorAt(filterHash))), "snapshots", filterHash,
                   SecondResponse())
  {
  }

  lemma SecondIsAccepted(filterHash: string)
    requires |filterHash| == FILTER_HASH_CHARS
    ensures ParsePage(Sample(), Some(1), FirstResponse(filterHash).next, "snapshots", filterHash) ==
            Some(Request(1, Some(CursorAt(filterHash))))
  {
    var cursor := CursorAt(filterHash);
    CursorIsProper(filterHash);
    EncodeFits(cursor);
    assert Sample().decode(Encode(cursor)) == Some(cursor);
    assert ValidBoundary(Sample(), cursor.high) && ValidBoundary(Sample(), cursor.after);
    AcceptsEncoded(Sample(), cursor, "snapshots", filterHash, 1, Encode(cursor));
  }

  lemma RowsAreValid(a: nat, b: nat)
    requires a < 10 && b < 10
    ensures ValidTable(Sample(), {Row(a), Row(b)})
  {
    assert |"t"| == 1;
  }

  /** Nor are the traversal theorems empty: two pages of one row each, row 3 inserted above the watermark and row 2
      removed before the second page is read. */
  lemma TwoPages(filterHash: string) returns (t: Traversal)
    requires |filterHash| == FILTER_HASH_CHARS
    ensures Valid(Sample(), t, "snapshots", filterHash)
    ensures t.tables == [{Row(1), Row(2)}, {Row(1), Row(3)}] && t.responses[1].next.None?
    ensures Emitted(t.responses) == [Row(2), Row(1)]
  {
    var first, second := Request(1, None), Request(1, Some(CursorAt(filterHash)));
    t := Traversal([{Row(1), Row(2)}, {Row(1), Row(3)}], [first, second],
                   [FirstResponse(filterHash), SecondResponse()]);
    SampleIsReliable();
    RowsAreValid(1, 2);
    RowsAreValid(1, 3);
    FirstQuery(first);
    FirstIsPage(filterHash);
    SecondQuery(second);
    SecondIsPage(filterHash);
    SecondIsAccepted(filterHash);
    assert Served(Sample(), t, "snapshots", filterHash, 0);
    assert Served(Sample(), t, "snapshots", filterHash, 1);
    EmittedSplits(t.responses, 0);
    EmittedSplits(t.responses, 1);
    assert t.responses[..2] == t.responses && t.responses[..0] == [];
  }
}
