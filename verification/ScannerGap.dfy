/** What a healthy scan does not say when a stored manifest is out of path order:
    a concrete archive that every phase passes although one artifact's file does
    not hold its declared original. */
module ScannerGap {
  import opened Basics
  import opened Catalog
  import opened Validation
  import opened Integrity

  function Digits(c: char): (d: string)
    ensures |d| == 64 && d[0] == c && forall i :: 0 <= i < 64 ==> d[i] == c
  {
    seq(64, _ => c)
  }

  function Prefixed(c: char): (text: string)
    ensures |text| == 71 && text[..7] == "sha256:" && text[7..] == Digits(c)
  {
    "sha256:" + Digits(c)
  }

  // Files [1] and [2] hash to 1...1 and 2...2; the empty document hashes to 0...0.
  function Hex(bytes: Bytes): string {
    if bytes == [] then Digits('0') else if bytes == [1] then Digits('1') else Digits('2')
  }

  function Second(): Entry { Entry("b", None, 1, Prefixed('1'), 1, Prefixed('1'), Identity) }

  // Its file [2] verifies as stored, but the declared original is something else.
  function First(): Entry { Entry("a", None, 1, Prefixed('0'), 1, Prefixed('2'), Identity) }

  function Reader(): World {
    World(Hex, bytes => Stream([], true), bytes => Some(Document(true, [Second(), First()])),
          Limits(10, 10, 10, 10, 10, text => true), 10)
  }

  function Rows(): Database {
    Database(true,
             map[1 := SnapshotRow(false, 1, 2, 2, 2)],
             map[1 := ManifestRow([], Digits('0'))],
             map[1 := FileRow(1, 1, 0, "b", None, 1, Digits('1')), 2 := FileRow(1, 2, 1, "a", None, 1, Digits('0'))],
             map[1 := BlobRow(Digits('1'), 1, Some(Identity), false, false, None),
                 2 := BlobRow(Digits('2'), 1, Some(Identity), false, false, None)],
             {})
  }

  function Files(): Node {
    Directory(map["sha256" := Directory(map["11" := Directory(map[Digits('1') := Regular([1])]),
                                            "22" := Directory(map[Digits('2') := Regular([2])])])])
  }

  lemma SplitOne(s: string, separator: char)
    requires |s| == 1 && s[0] != separator
    ensures Split(s, separator) == [s]
  {
    assert s[1..] == "";
    assert Split(s[1..], separator) == [""];
    assert [s[0]] + "" == s;
  }

  lemma PathOk(s: string)
    requires |s| == 1 && 'a' <= s[0] <= 'b'
    ensures ValidPath(s)
  {
    SplitOne(s, '/');
    SplitOne(s, '.');
    assert ValidComponent(s);
  }

  lemma DigestOk(c: char)
    requires LowerHex(c)
    ensures ValidDigest(Prefixed(c)) && DocumentDigest(Prefixed(c)) && StorageValue(Prefixed(c)) == Digits(c)
    ensures StorageDigest(Digits(c))
  {
    ValidDigestReads(Prefixed(c));
  }

  lemma EntriesFit()
    ensures Fits(Reader().limits, First()) && Fits(Reader().limits, Second())
  {
    PathOk("a");
    PathOk("b");
    DigestOk('0');
    DigestOk('1');
    DigestOk('2');
  }

  lemma TwoTotals(a: Entry, b: Entry)
    ensures OriginalTotal([a, b]) == a.originalSize + b.originalSize &&
      StoredTotal([a, b]) == a.storedSize + b.storedSize
  {
    assert [a, b][..1] == [a];
    assert [a][..0] == [];
    assert OriginalTotal([a]) == a.originalSize && StoredTotal([a]) == a.storedSize;
  }

  lemma EntriesAcceptable()
    ensures Acceptable(Reader().limits, [Second(), First()])
  {
    EntriesFit();
    TwoTotals(Second(), First());
    assert Lower("a") == "a" && Lower("b") == "b";
    assert Digits('1') != Digits('2');
    assert Second().stored != First().stored by { assert Second().stored[7..] != First().stored[7..]; }
  }

  lemma TheNormalForm(normal: seq<Entry>)
    requires NormalForm(Reader().limits, [Second(), First()], normal)
    ensures normal == [First(), Second()]
  {
    assert multiset([First(), Second()]) == multiset([Second(), First()]);
    assert Less("a", "b");
    SortedUnique(normal, [First(), Second()]);
  }

  lemma NothingExamined(normal: seq<Entry>)
    requires normal == [First(), Second()]
    ensures EntriesScanned(Reader(), Rows(), Files(), 1, normal)
  {
    var db := Rows();
    DigestOk('0');
    DigestOk('1');
    DigestOk('2');
    assert Digits('1') != Digits('2');
    assert RowsAt(db, 1, 0) == {1};
    assert RowsAt(db, 1, 1) == {2};
    assert Least({1}) == 1 && Least({2}) == 2;
    assert !Represented(db, 1, First()) && !Represented(db, 2, Second());
  }

  lemma RowsProject()
    ensures Projects(Rows(), JoinedRows(Rows(), 1), [Second(), First()])
  {
    var db := Rows();
    DigestOk('0');
    DigestOk('1');
    DigestOk('2');
    assert JoinedRows(db, 1) == {1, 2};
    assert RowCarries(db, 1, 0, Second()) && RowCarries(db, 2, 1, First());
    assert CarriedBy(db, {1, 2}, 0, Second()) && CarriedBy(db, {1, 2}, 1, First());
  }

  lemma RowsReconcile()
    ensures Reconciles(Reader(), Rows(), 1)
  {
    RowsProject();
    TwoTotals(Second(), First());
    TotalsNeverOverflow([Second(), First()]);
  }

  lemma SnapshotPasses()
    ensures SnapshotClean(Reader(), Rows(), Files(), 1)
  {
    EntriesAcceptable();
    RowsReconcile();
    assert StoredEntries(Reader(), Rows(), 1) == [Second(), First()];
    forall normal | NormalForm(Reader().limits, [Second(), First()], normal)
      ensures EntriesScanned(Reader(), Rows(), Files(), 1, normal)
    {
      TheNormalForm(normal);
      NothingExamined(normal);
    }
  }

  lemma NodeOf(c: char)
    requires c == '1' || c == '2'
    ensures BlobNode(Files(), Digits(c)) == Some(Regular(if c == '1' then [1] else [2]))
  {
    assert Digits(c)[..2] == [c, c];
    assert Digits('1')[..2] == "11" && Digits('2')[..2] == "22";
    assert "11"[0] != "22"[0];
  }

  lemma BlobsPass(b: nat)
    requires b in Rows().blobs
    ensures BlobSound(Reader(), Rows(), Files(), b, 0)
  {
    var db := Rows();
    DigestOk('1');
    DigestOk('2');
    NodeOf('1');
    NodeOf('2');
    assert LiveRow(db, 1);
    assert db.artifacts[1].blob == 1 && db.artifacts[2].blob == 2;
    assert LiveReference(db, b);
  }

  lemma DirectoryPasses()
    ensures RootFine(Rows(), Files())
  {
    var db := Rows();
    DigestOk('1');
    DigestOk('2');
    assert db.blobs[1].digest == Digits('1') && db.blobs[2].digest == Digits('2');
    assert Digits('1')[..2] == "11" && Digits('2')[..2] == "22";
    assert ShardEntryFine(db, "11", Digits('1')) && ShardEntryFine(db, "22", Digits('2'));
    assert ShardFine(db, "11", map[Digits('1') := Regular([1])]);
    assert ShardFine(db, "22", map[Digits('2') := Regular([2])]);
  }

  lemma FirstIsUnheld()
    ensures LiveRow(Rows(), 1) && First() in StoredEntries(Reader(), Rows(), 1)
    ensures EntryStored(Reader(), Files(), First()) && !EntryHeld(Reader(), Files(), First())
  {
    DigestOk('0');
    DigestOk('2');
    NodeOf('2');
    assert Digits('0') != Digits('2');
    assert StoredEntries(Reader(), Rows(), 1) == [Second(), First()];
  }

  lemma TablesPass()
    ensures Rows().quickCheck && ForeignKeysHold(Rows()) && Dangling(Rows()) == {} && OfTombstoned(Rows()) == {}
    ensures Rows().snapshots.Keys == {1} && Rows().blobs.Keys == {1, 2}
  {
  }

  lemma Unheld(w: World, db: Database, root: Node, now: int, id: nat, e: Entry)
    requires LiveRow(db, id) && e in StoredEntries(w, db, id) && !EntryHeld(w, root, e)
    ensures !SoundArchive(w, db, root, now)
  {
    assert !SnapshotSound(w, db, root, id);
  }

  /** Path order of the stored manifest is needed: this archive scans as healthy, and is not sound, because the
      file of artifact "a" verifies as stored but is not the original the manifest declares. */
  lemma HealthyButUnsound() returns (w: World, db: Database, root: Node)
    ensures ScanClean(w, db, root, 0) && !SoundArchive(w, db, root, 0)
    ensures LiveRow(db, 1) && First() in StoredEntries(w, db, 1)
    ensures EntryStored(w, root, First()) && !EntryHeld(w, root, First())
  {
    w, db, root := Reader(), Rows(), Files();
    ArchivePasses(w, db, root);
    FirstIsUnheld();
    Unheld(w, db, root, 0, 1, First());
  }

  lemma ArchivePasses(w: World, db: Database, root: Node)
    requires w == Reader() && db == Rows() && root == Files()
    ensures ScanClean(w, db, root, 0)
  {
    TablesPass();
    DirectoryPasses();
    AllBlobsPass(w, db, root);
    AllSnapshotsPass(w, db, root);
  }

  lemma AllBlobsPass(w: World, db: Database, root: Node)
    requires w == Reader() && db == Rows() && root == Files()
    ensures forall b :: b in db.blobs ==> BlobSound(w, db, root, b, 0)
  {
    forall b | b in db.blobs ensures BlobSound(w, db, root, b, 0) { BlobsPass(b); }
  }

  lemma AllSnapshotsPass(w: World, db: Database, root: Node)
    requires w == Reader() && db == Rows() && root == Files()
    ensures forall id :: id in db.snapshots ==> SnapshotClean(w, db, root, id)
  {
    SnapshotPasses();
  }
}
