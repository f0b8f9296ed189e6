/** Backups that are created with success and never validate: creation does not
    bound the manifest document, validation does. */
module BackupLimit {
  import opened Basics
  import opened Validation
  import opened Integrity
  import opened Backup

  // The file name and the checksum of one inventory entry, in characters.
  const ENTRY_TEXT: nat := 151

  // The document spells out every inventory entry.
  ghost predicate Itemised(codecs: Codecs) {
    forall m :: |codecs.encode(m)| >= ENTRY_TEXT * |m.blobs|
  }

  lemma EntryTextLength(row: Row)
    requires StorageDigest(row.digest)
    ensures |EntryFor(row).filename| + |EntryFor(row).sha256| == ENTRY_TEXT
  {
    assert |"blobs/sha256/"| == 13 && |"sha256:"| == 7 && |"/"| == 1;
  }

  /** A backup of more than 444,429 blobs is refused by validation, whenever it was created. */
  lemma LargeArchivesAreRefused(codecs: Codecs, store: Store, rows: seq<Row>, blobs: Node, now: string,
                                application: string,
                                dir: Node, shards: map<string, Node>, files: map<string, Bytes>)
    requires Faithful(codecs) && Itemised(codecs) &&
      Created(codecs, store, rows, blobs, now, application, dir, shards, files)
    requires |rows| > MAX_MANIFEST_BYTES / ENTRY_TEXT
    ensures !exists other :: ValidBackup(codecs, dir, other)
    ensures MAX_MANIFEST_BYTES / ENTRY_TEXT == 444429
  {
    CreatedValidatesIff(codecs, store, rows, blobs, now, application, dir, shards, files);
    assert |ManifestFor(codecs, store, rows, now, application).blobs| == |rows|;
  }

  // ---- an archive of given contents ----

  ghost predicate Distinguished(codecs: Codecs, contents: seq<Bytes>) {
    forall i, j :: 0 <= i < j < |contents| ==> Less(codecs.hex(contents[i]), codecs.hex(contents[j]))
  }

  lemma DifferentDigests(codecs: Codecs, contents: seq<Bytes>, i: nat, j: nat)
    requires Distinguished(codecs, contents) && i < j < |contents|
    ensures codecs.hex(contents[i]) != codecs.hex(contents[j])
  {
    LessTotal(codecs.hex(contents[i]), codecs.hex(contents[j]));
  }

  // The files of the first n contents.
  ghost predicate FilesOf(codecs: Codecs, contents: seq<Bytes>, n: nat, files: map<string, Bytes>) {
    n <= |contents| &&
    (forall i :: 0 <= i < n ==> codecs.hex(contents[i]) in files && files[codecs.hex(contents[i])] == contents[i]) &&
    (forall d :: d in files ==> exists i :: 0 <= i < n && codecs.hex(contents[i]) == d)
  }

  lemma FilesNext(codecs: Codecs, contents: seq<Bytes>, n: nat, files: map<string, Bytes>)
    requires Distinguished(codecs, contents) && n < |contents| && FilesOf(codecs, contents, n, files)
    ensures codecs.hex(contents[n]) !in files
    ensures FilesOf(codecs, contents, n + 1, files[codecs.hex(contents[n]) := contents[n]])
  {
    var d := codecs.hex(contents[n]);
    forall i: nat | i < n ensures codecs.hex(contents[i]) != d { DifferentDigests(codecs, contents, i, n); }
    var files' := files[d := contents[n]];
    forall x | x in files' ensures exists i :: 0 <= i < n + 1 && codecs.hex(contents[i]) == x {
      if x == d {
        assert codecs.hex(contents[n]) == x;
      } else {
        var i :| 0 <= i < n && codecs.hex(contents[i]) == x;
      }
    }
  }

  lemma {:induction false} BuildTree(codecs: Codecs, contents: seq<Bytes>, n: nat)
    returns (shards: map<string, Node>, files: map<string, Bytes>)
    requires Faithful(codecs) && Distinguished(codecs, contents) && n <= |contents|
    ensures TreeHolds(shards, files) && FilesOf(codecs, contents, n, files)
  {
    shards, files := map[], map[];
    if n > 0 {
      shards, files := BuildTree(codecs, contents, n - 1);
      var d := codecs.hex(contents[n - 1]);
      FilesNext(codecs, contents, n - 1, files);
      AddsBlob(shards, files, d, contents[n - 1]);
      shards, files := WithBlob(shards, d, contents[n - 1]), files[d := contents[n - 1]];
    }
  }

  function RowsOf(codecs: Codecs, contents: seq<Bytes>): seq<Row> {
    seq(|contents|, i requires 0 <= i < |contents| => Row(codecs.hex(contents[i]), |contents[i]|))
  }

  function StoreOf(files: map<string, Bytes>): Store {
    Store(map d | d in files :: |files[d]|, None, 0, "instance", "owner", "created", 1, None)
  }

  function RootOf(shards: map<string, Node>): Node {
    Directory(map["sha256" := Directory(shards)])
  }

  lemma RootFinds(shards: map<string, Node>, d: string)
    ensures BlobNode(RootOf(shards), d) == TreeBlob(shards, d)
  {
  }

  lemma RowsAreQueried(codecs: Codecs, contents: seq<Bytes>, files: map<string, Bytes>)
    requires Distinguished(codecs, contents) && FilesOf(codecs, contents, |contents|, files)
    ensures QueriedRows(StoreOf(files), RowsOf(codecs, contents))
  {
    var store, rows := StoreOf(files), RowsOf(codecs, contents);
    forall d | d in store.rows ensures exists i :: 0 <= i < |rows| && rows[i].digest == d {
      var i :| 0 <= i < |contents| && codecs.hex(contents[i]) == d;
      assert rows[i].digest == d;
    }
  }

  lemma RowsAreCopyable(codecs: Codecs, contents: seq<Bytes>, shards: map<string, Node>, files: map<string, Bytes>)
    requires Faithful(codecs) && TreeHolds(shards, files) && FilesOf(codecs, contents, |contents|, files)
    ensures forall i :: 0 <= i < |contents| ==> Copyable(codecs, RootOf(shards), RowsOf(codecs, contents)[i])
    ensures SourceFiles(RootOf(shards), StoreOf(files), files)
  {
    forall d | d in files ensures RegularAs(BlobNode(RootOf(shards), d), files[d]) { RootFinds(shards, d); }
    forall i | 0 <= i < |contents| ensures Copyable(codecs, RootOf(shards), RowsOf(codecs, contents)[i]) {
      assert RegularAs(BlobNode(RootOf(shards), codecs.hex(contents[i])), contents[i]);
    }
  }

  /** Such backups exist: any contents with distinct digests, more than 444,429 of them, make an archive whose backup is
      created with success and refused by validation. */
  lemma RefusedBackup(codecs: Codecs, contents: seq<Bytes>)
    returns (store: Store, rows: seq<Row>, blobs: Node, dir: Node, shards: map<string, Node>, files: map<string, Bytes>)
    requires Faithful(codecs) && Itemised(codecs) && Distinguished(codecs, contents)
    requires |contents| > MAX_MANIFEST_BYTES / ENTRY_TEXT
    ensures store.activeUploads == 0 && |rows| == |contents|
    ensures Created(codecs, store, rows, blobs, "now", "patwari", dir, shards, files)
    ensures !exists other :: ValidBackup(codecs, dir, other)
  {
    shards, files := BuildTree(codecs, contents, |contents|);
    store, rows, blobs := StoreOf(files), RowsOf(codecs, contents), RootOf(shards);
    RowsAreQueried(codecs, contents, files);
    RowsAreCopyable(codecs, contents, shards, files);
    dir := BackupDirectory(codecs.encode(ManifestFor(codecs, store, rows, "now", "patwari")),
                           codecs.dump(CopiedStore(store)), shards);
    LargeArchivesAreRefused(codecs, store, rows, blobs, "now", "patwari", dir, shards, files);
  }
}
