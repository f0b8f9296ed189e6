/** A backup directory, spelled out: following the file names its manifest gives
    leads to the bytes it describes, and to every file there is. */
module BackupSpelled {
  import opened Basics
  import opened Validation
  import opened Integrity
  import opened Backup

  // The node a relative file name leads to.
  function Follow(dir: Node, filename: string): Option<Node> {
    Walk(Some(dir), Split(filename, '/'))
  }

  // The named file is there, with the size and checksum of its entry.
  predicate FileSays(codecs: Codecs, dir: Node, entry: FileEntry) {
    var node := Follow(dir, entry.filename);
    node.Some? && node.value.Regular? && |node.value.bytes| == entry.size &&
    entry.sha256 == "sha256:" + codecs.hex(node.value.bytes)
  }

  ghost predicate Named(entries: seq<FileEntry>, shard: string, name: string) {
    exists i :: 0 <= i < |entries| && entries[i].filename == "blobs/sha256/" + shard + "/" + name
  }

  // Every entry says what is there, no two entries name the same file, and nothing under the blob tree is unnamed.
  ghost predicate BlobsSay(codecs: Codecs, dir: Node, entries: seq<FileEntry>) {
    && (forall i :: 0 <= i < |entries| ==> FileSays(codecs, dir, entries[i]))
    && (forall i, j :: 0 <= i < j < |entries| ==> entries[i].filename != entries[j].filename)
    && (forall shard, name :: Walk(Some(dir), ["blobs", "sha256", shard, name]).Some? ==> Named(entries, shard, name))
  }

  // ---- names ----

  lemma {:induction false} SplitPlain(s: string)
    requires '/' !in s
    ensures Split(s, '/') == [s]
  {
    if s != "" {
      SplitPlain(s[1..]);
      assert s == [s[0]] + s[1..];
    }
  }

  lemma {:induction false} SplitJoined(s: string, rest: string)
    requires '/' !in s
    ensures Split(s + "/" + rest, '/') == [s] + Split(rest, '/')
  {
    var t := s + "/" + rest;
    if s == "" {
      assert t[1..] == rest;
    } else {
      SplitJoined(s[1..], rest);
      assert t[1..] == s[1..] + "/" + rest;
      assert s == [s[0]] + s[1..];
    }
  }

  lemma PlainDigest(digest: string)
    requires StorageDigest(digest)
    ensures '/' !in digest && '/' !in digest[..2]
  {
    forall i | 0 <= i < 64 ensures digest[i] != '/' { assert LowerHex(digest[i]); }
  }

  // The file name of a digest, and the path it is.
  lemma NameIsPath(digest: string)
    requires StorageDigest(digest)
    ensures BlobRelativeFilename(digest) == "blobs/sha256/" + digest[..2] + "/" + digest
    ensures Split(BlobRelativeFilename(digest), '/') == ["blobs", "sha256", digest[..2], digest]
  {
    PlainDigest(digest);
    var tail := digest[..2] + "/" + digest;
    SplitPlain(digest);
    SplitJoined(digest[..2], digest);
    SplitJoined("sha256", tail);
    SplitJoined("blobs", "sha256" + "/" + tail);
    assert BlobRelativeFilename(digest) == "blobs" + "/" + ("sha256" + "/" + tail);
  }

  lemma WalkFour(dir: Node, x: string, y: string, z: string, u: string)
    ensures Walk(Some(dir), [x, y, z, u]) == Child(Child(Child(Child(Some(dir), x), y), z), u)
  {
    var n1, n2 := Child(Some(dir), x), Child(Child(Some(dir), x), y);
    var n3 := Child(n2, z);
    assert Walk(Some(dir), [x, y, z, u]) == Walk(n1, [y, z, u]) by { assert [x, y, z, u][1..] == [y, z, u]; }
    assert Walk(n1, [y, z, u]) == Walk(n2, [z, u]) by { assert [y, z, u][1..] == [z, u]; }
    assert Walk(n2, [z, u]) == Walk(n3, [u]) by { assert [z, u][1..] == [u]; }
    assert Walk(n3, [u]) == Child(n3, u) by { assert [u][1..] == []; }
  }

  lemma WalksTree(dir: Node, shard: string, name: string)
    requires LaidOut(dir)
    ensures Walk(Some(dir), ["blobs", "sha256", shard, name]) == Child(Child(Some(Directory(ShardsOf(dir))), shard),
                                                                       name)
  {
    WalkFour(dir, "blobs", "sha256", shard, name);
    assert "blobs" in dir.children && "sha256" in dir.children["blobs"].children;
  }

  lemma FollowsBlob(dir: Node, digest: string)
    requires LaidOut(dir) && StorageDigest(digest)
    ensures Follow(dir, BlobRelativeFilename(digest)) == TreeBlob(ShardsOf(dir), digest)
  {
    NameIsPath(digest);
    WalksTree(dir, digest[..2], digest);
  }

  lemma FollowsOne(dir: Node, name: string)
    requires dir.Directory? && name in dir.children && '/' !in name
    ensures Follow(dir, name) == Some(dir.children[name])
  {
    SplitPlain(name);
    var node := Child(Some(dir), name);
    assert Walk(Some(dir), [name]) == Walk(node, []) by { assert [name][1..] == []; }
    assert Walk(node, []) == node;
  }

  // ---- accepted and created directories ----

  lemma DigestIsPrefixed(text: string)
    requires DigestValue(text).Some?
    ensures text == "sha256:" + DigestValue(text).value
  {
    assert text == text[..7] + text[7..];
  }

  lemma EntrySays(codecs: Codecs, dir: Node, entry: FileEntry)
    requires LaidOut(dir) && EntryShape(entry) && EntryMatches(codecs, ShardsOf(dir), entry)
    ensures FileSays(codecs, dir, entry)
  {
    var digest := DigestValue(entry.sha256).value;
    FollowsBlob(dir, digest);
    DigestIsPrefixed(entry.sha256);
  }

  lemma NothingUnnamed(dir: Node, entries: seq<FileEntry>, shard: string, name: string)
    requires LaidOut(dir) && InventoryShape(entries) && ShardsTidy(ShardsOf(dir))
    requires forall d :: Listed(ShardsOf(dir), d) <==> Backup.Declares(entries, d)
    requires Walk(Some(dir), ["blobs", "sha256", shard, name]).Some?
    ensures Named(entries, shard, name)
  {
    var shards := ShardsOf(dir);
    WalksTree(dir, shard, name);
    assert ShardTidy(shard, shards[shard]);
    assert Listed(shards, name);
    var i :| 0 <= i < |entries| && DigestValue(entries[i].sha256) == Some(name);
    NameIsPath(name);
    assert EntryShape(entries[i]);
  }

  lemma NamesDiffer(entries: seq<FileEntry>, i: nat, j: nat)
    requires InventoryShape(entries) && i < j < |entries|
    ensures entries[i].filename != entries[j].filename
  {
    var a, b := DigestValue(entries[i].sha256).value, DigestValue(entries[j].sha256).value;
    assert EntryShape(entries[i]) && EntryShape(entries[j]);
    LessTotal(a, b);
    NameIsPath(a);
    NameIsPath(b);
    assert Split(entries[i].filename, '/')[3] == a && Split(entries[j].filename, '/')[3] == b;
  }

  lemma InventorySays(codecs: Codecs, dir: Node, entries: seq<FileEntry>)
    requires LaidOut(dir) && InventoryShape(entries) && InventoryMatches(codecs, ShardsOf(dir), entries)
    ensures BlobsSay(codecs, dir, entries)
  {
    forall i | 0 <= i < |entries| ensures FileSays(codecs, dir, entries[i]) {
      EntrySays(codecs, dir, entries[i]);
    }
    forall i, j | 0 <= i < j < |entries| ensures entries[i].filename != entries[j].filename {
      NamesDiffer(entries, i, j);
    }
    forall shard, name | Walk(Some(dir), ["blobs", "sha256", shard, name]).Some? ensures Named(entries, shard, name) {
      NothingUnnamed(dir, entries, shard, name);
    }
  }

  lemma DatabaseSays(codecs: Codecs, dir: Node, entry: FileEntry)
    requires dir.Directory? && entry.filename == "patwari.db" && "patwari.db" in dir.children
    requires DatabaseMatches(codecs, dir.children["patwari.db"], entry)
    ensures FileSays(codecs, dir, entry)
  {
    FollowsOne(dir, "patwari.db");
    DigestIsPrefixed(entry.sha256);
  }

  /** An accepted directory holds its manifest under its name; the manifest's database entry and every blob entry
      name a file of the stated size and checksum; and every file of the blob tree is named. */
  lemma AcceptedSays(codecs: Codecs, dir: Node, m: BackupManifest)
    requires ValidBackup(codecs, dir, m)
    ensures var document := Follow(dir, "manifest.json");
      document.Some? && document.value.Regular? && codecs.decode(document.value.bytes) == Some(m)
    ensures m.sqlite.filename == "patwari.db" && FileSays(codecs, dir, m.sqlite)
    ensures BlobsSay(codecs, dir, m.blobs)
    ensures m.version == 1 && codecs.uuid(m.instance) && m.schema > 0
    ensures m.owner != "" && m.archiveCreatedAt != "" && m.createdAt != "" && m.application != ""
  {
    FollowsOne(dir, "manifest.json");
    DatabaseSays(codecs, dir, m.sqlite);
    InventorySays(codecs, dir, m.blobs);
  }

  /** So does a created one, whether or not it would be accepted; and its entries are the rows of the source. */
  lemma CreatedSays(codecs: Codecs, store: Store, rows: seq<Row>, blobs: Node, now: string, application: string,
                    dir: Node, shards: map<string, Node>, files: map<string, Bytes>)
    requires Faithful(codecs) && Created(codecs, store, rows, blobs, now, application, dir, shards, files)
    ensures var m := ManifestFor(codecs, store, rows, now, application);
      && Follow(dir, "manifest.json") == Some(Regular(codecs.encode(m)))
      && FileSays(codecs, dir, m.sqlite) && BlobsSay(codecs, dir, m.blobs)
      && |m.blobs| == |rows|
      && forall i :: 0 <= i < |rows| ==>
           m.blobs[i].sha256 == "sha256:" + rows[i].digest && m.blobs[i].size == rows[i].size
  {
    var m := ManifestFor(codecs, store, rows, now, application);
    CreatedLayout(codecs, store, rows, blobs, now, application, dir, shards, files);
    CreatedInventoryMatches(codecs, store, rows, blobs, shards, files);
    FollowsOne(dir, "manifest.json");
    DigestReadsBack(codecs.hex(codecs.dump(CopiedStore(store))));
    DatabaseSays(codecs, dir, m.sqlite);
    InventorySays(codecs, dir, m.blobs);
  }
}
