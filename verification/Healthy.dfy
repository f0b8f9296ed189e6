/** What a healthy scan says about tables, files and hashes, spelled out: no
    notion of the scanner is used to state it. */
module Healthy {
  import opened Basics
  import opened Catalog
  import opened Validation
  import opened Integrity

  // The file of a digest, where the blob directory keeps it.
  predicate FileReads(w: World, root: Node, digest: string, size: int) {
    |digest| == 64 &&
    var node := Walk(Some(root), ["sha256", digest[..2], digest]);
    node.Some? && node.value.Regular? && |node.value.bytes| == size && w.hex(node.value.bytes) == digest
  }

  // An artifact as its manifest declares it: the stored file has the stored size and digest, and its content, decoded
  // if it is compressed, the original size and digest.
  predicate ArtifactReads(w: World, root: Node, e: Entry) {
    && |e.stored| == 71 && e.stored[..7] == "sha256:" && |e.original| == 71 && e.original[..7] == "sha256:"
    && FileReads(w, root, e.stored[7..], e.storedSize)
    && var node := Walk(Some(root), ["sha256", e.stored[7..9], e.stored[7..]]);
    && node.Some? && node.value.Regular?
    && var bytes := node.value.bytes;
    match e.compression
    case Identity => |bytes| == e.originalSize && w.hex(bytes) == e.original[7..]
    case Zstd =>
      && !w.inflate(bytes).failed
      && |w.inflate(bytes).bytes| == e.originalSize && w.hex(w.inflate(bytes).bytes) == e.original[7..]
  }

  // The manifest stored for a snapshot, and its entries.
  ghost predicate ManifestStored(w: World, db: Database, id: nat, entries: seq<Entry>) {
    && id in db.snapshots && db.snapshots[id].manifest in db.manifests
    && var row := db.manifests[db.snapshots[id].manifest];
    && |row.json| <= w.maxManifestBytes && w.hex(row.json) == row.sha256
    && w.parse(row.json).Some? && w.parse(row.json).value.header && w.parse(row.json).value.entries == entries
  }

  // Artifact row a and its blob row say what entry e says.
  predicate RowSays(db: Database, a: nat, e: Entry) {
    && a in db.artifacts && db.artifacts[a].blob in db.blobs
    && |e.stored| == 71 && |e.original| == 71
    && var row, blob := db.artifacts[a], db.blobs[db.artifacts[a].blob];
    && row.path == e.path && row.mediaType == e.mediaType
    && row.originalSize == e.originalSize && row.original == e.original[7..]
    && blob.digest == e.stored[7..] && blob.size == e.storedSize && blob.compression == Some(e.compression)
  }

  // The artifact rows of a snapshot are its entries, one row for each at its index.
  ghost predicate RowsAreEntries(db: Database, id: nat, entries: seq<Entry>) {
    && (forall a :: a in db.artifacts && db.artifacts[a].snapshot == id ==>
          0 <= db.artifacts[a].index < |entries| && RowSays(db, a, entries[db.artifacts[a].index]))
    && (forall i :: 0 <= i < |entries| ==> RowAt(db, id, i))
    && (forall a, b :: SamePlace(db, id, a, b) ==> a == b)
  }

  predicate SamePlace(db: Database, id: nat, a: nat, b: nat) {
    && a in db.artifacts && b in db.artifacts && db.artifacts[a].snapshot == id && db.artifacts[b].snapshot == id
    && db.artifacts[a].index == db.artifacts[b].index
  }

  ghost predicate RowAt(db: Database, id: nat, i: int) {
    exists a :: a in db.artifacts && db.artifacts[a].snapshot == id && db.artifacts[a].index == i
  }

  ghost predicate SnapshotReads(w: World, db: Database, root: Node, id: nat, entries: seq<Entry>) {
    && ManifestStored(w, db, id, entries)
    && if db.snapshots[id].deleted then
         id in db.entombed && forall a :: a in db.artifacts ==> db.artifacts[a].snapshot != id
       else
         && db.snapshots[id].artifactCount == |entries|
         && db.snapshots[id].originalTotal == OriginalTotal(entries)
         && db.snapshots[id].storedTotal == StoredTotal(entries)
         && RowsAreEntries(db, id, entries)
         && forall e :: e in entries ==> ArtifactReads(w, root, e)
  }

  // Some live snapshot has an artifact row of blob row b.
  ghost predicate Used(db: Database, b: nat) {
    exists a :: a in db.artifacts && db.artifacts[a].blob == b && db.artifacts[a].snapshot in db.snapshots &&
      !db.snapshots[db.artifacts[a].snapshot].deleted
  }

  ghost predicate BlobReads(w: World, db: Database, root: Node, b: nat, now: int)
    requires b in db.blobs
  {
    var row := db.blobs[b];
    && FileReads(w, root, row.digest, row.size) && row.size <= w.limits.artifactStored && row.compression.Some?
    && (forall i :: 0 <= i < 64 ==> '0' <= row.digest[i] <= '9' || 'a' <= row.digest[i] <= 'f')
    && (Used(db, b) ==> !row.orphanedAt && !row.eligibleAfter && row.eligibleSeq == None)
    && (!Used(db, b) ==> row.orphanedAt && row.eligibleAfter && row.eligibleSeq.Some? && now < row.eligibleSeq.value)
  }

  // Whatever lies two levels down under names without a dot is the file of a row.
  ghost predicate NothingUnowned(db: Database, root: Node) {
    forall shard, name :: Walk(Some(root), ["sha256", shard, name]).Some? && '.' !in shard && '.' !in name ==>
      Owned(db, shard, name)
  }

  ghost predicate Owned(db: Database, shard: string, name: string) {
    |name| == 64 && name[..2] == shard && exists b :: b in db.blobs && db.blobs[b].digest == name
  }

  ghost predicate ArchiveReads(w: World, db: Database, root: Node, now: int) {
    && db.quickCheck
    && (forall id :: id in db.snapshots ==> exists entries :: SnapshotReads(w, db, root, id, entries))
    && (forall b :: b in db.blobs ==> BlobReads(w, db, root, b, now))
    && NothingUnowned(db, root)
  }

  // ---- soundness, spelled out ----

  lemma WalksToBlob(root: Node, digest: string)
    requires |digest| == 64
    ensures Walk(Some(root), ["sha256", digest[..2], digest]) == BlobNode(root, digest)
  {
    WalkThree(Some(root), "sha256", digest[..2], digest);
  }

  lemma WalkThree(node: Option<Node>, x: string, y: string, z: string)
    ensures Walk(node, [x, y, z]) == Child(Child(Child(node, x), y), z)
  {
    var names := [x, y, z];
    assert names[1..] == [y, z] && names[1..][1..] == [z] && names[1..][1..][1..] == [];
    var first, second := Child(node, x), Child(Child(node, x), y);
    assert Walk(node, names) == Walk(first, [y, z]);
    assert Walk(first, [y, z]) == Walk(second, [z]) by { assert [y, z][1..] == [z]; }
    assert Walk(second, [z]) == Child(second, z) by { assert [z][1..] == []; }
  }

  lemma FileSpelled(w: World, root: Node, digest: string, size: int)
    requires StorageDigest(digest)
    ensures StoredHealthy(w, root, digest, size) <==> FileReads(w, root, digest, size)
  {
    WalksToBlob(root, digest);
  }

  /** An artifact is held, in the sense of the scanner, exactly when it reads so. */
  lemma HeldSpelled(w: World, root: Node, e: Entry)
    requires ValidDigest(e.stored) && ValidDigest(e.original)
    ensures EntryHeld(w, root, e) <==> ArtifactReads(w, root, e)
  {
    ValidDigestReads(e.stored);
    ValidDigestReads(e.original);
    FileSpelled(w, root, e.stored[7..], e.storedSize);
    WalksToBlob(root, e.stored[7..]);
    assert e.stored[7..][..2] == e.stored[7..9];
  }

  lemma CarriesSpelled(db: Database, a: nat, i: int, e: Entry)
    requires a in db.artifacts && ValidDigest(e.stored) && ValidDigest(e.original)
    ensures RowCarries(db, a, i, e) <==> db.artifacts[a].index == i && RowSays(db, a, e)
  {
    ValidDigestReads(e.stored);
    ValidDigestReads(e.original);
  }

  lemma RowsSpelled(w: World, db: Database, id: nat, entries: seq<Entry>)
    requires Acceptable(w.limits, entries) && Projects(db, RowsOfSnapshot(db, id), entries)
    ensures RowsAreEntries(db, id, entries)
  {
    var ids := RowsOfSnapshot(db, id);
    forall a | a in ids
      ensures 0 <= db.artifacts[a].index < |entries| && RowSays(db, a, entries[db.artifacts[a].index])
    {
      ProjectedRow(db, ids, entries, a);
      assert Fits(w.limits, entries[db.artifacts[a].index]);
      CarriesSpelled(db, a, db.artifacts[a].index, entries[db.artifacts[a].index]);
    }
    forall i | 0 <= i < |entries| ensures RowAt(db, id, i) {
      assert CarriedBy(db, ids, i, entries[i]);
    }
    forall a, b | SamePlace(db, id, a, b) ensures a == b {
      OneRowPerIndex(db, ids, entries, a, b);
    }
  }

  // As many rows as entries, each entry with a row: no index is taken twice.
  lemma OneRowPerIndex(db: Database, ids: set<nat>, entries: seq<Entry>, a: nat, b: nat)
    requires Projects(db, ids, entries) && a in ids && b in ids
    requires a in db.artifacts && b in db.artifacts && db.artifacts[a].index == db.artifacts[b].index
    ensures a == b
  {
    if a != b {
      var rest := ids - {a};
      forall i | 0 <= i < |entries| ensures CarriedBy(db, rest, i, entries[i]) {
        ProjectedRow(db, ids, entries, a);
        ProjectedRow(db, ids, entries, b);
        assert CarriedBy(db, ids, i, entries[i]);
        var r :| r in ids && r in db.artifacts && RowCarries(db, r, i, entries[i]);
        if r == a { assert b in rest && RowCarries(db, b, i, entries[i]); } else { assert r in rest; }
      }
      var some := Carriers(db, rest, entries, |entries|);
      SmallerSubset(some, rest);
    }
  }

  lemma SnapshotSpelled(w: World, db: Database, root: Node, id: nat)
    requires id in db.snapshots && SnapshotSound(w, db, root, id)
    ensures SnapshotReads(w, db, root, id, StoredEntries(w, db, id))
  {
    var entries := StoredEntries(w, db, id);
    if !db.snapshots[id].deleted {
      RowsSpelled(w, db, id, entries);
      TotalsSpelled(entries);
      forall e | e in entries ensures ArtifactReads(w, root, e) {
        assert Fits(w.limits, e);
        HeldSpelled(w, root, e);
      }
    } else {
      forall a | a in db.artifacts ensures db.artifacts[a].snapshot != id { assert a !in RowsOfSnapshot(db, id); }
    }
  }

  lemma {:induction false} TotalsSpelled(entries: seq<Entry>)
    requires ManifestTotals(entries).Some?
    ensures ManifestTotals(entries).value.0 == OriginalTotal(entries)
    ensures ManifestTotals(entries).value.1 == StoredTotal(entries)
  {
    if entries != [] { TotalsSpelled(entries[..|entries| - 1]); }
  }

  lemma BlobSpelled(w: World, db: Database, root: Node, b: nat, now: int)
    requires b in db.blobs && BlobSound(w, db, root, b, now)
    ensures BlobReads(w, db, root, b, now)
  {
    FileSpelled(w, root, db.blobs[b].digest, db.blobs[b].size);
    assert LiveReference(db, b) <==> Used(db, b);
  }

  lemma NoDotIsNotTemporary(name: string)
    requires '.' !in name
    ensures !TemporaryName(name)
  {
    forall k | 0 < k < |name| ensures !TemporaryExtension(name, k) { assert name[k] in name; }
  }

  lemma OwnedSpelled(db: Database, root: Node, shard: string, name: string)
    requires RootFine(db, root) && Walk(Some(root), ["sha256", shard, name]).Some? && '.' !in shard && '.' !in name
    ensures Owned(db, shard, name)
  {
    WalkThree(Some(root), "sha256", shard, name);
    NoDotIsNotTemporary(shard);
    NoDotIsNotTemporary(name);
    var top := root.children["sha256"];
    assert RootEntryFine(db, "sha256", top);
    assert DigestEntryFine(db, shard, top.children[shard]);
    assert ShardEntryFine(db, shard, name);
  }

  /** A sound archive reads as it should: every snapshot's manifest, rows and artifacts, every blob row and its
      file, and nothing unowned in the blob directory. */
  lemma SoundSpelled(w: World, db: Database, root: Node, now: int)
    requires SoundArchive(w, db, root, now)
    ensures ArchiveReads(w, db, root, now)
  {
    forall id | id in db.snapshots ensures exists entries :: SnapshotReads(w, db, root, id, entries) {
      SnapshotSpelled(w, db, root, id);
    }
    forall b | b in db.blobs ensures BlobReads(w, db, root, b, now) { BlobSpelled(w, db, root, b, now); }
    forall shard, name | Walk(Some(root), ["sha256", shard, name]).Some? && '.' !in shard && '.' !in name
      ensures Owned(db, shard, name)
    {
      OwnedSpelled(db, root, shard, name);
    }
  }
}
