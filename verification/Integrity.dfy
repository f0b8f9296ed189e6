/** The stored archive as the integrity scanner sees it: tables and a directory
    tree that may hold anything, what it means for them to be sound, and the
    conditions under which each scan phase reports nothing to act on. */
module Integrity {
  import opened Basics
  import opened Catalog
  import opened Validation

  // ---- tables, possibly corrupt ----

  datatype SnapshotRow = SnapshotRow(deleted: bool, manifest: nat, artifactCount: int, originalTotal: int,
                                     storedTotal: int)
  datatype ManifestRow = ManifestRow(json: Bytes, sha256: string)
  datatype FileRow = FileRow(snapshot: nat, blob: nat, index: int, path: string, mediaType: Option<string>,
                             originalSize: int, original: string)
  // An unrecognised compression name reads as None.
  datatype BlobRow = BlobRow(digest: string, size: int, compression: Option<Compression>,
                             orphanedAt: bool, eligibleAfter: bool, eligibleSeq: Option<int>)
  datatype Database = Database(quickCheck: bool, snapshots: map<nat, SnapshotRow>, manifests: map<nat, ManifestRow>,
                               artifacts: map<nat, FileRow>, blobs: map<nat, BlobRow>, entombed: set<nat>)

  // ---- files ----

  datatype Node = Regular(bytes: Bytes) | Unreadable | Special | Directory(children: map<string, Node>)

  function Child(node: Option<Node>, name: string): Option<Node> {
    if node.Some? && node.value.Directory? && name in node.value.children then Some(node.value.children[name]) else None
  }

  // The node a path of names leads to.
  function Walk(node: Option<Node>, names: seq<string>): Option<Node>
    decreases |names|
  {
    if names == [] then node else Walk(Child(node, names[0]), names[1..])
  }

  function ShardOf(digest: string): string {
    if |digest| >= 2 then digest[..2] else digest
  }

  function BlobNode(root: Node, digest: string): Option<Node> {
    Child(Child(Child(Some(root), "sha256"), ShardOf(digest)), digest)
  }

  // ---- reading ----

  // What a decoder yields: some bytes, and whether it then failed.
  datatype Stream = Stream(bytes: Bytes, failed: bool)
  datatype Document = Document(header: bool, entries: seq<Entry>)
  datatype World = World(hex: Bytes -> string, inflate: Bytes -> Stream, parse: Bytes -> Option<Document>,
                         limits: Limits, maxManifestBytes: nat)

  function Decoded(w: World, compression: Compression, bytes: Bytes): Stream {
    match compression
    case Identity => Stream(bytes, false)
    case Zstd => w.inflate(bytes)
  }

  predicate StorageDigest(text: string) {
    |text| == 64 && forall i :: 0 <= i < 64 ==> LowerHex(text[i])
  }

  // A digest text without its prefix, as rows store it.
  function StorageValue(text: string): string {
    if |text| >= 7 && text[..7] == "sha256:" then text[7..] else text
  }

  predicate DocumentDigest(text: string) {
    |text| >= 7 && text[..7] == "sha256:" && StorageDigest(text[7..])
  }

  lemma ValidDigestReads(text: string)
    ensures ValidDigest(text) <==> DocumentDigest(text)
    ensures ValidDigest(text) ==> StorageDigest(StorageValue(text)) && StorageValue(text) == text[7..]
  {
    if DocumentDigest(text) {
      forall i | 7 <= i < 71 ensures LowerHex(text[i]) { assert text[i] == text[7..][i - 7]; }
    }
  }

  predicate StoredHealthy(w: World, root: Node, digest: string, size: int) {
    var node := BlobNode(root, digest);
    node.Some? && node.value.Regular? && |node.value.bytes| == size && w.hex(node.value.bytes) == digest
  }

  // The stored file verifies and decodes to the declared original.
  predicate OriginalHealthy(w: World, root: Node, digest: string, size: int, compression: Compression,
                            original: string, originalSize: int) {
    && StoredHealthy(w, root, digest, size)
    && var stream := Decoded(w, compression, BlobNode(root, digest).value.bytes);
    && !stream.failed && |stream.bytes| == originalSize && w.hex(stream.bytes) == original
  }

  predicate EntryHeld(w: World, root: Node, e: Entry) {
    OriginalHealthy(w, root, StorageValue(e.stored), e.storedSize, e.compression, StorageValue(e.original),
                    e.originalSize)
  }

  // ---- snapshots ----

  predicate LiveRow(db: Database, id: nat) {
    id in db.snapshots && !db.snapshots[id].deleted
  }

  predicate ManifestReads(w: World, row: ManifestRow) {
    && |row.json| <= w.maxManifestBytes
    && w.hex(row.json) == row.sha256
    && w.parse(row.json).Some? && w.parse(row.json).value.header
  }

  ghost predicate ManifestSound(w: World, db: Database, id: nat)
    requires id in db.snapshots
  {
    && db.snapshots[id].manifest in db.manifests
    && var row := db.manifests[db.snapshots[id].manifest];
    && ManifestReads(w, row) && Acceptable(w.limits, w.parse(row.json).value.entries)
  }

  // The entries of a snapshot's stored manifest, in stored order.
  function StoredEntries(w: World, db: Database, id: nat): seq<Entry> {
    if id in db.snapshots && db.snapshots[id].manifest in db.manifests &&
       w.parse(db.manifests[db.snapshots[id].manifest].json).Some?
    then w.parse(db.manifests[db.snapshots[id].manifest].json).value.entries
    else []
  }

  // An artifact row and its blob row carry entry e at position i.
  predicate RowCarries(db: Database, a: nat, i: int, e: Entry)
    requires a in db.artifacts
  {
    var row := db.artifacts[a];
    && row.index == i && row.path == e.path && row.mediaType == e.mediaType
    && row.originalSize == e.originalSize && row.original == StorageValue(e.original)
    && row.blob in db.blobs
    && var blob := db.blobs[row.blob];
    && blob.size == e.storedSize && blob.digest == StorageValue(e.stored) && blob.compression == Some(e.compression)
  }

  function RowsOfSnapshot(db: Database, id: nat): set<nat> {
    set a | a in db.artifacts && db.artifacts[a].snapshot == id
  }

  function JoinedRows(db: Database, id: nat): set<nat> {
    set a | a in db.artifacts && db.artifacts[a].snapshot == id && db.artifacts[a].blob in db.blobs
  }

  predicate TotalsMatch(row: SnapshotRow, entries: seq<Entry>) {
    && row.artifactCount == |entries|
    && ManifestTotals(entries).Some?
    && row.originalTotal == ManifestTotals(entries).value.0 && row.storedTotal == ManifestTotals(entries).value.1
  }

  ghost predicate CarriedBy(db: Database, ids: set<nat>, i: int, e: Entry) {
    exists a :: a in ids && a in db.artifacts && RowCarries(db, a, i, e)
  }

  // As many rows as entries, and a row for each entry in its place.
  ghost predicate Projects(db: Database, ids: set<nat>, entries: seq<Entry>) {
    |ids| == |entries| && forall i :: 0 <= i < |entries| ==> CarriedBy(db, ids, i, entries[i])
  }

  ghost predicate SnapshotSound(w: World, db: Database, root: Node, id: nat)
    requires id in db.snapshots
  {
    && ManifestSound(w, db, id)
    && var entries := StoredEntries(w, db, id);
    if db.snapshots[id].deleted then
      id in db.entombed && RowsOfSnapshot(db, id) == {}
    else
      && TotalsMatch(db.snapshots[id], entries) && Projects(db, RowsOfSnapshot(db, id), entries)
      && forall e :: e in entries ==> EntryHeld(w, root, e)
  }

  // ---- blobs ----

  predicate LiveReference(db: Database, b: nat) {
    exists a :: a in db.artifacts && db.artifacts[a].blob == b && LiveRow(db, db.artifacts[a].snapshot)
  }

  // Referenced and no candidate, or unreferenced and a candidate still within its grace period.
  predicate CandidateSound(db: Database, b: nat, now: int)
    requires b in db.blobs
  {
    var row := db.blobs[b];
    if LiveReference(db, b) then !row.orphanedAt && !row.eligibleAfter && row.eligibleSeq.None?
    else row.orphanedAt && row.eligibleAfter && row.eligibleSeq.Some? && row.eligibleSeq.value > now
  }

  predicate BlobSound(w: World, db: Database, root: Node, b: nat, now: int)
    requires b in db.blobs
  {
    var row := db.blobs[b];
    && CandidateSound(db, b, now)
    && StorageDigest(row.digest) && 0 <= row.size <= w.limits.artifactStored && row.compression.Some?
    && StoredHealthy(w, root, row.digest, row.size)
  }

  predicate ForeignKeysHold(db: Database) {
    && (forall a :: a in db.artifacts ==> db.artifacts[a].snapshot in db.snapshots && db.artifacts[a].blob in db.blobs)
    && (forall id :: id in db.snapshots ==> db.snapshots[id].manifest in db.manifests)
    && (forall id :: id in db.entombed ==> id in db.snapshots)
  }

  // ---- the blob directory ----

  predicate TemporaryExtension(name: string, k: nat)
    requires 0 < k < |name|
  {
    name[k] == '.' && '.' !in name[k + 1..] &&
    (Lower(name[k + 1..]) == "partial" || Lower(name[k + 1..]) == "tmp" || Lower(name[k + 1..]) == "temp")
  }

  predicate TemporaryName(name: string) {
    (name != "" && name[0] == '.') || exists k :: 0 < k < |name| && TemporaryExtension(name, k)
  }

  predicate ShardName(name: string) {
    |name| == 2 && LowerHex(name[0]) && LowerHex(name[1])
  }

  predicate RowFor(db: Database, digest: string) {
    exists b :: b in db.blobs && db.blobs[b].digest == digest
  }

  predicate ShardEntryFine(db: Database, shard: string, name: string) {
    TemporaryName(name) || (StorageDigest(name) && name[..2] == shard && RowFor(db, name))
  }

  predicate ShardFine(db: Database, shard: string, children: map<string, Node>) {
    forall name :: name in children ==> ShardEntryFine(db, shard, name)
  }

  predicate DigestEntryFine(db: Database, name: string, node: Node) {
    TemporaryName(name) || (node.Directory? && ShardName(name) && ShardFine(db, name, node.children))
  }

  predicate DigestDirectoryFine(db: Database, children: map<string, Node>) {
    forall name :: name in children ==> DigestEntryFine(db, name, children[name])
  }

  predicate RootEntryFine(db: Database, name: string, node: Node) {
    if name == "sha256" then node.Directory? && DigestDirectoryFine(db, node.children) else TemporaryName(name)
  }

  predicate RootFine(db: Database, root: Node) {
    root.Directory? && forall name :: name in root.children ==> RootEntryFine(db, name, root.children[name])
  }

  // ---- soundness ----

  ghost predicate SoundArchive(w: World, db: Database, root: Node, now: int) {
    && db.quickCheck && ForeignKeysHold(db)
    && (forall id :: id in db.snapshots ==> SnapshotSound(w, db, root, id))
    && (forall b :: b in db.blobs ==> BlobSound(w, db, root, b, now))
    && RootFine(db, root)
  }

  // ---- what the scan of one snapshot looks at ----

  // The snapshot-level checks of a live snapshot, on rows whose blob row exists.
  ghost predicate Reconciles(w: World, db: Database, id: nat)
    requires id in db.snapshots
  {
    && db.snapshots[id].manifest in db.manifests
    && var row := db.manifests[db.snapshots[id].manifest];
    && w.hex(row.json) == row.sha256 && w.parse(row.json).Some?
    && TotalsMatch(db.snapshots[id], StoredEntries(w, db, id))
    && Projects(db, JoinedRows(db, id), StoredEntries(w, db, id))
  }

  datatype ArtifactJob = ArtifactJob(artifact: nat, blob: nat, digest: string, size: U64, original: string,
                                     originalSize: U64, compression: Compression)

  predicate JobHealthy(w: World, root: Node, job: ArtifactJob) {
    OriginalHealthy(w, root, job.digest, job.size, job.compression, job.original, job.originalSize)
  }

  function RowsAt(db: Database, id: nat, i: int): set<nat> {
    set a | a in db.artifacts && db.artifacts[a].snapshot == id && db.artifacts[a].index == i
  }

  // The blob row of artifact row a stores what entry e declares.
  predicate Represented(db: Database, a: nat, e: Entry) {
    && a in db.artifacts && db.artifacts[a].blob in db.blobs
    && var blob := db.blobs[db.artifacts[a].blob];
    blob.size == e.storedSize && blob.digest == StorageValue(e.stored) && blob.compression == Some(e.compression)
  }

  predicate Readable(w: World, e: Entry) {
    && DocumentDigest(e.stored) && DocumentDigest(e.original)
    && e.storedSize <= w.limits.artifactStored && e.originalSize <= w.limits.artifactOriginal
  }

  predicate EntryStored(w: World, root: Node, e: Entry) {
    StoredHealthy(w, root, StorageValue(e.stored), e.storedSize)
  }

  // Entry e of the normalised manifest raises no finding at position i: no row there, no blob row, a blob
  // row that stores something else, or a stored file that does not verify are passed over; otherwise the
  // file is decoded and checked.
  predicate RowScanned(w: World, db: Database, root: Node, a: nat, e: Entry) {
    a in db.artifacts && db.artifacts[a].blob in db.blobs ==>
      Readable(w, e) && (Represented(db, a, e) && EntryStored(w, root, e) ==> EntryHeld(w, root, e))
  }

  ghost predicate EntryScanned(w: World, db: Database, root: Node, id: nat, i: int, e: Entry) {
    RowsAt(db, id, i) == {} || RowScanned(w, db, root, Least(RowsAt(db, id, i)), e)
  }

  ghost predicate EntriesScanned(w: World, db: Database, root: Node, id: nat, normal: seq<Entry>) {
    forall i :: 0 <= i < |normal| ==> EntryScanned(w, db, root, id, i, normal[i])
  }

  // The job builder works on the normalised manifest, the reconciliation on the stored one.
  ghost predicate JobsClean(w: World, db: Database, root: Node, id: nat) {
    forall normal :: NormalForm(w.limits, StoredEntries(w, db, id), normal) ==> EntriesScanned(w, db, root, id, normal)
  }

  ghost predicate SnapshotClean(w: World, db: Database, root: Node, id: nat)
    requires id in db.snapshots
  {
    && ManifestSound(w, db, id)
    && if db.snapshots[id].deleted then id in db.entombed else Reconciles(w, db, id) && JobsClean(w, db, root, id)
  }

  // Artifact rows of live snapshots without a blob row, and artifact rows of tombstoned snapshots.
  function Dangling(db: Database): set<nat> {
    set a | a in db.artifacts && LiveRow(db, db.artifacts[a].snapshot) && db.artifacts[a].blob !in db.blobs
  }

  function OfTombstoned(db: Database): set<nat> {
    set a | a in db.artifacts && db.artifacts[a].snapshot in db.snapshots &&
    db.snapshots[db.artifacts[a].snapshot].deleted
  }

  // No phase of the scan has anything to act on.
  ghost predicate ScanClean(w: World, db: Database, root: Node, now: int) {
    && db.quickCheck && ForeignKeysHold(db)
    && Dangling(db) == {} && OfTombstoned(db) == {}
    && (forall id :: id in db.snapshots ==> SnapshotClean(w, db, root, id))
    && (forall b :: b in db.blobs ==> BlobSound(w, db, root, b, now))
    && RootFine(db, root)
  }

  // ---- rows and positions ----

  // Row a carries the entry at its own index, below n.
  ghost predicate InPlace(db: Database, a: nat, entries: seq<Entry>, n: nat) {
    a in db.artifacts && 0 <= db.artifacts[a].index < n <= |entries| &&
    RowCarries(db, a, db.artifacts[a].index, entries[db.artifacts[a].index])
  }

  // n rows, carrying the first n entries in their places, can be picked out.
  lemma {:induction false} Carriers(db: Database, ids: set<nat>, entries: seq<Entry>, n: nat) returns (some: set<nat>)
    requires n <= |entries| && forall i :: 0 <= i < n ==> CarriedBy(db, ids, i, entries[i])
    ensures |some| == n && some <= ids
    ensures forall a :: a in some ==> InPlace(db, a, entries, n)
  {
    some := {};
    if n > 0 {
      var rest := Carriers(db, ids, entries, n - 1);
      assert CarriedBy(db, ids, n - 1, entries[n - 1]);
      var a :| a in ids && a in db.artifacts && RowCarries(db, a, n - 1, entries[n - 1]);
      assert a !in rest;
      some := rest + {a};
    }
  }

  lemma {:induction false} SubsetOfSameSize(a: set<nat>, b: set<nat>)
    requires a <= b && |a| == |b|
    ensures a == b
  {
    if x :| x in b && x !in a {
      assert a <= b - {x};
      SmallerSubset(a, b - {x});
    }
  }

  lemma {:induction false} SmallerSubset(a: set<nat>, b: set<nat>)
    requires a <= b
    ensures |a| <= |b|
  {
    if a != {} {
      var x :| x in a;
      SmallerSubset(a - {x}, b - {x});
    }
  }

  /** Every projected row carries exactly the entry at its own index, so no two rows share an index. */
  lemma ProjectedRow(db: Database, ids: set<nat>, entries: seq<Entry>, a: nat)
    requires Projects(db, ids, entries) && a in ids
    ensures a in db.artifacts && 0 <= db.artifacts[a].index < |entries|
    ensures RowCarries(db, a, db.artifacts[a].index, entries[db.artifacts[a].index])
  {
    var some := Carriers(db, ids, entries, |entries|);
    SubsetOfSameSize(some, ids);
  }

  lemma JoinedAreAll(db: Database, id: nat)
    requires ForeignKeysHold(db)
    ensures JoinedRows(db, id) == RowsOfSnapshot(db, id)
  {
  }

  // The row the job builder finds at position i carries entry i of the stored manifest.
  lemma FoundRow(db: Database, id: nat, entries: seq<Entry>, i: nat)
    requires ForeignKeysHold(db) && Projects(db, JoinedRows(db, id), entries) && i < |entries|
    ensures RowsAt(db, id, i) != {}
    ensures var a := Least(RowsAt(db, id, i)); a in db.artifacts && RowCarries(db, a, i, entries[i])
  {
    assert CarriedBy(db, JoinedRows(db, id), i, entries[i]);
    var b :| b in JoinedRows(db, id) && b in db.artifacts && RowCarries(db, b, i, entries[i]);
    assert b in RowsAt(db, id, i);
    var a := Least(RowsAt(db, id, i));
    assert a in RowsAt(db, id, i);
    assert a in JoinedRows(db, id);
    ProjectedRow(db, JoinedRows(db, id), entries, a);
  }

  predicate SameRepresentation(a: Entry, b: Entry) {
    StorageValue(a.stored) == StorageValue(b.stored) && a.storedSize == b.storedSize && a.compression == b.compression
  }

  /** Exactly which artifacts of a reconciled snapshot have their content read: entry i of the normalised
      manifest, if and only if entry i of the stored manifest has the same stored representation. All other
      artifacts are passed over without a finding. */
  lemma ExaminedIffAligned(w: World, db: Database, root: Node, now: int, id: nat, normal: seq<Entry>, i: nat)
    requires ScanClean(w, db, root, now) && LiveRow(db, id)
    requires NormalForm(w.limits, StoredEntries(w, db, id), normal) && i < |normal|
    ensures |normal| == |StoredEntries(w, db, id)| && RowsAt(db, id, i) != {}
    ensures Represented(db, Least(RowsAt(db, id, i)), normal[i]) <==>
      SameRepresentation(StoredEntries(w, db, id)[i], normal[i])
    ensures SameRepresentation(StoredEntries(w, db, id)[i], normal[i]) ==> EntryHeld(w, root, normal[i])
  {
    var entries := StoredEntries(w, db, id);
    assert |normal| == |multiset(normal)| == |multiset(entries)| == |entries|;
    assert SnapshotClean(w, db, root, id);
    FoundRow(db, id, entries, i);
    assert EntriesScanned(w, db, root, id, normal);
    assert EntryScanned(w, db, root, id, i, normal[i]);
    assert BlobSound(w, db, root, db.artifacts[Least(RowsAt(db, id, i))].blob, now);
  }

  // At every position the stored manifest and its normal form name the same stored representation.
  ghost predicate AlignedTo(entries: seq<Entry>, normal: seq<Entry>) {
    forall i :: 0 <= i < |entries| && i < |normal| ==> SameRepresentation(entries[i], normal[i])
  }

  ghost predicate Aligned(w: World, db: Database) {
    forall id, normal :: LiveRow(db, id) && NormalForm(w.limits, StoredEntries(w, db, id), normal) ==>
      AlignedTo(StoredEntries(w, db, id), normal)
  }

  // The artifacts the job builder passes over happen to be held.
  ghost predicate SkippedHeld(w: World, root: Node, entries: seq<Entry>, normal: seq<Entry>) {
    forall i :: 0 <= i < |entries| && i < |normal| && !SameRepresentation(entries[i], normal[i]) ==>
      EntryHeld(w, root, normal[i])
  }

  ghost predicate UnexaminedHeld(w: World, db: Database, root: Node) {
    forall id, normal :: LiveRow(db, id) && NormalForm(w.limits, StoredEntries(w, db, id), normal) ==>
      SkippedHeld(w, root, StoredEntries(w, db, id), normal)
  }

  ghost predicate StoredInOrder(w: World, db: Database) {
    forall id :: LiveRow(db, id) ==> ByPath(StoredEntries(w, db, id))
  }

  // Manifests stored in path order, as the server writes them, are aligned.
  lemma OrderedIsAligned(w: World, db: Database)
    requires StoredInOrder(w, db)
    ensures Aligned(w, db)
  {
    forall id, normal | LiveRow(db, id) && NormalForm(w.limits, StoredEntries(w, db, id), normal)
      ensures AlignedTo(StoredEntries(w, db, id), normal)
    {
      SortedUnique(normal, StoredEntries(w, db, id));
    }
  }

  lemma AlignedSkipsNothing(w: World, db: Database, root: Node)
    requires Aligned(w, db)
    ensures UnexaminedHeld(w, db, root)
  {
    forall id, normal | LiveRow(db, id) && NormalForm(w.limits, StoredEntries(w, db, id), normal)
      ensures SkippedHeld(w, root, StoredEntries(w, db, id), normal)
    {
      assert AlignedTo(StoredEntries(w, db, id), normal);
    }
  }

  lemma CleanEntriesHeld(w: World, db: Database, root: Node, now: int, id: nat, normal: seq<Entry>)
    requires ScanClean(w, db, root, now) && LiveRow(db, id)
    requires NormalForm(w.limits, StoredEntries(w, db, id), normal) &&
      SkippedHeld(w, root, StoredEntries(w, db, id), normal)
    ensures forall e :: e in StoredEntries(w, db, id) ==> EntryHeld(w, root, e)
  {
    var entries := StoredEntries(w, db, id);
    assert |normal| == |multiset(normal)| == |multiset(entries)| == |entries|;
    forall i: nat | i < |normal| ensures EntryHeld(w, root, normal[i]) {
      ExaminedIffAligned(w, db, root, now, id, normal, i);
    }
    forall e | e in entries ensures EntryHeld(w, root, e) {
      MemberOf(normal, entries, e);
      var i :| 0 <= i < |normal| && normal[i] == e;
    }
  }

  lemma CleanLiveSound(w: World, db: Database, root: Node, id: nat)
    requires LiveRow(db, id) && SnapshotClean(w, db, root, id) && ForeignKeysHold(db)
    requires forall e :: e in StoredEntries(w, db, id) ==> EntryHeld(w, root, e)
    ensures SnapshotSound(w, db, root, id)
  {
    JoinedAreAll(db, id);
  }

  lemma CleanDeletedSound(w: World, db: Database, root: Node, id: nat)
    requires id in db.snapshots && db.snapshots[id].deleted && SnapshotClean(w, db, root, id) && OfTombstoned(db) == {}
    ensures SnapshotSound(w, db, root, id)
  {
    forall a ensures a !in RowsOfSnapshot(db, id) { assert a !in OfTombstoned(db); }
  }

  lemma CleanSnapshotSound(w: World, db: Database, root: Node, now: int, id: nat)
    requires ScanClean(w, db, root, now) && UnexaminedHeld(w, db, root) && id in db.snapshots
    ensures SnapshotSound(w, db, root, id)
  {
    assert SnapshotClean(w, db, root, id);
    if db.snapshots[id].deleted {
      CleanDeletedSound(w, db, root, id);
    } else {
      var normal := NormalFormExists(w.limits, StoredEntries(w, db, id));
      CleanEntriesHeld(w, db, root, now, id, normal);
      CleanLiveSound(w, db, root, id);
    }
  }

  lemma SoundJobsClean(w: World, db: Database, root: Node, id: nat)
    requires LiveRow(db, id) && SnapshotSound(w, db, root, id)
    ensures JobsClean(w, db, root, id)
  {
    var entries := StoredEntries(w, db, id);
    forall normal | NormalForm(w.limits, entries, normal) ensures EntriesScanned(w, db, root, id, normal) {
      forall i | 0 <= i < |normal| ensures EntryScanned(w, db, root, id, i, normal[i]) {
        MemberOf(entries, normal, normal[i]);
        SoundEntryScanned(w, db, root, id, entries, normal[i], i);
      }
    }
  }

  lemma SoundSnapshotClean(w: World, db: Database, root: Node, id: nat)
    requires id in db.snapshots && SnapshotSound(w, db, root, id) && ForeignKeysHold(db)
    ensures SnapshotClean(w, db, root, id)
  {
    JoinedAreAll(db, id);
    if !db.snapshots[id].deleted { SoundJobsClean(w, db, root, id); }
  }

  lemma SoundRowsLive(w: World, db: Database, root: Node, now: int, a: nat)
    requires SoundArchive(w, db, root, now) && a in db.artifacts
    ensures LiveRow(db, db.artifacts[a].snapshot)
  {
    var id := db.artifacts[a].snapshot;
    assert a in RowsOfSnapshot(db, id);
    assert SnapshotSound(w, db, root, id);
  }

  lemma SoundEntryScanned(w: World, db: Database, root: Node, id: nat, entries: seq<Entry>, e: Entry, i: int)
    requires Acceptable(w.limits, entries) && e in entries && EntryHeld(w, root, e)
    ensures EntryScanned(w, db, root, id, i, e)
  {
    assert Fits(w.limits, e);
    ValidDigestReads(e.stored);
    ValidDigestReads(e.original);
  }

  /** What a clean scan means, for any archive: it is sound exactly when the scan has nothing to act on and the
      artifacts whose content the scan passes over are held. So a sound archive never raises anything, and a clean
      scan can only miss an artifact whose stored and normalised positions name different representations. */
  lemma SoundIffCleanAndSkippedHeld(w: World, db: Database, root: Node, now: int)
    ensures SoundArchive(w, db, root, now) <==> ScanClean(w, db, root, now) && UnexaminedHeld(w, db, root)
  {
    if ScanClean(w, db, root, now) && UnexaminedHeld(w, db, root) {
      forall id | id in db.snapshots
        ensures SnapshotSound(w, db, root, id)
      {
        CleanSnapshotSound(w, db, root, now, id);
      }
    }
    if SoundArchive(w, db, root, now) {
      forall id | id in db.snapshots ensures SnapshotClean(w, db, root, id) { SoundSnapshotClean(w, db, root, id); }
      forall a | a in db.artifacts ensures a !in OfTombstoned(db) { SoundRowsLive(w, db, root, now, a); }
      forall id, normal | LiveRow(db, id) && NormalForm(w.limits, StoredEntries(w, db, id), normal)
        ensures SkippedHeld(w, root, StoredEntries(w, db, id), normal)
      {
        SoundHoldsNormal(w, db, root, id, normal);
      }
    }
  }

  lemma SoundHoldsNormal(w: World, db: Database, root: Node, id: nat, normal: seq<Entry>)
    requires LiveRow(db, id) && SnapshotSound(w, db, root, id) && NormalForm(w.limits, StoredEntries(w, db, id), normal)
    ensures forall i :: 0 <= i < |normal| ==> EntryHeld(w, root, normal[i])
  {
    forall i | 0 <= i < |normal| ensures EntryHeld(w, root, normal[i]) {
      MemberOf(normal, StoredEntries(w, db, id), normal[i]);
    }
  }

  /** The scanner is exact: on an archive whose stored manifests name at each position the representation their
      normal form names there, as every manifest in path order does, it has nothing to act on if and only if the
      archive is sound. */
  lemma CleanIffSound(w: World, db: Database, root: Node, now: int)
    requires Aligned(w, db)
    ensures ScanClean(w, db, root, now) <==> SoundArchive(w, db, root, now)
  {
    AlignedSkipsNothing(w, db, root);
    SoundIffCleanAndSkippedHeld(w, db, root, now);
  }

  /** A sound archive owns every canonical blob file, and every blob row has its file. */
  lemma FilesAndRowsCorrespond(w: World, db: Database, root: Node, now: int, digest: string)
    requires SoundArchive(w, db, root, now) && StorageDigest(digest)
    ensures BlobNode(root, digest).Some? <==> RowFor(db, digest)
    ensures RowFor(db, digest) ==>
      BlobNode(root, digest).value.Regular? && w.hex(BlobNode(root, digest).value.bytes) == digest
  {
    if BlobNode(root, digest).Some? {
      var shard := ShardOf(digest);
      assert RootEntryFine(db, "sha256", root.children["sha256"]);
      var shards := root.children["sha256"].children;
      assert DigestEntryFine(db, shard, shards[shard]);
      PlainName(shard);
      assert ShardEntryFine(db, shard, digest);
      PlainName(digest);
    }
    if RowFor(db, digest) {
      var b :| b in db.blobs && db.blobs[b].digest == digest;
      assert BlobSound(w, db, root, b, now);
    }
  }

  // A hexadecimal name is never taken for a temporary one.
  lemma PlainName(name: string)
    requires forall i :: 0 <= i < |name| ==> LowerHex(name[i])
    ensures !TemporaryName(name)
  {
    forall k | 0 < k < |name| ensures !TemporaryExtension(name, k) { assert LowerHex(name[k]); }
  }
}
