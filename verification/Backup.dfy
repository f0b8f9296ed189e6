/** Backup creation, validation and copying back: a directory holding a manifest,
    a copy of the database and one file per blob row. */
module Backup {
  import opened Basics
  import opened Validation
  import opened Integrity

  const BACKUP_FORMAT_VERSION: nat := 1
  const MANIFEST_FILE_NAME := "manifest.json"
  const DATABASE_FILE_NAME := "patwari.db"
  const MAX_MANIFEST_BYTES: nat := 64 * 1024 * 1024

  datatype FileEntry = FileEntry(filename: string, sha256: string, size: nat)
  datatype BackupManifest = BackupManifest(version: nat, createdAt: string, instance: string, owner: string,
                                           archiveCreatedAt: string, application: string, schema: int,
                                           sqlite: FileEntry, blobs: seq<FileEntry>, health: Option<string>)

  // The archived metadata: blob rows by digest, identity, and the maintenance lease.
  datatype Store = Store(rows: map<string, nat>, lease: Option<int>, activeUploads: nat, instance: string,
                         owner: string,
                         createdAt: string, schema: int, health: Option<string>)

  datatype Codecs = Codecs(hex: Bytes -> string, uuid: string -> bool,
                           encode: BackupManifest -> Bytes, decode: Bytes -> Option<BackupManifest>,
                           dump: Store -> Bytes, load: Bytes -> Option<Store>)

  // Hashes print as 64 lower-case hexadecimal digits; documents and databases read back what was written.
  ghost predicate Faithful(codecs: Codecs) {
    && (forall bytes :: StorageDigest(codecs.hex(bytes)))
    && (forall m :: codecs.decode(codecs.encode(m)) == Some(m))
    && (forall store :: codecs.load(codecs.dump(store)) == Some(store))
  }

  function BlobRelativeFilename(digest: string): string {
    "blobs/sha256/" + ShardOf(digest) + "/" + digest
  }

  function DigestDocument(digest: string): string {
    "sha256:" + digest
  }

  function DigestValue(text: string): Option<string> {
    if DocumentDigest(text) then Some(text[7..]) else None
  }

  lemma DigestReadsBack(digest: string)
    requires StorageDigest(digest)
    ensures DigestValue(DigestDocument(digest)) == Some(digest)
  {
    assert DigestDocument(digest)[7..] == digest;
  }

  // ---- blob trees ----

  function TreeBlob(shards: map<string, Node>, digest: string): Option<Node> {
    Child(Child(Some(Directory(shards)), ShardOf(digest)), digest)
  }

  predicate RegularAs(node: Option<Node>, bytes: Bytes) {
    node == Some(Regular(bytes))
  }

  // The tree holds exactly these files, each where its digest puts it.
  predicate ShardHolds(shard: string, node: Node, files: map<string, Bytes>) {
    ShardName(shard) && node.Directory? &&
    forall name :: name in node.children ==>
      StorageDigest(name) && name[..2] == shard && name in files && node.children[name] == Regular(files[name])
  }

  ghost predicate TreeHolds(shards: map<string, Node>, files: map<string, Bytes>) {
    && (forall d :: d in files ==> StorageDigest(d) && RegularAs(TreeBlob(shards, d), files[d]))
    && (forall shard :: shard in shards ==> ShardHolds(shard, shards[shard], files))
  }

  function WithBlob(shards: map<string, Node>, digest: string, bytes: Bytes): map<string, Node> {
    var shard := ShardOf(digest);
    var children := if shard in shards && shards[shard].Directory? then shards[shard].children else map[];
    shards[shard := Directory(children[digest := Regular(bytes)])]
  }

  lemma FindsBlob(shards: map<string, Node>, digest: string, bytes: Bytes, d: string)
    requires StorageDigest(digest) && StorageDigest(d)
    requires forall shard :: shard in shards ==> shards[shard].Directory?
    ensures TreeBlob(WithBlob(shards, digest, bytes), d) == if d == digest then Some(Regular(bytes))
                                                            else TreeBlob(shards, d)
  {
  }

  lemma ShardStillHolds(shards: map<string, Node>, files: map<string, Bytes>, digest: string, bytes: Bytes,
                        shard: string)
    requires StorageDigest(digest) && digest !in files
    requires shard in shards ==> ShardHolds(shard, shards[shard], files)
    requires shard in WithBlob(shards, digest, bytes)
    ensures ShardHolds(shard, WithBlob(shards, digest, bytes)[shard], files[digest := bytes])
  {
  }

  lemma AddsBlob(shards: map<string, Node>, files: map<string, Bytes>, digest: string, bytes: Bytes)
    requires TreeHolds(shards, files) && StorageDigest(digest) && digest !in files
    ensures TreeHolds(WithBlob(shards, digest, bytes), files[digest := bytes])
  {
    var shards' := WithBlob(shards, digest, bytes);
    var files' := files[digest := bytes];
    forall shard | shard in shards ensures shards[shard].Directory? { assert ShardHolds(shard, shards[shard], files); }
    forall d | d in files' ensures StorageDigest(d) && RegularAs(TreeBlob(shards', d), files'[d]) {
      assert d != digest ==> RegularAs(TreeBlob(shards, d), files[d]);
      FindsBlob(shards, digest, bytes, d);
    }
    forall shard | shard in shards' ensures ShardHolds(shard, shards'[shard], files') {
      ShardStillHolds(shards, files, digest, bytes, shard);
    }
  }

  // ---- creation ----

  datatype Row = Row(digest: string, size: nat)

  // ORDER BY stored_sha256 over the blob table.
  ghost predicate QueriedRows(store: Store, rows: seq<Row>) {
    && (forall i, j :: 0 <= i < j < |rows| ==> Less(rows[i].digest, rows[j].digest))
    && (forall i :: 0 <= i < |rows| ==> rows[i].digest in store.rows && store.rows[rows[i].digest] == rows[i].size)
    && (forall d :: d in store.rows ==> exists i :: 0 <= i < |rows| && rows[i].digest == d)
  }

  // A blob that can be copied: its canonical file has the row's size and digest.
  predicate Copyable(codecs: Codecs, blobs: Node, row: Row) {
    && StorageDigest(row.digest)
    && var node := BlobNode(blobs, row.digest);
    node.Some? && node.value.Regular? && |node.value.bytes| == row.size && codecs.hex(node.value.bytes) == row.digest
  }

  function EntryFor(row: Row): FileEntry {
    FileEntry(BlobRelativeFilename(row.digest), DigestDocument(row.digest), row.size)
  }

  function Entries(rows: seq<Row>): seq<FileEntry> {
    seq(|rows|, i requires 0 <= i < |rows| => EntryFor(rows[i]))
  }

  // The copied database: the source's contents with the lease cleared.
  function CopiedStore(store: Store): Store {
    store.(lease := None)
  }

  function ManifestFor(codecs: Codecs, store: Store, rows: seq<Row>, now: string, application: string): BackupManifest {
    var database := codecs.dump(CopiedStore(store));
    BackupManifest(BACKUP_FORMAT_VERSION, now, store.instance, store.owner, store.createdAt, application, store.schema,
                   FileEntry(DATABASE_FILE_NAME, DigestDocument(codecs.hex(database)), |database|),
                   Entries(rows), store.health)
  }

  function BackupDirectory(manifest: Bytes, database: Bytes, shards: map<string, Node>): Node {
    Directory(map[MANIFEST_FILE_NAME := Regular(manifest), DATABASE_FILE_NAME := Regular(database),
                  "blobs" := Directory(map["sha256" := Directory(shards)])])
  }

  // Source bytes of every row.
  ghost predicate SourceFiles(blobs: Node, store: Store, files: map<string, Bytes>) {
    files.Keys == store.rows.Keys && forall d :: d in files ==> RegularAs(BlobNode(blobs, d), files[d])
  }

  lemma NewRow(store: Store, rows: seq<Row>, k: nat)
    requires QueriedRows(store, rows) && k < |rows|
    ensures forall i :: 0 <= i < k ==> rows[i].digest != rows[k].digest
  {
    forall i | 0 <= i < k ensures rows[i].digest != rows[k].digest { LessTotal(rows[i].digest, rows[k].digest); }
  }

  ghost predicate KeysUpTo(rows: seq<Row>, k: nat, files: map<string, Bytes>) {
    k <= |rows| && forall d :: d in files <==> exists i :: 0 <= i < k && rows[i].digest == d
  }

  ghost predicate SourcesMatch(blobs: Node, files: map<string, Bytes>) {
    forall d :: d in files ==> RegularAs(BlobNode(blobs, d), files[d])
  }

  // The staging tree after the first k rows.
  ghost predicate CopiedUpTo(codecs: Codecs, blobs: Node, rows: seq<Row>, k: nat, tree: map<string, Node>,
                             files: map<string, Bytes>) {
    && KeysUpTo(rows, k, files) && TreeHolds(tree, files) && SourcesMatch(blobs, files)
    && forall i :: 0 <= i < k ==> Copyable(codecs, blobs, rows[i])
  }

  lemma KeysNext(rows: seq<Row>, k: nat, files: map<string, Bytes>, bytes: Bytes)
    requires k < |rows| && KeysUpTo(rows, k, files) && forall i :: 0 <= i < k ==> rows[i].digest != rows[k].digest
    ensures rows[k].digest !in files && KeysUpTo(rows, k + 1, files[rows[k].digest := bytes])
  {
  }

  lemma SourcesNext(blobs: Node, files: map<string, Bytes>, digest: string, bytes: Bytes)
    requires SourcesMatch(blobs, files) && RegularAs(BlobNode(blobs, digest), bytes)
    ensures SourcesMatch(blobs, files[digest := bytes])
  {
  }

  lemma CopiedNext(codecs: Codecs, blobs: Node, rows: seq<Row>, k: nat, tree: map<string, Node>, files: map<string,
                   Bytes>, bytes: Bytes)
    requires k < |rows| && CopiedUpTo(codecs, blobs, rows, k, tree, files)
    requires Copyable(codecs, blobs, rows[k]) && bytes == BlobNode(blobs, rows[k].digest).value.bytes
    requires forall i :: 0 <= i < k ==> rows[i].digest != rows[k].digest
    ensures CopiedUpTo(codecs, blobs, rows, k + 1, WithBlob(tree, rows[k].digest, bytes),
                       files[rows[k].digest := bytes])
  {
    KeysNext(rows, k, files, bytes);
    SourcesNext(blobs, files, rows[k].digest, bytes);
    AddsBlob(tree, files, rows[k].digest, bytes);
  }

  lemma CopiedAll(codecs: Codecs, store: Store, rows: seq<Row>, blobs: Node, tree: map<string, Node>,
                  files: map<string, Bytes>)
    requires QueriedRows(store, rows) && CopiedUpTo(codecs, blobs, rows, |rows|, tree, files)
    ensures SourceFiles(blobs, store, files)
  {
    assert files.Keys == store.rows.Keys;
  }

  // Copies the blobs one by one into the staging tree.
  method CopyBlobs(codecs: Codecs, ghost store: Store, rows: seq<Row>, blobs: Node)
    returns (shards: Option<map<string, Node>>, ghost files: map<string, Bytes>)
    requires QueriedRows(store, rows)
    ensures shards.Some? <==> forall i :: 0 <= i < |rows| ==> Copyable(codecs, blobs, rows[i])
    ensures shards.Some? ==> TreeHolds(shards.value, files) && SourceFiles(blobs, store, files)
  {
    var tree: map<string, Node> := map[];
    files := map[];
    for k := 0 to |rows|
      invariant CopiedUpTo(codecs, blobs, rows, k, tree, files)
    {
      var row := rows[k];
      if !Copyable(codecs, blobs, row) { return None, files; }
      var bytes := BlobNode(blobs, row.digest).value.bytes;
      NewRow(store, rows, k);
      CopiedNext(codecs, blobs, rows, k, tree, files, bytes);
      tree := WithBlob(tree, row.digest, bytes);
      files := files[row.digest := bytes];
    }
    CopiedAll(codecs, store, rows, blobs, tree, files);
    shards := Some(tree);
  }

  // What a created directory holds.
  ghost predicate Created(codecs: Codecs, store: Store, rows: seq<Row>, blobs: Node, now: string, application: string,
                          dir: Node, shards: map<string, Node>, files: map<string, Bytes>) {
    && QueriedRows(store, rows) && (forall i :: 0 <= i < |rows| ==> Copyable(codecs, blobs, rows[i]))
    && TreeHolds(shards, files) && SourceFiles(blobs, store, files)
    && dir == BackupDirectory(codecs.encode(ManifestFor(codecs, store, rows, now, application)),
                              codecs.dump(CopiedStore(store)), shards)
  }

  /** Under the exclusive permit, creation succeeds exactly when no upload is active and every row's file
      verifies; the directory then holds a manifest whose inventory is the row list, the database with its
      lease cleared, and exactly one file per row with the source's bytes. */
  method CreateLocked(codecs: Codecs, store: Store, rows: seq<Row>, blobs: Node, now: string, application: string)
    returns (backup: Option<Node>, ghost shards: map<string, Node>, ghost files: map<string, Bytes>)
    requires QueriedRows(store, rows)
    ensures backup.Some? <==>
      store.activeUploads == 0 && forall i :: 0 <= i < |rows| ==> Copyable(codecs, blobs, rows[i])
    ensures backup.Some? ==> Created(codecs, store, rows, blobs, now, application, backup.value, shards, files)
  {
    shards, files := map[], map[];
    if store.activeUploads != 0 { return None, shards, files; }
    var database := codecs.dump(CopiedStore(store));
    var tree, copied := CopyBlobs(codecs, store, rows, blobs);
    files := copied;
    if tree.None? { return None, shards, files; }
    shards := tree.value;
    backup := Some(BackupDirectory(codecs.encode(ManifestFor(codecs, store, rows, now, application)), database,
                                   tree.value));
  }

  // ---- validation ----

  predicate EntryShape(entry: FileEntry) {
    DigestValue(entry.sha256).Some? && entry.filename == BlobRelativeFilename(DigestValue(entry.sha256).value)
  }

  predicate IdentityShape(codecs: Codecs, m: BackupManifest) {
    && m.version == BACKUP_FORMAT_VERSION && codecs.uuid(m.instance) && m.owner != "" && m.archiveCreatedAt != ""
    && m.createdAt != "" && m.application != "" && m.schema > 0
    && m.sqlite.filename == DATABASE_FILE_NAME && DigestValue(m.sqlite.sha256).Some?
  }

  ghost predicate InventoryShape(entries: seq<FileEntry>) {
    && (forall i :: 0 <= i < |entries| ==> EntryShape(entries[i]))
    && (forall i, j :: 0 <= i < j < |entries| ==>
          Less(DigestValue(entries[i].sha256).value, DigestValue(entries[j].sha256).value))
  }

  /** The manifest's own checks; `prior` carries the last digest seen. */
  method ValidateManifestShape(codecs: Codecs, m: BackupManifest) returns (ok: bool)
    ensures ok <==> IdentityShape(codecs, m) && InventoryShape(m.blobs)
  {
    if !IdentityShape(codecs, m) { return false; }
    var prior: Option<string> := None;
    for k := 0 to |m.blobs|
      invariant InventoryShape(m.blobs[..k])
      invariant prior == if k == 0 then None else DigestValue(m.blobs[k - 1].sha256)
    {
      var digest := DigestValue(m.blobs[k].sha256);
      if digest.None? || m.blobs[k].filename != BlobRelativeFilename(digest.value) { return false; }
      if prior.Some? && !Less(prior.value, digest.value) {
        return false;
      }
      ExtendsInventory(m.blobs, k);
      prior := digest;
    }
    assert m.blobs[..|m.blobs|] == m.blobs;
    ok := true;
  }

  lemma ExtendsInventory(entries: seq<FileEntry>, k: nat)
    requires k < |entries| && InventoryShape(entries[..k]) && EntryShape(entries[k])
    requires k > 0 ==>
      EntryShape(entries[k - 1]) && Less(DigestValue(entries[k - 1].sha256).value, DigestValue(entries[k].sha256).value)
    ensures InventoryShape(entries[..k + 1])
  {
    var more := entries[..k + 1];
    forall i | 0 <= i < |more| ensures EntryShape(more[i]) {
      if i < k { assert more[i] == entries[..k][i]; }
    }
    forall i, j | 0 <= i < j < |more|
      ensures Less(DigestValue(more[i].sha256).value, DigestValue(more[j].sha256).value)
    {
      if j < k {
        assert more[i] == entries[..k][i] && more[j] == entries[..k][j];
      } else if i < k - 1 {
        assert more[i] == entries[..k][i] && more[k - 1] == entries[..k][k - 1];
        LessTransitive(DigestValue(more[i].sha256).value, DigestValue(more[k - 1].sha256).value,
                       DigestValue(more[k].sha256).value);
      }
    }
  }

  predicate ShardTidy(shard: string, node: Node) {
    ShardName(shard) && node.Directory? &&
    forall name :: name in node.children ==> StorageDigest(name) && name[..2] == shard && node.children[name].Regular?
  }

  ghost predicate ShardsTidy(shards: map<string, Node>) {
    forall shard :: shard in shards ==> ShardTidy(shard, shards[shard])
  }

  // Every file name found below a shard.
  ghost predicate Listed(shards: map<string, Node>, digest: string) {
    exists shard :: shard in shards && shards[shard].Directory? && digest in shards[shard].children
  }

  // The digests of all blob files, if the tree holds nothing else.
  method BackupBlobInventory(shards: map<string, Node>) returns (inventory: Option<set<string>>)
    ensures inventory.Some? <==> ShardsTidy(shards)
    ensures inventory.Some? ==> forall d :: d in inventory.value <==> Listed(shards, d)
  {
    var found: set<string> := {};
    var remaining := shards.Keys;
    while remaining != {}
      invariant remaining <= shards.Keys
      invariant forall shard :: shard in shards && shard !in remaining ==> ShardTidy(shard, shards[shard])
      invariant forall d :: d in found <==>
        exists shard ::
          shard in shards && shard !in remaining && shards[shard].Directory? && d in shards[shard].children
    {
      var shard :| shard in remaining;
      if !ShardTidy(shard, shards[shard]) { return None; }
      remaining := remaining - {shard};
      found := found + shards[shard].children.Keys;
    }
    inventory := Some(found);
  }

  ghost predicate Declares(entries: seq<FileEntry>, digest: string) {
    exists i :: 0 <= i < |entries| && DigestValue(entries[i].sha256) == Some(digest)
  }

  predicate EntryMatches(codecs: Codecs, shards: map<string, Node>, entry: FileEntry) {
    DigestValue(entry.sha256).Some? &&
    var node := TreeBlob(shards, DigestValue(entry.sha256).value);
    node.Some? && node.value.Regular? && |node.value.bytes| == entry.size &&
    codecs.hex(node.value.bytes) == DigestValue(entry.sha256).value
  }

  ghost predicate InventoryMatches(codecs: Codecs, shards: map<string, Node>, entries: seq<FileEntry>) {
    && ShardsTidy(shards)
    && (forall d :: Listed(shards, d) <==> Declares(entries, d))
    && (forall i :: 0 <= i < |entries| ==> EntryMatches(codecs, shards, entries[i]))
  }

  predicate DatabaseMatches(codecs: Codecs, node: Node, entry: FileEntry) {
    node.Regular? && |node.bytes| == entry.size && DigestValue(entry.sha256) == Some(codecs.hex(node.bytes))
  }

  // The parts of a directory laid out as a backup.
  predicate LaidOut(dir: Node) {
    && dir.Directory? && dir.children.Keys == {MANIFEST_FILE_NAME, DATABASE_FILE_NAME, "blobs"}
    && dir.children[MANIFEST_FILE_NAME].Regular?
    && dir.children["blobs"].Directory? && dir.children["blobs"].children.Keys == {"sha256"}
    && dir.children["blobs"].children["sha256"].Directory?
  }

  function ShardsOf(dir: Node): map<string, Node> {
    if LaidOut(dir) then dir.children["blobs"].children["sha256"].children else map[]
  }

  ghost predicate ValidBackup(codecs: Codecs, dir: Node, m: BackupManifest) {
    && LaidOut(dir)
    && |dir.children[MANIFEST_FILE_NAME].bytes| <= MAX_MANIFEST_BYTES
    && codecs.decode(dir.children[MANIFEST_FILE_NAME].bytes) == Some(m)
    && IdentityShape(codecs, m) && InventoryShape(m.blobs)
    && DatabaseMatches(codecs, dir.children[DATABASE_FILE_NAME], m.sqlite)
    && InventoryMatches(codecs, ShardsOf(dir), m.blobs)
  }

  method DeclaredDigests(entries: seq<FileEntry>) returns (expected: set<string>)
    requires InventoryShape(entries)
    ensures forall d :: d in expected <==> Declares(entries, d)
  {
    expected := {};
    for k := 0 to |entries|
      invariant forall d :: d in expected <==> exists i :: 0 <= i < k && DigestValue(entries[i].sha256) == Some(d)
    {
      expected := expected + {DigestValue(entries[k].sha256).value};
    }
  }

  method ValidateInventory(codecs: Codecs, shards: map<string, Node>, entries: seq<FileEntry>) returns (ok: bool)
    requires InventoryShape(entries)
    ensures ok <==> InventoryMatches(codecs, shards, entries)
  {
    var expected := DeclaredDigests(entries);
    var actual := BackupBlobInventory(shards);
    if actual.None? { return false; }
    if actual.value != expected {
      assert exists d :: Listed(shards, d) != Declares(entries, d) by {
        var d :| (d in actual.value) != (d in expected);
        assert Listed(shards, d) != Declares(entries, d);
      }
      return false;
    }
    for k := 0 to |entries|
      invariant forall i :: 0 <= i < k ==> EntryMatches(codecs, shards, entries[i])
    {
      if !EntryMatches(codecs, shards, entries[k]) { return false; }
    }
    ok := true;
  }

  method ValidateBackup(codecs: Codecs, dir: Node) returns (m: Option<BackupManifest>)
    ensures m.Some? ==> ValidBackup(codecs, dir, m.value)
    ensures m.None? ==> forall other :: !ValidBackup(codecs, dir, other)
  {
    if !dir.Directory? || MANIFEST_FILE_NAME !in dir.children || !dir.children[MANIFEST_FILE_NAME].Regular? {
      return None;
    }
    var bytes := dir.children[MANIFEST_FILE_NAME].bytes;
    if |bytes| > MAX_MANIFEST_BYTES { return None; }
    var decoded := codecs.decode(bytes);
    if decoded.None? { return None; }
    var shape := ValidateManifestShape(codecs, decoded.value);
    if !shape || !LaidOut(dir) { return None; }
    if !DatabaseMatches(codecs, dir.children[DATABASE_FILE_NAME], decoded.value.sqlite) { return None; }
    var inventory := ValidateInventory(codecs, ShardsOf(dir), decoded.value.blobs);
    if !inventory { return None; }
    m := decoded;
  }

  lemma ListedIsCanonical(shards: map<string, Node>, d: string)
    requires ShardsTidy(shards)
    ensures Listed(shards, d) <==> StorageDigest(d) && TreeBlob(shards, d).Some?
  {
    if Listed(shards, d) {
      var shard :| shard in shards && shards[shard].Directory? && d in shards[shard].children;
      assert ShardTidy(shard, shards[shard]);
    }
    if StorageDigest(d) && TreeBlob(shards, d).Some? {
      assert ShardOf(d) in shards && d in shards[ShardOf(d)].children;
    }
  }

  /** An accepted backup's inventory is exactly what is on disk: the declared digests are strictly ascending,
      a canonical file exists for a digest if and only if the manifest declares it, and every declared file
      has the declared size and digest. Nothing else is in the tree. */
  lemma AcceptedInventoryIsExact(codecs: Codecs, dir: Node, m: BackupManifest)
    requires ValidBackup(codecs, dir, m)
    ensures InventoryShape(m.blobs)
    ensures forall d :: StorageDigest(d) && TreeBlob(ShardsOf(dir), d).Some? <==> Declares(m.blobs, d)
    ensures forall i :: 0 <= i < |m.blobs| ==> EntryMatches(codecs, ShardsOf(dir), m.blobs[i])
    ensures ShardsTidy(ShardsOf(dir))
  {
    forall d ensures StorageDigest(d) && TreeBlob(ShardsOf(dir), d).Some? <==> Declares(m.blobs, d) {
      ListedIsCanonical(ShardsOf(dir), d);
    }
  }

  // ---- created backups validate ----

  lemma EntriesDeclareRows(store: Store, rows: seq<Row>)
    requires QueriedRows(store, rows) && forall i :: 0 <= i < |rows| ==> StorageDigest(rows[i].digest)
    ensures InventoryShape(Entries(rows))
    ensures forall d :: Declares(Entries(rows), d) <==> d in store.rows
  {
    var entries := Entries(rows);
    forall i | 0 <= i < |rows|
      ensures DigestValue(entries[i].sha256) == Some(rows[i].digest)
    {
      DigestReadsBack(rows[i].digest);
    }
    forall d ensures Declares(entries, d) <==> d in store.rows {
      if d in store.rows {
        var i :| 0 <= i < |rows| && rows[i].digest == d;
        assert DigestValue(entries[i].sha256) == Some(d);
      }
    }
  }

  lemma TreeIsTidy(shards: map<string, Node>, files: map<string, Bytes>)
    requires TreeHolds(shards, files)
    ensures ShardsTidy(shards) && forall d :: Listed(shards, d) <==> d in files
  {
    forall shard | shard in shards
      ensures ShardTidy(shard, shards[shard])
    {
      assert ShardHolds(shard, shards[shard], files);
    }
    forall d ensures Listed(shards, d) <==> d in files {
      if Listed(shards, d) {
        var shard :| shard in shards && shards[shard].Directory? && d in shards[shard].children;
        assert ShardHolds(shard, shards[shard], files);
      }
      if d in files {
        assert RegularAs(TreeBlob(shards, d), files[d]);
        assert ShardOf(d) in shards && d in shards[ShardOf(d)].children;
      }
    }
  }

  lemma CreatedInventoryMatches(codecs: Codecs, store: Store, rows: seq<Row>, blobs: Node, shards: map<string, Node>,
                                files: map<string, Bytes>)
    requires QueriedRows(store, rows) && forall i :: 0 <= i < |rows| ==> Copyable(codecs, blobs, rows[i])
    requires TreeHolds(shards, files) && SourceFiles(blobs, store, files)
    ensures InventoryShape(Entries(rows)) && InventoryMatches(codecs, shards, Entries(rows))
  {
    EntriesDeclareRows(store, rows);
    TreeIsTidy(shards, files);
    forall i | 0 <= i < |rows| ensures EntryMatches(codecs, shards, Entries(rows)[i]) {
      DigestReadsBack(rows[i].digest);
      var d := rows[i].digest;
      assert d in files;
      assert RegularAs(BlobNode(blobs, d), files[d]) && RegularAs(TreeBlob(shards, d), files[d]);
    }
  }

  lemma ThreeEntries(x: string, y: string, z: string, a: Node, b: Node, c: Node)
    requires x != y && x != z && y != z
    ensures var m := map[x := a, y := b, z := c]; m.Keys == {x, y, z} && m[x] == a && m[y] == b && m[z] == c
  {
  }

  lemma CreatedLayout(codecs: Codecs, store: Store, rows: seq<Row>, blobs: Node, now: string, application: string,
                      dir: Node, shards: map<string, Node>, files: map<string, Bytes>)
    requires Created(codecs, store, rows, blobs, now, application, dir, shards, files)
    ensures LaidOut(dir) && ShardsOf(dir) == shards
    ensures dir.children[MANIFEST_FILE_NAME] == Regular(codecs.encode(ManifestFor(codecs, store, rows, now,
                                                                                  application)))
    ensures dir.children[DATABASE_FILE_NAME] == Regular(codecs.dump(CopiedStore(store)))
  {
    DirectoryLayout(codecs.encode(ManifestFor(codecs, store, rows, now, application)), codecs.dump(CopiedStore(store)),
                    shards);
  }

  lemma DirectoryLayout(manifest: Bytes, database: Bytes, shards: map<string, Node>)
    ensures var dir := BackupDirectory(manifest, database, shards);
      && LaidOut(dir) && ShardsOf(dir) == shards
      && dir.children[MANIFEST_FILE_NAME] == Regular(manifest) && dir.children[DATABASE_FILE_NAME] == Regular(database)
  {
    DistinctNames();
    ThreeEntries(MANIFEST_FILE_NAME, DATABASE_FILE_NAME, "blobs", Regular(manifest), Regular(database),
                 Directory(map["sha256" := Directory(shards)]));
  }

  /** Creation and validation agree, with one exception: validation accepts a created directory exactly when
      the archive has a proper identity and the manifest document fits the limit, which creation does not
      check. */
  lemma CreatedValidatesIff(codecs: Codecs, store: Store, rows: seq<Row>, blobs: Node, now: string, application: string,
                            dir: Node, shards: map<string, Node>, files: map<string, Bytes>)
    requires Faithful(codecs) && Created(codecs, store, rows, blobs, now, application, dir, shards, files)
    ensures var m := ManifestFor(codecs, store, rows, now, application);
      (exists other :: ValidBackup(codecs, dir, other)) <==>
        && |codecs.encode(m)| <= MAX_MANIFEST_BYTES
        && codecs.uuid(store.instance) && store.owner != "" && store.createdAt != "" && now != ""
        && application != "" && store.schema > 0
    ensures forall other :: ValidBackup(codecs, dir, other) ==>
      other == ManifestFor(codecs, store, rows, now, application)
  {
    var m := ManifestFor(codecs, store, rows, now, application);
    DigestReadsBack(codecs.hex(codecs.dump(CopiedStore(store))));
    CreatedInventoryMatches(codecs, store, rows, blobs, shards, files);
    CreatedLayout(codecs, store, rows, blobs, now, application, dir, shards, files);
    assert ValidBackup(codecs, dir, m) <==> |codecs.encode(m)| <= MAX_MANIFEST_BYTES && IdentityShape(codecs, m);
  }

  lemma DistinctNames()
    ensures MANIFEST_FILE_NAME != DATABASE_FILE_NAME && MANIFEST_FILE_NAME != "blobs" && DATABASE_FILE_NAME != "blobs"
  {
    assert |MANIFEST_FILE_NAME| == 13 && |DATABASE_FILE_NAME| == 10 && |"blobs"| == 5;
  }

  // ---- copying into a data directory ----

  ghost predicate DeclaredFiles(shards: map<string, Node>, entries: seq<FileEntry>, files: map<string, Bytes>) {
    && (forall d :: d in files <==> Declares(entries, d))
    && (forall d :: d in files ==> RegularAs(TreeBlob(shards, d), files[d]))
  }

  /** Copies an accepted backup: the database bytes, and a fresh tree holding exactly the declared files. */
  method CopyToDataDir(codecs: Codecs, dir: Node, m: BackupManifest)
    returns (database: Bytes, copied: map<string, Node>, ghost files: map<string, Bytes>)
    requires ValidBackup(codecs, dir, m)
    ensures dir.children[DATABASE_FILE_NAME] == Regular(database)
    ensures TreeHolds(copied, files) && DeclaredFiles(ShardsOf(dir), m.blobs, files)
  {
    database := dir.children[DATABASE_FILE_NAME].bytes;
    var shards := ShardsOf(dir);
    copied, files := map[], map[];
    for k := 0 to |m.blobs|
      invariant TreeHolds(copied, files)
      invariant forall d :: d in files <==> exists i :: 0 <= i < k && DigestValue(m.blobs[i].sha256) == Some(d)
      invariant forall d :: d in files ==> RegularAs(TreeBlob(shards, d), files[d])
    {
      assert EntryMatches(codecs, shards, m.blobs[k]) && EntryShape(m.blobs[k]);
      var digest := DigestValue(m.blobs[k].sha256).value;
      var bytes := TreeBlob(shards, digest).value.bytes;
      NewEntry(m.blobs, k);
      AddsBlob(copied, files, digest, bytes);
      copied := WithBlob(copied, digest, bytes);
      files := files[digest := bytes];
    }
  }

  lemma NewEntry(entries: seq<FileEntry>, k: nat)
    requires InventoryShape(entries) && k < |entries|
    ensures forall i :: 0 <= i < k ==> DigestValue(entries[i].sha256) != DigestValue(entries[k].sha256)
  {
    forall i | 0 <= i < k ensures DigestValue(entries[i].sha256) != DigestValue(entries[k].sha256) {
      LessTotal(DigestValue(entries[i].sha256).value, DigestValue(entries[k].sha256).value);
    }
  }

  /** The round trip: whatever directory was created and accepted, copying it gives a database that reads back
      as the source's rows and identity with no lease, and a blob tree with exactly the source's files. */
  lemma RestoredArchiveIsTheSource(codecs: Codecs, store: Store, rows: seq<Row>, blobs: Node, now: string,
                                   application: string,
                                   dir: Node, shards: map<string, Node>, files: map<string, Bytes>,
                                   m: BackupManifest, database: Bytes, copied: map<string, Node>,
                                   restored: map<string, Bytes>)
    requires Faithful(codecs) && Created(codecs, store, rows, blobs, now, application, dir, shards, files)
    requires ValidBackup(codecs, dir, m) && dir.children[DATABASE_FILE_NAME] == Regular(database)
    requires TreeHolds(copied, restored) && DeclaredFiles(ShardsOf(dir), m.blobs, restored)
    ensures codecs.load(database) == Some(store.(lease := None))
    ensures restored == files && files.Keys == store.rows.Keys
    ensures forall d :: d in store.rows ==>
      RegularAs(TreeBlob(copied, d), files[d]) && RegularAs(BlobNode(blobs, d), files[d])
  {
    CreatedLayout(codecs, store, rows, blobs, now, application, dir, shards, files);
    CreatedValidatesIff(codecs, store, rows, blobs, now, application, dir, shards, files);
    EntriesDeclareRows(store, rows);
    SameFilesRestored(Entries(rows), shards, files, restored);
  }

  lemma SameFilesRestored(entries: seq<FileEntry>, shards: map<string, Node>, files: map<string, Bytes>,
                          restored: map<string, Bytes>)
    requires TreeHolds(shards, files) && DeclaredFiles(shards, entries, restored)
    requires forall d :: Declares(entries, d) <==> d in files
    ensures restored == files
  {
    forall d | d in files ensures d in restored && restored[d] == files[d] {
      assert RegularAs(TreeBlob(shards, d), files[d]) && RegularAs(TreeBlob(shards, d), restored[d]);
    }
  }

  // ---- staging ----

  // One parent directory: staged work appears under a temporary name and reaches its own name by a rename.
  class StagingDirectory {
    var entries: map<string, Node>
    var path: string
    var finalized: bool

    // Eight fresh names are tried; `taken` leaves the object unusable.
    constructor (parent: map<string, Node>, names: seq<string>)
      requires |names| == 8
      ensures finalized ==> entries == parent
      ensures !finalized ==> path in names && path !in parent && entries == parent[path := Directory(map[])]
      ensures finalized <==> forall i :: 0 <= i < 8 ==> names[i] in parent
    {
      entries, path, finalized := parent, "", true;
      new;
      for i := 0 to 8
        invariant finalized && entries == parent && forall j :: 0 <= j < i ==> names[j] in parent
      {
        if names[i] !in parent {
          path, finalized := names[i], false;
          entries := parent[names[i] := Directory(map[])];
          return;
        }
      }
    }

    method Write(content: Node)
      requires !finalized && path in entries
      modifies this`entries
      ensures entries == old(entries)[path := content]
    {
      entries := entries[path := content];
    }

    // Renames the finished directory into place. A failed sync after the rename is still reported.
    method Finalize(destination: string, renames: bool, syncs: bool) returns (ok: bool)
      requires !finalized && path in entries && destination != path
      modifies this
      ensures path == old(path)
      ensures ok <==> destination !in old(entries) && renames && syncs
      ensures finalized == ok
      ensures entries == if destination !in old(entries) &&
        renames then (old(entries) - {path})[destination := old(entries)[path]] else old(entries)
    {
      if destination in entries || !renames { return false; }
      entries := (entries - {path})[destination := entries[path]];
      if !syncs { return false; }
      finalized := true;
      ok := true;
    }

    // Unless finalized, whatever is left under the temporary name is removed.
    method Drop()
      modifies this`entries
      ensures entries == if finalized then old(entries) else old(entries) - {path}
    {
      if !finalized { entries := entries - {path}; }
    }
  }

  /** Publishing a staged directory: whatever step fails, the destination ends up absent or complete, an
      existing entry is never touched, and no temporary name is left behind. */
  method Publish(parent: map<string, Node>, names: seq<string>, content: Node, destination: string, built: bool,
                 renames: bool, syncs: bool)
    returns (ok: bool, after: map<string, Node>)
    requires |names| == 8 && destination !in names
    ensures after == parent || (destination !in parent && after == parent[destination := content])
    ensures ok ==> destination in after && after[destination] == content
  {
    var staging := new StagingDirectory(parent, names);
    if staging.finalized { return false, staging.entries; }
    if built {
      staging.Write(content);
      ok := staging.Finalize(destination, renames, syncs);
    } else {
      ok := false;
    }
    staging.Drop();
    after := staging.entries;
  }
}
