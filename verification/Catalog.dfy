/** The metadata store: its tables, and every transaction that completion,
    deletion, garbage collection, expiry and recovery commit on it. Each
    transaction is one atomic step: it is applied whole or not at all. */
module Catalog {
  import opened Basics

  datatype Compression = Identity | Zstd

  // Hashing and decompression are arbitrary functions; decompression may reject its input.
  datatype Codec = Codec(sha256: Bytes -> Digest, inflate: Bytes -> Option<Bytes>)

  ghost function Decode(codec: Codec, compression: Compression, stored: Bytes): Option<Bytes> {
    match compression
    case Identity => Some(stored)
    case Zstd => codec.inflate(stored)
  }

  datatype Context = Context(project: Option<string>, repository: Option<string>, branch: Option<string>,
                             agentVersion: Option<string>, artifactSetVersion: nat)

  datatype Artifact = Artifact(path: string, original: Digest, originalSize: nat,
                               stored: Digest, storedSize: nat, compression: Compression)

  datatype Manifest = Manifest(session: nat, context: Context, artifacts: seq<Artifact>)

  // What a fingerprint covers: stable context and original content, never stored representation.
  datatype Original = Original(path: string, size: nat, digest: Digest)
  datatype FingerprintDocument = FingerprintDocument(session: nat, context: Context, originals: seq<Original>)

  ghost function Originals(artifacts: seq<Artifact>): seq<Original> {
    seq(|artifacts|, i requires 0 <= i < |artifacts| =>
      Original(artifacts[i].path, artifacts[i].originalSize, artifacts[i].original))
  }

  // Deployment constants: hash functions, lock striping (collisions allowed) and the GC grace period.
  datatype Setup = Setup(codec: Codec, fingerprint: FingerprintDocument -> Digest,
                         uploadStripe: nat -> nat, snapshotStripe: (nat, Digest) -> nat,
                         blobStripe: Digest -> nat, grace: nat)

  ghost function Fingerprint(c: Setup, m: Manifest): Digest {
    c.fingerprint(FingerprintDocument(m.session, m.context, Originals(m.artifacts)))
  }

  // Tables. A blob row's identifier is its digest paired with the serial of the transaction
  // that inserted it: a digest collected and promoted again gets a new identifier.
  datatype Upload = Active(manifest: Manifest) | Completed(manifest: Manifest, snapshot: nat, newlyPersisted: nat)
  datatype Candidate = Candidate(orphanedAt: int, eligibleAfter: int)
  datatype Blob = Blob(serial: nat, size: nat, compression: Compression, candidate: Option<Candidate>)
  datatype BlobId = BlobId(digest: Digest, serial: nat)
  datatype Snapshot = Snapshot(session: nat, fingerprint: Digest, manifest: Manifest, completedAt: int,
                               deletedAt: Option<int>, rearchivedFrom: Option<nat>)
  datatype ArtifactRow = ArtifactRow(blob: BlobId, path: string, original: Digest, originalSize: nat)
  datatype Capture = Capture(snapshot: nat, session: nat, context: Context)
  datatype Latest = Latest(snapshot: nat, completedAt: int, context: Context)
  datatype Tombstone = Tombstone(snapshot: nat, session: nat, fingerprint: Digest, deletedAt: int,
                                 rearchivedAs: Option<nat>)
  // History only, read by no transaction: bytes of collected rows, of files re-created under a
  // row that had lost its file, and of rows adopted by a file that had no row.
  datatype Ledger = Ledger(collected: nat, relinked: nat, adopted: nat)

  datatype Tables = Tables(
    uploads: map<nat, Upload>,
    blobs: map<Digest, Blob>,
    snapshots: map<nat, Snapshot>,
    artifacts: map<nat, seq<ArtifactRow>>,
    captures: map<nat, Capture>,
    latest: map<nat, Latest>,
    tombstones: map<nat, Tombstone>,
    nextSerial: nat,
    ledger: Ledger)

  ghost function EmptyTables(): Tables {
    Tables(map[], map[], map[], map[], map[], map[], map[], 0, Ledger(0, 0, 0))
  }

  // ---- queries ----

  ghost function StoredDigests(m: Manifest): set<Digest> {
    set i | 0 <= i < |m.artifacts| :: m.artifacts[i].stored
  }

  // The first artifact declaring a digest; uniqueness by stored digest keeps that one.
  ghost function FirstWith(artifacts: seq<Artifact>, d: Digest): (i: nat)
    requires exists k :: 0 <= k < |artifacts| && artifacts[k].stored == d
    ensures i < |artifacts| && artifacts[i].stored == d
  {
    if artifacts[0].stored == d then 0
    else
      assert exists k :: 0 <= k < |artifacts[1..]| && artifacts[1..][k].stored == d by {
        var k :| 0 <= k < |artifacts| && artifacts[k].stored == d;
        assert artifacts[1..][k - 1].stored == d;
      }
      1 + FirstWith(artifacts[1..], d)
  }

  ghost function Declared(m: Manifest, d: Digest): (a: Artifact)
    requires d in StoredDigests(m)
    ensures a in m.artifacts && a.stored == d
  {
    m.artifacts[FirstWith(m.artifacts, d)]
  }

  ghost function DeclaredSize(m: Manifest, d: Digest): nat {
    if d in StoredDigests(m) then Declared(m, d).storedSize else 0
  }

  // One size and one compression per stored digest, as normalisation guarantees.
  ghost predicate Consistent(m: Manifest) {
    forall i, j ::
      0 <= i < |m.artifacts| && 0 <= j < |m.artifacts| && m.artifacts[i].stored == m.artifacts[j].stored ==>
      m.artifacts[i].storedSize == m.artifacts[j].storedSize && m.artifacts[i].compression == m.artifacts[j].compression
  }

  ghost predicate Compatible(t: Tables, m: Manifest) {
    forall i :: 0 <= i < |m.artifacts| && m.artifacts[i].stored in t.blobs ==>
      t.blobs[m.artifacts[i].stored].size == m.artifacts[i].storedSize &&
      t.blobs[m.artifacts[i].stored].compression == m.artifacts[i].compression
  }

  ghost predicate Live(t: Tables, id: nat) {
    id in t.snapshots && t.snapshots[id].deletedAt.None?
  }

  ghost predicate LiveMatch(t: Tables, session: nat, fingerprint: Digest, id: nat) {
    Live(t, id) && t.snapshots[id].session == session && t.snapshots[id].fingerprint == fingerprint
  }

  ghost predicate RowUses(t: Tables, id: nat, i: int, blob: BlobId) {
    id in t.artifacts && 0 <= i < |t.artifacts[id]| && t.artifacts[id][i].blob == blob
  }

  // The relationship check that authorises garbage collection.
  ghost predicate Referenced(t: Tables, blob: BlobId) {
    exists id, i :: Live(t, id) && RowUses(t, id, i, blob)
  }

  ghost predicate RowReferenced(t: Tables, d: Digest) {
    d in t.blobs && Referenced(t, BlobId(d, t.blobs[d].serial))
  }

  // ---- latest context: the greatest (completion key, snapshot id) of a session ----

  ghost predicate Archived(t: Tables, session: nat, id: nat) {
    Live(t, id) && t.snapshots[id].session == session && exists u :: u in t.captures && t.captures[u].snapshot == id
  }

  predicate AtMost(key: int, id: nat, otherKey: int, otherId: nat) {
    key < otherKey || (key == otherKey && id <= otherId)
  }

  ghost predicate Newest(t: Tables, session: nat, id: nat) {
    Archived(t, session, id) &&
    forall other :: Archived(t, session, other) ==>
      AtMost(t.snapshots[other].completedAt, other, t.snapshots[id].completedAt, id)
  }

  ghost function RebuildRow(t: Tables, session: nat): Option<Latest> {
    if exists id :: Newest(t, session, id) then
      var id :| Newest(t, session, id);
      var u :| u in t.captures && t.captures[u].snapshot == id;
      Some(Latest(id, t.snapshots[id].completedAt, t.captures[u].context))
    else None
  }

  ghost function Sessions(t: Tables): set<nat> {
    set id | id in t.snapshots :: t.snapshots[id].session
  }

  ghost function RebuildLatest(t: Tables): map<nat, Latest> {
    map session | session in Sessions(t) && RebuildRow(t, session).Some? :: RebuildRow(t, session).value
  }

  ghost function UpsertLatest(latest: map<nat, Latest>, session: nat, row: Latest): map<nat, Latest> {
    if session in latest && AtMost(row.completedAt, row.snapshot, latest[session].completedAt, latest[session].snapshot)
    then latest
    else latest[session := row]
  }

  // ---- tombstone chosen by a rearchive: the greatest (deletion key, id) of the fingerprint ----

  ghost predicate Buried(t: Tables, session: nat, fingerprint: Digest, tomb: nat) {
    tomb in t.tombstones && t.tombstones[tomb].session == session && t.tombstones[tomb].fingerprint == fingerprint
  }

  ghost predicate LastBuried(t: Tables, session: nat, fingerprint: Digest, tomb: nat) {
    Buried(t, session, fingerprint, tomb) &&
    forall other :: Buried(t, session, fingerprint, other) ==>
      AtMost(t.tombstones[other].deletedAt, other, t.tombstones[tomb].deletedAt, tomb)
  }

  ghost function PriorTombstone(t: Tables, session: nat, fingerprint: Digest): (r: Option<nat>)
    ensures r.Some? ==> LastBuried(t, session, fingerprint, r.value)
  {
    if exists tomb :: LastBuried(t, session, fingerprint, tomb) then
      var tomb :| LastBuried(t, session, fingerprint, tomb); Some(tomb)
    else None
  }

  // ---- transactions ----

  datatype Transaction =
    | Nothing
    | Create(upload: nat, manifest: Manifest)
    | Terminate(upload: nat)
    | Win(upload: nat, snapshot: nat, now: int, created: set<Digest>)
    | Attach(upload: nat, snapshot: nat)
    | Delete(snapshot: nat, tombstone: nat, now: int)
    | Unschedule(digest: Digest)
    | Collect(blob: BlobId, now: int)
    | Schedule(now: int)
    | Rebuild

  // What a transaction has checked, inside itself or under locks, by the time it commits.
  ghost predicate Allowed(c: Setup, t: Tables, x: Transaction) {
    match x
    case Nothing => true
    case Create(u, m) => u !in t.uploads && Consistent(m)
    case Terminate(u) => u in t.uploads && t.uploads[u].Active?
    case Win(u, id, _, created) =>
      && u in t.uploads && t.uploads[u].Active?
      && var m := t.uploads[u].manifest;
      && Compatible(t, m)
      && id !in t.snapshots
      && (forall other :: !LiveMatch(t, m.session, Fingerprint(c, m), other))
      && created <= StoredDigests(m)
    case Attach(u, id) =>
      && u in t.uploads && t.uploads[u].Active?
      && var m := t.uploads[u].manifest;
      && LiveMatch(t, m.session, Fingerprint(c, m), id)
    case Delete(id, tomb, _) => Live(t, id) && tomb !in t.tombstones
    case Unschedule(d) => RowReferenced(t, d)
    case Collect(blob, now) => Collectable(t, blob, now) && !Referenced(t, blob)
    case Schedule(_) => true
    case Rebuild => true
  }

  // The effect of committing, whether or not the transaction's checks still hold: that they do is
  // proved of the protocol, never assumed by it.
  ghost function Apply(c: Setup, t: Tables, x: Transaction): Tables {
    match x
    case Nothing => t
    case Create(u, m) => t.(uploads := t.uploads[u := Active(m)])
    case Terminate(u) => t.(uploads := t.uploads - {u})
    case Win(u, id, now, created) => if u in t.uploads then AfterWin(c, t, u, id, now, created) else t
    case Attach(u, id) => if u in t.uploads && id in t.snapshots then AfterAttach(t, u, id) else t
    case Delete(id, tomb, now) => if id in t.snapshots then AfterDelete(c, t, id, tomb, now) else t
    case Unschedule(d) => if d in t.blobs then t.(blobs := t.blobs[d := t.blobs[d].(candidate := None)]) else t
    case Collect(blob, _) => AfterCollect(t, blob)
    case Schedule(now) => AfterSchedule(c, t, now)
    case Rebuild => t.(latest := RebuildLatest(t))
  }

  ghost predicate HasRow(t: Tables, blob: BlobId) {
    blob.digest in t.blobs && t.blobs[blob.digest].serial == blob.serial
  }

  ghost predicate Collectable(t: Tables, blob: BlobId, now: int) {
    HasRow(t, blob) && t.blobs[blob.digest].candidate.Some? && t.blobs[blob.digest].candidate.value.eligibleAfter <= now
  }

  ghost function AfterCollect(t: Tables, blob: BlobId): Tables {
    if HasRow(t, blob) then
      t.(blobs := t.blobs - {blob.digest},
         ledger := t.ledger.(collected := t.ledger.collected + t.blobs[blob.digest].size))
    else t
  }

  // get_or_create for every digest of the manifest: insert what is missing, clear every candidate.
  ghost function BlobsWith(t: Tables, m: Manifest): map<Digest, Blob> {
    map d | d in t.blobs.Keys + StoredDigests(m) ::
      if d !in StoredDigests(m) then t.blobs[d]
      else if d in t.blobs then t.blobs[d].(candidate := None)
      else Blob(t.nextSerial, Declared(m, d).storedSize, Declared(m, d).compression, None)
  }

  ghost function ArtifactRows(blobs: map<Digest, Blob>, m: Manifest): seq<ArtifactRow>
    requires StoredDigests(m) <= blobs.Keys
  {
    seq(|m.artifacts|, i requires 0 <= i < |m.artifacts| =>
      var a := m.artifacts[i];
      assert a.stored in StoredDigests(m);
      ArtifactRow(BlobId(a.stored, blobs[a.stored].serial), a.path, a.original, a.originalSize))
  }

  ghost function DeclaredSizes(m: Manifest): nat -> nat {
    d => DeclaredSize(m, d)
  }

  ghost function NewlyPersisted(m: Manifest, created: set<Digest>): nat {
    SumOver(created, DeclaredSizes(m))
  }

  ghost function AfterWin(c: Setup, t: Tables, u: nat, id: nat, now: int, created: set<Digest>): Tables
    requires u in t.uploads
  {
    var m := t.uploads[u].manifest;
    var fingerprint := Fingerprint(c, m);
    var blobs := BlobsWith(t, m);
    var prior := PriorTombstone(t, m.session, fingerprint);
    var missing := StoredDigests(m) - t.blobs.Keys;
    Tables(
      t.uploads[u := Completed(m, id, NewlyPersisted(m, created))],
      blobs,
      t.snapshots[id := Snapshot(m.session, fingerprint, m, now, None, prior)],
      t.artifacts[id := ArtifactRows(blobs, m)],
      t.captures[u := Capture(id, m.session, m.context)],
      UpsertLatest(t.latest, m.session, Latest(id, now, m.context)),
      if prior.Some? && t.tombstones[prior.value].rearchivedAs.None?
      then t.tombstones[prior.value := t.tombstones[prior.value].(rearchivedAs := Some(id))]
      else t.tombstones,
      t.nextSerial + 1,
      t.ledger.(relinked := t.ledger.relinked + NewlyPersisted(m, created * t.blobs.Keys),
                adopted := t.ledger.adopted + NewlyPersisted(m, missing - created)))
  }

  ghost function AfterAttach(t: Tables, u: nat, id: nat): Tables
    requires u in t.uploads && id in t.snapshots
  {
    var m := t.uploads[u].manifest;
    t.(uploads := t.uploads[u := Completed(m, id, 0)],
       captures := t.captures[u := Capture(id, m.session, m.context)],
       latest := UpsertLatest(t.latest, m.session, Latest(id, t.snapshots[id].completedAt, m.context)))
  }

  ghost function Scheduled(t: Tables, d: Digest, candidate: Candidate): Blob
    requires d in t.blobs
  {
    t.blobs[d].(candidate := if RowReferenced(t, d) then None else Some(candidate))
  }

  // A deletion's first three writes: tombstone inserted, snapshot marked, artifact rows removed.
  ghost function Dropped(t: Tables, id: nat, tomb: nat, now: int): Tables
    requires id in t.snapshots
  {
    var s := t.snapshots[id];
    t.(tombstones := t.tombstones[tomb := Tombstone(id, s.session, s.fingerprint, now, None)],
       snapshots := t.snapshots[id := s.(deletedAt := Some(now))],
       artifacts := t.artifacts - {id})
  }

  ghost function RowsOf(t: Tables, id: nat): seq<ArtifactRow> {
    if id in t.artifacts then t.artifacts[id] else []
  }

  ghost predicate Uses(rows: seq<ArtifactRow>, blob: BlobId) {
    exists i :: 0 <= i < |rows| && rows[i].blob == blob
  }

  // schedule_or_clear for each blob of the dropped rows, asking the rows that remain.
  ghost function BlobsAfterDelete(c: Setup, t: Tables, id: nat, tomb: nat, now: int): map<Digest, Blob>
    requires id in t.snapshots
  {
    map d | d in t.blobs ::
      if Uses(RowsOf(t, id), BlobId(d, t.blobs[d].serial))
      then Scheduled(Dropped(t, id, tomb, now), d, Candidate(now, now + c.grace)) else t.blobs[d]
  }

  ghost function AfterDelete(c: Setup, t: Tables, id: nat, tomb: nat, now: int): Tables
    requires id in t.snapshots
  {
    var session := t.snapshots[id].session;
    var scheduled := Dropped(t, id, tomb, now).(blobs := BlobsAfterDelete(c, t, id, tomb, now));
    scheduled.(latest := match RebuildRow(scheduled, session)
                         case None => t.latest - {session}
                         case Some(row) => t.latest[session := row])
  }

  ghost function AfterSchedule(c: Setup, t: Tables, now: int): Tables {
    t.(blobs := map d | d in t.blobs ::
      if RowReferenced(t, d) then t.blobs[d].(candidate := None)
      else if t.blobs[d].candidate.None? then t.blobs[d].(candidate := Some(Candidate(now, now + c.grace)))
      else t.blobs[d])
  }
}
