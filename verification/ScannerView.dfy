/** The scanner looking at an archive the protocol maintains: what it sees of a
    reachable state, and that it never raises a false alarm about it. */
module ScannerView {
  import opened Basics
  import Catalog
  import CatalogInvariants
  import Protocol
  import ProtocolSafety
  import Runs
  import Validation
  import I = Integrity

  // The scanner's reading of digests and compressed streams is the server's.
  ghost predicate ReadsAlike(c: Catalog.Setup, w: I.World, text: Digest -> string) {
    && (forall d :: I.StorageDigest(text(d)))
    && (forall bytes :: w.hex(bytes) == text(c.codec.sha256(bytes)))
    && (forall bytes :: c.codec.inflate(bytes).Some? ==>
          w.inflate(bytes) == I.Stream(c.codec.inflate(bytes).value, false))
  }

  // A scanned blob row, identified by its digest, shows a row of the tables.
  ghost predicate ShowsBlob(t: Catalog.Tables, db: I.Database, text: Digest -> string, d: Digest)
    requires d in t.blobs && d in db.blobs
  {
    var row, shown := t.blobs[d], db.blobs[d];
    && shown.digest == text(d) && shown.size == row.size && shown.compression == Some(row.compression)
    && (shown.orphanedAt <==> row.candidate.Some?) && (shown.eligibleAfter <==> row.candidate.Some?)
    && shown.eligibleSeq == if row.candidate.Some? then Some(row.candidate.value.eligibleAfter) else None
  }

  ghost predicate ShowsArtifact(t: Catalog.Tables, row: I.FileRow) {
    row.blob in t.blobs && Catalog.RowUses(t, row.snapshot, row.index,
                                           Catalog.BlobId(row.blob, t.blobs[row.blob].serial))
  }

  ghost predicate Shown(db: I.Database, id: nat, d: Digest) {
    exists a :: a in db.artifacts && db.artifacts[a].snapshot == id && db.artifacts[a].blob == d
  }

  // The scanned tables are those of the state.
  ghost predicate Shows(t: Catalog.Tables, db: I.Database, text: Digest -> string) {
    && db.blobs.Keys == t.blobs.Keys && (forall d :: d in t.blobs ==> ShowsBlob(t, db, text, d))
    && (forall id :: I.LiveRow(db, id) <==> Catalog.Live(t, id))
    && (forall a :: a in db.artifacts ==> ShowsArtifact(t, db.artifacts[a]))
    && (forall id, i :: id in t.artifacts && 0 <= i < |t.artifacts[id]| ==>
          Shown(db, id, t.artifacts[id][i].blob.digest))
  }

  // The blob directory holds the files of the state.
  ghost predicate ShowsFiles(files: map<Digest, Bytes>, root: I.Node, text: Digest -> string) {
    forall d :: d in files ==> I.BlobNode(root, text(d)) == Some(I.Regular(files[d]))
  }

  lemma SeesReferences(t: Catalog.Tables, db: I.Database, text: Digest -> string, d: Digest)
    requires CatalogInvariants.ProjectionsFit(t) && Shows(t, db, text) && d in t.blobs
    ensures I.LiveReference(db, d) <==> Catalog.RowReferenced(t, d)
  {
    var blob := Catalog.BlobId(d, t.blobs[d].serial);
    if I.LiveReference(db, d) {
      var a :| a in db.artifacts && db.artifacts[a].blob == d && I.LiveRow(db, db.artifacts[a].snapshot);
      assert ShowsArtifact(t, db.artifacts[a]);
      assert Catalog.Live(t, db.artifacts[a].snapshot) &&
        Catalog.RowUses(t, db.artifacts[a].snapshot, db.artifacts[a].index, blob);
    }
    if Catalog.Referenced(t, blob) {
      var id, i :| Catalog.Live(t, id) && Catalog.RowUses(t, id, i, blob);
      assert Shown(db, id, d);
      var a :| a in db.artifacts && db.artifacts[a].snapshot == id && db.artifacts[a].blob == d;
      assert I.LiveRow(db, id);
    }
  }

  lemma CandidatesSound(c: Catalog.Setup, t: Catalog.Tables, db: I.Database, text: Digest -> string, d: Digest,
                        now: int)
    requires CatalogInvariants.BlobsSound(c, t) && Shows(t, db, text) && d in t.blobs
    ensures I.CandidateSound(db, d, now) <==>
      !(t.blobs[d].candidate.Some? && t.blobs[d].candidate.value.eligibleAfter <= now)
  {
    SeesReferences(t, db, text, d);
    assert ShowsBlob(t, db, text, d);
    assert CatalogInvariants.CandidateExact(c, t, d);
  }

  /** In every reachable state the scanner has something to act on about a row's candidate fields exactly when
      the row is due for collection: it never reports a stale candidate, nor an orphan without one. */
  lemma OnlyDueRowsAreReported(c: Catalog.Setup, states: seq<Protocol.State>, steps: seq<Runs.Step>, k: nat,
                               db: I.Database, text: Digest -> string, d: Digest, now: int)
    requires ProtocolSafety.CollisionFree(c) && Runs.Run(c, states, steps) && k < |states|
    requires Shows(states[k].tables, db, text) && d in db.blobs
    ensures d in states[k].tables.blobs
    ensures I.CandidateSound(db, d, now) <==>
      !(states[k].tables.blobs[d].candidate.Some? && states[k].tables.blobs[d].candidate.value.eligibleAfter <= now)
  {
    Runs.ReachableInv(c, states, steps, k);
    CandidatesSound(c, states[k].tables, db, text, d, now);
  }

  lemma HeldIsHealthy(c: Catalog.Setup, files: map<Digest, Bytes>, w: I.World, root: I.Node, text: Digest -> string,
                      a: Catalog.Artifact)
    requires ReadsAlike(c, w, text) && ShowsFiles(files, root, text) && ProtocolSafety.Held(c, files, a)
    ensures I.OriginalHealthy(w, root, text(a.stored), a.storedSize, a.compression, text(a.original), a.originalSize)
  {
    var bytes := files[a.stored];
    assert I.BlobNode(root, text(a.stored)) == Some(I.Regular(bytes));
    assert w.hex(bytes) == text(c.codec.sha256(bytes));
    var original := Catalog.Decode(c.codec, a.compression, bytes).value;
    assert w.hex(original) == text(c.codec.sha256(original));
  }

  /** In every reachable state, whatever else is under way, the scanner finds the blob of every live artifact
      sound, and its content to be the declared original. */
  lemma LiveArtifactsScanHealthy(c: Catalog.Setup, states: seq<Protocol.State>, steps: seq<Runs.Step>, k: nat,
                                 db: I.Database, w: I.World, root: I.Node, text: Digest -> string,
                                 id: nat, i: nat, now: int)
    requires ProtocolSafety.CollisionFree(c) && Runs.Run(c, states, steps) && k < |states|
    requires Shows(states[k].tables, db, text) && ReadsAlike(c, w, text) && ShowsFiles(states[k].files, root, text)
    requires Catalog.Live(states[k].tables, id) && i < |states[k].tables.snapshots[id].manifest.artifacts|
    requires states[k].tables.snapshots[id].manifest.artifacts[i].storedSize <= w.limits.artifactStored
    ensures var a := states[k].tables.snapshots[id].manifest.artifacts[i];
      && a.stored in db.blobs && I.BlobSound(w, db, root, a.stored, now)
      && I.OriginalHealthy(w, root, text(a.stored), a.storedSize, a.compression, text(a.original), a.originalSize)
  {
    var t := states[k].tables;
    var a := t.snapshots[id].manifest.artifacts[i];
    Runs.LiveArtifactsAreDurable(c, states, steps, k, id, i);
    OnlyDueRowsAreReported(c, states, steps, k, db, text, a.stored, now);
    HeldIsHealthy(c, states[k].files, w, root, text, a);
    assert ShowsBlob(t, db, text, a.stored);
  }
}
