/** What every transaction keeps: the consistency of the metadata tables. */
module CatalogInvariants {
  import opened Basics
  import opened Catalog

  ghost predicate ManifestsConsistent(t: Tables) {
    (forall u :: u in t.uploads ==> Consistent(t.uploads[u].manifest)) &&
    (forall id :: id in t.snapshots ==> Consistent(t.snapshots[id].manifest))
  }

  // Artifact rows exist for exactly the live snapshots, one per artifact of the manifest, in
  // manifest order, and each refers to a blob row with the declared size and compression.
  ghost predicate RowFits(blobs: map<Digest, Blob>, a: Artifact, row: ArtifactRow) {
    && row.blob.digest == a.stored
    && row.path == a.path && row.original == a.original && row.originalSize == a.originalSize
    && a.stored in blobs
    && blobs[a.stored].serial == row.blob.serial
    && blobs[a.stored].size == a.storedSize
    && blobs[a.stored].compression == a.compression
  }

  ghost predicate RowsFit(blobs: map<Digest, Blob>, artifacts: seq<Artifact>, rows: seq<ArtifactRow>) {
    |rows| == |artifacts| && forall i :: 0 <= i < |artifacts| ==> RowFits(blobs, artifacts[i], rows[i])
  }

  ghost predicate ProjectionsFit(t: Tables) {
    (forall id :: id in t.artifacts <==> Live(t, id)) &&
    (forall id :: id in t.artifacts ==> RowsFit(t.blobs, t.snapshots[id].manifest.artifacts, t.artifacts[id]))
  }

  ghost predicate SerialsOld(t: Tables) {
    forall d :: d in t.blobs ==> t.blobs[d].serial < t.nextSerial
  }

  // A blob row is a GC candidate exactly when no live artifact refers to it.
  ghost predicate CandidateExact(c: Setup, t: Tables, d: Digest)
    requires d in t.blobs
  {
    (t.blobs[d].candidate.Some? <==> !RowReferenced(t, d)) &&
    (t.blobs[d].candidate.Some? ==>
       t.blobs[d].candidate.value.eligibleAfter == t.blobs[d].candidate.value.orphanedAt + c.grace)
  }

  ghost predicate CandidatesExact(c: Setup, t: Tables) {
    forall d :: d in t.blobs ==> CandidateExact(c, t, d)
  }

  ghost predicate BlobsSound(c: Setup, t: Tables) {
    ManifestsConsistent(t) && ProjectionsFit(t) && SerialsOld(t) && CandidatesExact(c, t)
  }

  // A blob is referenced exactly when some live manifest declares its digest.
  ghost predicate Declares(t: Tables, id: nat, i: int, d: Digest) {
    Live(t, id) && 0 <= i < |t.snapshots[id].manifest.artifacts| && t.snapshots[id].manifest.artifacts[i].stored == d
  }

  lemma ReferencedMeansDeclared(t: Tables, d: Digest)
    requires ProjectionsFit(t) && d in t.blobs
    ensures RowReferenced(t, d) <==> exists id, i :: Declares(t, id, i, d)
  {
    var blob := BlobId(d, t.blobs[d].serial);
    if RowReferenced(t, d) {
      var id, i :| Live(t, id) && RowUses(t, id, i, blob);
      assert RowFits(t.blobs, t.snapshots[id].manifest.artifacts[i], t.artifacts[id][i]);
      assert Declares(t, id, i, d);
    }
    if id, i :| Declares(t, id, i, d) {
      assert RowFits(t.blobs, t.snapshots[id].manifest.artifacts[i], t.artifacts[id][i]);
      assert RowUses(t, id, i, blob);
    }
  }

  lemma DeclaredAgrees(m: Manifest, i: nat)
    requires Consistent(m) && i < |m.artifacts|
    ensures m.artifacts[i].stored in StoredDigests(m)
    ensures Declared(m, m.artifacts[i].stored).storedSize == m.artifacts[i].storedSize
    ensures Declared(m, m.artifacts[i].stored).compression == m.artifacts[i].compression
  {
    assert m.artifacts[i].stored in StoredDigests(m);
    var k := FirstWith(m.artifacts, m.artifacts[i].stored);
    assert Declared(m, m.artifacts[i].stored) == m.artifacts[k];
  }

  lemma WinnerFits(t: Tables, m: Manifest)
    requires Consistent(m) && Compatible(t, m)
    ensures RowsFit(BlobsWith(t, m), m.artifacts, ArtifactRows(BlobsWith(t, m), m))
  {
    forall i | 0 <= i < |m.artifacts|
      ensures RowFits(BlobsWith(t, m), m.artifacts[i], ArtifactRows(BlobsWith(t, m), m)[i])
    {
      DeclaredAgrees(m, i);
    }
  }

  ghost predicate SameRow(blobs: map<Digest, Blob>, blobs': map<Digest, Blob>, d: Digest) {
    d in blobs && d in blobs' && blobs'[d].(candidate := None) == blobs[d].(candidate := None)
  }

  lemma StillFits(blobs: map<Digest, Blob>, blobs': map<Digest, Blob>, artifacts: seq<Artifact>, rows: seq<ArtifactRow>)
    requires RowsFit(blobs, artifacts, rows)
    requires forall i :: 0 <= i < |artifacts| ==> SameRow(blobs, blobs', artifacts[i].stored)
    ensures RowsFit(blobs', artifacts, rows)
  {
    forall i | 0 <= i < |artifacts| ensures RowFits(blobs', artifacts[i], rows[i]) {
      assert RowFits(blobs, artifacts[i], rows[i]);
      assert SameRow(blobs, blobs', artifacts[i].stored);
    }
  }

  lemma SnapshotDeclares(t: Tables, id: nat, i: nat)
    requires ProjectionsFit(t) && id in t.artifacts && i < |t.snapshots[id].manifest.artifacts|
    ensures t.snapshots[id].manifest.artifacts[i].stored in t.blobs
    ensures RowReferenced(t, t.snapshots[id].manifest.artifacts[i].stored)
  {
    var a := t.snapshots[id].manifest.artifacts[i];
    assert RowFits(t.blobs, a, t.artifacts[id][i]);
    assert Declares(t, id, i, a.stored);
    ReferencedMeansDeclared(t, a.stored);
  }

  lemma KeepsBlobRows(c: Setup, t: Tables, x: Transaction, d: Digest)
    requires Allowed(c, t, x) && RowReferenced(t, d)
    ensures SameRow(t.blobs, Apply(c, t, x).blobs, d)
  {
  }

  lemma OldRowsStillFit(c: Setup, t: Tables, x: Transaction, id: nat)
    requires ProjectionsFit(t) && Allowed(c, t, x) && id in t.artifacts
    ensures RowsFit(Apply(c, t, x).blobs, t.snapshots[id].manifest.artifacts, t.artifacts[id])
  {
    var artifacts := t.snapshots[id].manifest.artifacts;
    var blobs' := Apply(c, t, x).blobs;
    forall i | 0 <= i < |artifacts| ensures SameRow(t.blobs, blobs', artifacts[i].stored) {
      SnapshotDeclares(t, id, i);
      KeepsBlobRows(c, t, x, artifacts[i].stored);
    }
    StillFits(t.blobs, blobs', artifacts, t.artifacts[id]);
  }

  // The tables that decide which artifact rows exist, after each transaction.
  lemma KeepsLiveRows(c: Setup, t: Tables, x: Transaction)
    requires ProjectionsFit(t) && Allowed(c, t, x)
    ensures var t' := Apply(c, t, x);
      forall id :: (id in t'.artifacts <==> Live(t', id)) &&
        (id in t'.artifacts && !(x.Win? && id == x.snapshot) ==>
           id in t.artifacts && t'.artifacts[id] == t.artifacts[id] &&
           t'.snapshots[id].manifest == t.snapshots[id].manifest)
  {
  }

  lemma KeepsProjections(c: Setup, t: Tables, x: Transaction)
    requires BlobsSound(c, t) && Allowed(c, t, x)
    ensures ProjectionsFit(Apply(c, t, x))
  {
    var t' := Apply(c, t, x);
    KeepsLiveRows(c, t, x);
    forall id | id in t'.artifacts
      ensures RowsFit(t'.blobs, t'.snapshots[id].manifest.artifacts, t'.artifacts[id])
    {
      if x.Win? && id == x.snapshot {
        WinnerFits(t, t.uploads[x.upload].manifest);
      } else {
        OldRowsStillFit(c, t, x, id);
      }
    }
  }

  lemma KeepsManifests(c: Setup, t: Tables, x: Transaction)
    requires ManifestsConsistent(t) && Allowed(c, t, x)
    ensures ManifestsConsistent(Apply(c, t, x))
  {
  }

  lemma KeepsSerials(c: Setup, t: Tables, x: Transaction)
    requires SerialsOld(t) && Allowed(c, t, x)
    ensures SerialsOld(Apply(c, t, x))
  {
  }

  // Whether a row is referenced depends on the declarations alone.
  lemma SameReferences(t: Tables, t': Tables, d: Digest)
    requires ProjectionsFit(t) && ProjectionsFit(t') && d in t.blobs && d in t'.blobs
    requires forall id, i :: Declares(t', id, i, d) <==> Declares(t, id, i, d)
    ensures RowReferenced(t', d) <==> RowReferenced(t, d)
  {
    ReferencedMeansDeclared(t, d);
    ReferencedMeansDeclared(t', d);
  }

  lemma WinKeepsCandidate(c: Setup, t: Tables, x: Transaction, d: Digest)
    requires BlobsSound(c, t) && x.Win? && Allowed(c, t, x) && d in Apply(c, t, x).blobs
    requires ProjectionsFit(Apply(c, t, x))
    ensures CandidateExact(c, Apply(c, t, x), d)
  {
    var t' := Apply(c, t, x);
    var m := t.uploads[x.upload].manifest;
    assert t'.snapshots == t.snapshots[x.snapshot := t'.snapshots[x.snapshot]] &&
      t'.snapshots[x.snapshot].manifest == m;
    if d in StoredDigests(m) {
      var i :| 0 <= i < |m.artifacts| && m.artifacts[i].stored == d;
      assert Declares(t', x.snapshot, i, d);
      ReferencedMeansDeclared(t', d);
    } else {
      forall i | 0 <= i < |m.artifacts| ensures m.artifacts[i].stored != d {
        assert m.artifacts[i].stored in StoredDigests(m);
      }
      forall id, i ensures Declares(t', id, i, d) <==> Declares(t, id, i, d) {
      }
      SameReferences(t, t', d);
    }
  }

  // Scheduling asks the relationship rows after the artifact rows have been dropped.
  lemma DeleteKeepsCandidate(c: Setup, t: Tables, x: Transaction, d: Digest)
    requires BlobsSound(c, t) && x.Delete? && Allowed(c, t, x) && d in t.blobs
    requires ProjectionsFit(Apply(c, t, x))
    ensures CandidateExact(c, Apply(c, t, x), d)
  {
    var t' := Apply(c, t, x);
    var rows := t.artifacts[x.snapshot];
    var artifacts := t.snapshots[x.snapshot].manifest.artifacts;
    var blob := BlobId(d, t.blobs[d].serial);
    assert RowsOf(t, x.snapshot) == rows;
    if Uses(rows, blob) {
      assert Referenced(t', blob) <==> Referenced(Dropped(t, x.snapshot, x.tombstone, x.now), blob) by {
        DroppedReferences(t, t', x.snapshot, x.tombstone, x.now, blob);
      }
    } else {
      forall i | 0 <= i < |artifacts| ensures artifacts[i].stored != d {
        assert RowFits(t.blobs, artifacts[i], rows[i]);
      }
      forall id, i ensures Declares(t', id, i, d) <==> Declares(t, id, i, d) {
      }
      SameReferences(t, t', d);
    }
  }

  lemma DroppedReferences(t: Tables, t': Tables, id: nat, tomb: nat, now: int, blob: BlobId)
    requires id in t.snapshots && id in t.artifacts
    requires t'.snapshots == Dropped(t, id, tomb, now).snapshots && t'.artifacts == Dropped(t, id, tomb, now).artifacts
    ensures Referenced(t', blob) <==> Referenced(Dropped(t, id, tomb, now), blob)
  {
    var dropped := Dropped(t, id, tomb, now);
    if other, i :| Live(t', other) && RowUses(t', other, i, blob) {
      assert Live(dropped, other) && RowUses(dropped, other, i, blob);
    }
    if other, i :| Live(dropped, other) && RowUses(dropped, other, i, blob) {
      assert Live(t', other) && RowUses(t', other, i, blob);
    }
  }

  // Transactions that leave snapshots and artifact rows alone.
  lemma OthersKeepCandidate(c: Setup, t: Tables, x: Transaction, d: Digest)
    requires BlobsSound(c, t) && Allowed(c, t, x) && d in Apply(c, t, x).blobs && !x.Win? && !x.Delete?
    requires ProjectionsFit(Apply(c, t, x))
    ensures CandidateExact(c, Apply(c, t, x), d)
  {
    var t' := Apply(c, t, x);
    assert t'.snapshots == t.snapshots;
    forall id, i ensures Declares(t', id, i, d) <==> Declares(t, id, i, d) {
    }
    SameReferences(t, t', d);
    assert CandidateExact(c, t, d);
  }

  lemma KeepsBlobsSound(c: Setup, t: Tables, x: Transaction)
    requires BlobsSound(c, t) && Allowed(c, t, x)
    ensures BlobsSound(c, Apply(c, t, x))
  {
    KeepsProjections(c, t, x);
    KeepsManifests(c, t, x);
    KeepsSerials(c, t, x);
    forall d | d in Apply(c, t, x).blobs ensures CandidateExact(c, Apply(c, t, x), d) {
      if x.Win? { WinKeepsCandidate(c, t, x, d); }
      else if x.Delete? { DeleteKeepsCandidate(c, t, x, d); }
      else { OthersKeepCandidate(c, t, x, d); }
    }
  }
}
