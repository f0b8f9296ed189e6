/** One step of one process keeps the protocol invariant. */
module ProtocolSteps {
  import opened Basics
  import opened Catalog
  import opened CatalogInvariants
  import opened Provenance
  import opened LatestContext
  import opened Rearchive
  import opened Protocol
  import opened ProtocolSafety

  // ---- every transaction still meets its checks when it commits ----

  lemma OrderedDigest(c: Setup, job: Job, i: nat)
    requires job == MakeJob(c, job.upload, job.manifest, job.staged) && i < |job.order|
    ensures job.order[i] in StoredDigests(job.manifest)
  {
    assert job.order[i] in job.order;
  }

  lemma CreatedDeclared(c: Setup, job: Job, promotions: seq<Promotion>)
    requires job == MakeJob(c, job.upload, job.manifest, job.staged) && PromotionsNamed(job, promotions)
    ensures CreatedBy(promotions) <= StoredDigests(job.manifest)
  {
    forall i | 0 <= i < |promotions| ensures promotions[i].digest in StoredDigests(job.manifest) {
      OrderedDigest(c, job, i);
    }
  }

  lemma CommitsOnGoAllowed(c: Setup, t: Tables, files: map<Digest, Bytes>, q: Process, now: int, id: nat)
    requires Knows(c, t, files, q)
    requires q.Recording? ==> id !in t.snapshots
    requires q.Burying? ==> id !in t.tombstones
    ensures Allowed(c, t, CommitsOnGo(c, t, q, now, id))
  {
    if q.Recording? { CreatedDeclared(c, q.job, q.promotions); }
  }

  lemma GoTakes(c: Setup, s: State, p: nat, e: Event)
    requires Can(c, s, p, e) && e.Go?
    ensures p < |s.procs| && s.mode.Serving? && Unblocked(c, s, s.procs[p])
    ensures s.procs[p].Recording? ==> e.id !in s.tables.snapshots
    ensures s.procs[p].Burying? ==> e.id !in s.tables.tombstones
    ensures Commits(c, s, p, e) == CommitsOnGo(c, s.tables, s.procs[p], e.now, e.id)
  {
  }

  lemma OtherCommitsAllowed(c: Setup, s: State, p: nat, e: Event)
    requires Can(c, s, p, e) && !e.Go?
    ensures Allowed(c, s.tables, Commits(c, s, p, e))
  {
  }

  lemma CommitsAllowed(c: Setup, s: State, p: nat, e: Event)
    requires AllKnow(c, s) && Can(c, s, p, e)
    ensures Allowed(c, s.tables, Commits(c, s, p, e))
  {
    if e.Go? {
      GoTakes(c, s, p, e);
      CommitsOnGoAllowed(c, s.tables, s.files, s.procs[p], e.now, e.id);
    } else {
      OtherCommitsAllowed(c, s, p, e);
    }
  }

  // ---- what a step changes, it changes under the lock that guards it ----

  ghost predicate ChangesUpload(x: Transaction, u: nat) {
    (x.Create? || x.Terminate? || x.Win? || x.Attach?) && x.upload == u
  }

  ghost predicate ChangesRow(t: Tables, x: Transaction, d: Digest) {
    || (x.Win? && x.upload in t.uploads && d in StoredDigests(t.uploads[x.upload].manifest))
    || (x.Unschedule? && x.digest == d)
    || (x.Collect? && x.blob.digest == d)
  }

  lemma UploadsUnderLock(c: Setup, s: State, p: nat, e: Event, u: nat)
    requires Can(c, s, p, e) && !External(e) && ChangesUpload(Commits(c, s, p, e), u)
    ensures Holds(c, s.procs[p], UploadOf(c, u))
  {
  }

  lemma JobBlobLock(c: Setup, q: Process, d: Digest)
    requires HasBlobLocks(q) && q.job == MakeJob(c, q.job.upload, q.job.manifest, q.job.staged)
    requires d in StoredDigests(q.job.manifest)
    ensures Holds(c, q, BlobOf(c, d))
  {
    StripeListed(c, StoredDigests(q.job.manifest), d);
  }

  lemma RowsUnderLock(c: Setup, s: State, p: nat, e: Event, d: Digest)
    requires AllKnow(c, s) && Can(c, s, p, e) && !External(e) && ChangesRow(s.tables, Commits(c, s, p, e), d)
    ensures Holds(c, s.procs[p], BlobOf(c, d))
  {
    var q := s.procs[p];
    assert Knows(c, s.tables, s.files, q);
    if Commits(c, s, p, e).Win? { JobBlobLock(c, q, d); }
  }

  ghost predicate ChangesFile(files: map<Digest, Bytes>, files': map<Digest, Bytes>, d: Digest) {
    (d in files <==> d !in files') || (d in files && d in files' && files[d] != files'[d])
  }

  // The one digest whose file a step can touch.
  ghost predicate Touches(q: Process, d: Digest) {
    || (q.Promoting? && |q.promotions| < |q.job.order| && d == q.job.order[|q.promotions|])
    || (q.Removing? && q.k < |q.promotions| && d == q.promotions[q.k].digest)
    || (q.Unlinking? && d == q.blob.digest)
  }

  lemma OnlyTouched(c: Setup, s: State, p: nat, e: Event, d: Digest)
    requires Can(c, s, p, e) && !External(e) && !Touches(s.procs[p], d)
    ensures !ChangesFile(s.files, FilesAfter(c, s, p, e), d)
  {
  }

  lemma TouchedUnderLock(c: Setup, t: Tables, files: map<Digest, Bytes>, q: Process, d: Digest)
    requires Knows(c, t, files, q) && Touches(q, d)
    ensures Holds(c, q, BlobOf(c, d))
  {
    if q.Promoting? {
      OrderedDigest(c, q.job, |q.promotions|);
      JobBlobLock(c, q, d);
    }
    if q.Removing? {
      OrderedDigest(c, q.job, q.k);
      JobBlobLock(c, q, d);
    }
  }

  lemma FilesUnderLock(c: Setup, s: State, p: nat, e: Event, d: Digest)
    requires AllKnow(c, s) && Can(c, s, p, e) && !External(e) && ChangesFile(s.files, FilesAfter(c, s, p, e), d)
    ensures Holds(c, s.procs[p], BlobOf(c, d))
  {
    if !Touches(s.procs[p], d) { OnlyTouched(c, s, p, e, d); }
    assert Knows(c, s.tables, s.files, s.procs[p]);
    TouchedUnderLock(c, s.tables, s.files, s.procs[p], d);
  }

  lemma DeletionsUnderLock(c: Setup, s: State, p: nat, e: Event)
    requires AllKnow(c, s) && Can(c, s, p, e) && !External(e) && Commits(c, s, p, e).Delete?
    ensures var id := Commits(c, s, p, e).snapshot;
      Live(s.tables, id) &&
      Holds(c, s.procs[p], SnapshotOf(c, s.tables.snapshots[id].session, s.tables.snapshots[id].fingerprint))
  {
    assert Knows(c, s.tables, s.files, s.procs[p]);
  }

  // ---- frames: what a transaction does not change ----

  lemma UploadFrame(c: Setup, t: Tables, x: Transaction, u: nat)
    requires u in t.uploads && !ChangesUpload(x, u)
    ensures u in Apply(c, t, x).uploads && Apply(c, t, x).uploads[u] == t.uploads[u]
  {
  }

  lemma NoRowFrame(c: Setup, t: Tables, x: Transaction, d: Digest)
    requires d !in t.blobs && !ChangesRow(t, x, d)
    ensures d !in Apply(c, t, x).blobs
  {
  }

  lemma RowFrame(c: Setup, t: Tables, x: Transaction, d: Digest)
    requires BlobsSound(c, t) && Allowed(c, t, x)
    requires d in t.blobs && !RowReferenced(t, d) && !ChangesRow(t, x, d)
    ensures d in Apply(c, t, x).blobs && Apply(c, t, x).blobs[d] == t.blobs[d]
  {
    assert CandidateExact(c, t, d);
    if x.Delete? {
      var blob := BlobId(d, t.blobs[d].serial);
      if Uses(RowsOf(t, x.snapshot), blob) {
        var i :| 0 <= i < |RowsOf(t, x.snapshot)| && RowsOf(t, x.snapshot)[i].blob == blob;
        assert RowUses(t, x.snapshot, i, blob);
        assert false;
      }
    }
  }

  lemma CondemnedFrame(c: Setup, t: Tables, x: Transaction, blob: BlobId, now: int)
    requires BlobsSound(c, t) && Allowed(c, t, x)
    requires Condemned(t, blob, now) && !ChangesRow(t, x, blob.digest)
    ensures Condemned(Apply(c, t, x), blob, now)
  {
    var t' := Apply(c, t, x);
    RowFrame(c, t, x, blob.digest);
    KeepsBlobsSound(c, t, x);
    assert CandidateExact(c, t', blob.digest);
  }

  lemma TargetFrame(c: Setup, t: Tables, x: Transaction, session: nat, fingerprint: Digest, id: nat)
    requires ProvenanceSound(c, t) && Allowed(c, t, x) && Same(t, session, fingerprint, id)
    ensures Same(Apply(c, t, x), session, fingerprint, id)
  {
    HistoryOnlyGrows(c, t, x);
    assert SameOrTombstoned(t, Apply(c, t, x), id);
  }

  lemma LiveFrame(c: Setup, t: Tables, x: Transaction, id: nat)
    requires Allowed(c, t, x) && Live(t, id) && !(x.Delete? && x.snapshot == id)
    ensures Live(Apply(c, t, x), id)
  {
    ApplyStepsIdentity(c, t, x);
  }

  // ---- the catalogue ----

  lemma KeepsTables(c: Setup, s: State, p: nat, e: Event)
    requires CollisionFree(c) && Inv(c, s) && Can(c, s, p, e)
    ensures TablesSound(c, Apply(c, s.tables, Commits(c, s, p, e)))
  {
    var x := Commits(c, s, p, e);
    CommitsAllowed(c, s, p, e);
    KeepsBlobsSound(c, s.tables, x);
    KeepsProvenance(c, s.tables, x);
    KeepsLatest(c, s.tables, x);
    KeepsLinks(c, s.tables, x);
  }

  // ---- files ----

  lemma StagedVerified(c: Setup, job: Job, d: Digest)
    requires Verified(c, job) && Consistent(job.manifest) && d in StoredDigests(job.manifest)
    ensures c.codec.sha256(StagedFor(job, d)) == d && |StagedFor(job, d)| == DeclaredSize(job.manifest, d)
  {
    var i := FirstWith(job.manifest.artifacts, d);
    assert ArtifactVerified(c.codec, job.manifest.artifacts[i], job.staged[i]);
  }

  lemma LinkGenuine(c: Setup, t: Tables, files: map<Digest, Bytes>, job: Job, n: nat)
    requires FilesGenuine(c, files) && JobKnown(c, t, job) && Consistent(job.manifest) && n < |job.order|
    ensures FilesGenuine(c, Linked(files, job, n))
  {
    OrderedDigest(c, job, n);
    StagedVerified(c, job, job.order[n]);
  }

  lemma KeepsGenuine(c: Setup, s: State, p: nat, e: Event)
    requires AllKnow(c, s) && ManifestsConsistent(s.tables) && FilesGenuine(c, s.files) && Can(c, s, p, e)
    ensures FilesGenuine(c, FilesAfter(c, s, p, e))
  {
    if Links(s, p, e) {
      var q := s.procs[p];
      assert Knows(c, s.tables, s.files, q);
      LinkGenuine(c, s.tables, s.files, q.job, |q.promotions|);
    } else {
      OnlyShrinks(c, s, p, e);
    }
  }

  // The step links a blob file.
  predicate Links(s: State, p: nat, e: Event) {
    (e.Go? || e.FailLinked?) && p < |s.procs| && s.procs[p].Promoting? &&
    |s.procs[p].promotions| < |s.procs[p].job.order|
  }

  lemma OnlyShrinks(c: Setup, s: State, p: nat, e: Event)
    requires Can(c, s, p, e) && !Links(s, p, e)
    ensures forall d :: d in FilesAfter(c, s, p, e) ==> d in s.files && FilesAfter(c, s, p, e)[d] == s.files[d]
  {
  }

  // A file under a verified digest holds the verified bytes, because digests do not collide.
  lemma FileIsStaged(c: Setup, files: map<Digest, Bytes>, job: Job, i: nat)
    requires CollisionFree(c) && FilesGenuine(c, files) && Verified(c, job)
    requires i < |job.manifest.artifacts| && job.manifest.artifacts[i].stored in files
    ensures Held(c, files, job.manifest.artifacts[i])
  {
    assert ArtifactVerified(c.codec, job.manifest.artifacts[i], job.staged[i]);
    assert c.codec.sha256(files[job.manifest.artifacts[i].stored]) == c.codec.sha256(job.staged[i]);
  }

  lemma PromotedHolds(c: Setup, t: Tables, files: map<Digest, Bytes>, job: Job)
    requires CollisionFree(c) && FilesGenuine(c, files) && JobKnown(c, t, job)
    requires Promoted(files, job, |job.order|)
    ensures AllHeld(c, files, job.manifest.artifacts)
  {
    forall i | 0 <= i < |job.manifest.artifacts| ensures Held(c, files, job.manifest.artifacts[i]) {
      var d := job.manifest.artifacts[i].stored;
      assert d in StoredDigests(job.manifest);
      assert d in job.order;
      var k :| 0 <= k < |job.order| && job.order[k] == d;
      assert job.order[k] in files;
      FileIsStaged(c, files, job, i);
    }
  }

  // A step removes only a file whose row, if it has one, no live artifact refers to.
  lemma RemovedUnreferenced(c: Setup, s: State, p: nat, e: Event, d: Digest)
    requires AllKnow(c, s) && QuietWhileRecovering(s) && Can(c, s, p, e) && d in s.files
    ensures (d in FilesAfter(c, s, p, e) && FilesAfter(c, s, p, e)[d] == s.files[d]) || !RowReferenced(s.tables, d)
  {
    if p < |s.procs| && e.Go? {
      assert Knows(c, s.tables, s.files, s.procs[p]);
      if s.procs[p].Removing? || s.procs[p].Unlinking? { VictimUnreferenced(c, s, p, e, d); }
    }
  }

  lemma VictimUnreferenced(c: Setup, s: State, p: nat, e: Event, d: Digest)
    requires p < |s.procs| && e.Go? && (s.procs[p].Removing? || s.procs[p].Unlinking?) &&
      VictimsKnown(s.tables, s.procs[p]) && d in s.files
    ensures (d in FilesAfter(c, s, p, e) && FilesAfter(c, s, p, e)[d] == s.files[d]) || !RowReferenced(s.tables, d)
  {
  }

  lemma RemovalsSpareLive(c: Setup, s: State, p: nat, e: Event, id: nat, i: nat)
    requires Inv(c, s) && Can(c, s, p, e) && Live(s.tables, id) && i < |s.tables.snapshots[id].manifest.artifacts|
    ensures Held(c, FilesAfter(c, s, p, e), s.tables.snapshots[id].manifest.artifacts[i])
  {
    var a := s.tables.snapshots[id].manifest.artifacts[i];
    assert id in s.tables.artifacts;
    assert AllHeld(c, s.files, s.tables.snapshots[id].manifest.artifacts);
    assert Held(c, s.files, a);
    SnapshotDeclares(s.tables, id, i);
    RemovedUnreferenced(c, s, p, e, a.stored);
  }

  lemma KeepsDurable(c: Setup, s: State, p: nat, e: Event)
    requires CollisionFree(c) && Inv(c, s) && Can(c, s, p, e)
    ensures Durable(c, After(c, s, p, e))
  {
    var t' := Apply(c, s.tables, Commits(c, s, p, e));
    forall id | Live(t', id) ensures AllHeld(c, FilesAfter(c, s, p, e), t'.snapshots[id].manifest.artifacts) {
      LiveAfter(c, s, p, e, id);
      if !Live(s.tables, id) { WinnerHeld(c, s, p, e); } else { SurvivorHeld(c, s, p, e, id); }
    }
  }

  // A snapshot live after the step was live before it, or is the winner's.
  lemma LiveAfter(c: Setup, s: State, p: nat, e: Event, id: nat)
    requires AllKnow(c, s) && Can(c, s, p, e) && Live(Apply(c, s.tables, Commits(c, s, p, e)), id)
    ensures var x := Commits(c, s, p, e); var manifest := Apply(c, s.tables, x).snapshots[id].manifest;
      if Live(s.tables, id) then manifest == s.tables.snapshots[id].manifest
      else x.Win? && x.upload in s.tables.uploads && manifest == s.tables.uploads[x.upload].manifest
  {
    CommitsAllowed(c, s, p, e);
    ApplyStepsIdentity(c, s.tables, Commits(c, s, p, e));
  }

  lemma SurvivorHeld(c: Setup, s: State, p: nat, e: Event, id: nat)
    requires Inv(c, s) && Can(c, s, p, e) && Live(s.tables, id)
    ensures AllHeld(c, FilesAfter(c, s, p, e), s.tables.snapshots[id].manifest.artifacts)
  {
    forall i | 0 <= i < |s.tables.snapshots[id].manifest.artifacts|
      ensures Held(c, FilesAfter(c, s, p, e), s.tables.snapshots[id].manifest.artifacts[i])
    {
      RemovalsSpareLive(c, s, p, e, id, i);
    }
  }

  lemma WinnerHeld(c: Setup, s: State, p: nat, e: Event)
    requires CollisionFree(c) && Inv(c, s) && Can(c, s, p, e) && Commits(c, s, p, e).Win?
    ensures var u := Commits(c, s, p, e).upload;
      u in s.tables.uploads && AllHeld(c, FilesAfter(c, s, p, e), s.tables.uploads[u].manifest.artifacts)
  {
    var q := s.procs[p];
    assert Knows(c, s.tables, s.files, q);
    PromotedHolds(c, s.tables, s.files, q.job);
  }
}
