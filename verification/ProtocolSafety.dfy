/** The invariant of the protocol: mutexes exclude, what each process knows at
    each point stays true under interference, and no live artifact ever loses
    its bytes. */
module ProtocolSafety {
  import opened Basics
  import opened Catalog
  import opened CatalogInvariants
  import opened Provenance
  import opened LatestContext
  import opened Rearchive
  import opened Protocol

  // ---- blob files ----

  ghost predicate FilesGenuine(c: Setup, files: map<Digest, Bytes>) {
    forall d :: d in files ==> c.codec.sha256(files[d]) == d
  }

  // The bytes of an artifact are on disk, with the declared size and digest, and decode to the
  // declared original.
  ghost predicate Held(c: Setup, files: map<Digest, Bytes>, a: Artifact) {
    a.stored in files && ArtifactVerified(c.codec, a, files[a.stored])
  }

  ghost predicate AllHeld(c: Setup, files: map<Digest, Bytes>, artifacts: seq<Artifact>) {
    forall i :: 0 <= i < |artifacts| ==> Held(c, files, artifacts[i])
  }

  ghost predicate Durable(c: Setup, s: State) {
    forall id :: Live(s.tables, id) ==> AllHeld(c, s.files, s.tables.snapshots[id].manifest.artifacts)
  }

  // ---- what a process knows where it stands ----

  ghost predicate JobKnown(c: Setup, t: Tables, job: Job) {
    && UploadActive(t, job) && Verified(c, job)
    && job == MakeJob(c, job.upload, job.manifest, job.staged)
  }

  ghost predicate TargetKnown(c: Setup, t: Tables, job: Job, id: nat) {
    Same(t, job.manifest.session, JobFingerprint(c, job), id)
  }

  // The first n digests in promotion order have their file.
  ghost predicate Promoted(files: map<Digest, Bytes>, job: Job, n: nat) {
    n <= |job.order| && forall i :: 0 <= i < n ==> job.order[i] in files
  }

  ghost predicate PromotionsNamed(job: Job, promotions: seq<Promotion>) {
    |promotions| <= |job.order| &&
    forall i :: 0 <= i < |promotions| ==> promotions[i].digest == job.order[i]
  }

  // The row is condemned: present, due, and unreferenced.
  ghost predicate Condemned(t: Tables, blob: BlobId, now: int) {
    Collectable(t, blob, now) && !Referenced(t, blob)
  }

  predicate HasPromotions(q: Process) {
    q.Promoting? || q.Recording? || q.Lost? || q.Cleaning? || q.Removing? || q.AttachingWinner?
  }

  ghost predicate JobsKnown(c: Setup, t: Tables, q: Process) {
    HasJob(q) ==> JobKnown(c, t, q.job)
  }

  // Promotions follow the job's order; until recording, their files are in place.
  ghost predicate PromotionsKnown(files: map<Digest, Bytes>, q: Process) {
    HasPromotions(q) ==>
      && PromotionsNamed(q.job, q.promotions)
      && (q.Promoting? || q.Recording? ==> Promoted(files, q.job, |q.promotions|))
      && (q.Recording? ==> |q.promotions| == |q.job.order|)
  }

  // A snapshot found earlier still has the session and fingerprint looked up, live or tombstoned
  // since; under the snapshot lock it is still live.
  ghost predicate TargetsKnown(c: Setup, t: Tables, q: Process) {
    match q
    case AttachingFast(job, id) => TargetKnown(c, t, job, id) && Live(t, id)
    case AttachingSlow(job, id) => TargetKnown(c, t, job, id)
    case Cleaning(job, _, _, winner) => winner.Some? ==> TargetKnown(c, t, job, winner.value)
    case Removing(job, _, _, winner) => winner.Some? ==> TargetKnown(c, t, job, winner.value)
    case AttachingWinner(job, _, id) => TargetKnown(c, t, job, id)
    case AwaitDeletion(id, session, fingerprint) => Same(t, session, fingerprint, id)
    case Deleting(id, session, fingerprint) => Same(t, session, fingerprint, id)
    case AwaitDeletionBlobs(id, session, fingerprint, _, _) => Same(t, session, fingerprint, id)
    case Burying(id, session, fingerprint, _) => Same(t, session, fingerprint, id)
    case _ => true
  }

  // A file about to be removed belongs to no row, or to a condemned one.
  ghost predicate VictimsKnown(t: Tables, q: Process) {
    match q
    case Removing(_, promotions, k, _) => k < |promotions| && promotions[k].digest !in t.blobs
    case Unlinking(now, blob, _) => Condemned(t, blob, now)
    case Dropping(now, blob, _) => Condemned(t, blob, now)
    case _ => true
  }

  ghost predicate Knows(c: Setup, t: Tables, files: map<Digest, Bytes>, q: Process) {
    JobsKnown(c, t, q) && PromotionsKnown(files, q) && TargetsKnown(c, t, q) && VictimsKnown(t, q)
  }

  // ---- the invariant ----

  ghost predicate TablesSound(c: Setup, t: Tables) {
    BlobsSound(c, t) && ProvenanceSound(c, t) && LatestExact(t) && LinksSound(t)
  }

  ghost predicate Both(c: Setup, q: Process, other: Process, lock: Lock) {
    Holds(c, q, lock) && Holds(c, other, lock)
  }

  ghost predicate LocksExclude(c: Setup, s: State) {
    forall p, q, lock :: 0 <= p < |s.procs| && 0 <= q < |s.procs| && Both(c, s.procs[p], s.procs[q], lock) ==> p == q
  }

  ghost predicate AllKnow(c: Setup, s: State) {
    forall p :: 0 <= p < |s.procs| ==> Knows(c, s.tables, s.files, s.procs[p])
  }

  ghost predicate QuietWhileRecovering(s: State) {
    (!s.mode.Serving? ==> forall p :: 0 <= p < |s.procs| ==> s.procs[p].Idle?) &&
    (s.mode.Sweeping? ==> s.mode.known == s.tables.blobs.Keys)
  }

  ghost predicate Inv(c: Setup, s: State) {
    && TablesSound(c, s.tables)
    && FilesGenuine(c, s.files)
    && Durable(c, s)
    && LocksExclude(c, s)
    && AllKnow(c, s)
    && QuietWhileRecovering(s)
  }

  // Hash functions without collisions; everything else about them is arbitrary.
  ghost predicate CollisionFree(c: Setup) {
    Injective(c.codec.sha256) && Injective(c.fingerprint)
  }

  lemma InitialInv(c: Setup, s: State)
    requires Initial(s)
    ensures Inv(c, s)
  {
  }

  // ---- locks ----

  lemma StripeListed(c: Setup, digests: set<Digest>, d: Digest)
    requires d in digests
    ensures AmongFirst(BlobStripes(c, digests), |BlobStripes(c, digests)|, BlobOf(c, d))
  {
    var stripes := BlobStripes(c, digests);
    assert c.blobStripe(d) in set x | x in digests :: c.blobStripe(x);
    assert c.blobStripe(d) in stripes;
  }

  // A step takes at most the one mutex the process was waiting for. Only Go acquires anything at all.
  lemma FailAcquiresNothing(c: Setup, s: State, q: Process, lock: Lock)
    requires Holds(c, AfterFail(c, s, q), lock)
    ensures Holds(c, q, lock)
  {
    FailKeepsJob(c, s, q);
    SameJobHolds(c, q, AfterFail(c, s, q), lock);
  }

  lemma FailKeepsJob(c: Setup, s: State, q: Process)
    ensures AfterFail(c, s, q).Idle? ||
      (AfterFail(c, s, q).Cleaning? && HasBlobLocks(q) && AfterFail(c, s, q).job == q.job)
  {
  }

  lemma SameJobHolds(c: Setup, q: Process, q': Process, lock: Lock)
    requires q'.Idle? || (q'.Cleaning? && HasBlobLocks(q) && q'.job == q.job)
    requires Holds(c, q', lock)
    ensures Holds(c, q, lock)
  {
  }

  lemma OnlyGoAcquires(c: Setup, s: State, q: Process, e: Event, lock: Lock)
    requires Takes(c, s, q, e) && !e.Go? && Holds(c, ProcAfter(c, s, q, e), lock)
    ensures Holds(c, q, lock)
  {
    if e.Fail? || e.FailLinked? {
      FailAcquiresNothing(c, s, q, lock);
    } else if lock.UploadLock? {
      StartsHoldUpload(c, s, q, e, lock);
    } else {
      StartsHoldNothingElse(c, s, q, e, lock);
    }
  }

  lemma StartsHoldUpload(c: Setup, s: State, q: Process, e: Event, lock: Lock)
    requires Takes(c, s, q, e) && !e.Go? && !e.Fail? && !e.FailLinked?
    requires lock.UploadLock? && HoldsUpload(c, ProcAfter(c, s, q, e), lock)
    ensures HoldsUpload(c, q, lock)
  {
  }

  predicate StartPoint(q: Process) {
    q.Idle? || q.Checking? || q.AwaitUpload? || q.AwaitDeletion? || q.Picking? || q.AwaitOne?
  }

  lemma StartsHoldNothingElse(c: Setup, s: State, q: Process, e: Event, lock: Lock)
    requires Takes(c, s, q, e) && !e.Go? && !e.Fail? && !e.FailLinked?
    requires !lock.UploadLock? && Holds(c, ProcAfter(c, s, q, e), lock)
    ensures Holds(c, q, lock)
  {
    StartsEmpty(c, s, q, e);
    if StartPoint(ProcAfter(c, s, q, e)) { StartPointHolds(c, ProcAfter(c, s, q, e), lock); }
  }

  // Starting points hold nothing, a checked job nothing but its upload.
  lemma StartsEmpty(c: Setup, s: State, q: Process, e: Event)
    requires Takes(c, s, q, e) && !e.Go? && !e.Fail? && !e.FailLinked?
    ensures ProcAfter(c, s, q, e) == q || StartPoint(ProcAfter(c, s, q, e))
  {
  }

  lemma StartPointHolds(c: Setup, q: Process, lock: Lock)
    requires StartPoint(q) && !lock.UploadLock?
    ensures !Holds(c, q, lock)
  {
  }

  lemma UploadHoldsAfter(c: Setup, s: State, q: Process, lock: Lock)
    requires lock.UploadLock? && HoldsUpload(c, AfterGo(c, s, q), lock)
    ensures HoldsUpload(c, q, lock) || Wants(c, q) == Some(lock)
  {
  }

  lemma SnapshotHoldsAfter(c: Setup, s: State, q: Process, lock: Lock)
    requires lock.SnapshotLock? && HoldsSnapshot(c, AfterGo(c, s, q), lock)
    ensures HoldsSnapshot(c, q, lock) || Wants(c, q) == Some(lock)
  {
  }

  lemma AwaitingHoldsAfter(c: Setup, s: State, q: Process, lock: Lock)
    requires q.AwaitBlobs? || q.AwaitDeletionBlobs?
    requires lock.BlobLock? && HoldsBlob(c, AfterGo(c, s, q), lock)
    ensures HoldsBlob(c, q, lock) || Wants(c, q) == Some(lock)
  {
  }

  lemma OtherBlobHoldsAfter(c: Setup, s: State, q: Process, lock: Lock)
    requires !q.AwaitBlobs? && !q.AwaitDeletionBlobs?
    requires lock.BlobLock? && HoldsBlob(c, AfterGo(c, s, q), lock)
    ensures HoldsBlob(c, q, lock) || Wants(c, q) == Some(lock)
  {
  }

  lemma HoldsAfter(c: Setup, s: State, q: Process, e: Event, lock: Lock)
    requires Takes(c, s, q, e) && Holds(c, ProcAfter(c, s, q, e), lock)
    ensures Holds(c, q, lock) || (e.Go? && Wants(c, q) == Some(lock))
  {
    if !e.Go? { OnlyGoAcquires(c, s, q, e, lock); }
    else if lock.UploadLock? { UploadHoldsAfter(c, s, q, lock); }
    else if lock.SnapshotLock? { SnapshotHoldsAfter(c, s, q, lock); }
    else if q.AwaitBlobs? || q.AwaitDeletionBlobs? { AwaitingHoldsAfter(c, s, q, lock); }
    else { OtherBlobHoldsAfter(c, s, q, lock); }
  }

  lemma KeepsExclusion(c: Setup, s: State, p: nat, e: Event)
    requires LocksExclude(c, s) && Can(c, s, p, e)
    ensures LocksExclude(c, After(c, s, p, e))
  {
    var s' := After(c, s, p, e);
    forall a, b, lock | 0 <= a < |s'.procs| && 0 <= b < |s'.procs| && Both(c, s'.procs[a], s'.procs[b], lock)
      ensures a == b
    {
      if a != b && !External(e) {
        if a == p || b == p { HoldsAfter(c, s, s.procs[p], e, lock); }
        assert Both(c, s.procs[a], s.procs[b], lock);
      }
    }
  }
}
