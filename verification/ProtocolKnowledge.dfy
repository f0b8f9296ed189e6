/** What a process knows survives the steps of every other process, and each of
    its own steps establishes what it needs next. */
module ProtocolKnowledge {
  import opened Basics
  import opened Catalog
  import opened CatalogInvariants
  import opened Provenance
  import opened Rearchive
  import opened Protocol
  import opened ProtocolSafety
  import opened ProtocolSteps

  lemma Excluded(c: Setup, s: State, p: nat, k: nat, lock: Lock)
    requires LocksExclude(c, s) && p < |s.procs| && k < |s.procs| && p != k
    requires Holds(c, s.procs[k], lock)
    ensures !Holds(c, s.procs[p], lock)
  {
    if Holds(c, s.procs[p], lock) { assert Both(c, s.procs[p], s.procs[k], lock); }
  }

  // ---- interference ----

  lemma JobFrame(c: Setup, s: State, p: nat, e: Event, k: nat)
    requires Inv(c, s) && Can(c, s, p, e) && k < |s.procs| && (External(e) || k != p) && !e.Crash?
    requires HasJob(s.procs[k]) && JobKnown(c, s.tables, s.procs[k].job)
    ensures JobKnown(c, Apply(c, s.tables, Commits(c, s, p, e)), s.procs[k].job)
  {
    OthersLeaveUpload(c, s, p, e, k);
    UploadFrame(c, s.tables, Commits(c, s, p, e), s.procs[k].job.upload);
  }

  // The upload lock, or freshness of a new upload's identifier, keeps others off the job's upload.
  lemma OthersLeaveUpload(c: Setup, s: State, p: nat, e: Event, k: nat)
    requires LocksExclude(c, s) && Can(c, s, p, e) && k < |s.procs| && (External(e) || k != p)
    requires HasJob(s.procs[k]) && UploadActive(s.tables, s.procs[k].job)
    ensures !ChangesUpload(Commits(c, s, p, e), s.procs[k].job.upload)
  {
    var u := s.procs[k].job.upload;
    if !External(e) && ChangesUpload(Commits(c, s, p, e), u) {
      UploadsUnderLock(c, s, p, e, u);
      Excluded(c, s, p, k, UploadOf(c, u));
    }
  }

  lemma DigestFrame(c: Setup, s: State, p: nat, e: Event, k: nat, d: Digest)
    requires Inv(c, s) && Can(c, s, p, e) && k < |s.procs| && k != p && !External(e)
    requires Holds(c, s.procs[k], BlobOf(c, d))
    ensures !ChangesRow(s.tables, Commits(c, s, p, e), d)
    ensures d in s.files ==> d in FilesAfter(c, s, p, e)
  {
    Excluded(c, s, p, k, BlobOf(c, d));
    if ChangesRow(s.tables, Commits(c, s, p, e), d) { RowsUnderLock(c, s, p, e, d); }
    if ChangesFile(s.files, FilesAfter(c, s, p, e), d) { FilesUnderLock(c, s, p, e, d); }
  }

  lemma PromotedFrame(c: Setup, s: State, p: nat, e: Event, k: nat, n: nat)
    requires Inv(c, s) && Can(c, s, p, e) && k < |s.procs| && k != p && !External(e)
    requires HasBlobLocks(s.procs[k]) && JobKnown(c, s.tables, s.procs[k].job) && Promoted(s.files, s.procs[k].job, n)
    ensures Promoted(FilesAfter(c, s, p, e), s.procs[k].job, n)
  {
    var job := s.procs[k].job;
    forall i | 0 <= i < n ensures job.order[i] in FilesAfter(c, s, p, e) {
      OrderedDigest(c, job, i);
      JobBlobLock(c, s.procs[k], job.order[i]);
      DigestFrame(c, s, p, e, k, job.order[i]);
    }
  }

  lemma FastTargetFrame(c: Setup, s: State, p: nat, e: Event, k: nat)
    requires Inv(c, s) && Can(c, s, p, e) && k < |s.procs| && k != p && !External(e)
    requires s.procs[k].AttachingFast? && Knows(c, s.tables, s.files, s.procs[k])
    ensures Live(Apply(c, s.tables, Commits(c, s, p, e)), s.procs[k].id)
  {
    var q := s.procs[k];
    var x := Commits(c, s, p, e);
    CommitsAllowed(c, s, p, e);
    if x.Delete? && x.snapshot == q.id {
      DeletionsUnderLock(c, s, p, e);
      Excluded(c, s, p, k, SnapshotOfJob(c, q.job));
      assert false;
    } else {
      LiveFrame(c, s.tables, x, q.id);
    }
  }

  lemma TargetsFrame(c: Setup, s: State, p: nat, e: Event, k: nat)
    requires Inv(c, s) && Can(c, s, p, e) && k < |s.procs| && !e.Crash? && (External(e) || k != p)
    requires s.procs[k].AttachingFast? ==> Live(Apply(c, s.tables, Commits(c, s, p, e)), s.procs[k].id)
    ensures TargetsKnown(c, Apply(c, s.tables, Commits(c, s, p, e)), s.procs[k])
  {
    var q := s.procs[k];
    var x := Commits(c, s, p, e);
    assert Knows(c, s.tables, s.files, q);
    CommitsAllowed(c, s, p, e);
    TargetsSurvive(c, s.tables, x, q);
  }

  lemma TargetsSurvive(c: Setup, t: Tables, x: Transaction, q: Process)
    requires ProvenanceSound(c, t) && Allowed(c, t, x) && TargetsKnown(c, t, q)
    requires q.AttachingFast? ==> Live(Apply(c, t, x), q.id)
    ensures TargetsKnown(c, Apply(c, t, x), q)
  {
    var t' := Apply(c, t, x);
    SameFrame(c, t, x);
    SameSurvives(t, t', c, q);
  }

  ghost predicate KeepsIdentities(t: Tables, t': Tables) {
    forall session, fingerprint, id :: Same(t, session, fingerprint, id) ==> Same(t', session, fingerprint, id)
  }

  lemma SameFrame(c: Setup, t: Tables, x: Transaction)
    requires ProvenanceSound(c, t) && Allowed(c, t, x)
    ensures KeepsIdentities(t, Apply(c, t, x))
  {
    forall session, fingerprint, id | Same(t, session, fingerprint, id)
      ensures Same(Apply(c, t, x), session, fingerprint, id)
    {
      TargetFrame(c, t, x, session, fingerprint, id);
    }
  }

  lemma SameSurvives(t: Tables, t': Tables, c: Setup, q: Process)
    requires KeepsIdentities(t, t') && TargetsKnown(c, t, q)
    requires q.AttachingFast? ==> Live(t', q.id)
    ensures TargetsKnown(c, t', q)
  {
  }

  lemma CondemnedStays(c: Setup, s: State, p: nat, e: Event, k: nat)
    requires Inv(c, s) && Can(c, s, p, e) && k < |s.procs| && k != p && !External(e)
    requires s.procs[k].Unlinking? || s.procs[k].Dropping?
    ensures Condemned(Apply(c, s.tables, Commits(c, s, p, e)), s.procs[k].blob, s.procs[k].now)
  {
    assert Knows(c, s.tables, s.files, s.procs[k]);
    CommitsAllowed(c, s, p, e);
    DigestFrame(c, s, p, e, k, s.procs[k].blob.digest);
    CondemnedFrame(c, s.tables, Commits(c, s, p, e), s.procs[k].blob, s.procs[k].now);
  }

  lemma RemovingStays(c: Setup, s: State, p: nat, e: Event, k: nat)
    requires Inv(c, s) && Can(c, s, p, e) && k < |s.procs| && k != p && !External(e) && s.procs[k].Removing?
    ensures s.procs[k].k < |s.procs[k].promotions|
    ensures s.procs[k].promotions[s.procs[k].k].digest !in Apply(c, s.tables, Commits(c, s, p, e)).blobs
  {
    var q := s.procs[k];
    assert Knows(c, s.tables, s.files, q);
    OrderedDigest(c, q.job, q.k);
    JobBlobLock(c, q, q.promotions[q.k].digest);
    DigestFrame(c, s, p, e, k, q.promotions[q.k].digest);
    NoRowFrame(c, s.tables, Commits(c, s, p, e), q.promotions[q.k].digest);
  }

  lemma OthersPromotions(c: Setup, s: State, p: nat, e: Event, k: nat)
    requires Inv(c, s) && Can(c, s, p, e) && k < |s.procs| && k != p && !External(e)
    ensures PromotionsKnown(FilesAfter(c, s, p, e), s.procs[k])
  {
    var q := s.procs[k];
    assert Knows(c, s.tables, s.files, q);
    if q.Promoting? || q.Recording? { PromotedFrame(c, s, p, e, k, |q.promotions|); }
  }

  lemma OthersTargets(c: Setup, s: State, p: nat, e: Event, k: nat)
    requires Inv(c, s) && Can(c, s, p, e) && k < |s.procs| && k != p && !External(e)
    ensures TargetsKnown(c, Apply(c, s.tables, Commits(c, s, p, e)), s.procs[k])
  {
    assert Knows(c, s.tables, s.files, s.procs[k]);
    if s.procs[k].AttachingFast? { FastTargetFrame(c, s, p, e, k); }
    TargetsFrame(c, s, p, e, k);
  }

  lemma OthersVictims(c: Setup, s: State, p: nat, e: Event, k: nat)
    requires Inv(c, s) && Can(c, s, p, e) && k < |s.procs| && k != p && !External(e)
    ensures VictimsKnown(Apply(c, s.tables, Commits(c, s, p, e)), s.procs[k])
  {
    var q := s.procs[k];
    if q.Unlinking? || q.Dropping? { CondemnedStays(c, s, p, e, k); }
    if q.Removing? { RemovingStays(c, s, p, e, k); }
  }

  lemma OthersKnow(c: Setup, s: State, p: nat, e: Event, k: nat)
    requires Inv(c, s) && Can(c, s, p, e) && k < |s.procs| && k != p && !External(e)
    ensures Knows(c, Apply(c, s.tables, Commits(c, s, p, e)), FilesAfter(c, s, p, e), s.procs[k])
  {
    assert Knows(c, s.tables, s.files, s.procs[k]);
    if HasJob(s.procs[k]) { JobFrame(c, s, p, e, k); }
    OthersPromotions(c, s, p, e, k);
    OthersTargets(c, s, p, e, k);
    OthersVictims(c, s, p, e, k);
  }

  // A new upload is nobody's business yet.
  lemma SubmissionKnown(c: Setup, s: State, p: nat, e: Event, k: nat)
    requires Inv(c, s) && Can(c, s, p, e) && k < |s.procs| && e.Submit?
    ensures Knows(c, Apply(c, s.tables, Commits(c, s, p, e)), FilesAfter(c, s, p, e), s.procs[k])
  {
    var q := s.procs[k];
    assert Knows(c, s.tables, s.files, q);
    if HasJob(q) { JobFrame(c, s, p, e, k); }
    CommitsAllowed(c, s, p, e);
    SubmissionTargets(c, s.tables, e.upload, e.manifest, q);
    if q.Unlinking? || q.Dropping? { CondemnedFrame(c, s.tables, Commits(c, s, p, e), q.blob, q.now); }
  }

  lemma SubmissionTargets(c: Setup, t: Tables, u: nat, m: Manifest, q: Process)
    requires TargetsKnown(c, t, q)
    ensures TargetsKnown(c, Apply(c, t, Create(u, m)), q)
  {
  }

  // ---- own steps ----

  // A process that goes on with a job has committed nothing yet.
  lemma OwnJob(c: Setup, s: State, q: Process, e: Event)
    requires Takes(c, s, q, e) && HasJob(ProcAfter(c, s, q, e))
    ensures e.Staged? || (HasJob(q) && ProcAfter(c, s, q, e).job == q.job)
    ensures e.Go? ==> CommitsOnGo(c, s.tables, q, e.now, e.id).Nothing?
  {
    if e.Go? { OwnJobOnGo(c, s, q, e); }
  }

  lemma OwnJobOnGo(c: Setup, s: State, q: Process, e: Event)
    requires e.Go? && HasJob(AfterGo(c, s, q))
    ensures HasJob(q) && AfterGo(c, s, q).job == q.job
    ensures CommitsOnGo(c, s.tables, q, e.now, e.id).Nothing?
  {
    if q.Recording? { OwnRecordingJob(c, s, q, e); }
  }

  lemma OwnRecordingJob(c: Setup, s: State, q: Process, e: Event)
    requires q.Recording? && e.Go? && HasJob(AfterGo(c, s, q))
    ensures AfterGo(c, s, q).job == q.job && CommitsOnGo(c, s.tables, q, e.now, e.id).Nothing?
  {
  }

  lemma OwnCommits(c: Setup, s: State, p: nat, e: Event)
    requires Can(c, s, p, e) && !External(e) && HasJob(ProcAfter(c, s, s.procs[p], e))
    ensures Commits(c, s, p, e).Nothing?
    ensures Takes(c, s, s.procs[p], e)
  {
    OwnJob(c, s, s.procs[p], e);
  }

  // The job a completion starts with is the one its chunks were verified for.
  lemma StagedJob(c: Setup, s: State, q: Process, e: Event)
    requires Takes(c, s, q, e) && e.Staged?
    ensures JobsKnown(c, s.tables, ProcAfter(c, s, q, e))
  {
  }

  lemma OwnJobsKnown(c: Setup, s: State, p: nat, e: Event)
    requires Can(c, s, p, e) && !External(e) && JobsKnown(c, s.tables, s.procs[p])
    ensures JobsKnown(c, Apply(c, s.tables, Commits(c, s, p, e)), ProcAfter(c, s, s.procs[p], e))
  {
    var q' := ProcAfter(c, s, s.procs[p], e);
    if HasJob(q') {
      OwnCommits(c, s, p, e);
      assert Apply(c, s.tables, Commits(c, s, p, e)) == s.tables;
      OwnJob(c, s, s.procs[p], e);
      if e.Staged? { StagedJob(c, s, s.procs[p], e); }
    }
  }

  lemma OwnPromotions(c: Setup, s: State, p: nat, e: Event)
    requires Can(c, s, p, e) && !External(e) && Knows(c, s.tables, s.files, s.procs[p])
    ensures PromotionsKnown(FilesAfter(c, s, p, e), ProcAfter(c, s, s.procs[p], e))
  {
    var q := s.procs[p];
    if q.Promoting? && |q.promotions| < |q.job.order| {
      OwnLinkingStep(c, s, p, e);
    } else if e.Go? {
      OwnOtherPromotions(c, s, q, FilesAfter(c, s, p, e));
    }
  }

  lemma OwnLinkingStep(c: Setup, s: State, p: nat, e: Event)
    requires Can(c, s, p, e) && !External(e) && JobsKnown(c, s.tables, s.procs[p]) &&
      PromotionsKnown(s.files, s.procs[p])
    requires s.procs[p].Promoting? && |s.procs[p].promotions| < |s.procs[p].job.order|
    ensures PromotionsKnown(FilesAfter(c, s, p, e), ProcAfter(c, s, s.procs[p], e))
  {
    var q := s.procs[p];
    OrderedDigest(c, q.job, |q.promotions|);
    if e.Go? {
      FilesOnLink(c, s, p, e);
      OwnLink(c, s, q);
    } else {
      OwnFailedLink(c, s, p, e);
    }
  }

  lemma FilesOnLink(c: Setup, s: State, p: nat, e: Event)
    requires e.Go? && p < |s.procs| && s.procs[p].Promoting? && |s.procs[p].promotions| < |s.procs[p].job.order|
    ensures FilesAfter(c, s, p, e) == Linked(s.files, s.procs[p].job, |s.procs[p].promotions|)
  {
  }

  lemma OwnLink(c: Setup, s: State, q: Process)
    requires q.Promoting? && |q.promotions| < |q.job.order|
    requires PromotionsKnown(s.files, q) && JobsKnown(c, s.tables, q)
    requires q.job.order[|q.promotions|] in StoredDigests(q.job.manifest)
    ensures PromotionsKnown(Linked(s.files, q.job, |q.promotions|), AfterGo(c, s, q))
  {
    OwnLinkPoint(c, s, q);
    LinkPromotes(s.files, q.job, |q.promotions|);
    StillNamed(Linked(s.files, q.job, |q.promotions|), q.job, AfterGo(c, s, q));
  }

  lemma StillNamed(files: map<Digest, Bytes>, job: Job, q: Process)
    requires (q.Promoting? || q.Cleaning?) && q.job == job && PromotionsNamed(job, q.promotions) &&
      Promoted(files, job, |q.promotions|)
    ensures PromotionsKnown(files, q)
  {
  }

  // After linking, a completion either has one promotion more or starts to clean up.
  lemma OwnLinkPoint(c: Setup, s: State, q: Process)
    requires q.Promoting? && |q.promotions| < |q.job.order| && PromotionsNamed(q.job, q.promotions)
    ensures var q' := AfterGo(c, s, q);
      && (q'.Promoting? || q'.Cleaning?) && q'.job == q.job && PromotionsNamed(q.job, q'.promotions)
      && |q'.promotions| == |q.promotions| + 1
  {
  }

  lemma LinkPromotes(files: map<Digest, Bytes>, job: Job, n: nat)
    requires n < |job.order| && Promoted(files, job, n)
    requires |job.staged| == |job.manifest.artifacts| && job.order[n] in StoredDigests(job.manifest)
    ensures Promoted(Linked(files, job, n), job, n + 1)
  {
  }

  lemma OwnFailedLink(c: Setup, s: State, p: nat, e: Event)
    requires Can(c, s, p, e) && !External(e) && !e.Go?
    requires PromotionsKnown(s.files, s.procs[p]) && s.procs[p].Promoting?
    ensures PromotionsKnown(FilesAfter(c, s, p, e), ProcAfter(c, s, s.procs[p], e))
  {
  }

  lemma OwnOtherPromotions(c: Setup, s: State, q: Process, files': map<Digest, Bytes>)
    requires PromotionsKnown(s.files, q)
    requires q.Promoting? ==> |q.promotions| == |q.job.order| && files' == s.files
    ensures PromotionsKnown(files', AfterGo(c, s, q))
  {
    if HasPromotions(AfterGo(c, s, q)) && !q.SeekingAgain? {
      OwnPromotionsGoOn(c, s, q);
    }
  }

  lemma OwnPromotionsGoOn(c: Setup, s: State, q: Process)
    requires HasPromotions(AfterGo(c, s, q)) && !q.SeekingAgain?
    requires q.Promoting? ==> |q.promotions| == |q.job.order|
    ensures HasPromotions(q)
    ensures AfterGo(c, s, q).job == q.job && AfterGo(c, s, q).promotions == q.promotions
    ensures !AfterGo(c, s, q).Promoting? && (AfterGo(c, s, q).Recording? ==> q.Promoting?)
  {
  }

  lemma OwnTargets(c: Setup, s: State, p: nat, e: Event)
    requires Can(c, s, p, e) && !External(e) && TargetsKnown(c, s.tables, s.procs[p])
    ensures TargetsKnown(c, Apply(c, s.tables, Commits(c, s, p, e)), ProcAfter(c, s, s.procs[p], e))
  {
    var q := s.procs[p];
    if e.Go? {
      OwnTargetsOnGo(c, s, q);
      if !TargetsKnown(c, Apply(c, s.tables, Commits(c, s, p, e)), AfterGo(c, s, q)) {
        OwnNames(c, s, q, e);
      }
    }
  }

  lemma OwnNames(c: Setup, s: State, q: Process, e: Event)
    requires Takes(c, s, q, e) && e.Go? && NamesTarget(AfterGo(c, s, q))
    ensures CommitsOnGo(c, s.tables, q, e.now, e.id).Nothing?
  {
    if HasJob(AfterGo(c, s, q)) { OwnJob(c, s, q, e); }
  }

  predicate NamesTarget(q: Process) {
    q.AttachingFast? || q.AttachingSlow? || q.Cleaning? || q.Removing? || q.AttachingWinner? ||
    q.AwaitDeletion? || q.Deleting? || q.AwaitDeletionBlobs? || q.Burying?
  }

  lemma OwnTargetsOnGo(c: Setup, s: State, q: Process)
    requires TargetsKnown(c, s.tables, q)
    ensures TargetsKnown(c, s.tables, AfterGo(c, s, q))
  {
  }

  lemma OwnVictims(c: Setup, s: State, p: nat, e: Event)
    requires Can(c, s, p, e) && !External(e) && VictimsKnown(s.tables, s.procs[p])
    ensures VictimsKnown(Apply(c, s.tables, Commits(c, s, p, e)), ProcAfter(c, s, s.procs[p], e))
  {
    if e.Go? {
      OwnVictimsOnGo(c, s, s.procs[p], e);
    }
  }

  lemma OwnVictimsOnGo(c: Setup, s: State, q: Process, e: Event)
    requires Takes(c, s, q, e) && e.Go? && VictimsKnown(s.tables, q)
    ensures VictimsKnown(s.tables, AfterGo(c, s, q))
    ensures AfterGo(c, s, q).Removing? || AfterGo(c, s, q).Unlinking? || AfterGo(c, s, q).Dropping? ==>
      CommitsOnGo(c, s.tables, q, e.now, e.id).Nothing?
  {
  }

  lemma ActorKnows(c: Setup, s: State, p: nat, e: Event)
    requires Can(c, s, p, e) && !External(e) && Knows(c, s.tables, s.files, s.procs[p])
    ensures Knows(c, Apply(c, s.tables, Commits(c, s, p, e)), FilesAfter(c, s, p, e), ProcAfter(c, s, s.procs[p], e))
  {
    OwnJobsKnown(c, s, p, e);
    OwnPromotions(c, s, p, e);
    OwnTargets(c, s, p, e);
    OwnVictims(c, s, p, e);
  }

  lemma NextKnows(c: Setup, s: State, p: nat, e: Event, k: nat)
    requires Inv(c, s) && Can(c, s, p, e) && !External(e) && k < |s.procs|
    ensures Knows(c, After(c, s, p, e).tables, After(c, s, p, e).files, After(c, s, p, e).procs[k])
  {
    assert Knows(c, s.tables, s.files, s.procs[p]);
    if k == p { ActorKnows(c, s, p, e); } else { OthersKnow(c, s, p, e, k); }
  }

  lemma KeepsKnowledge(c: Setup, s: State, p: nat, e: Event)
    requires Inv(c, s) && Can(c, s, p, e)
    ensures AllKnow(c, After(c, s, p, e))
  {
    if External(e) {
      ExternalKnows(c, s, p, e);
    } else {
      forall k | 0 <= k < |s.procs|
        ensures Knows(c, After(c, s, p, e).tables, After(c, s, p, e).files, After(c, s, p, e).procs[k])
      {
        NextKnows(c, s, p, e, k);
      }
    }
  }

  lemma ExternalKnows(c: Setup, s: State, p: nat, e: Event)
    requires Inv(c, s) && Can(c, s, p, e) && External(e)
    ensures AllKnow(c, After(c, s, p, e))
  {
    var s' := After(c, s, p, e);
    forall k | 0 <= k < |s'.procs| ensures Knows(c, s'.tables, s'.files, s'.procs[k]) {
      if e.Submit? { SubmissionKnown(c, s, p, e, k); } else { assert s'.procs[k].Idle?; }
    }
  }

  lemma KeepsQuiet(c: Setup, s: State, p: nat, e: Event)
    requires QuietWhileRecovering(s) && Can(c, s, p, e)
    ensures QuietWhileRecovering(After(c, s, p, e))
  {
  }

  lemma KeepsInv(c: Setup, s: State, p: nat, e: Event)
    requires CollisionFree(c) && Inv(c, s) && Can(c, s, p, e)
    ensures Inv(c, After(c, s, p, e))
  {
    KeepsTables(c, s, p, e);
    KeepsGenuine(c, s, p, e);
    KeepsDurable(c, s, p, e);
    KeepsExclusion(c, s, p, e);
    KeepsKnowledge(c, s, p, e);
    KeepsQuiet(c, s, p, e);
  }
}
