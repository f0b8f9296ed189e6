/** A completion left alone, at whatever point it stands: it gets to its end. */
module Endings {
  import opened Basics
  import opened Catalog
  import opened CatalogInvariants
  import opened Provenance
  import opened Rearchive
  import opened Protocol
  import opened ProtocolSafety
  import opened ProtocolSteps
  import opened Progress
  import opened Reclaim
  import opened Runs

  // The upload completed on a live snapshot of its content, with one new capture; no other snapshot changed.
  ghost predicate Ended(t: Tables, t': Tables, u: nat, m: Manifest, w: nat, newlyPersisted: nat) {
    && HasContent(t', m, w)
    && t'.uploads == t.uploads[u := Completed(m, w, newlyPersisted)]
    && t'.captures == t.captures[u := Capture(w, m.session, m.context)]
    && t'.snapshots - {w} == t.snapshots - {w}
  }

  ghost predicate EndedOnSome(t: Tables, t': Tables, job: Job) {
    exists w, n :: Ended(t, t', job.upload, job.manifest, w, n)
  }

  ghost predicate EndsIn(c: Setup, p: nat, s: State, job: Job, s': State) {
    Gets(c, p, s, s') && Solo(s', p) && EndedOnSome(s.tables, s'.tables, job)
  }

  // Process p, taking one step after the other, completes the upload.
  ghost predicate Ends(c: Setup, p: nat, s: State, job: Job) {
    exists s' :: EndsIn(c, p, s, job, s')
  }

  lemma EndsLater(c: Setup, p: nat, s: State, s1: State, job: Job)
    requires Gets(c, p, s, s1) && s1.tables == s.tables && Ends(c, p, s1, job)
    ensures Ends(c, p, s, job)
  {
    var s' :| EndsIn(c, p, s1, job, s');
    Then(c, p, s, s1, s');
    assert EndsIn(c, p, s, job, s');
  }

  // A process completing a job among idle ones, with an identifier no snapshot has.
  ghost predicate Working(c: Setup, procs: seq<Process>, p: nat, t: Tables, job: Job, id: nat) {
    && CollisionFree(c) && SnapshotsGenuine(c, t) && Idles(procs, p) && JobKnown(c, t, job) && id !in t.snapshots
  }

  lemma Attached(c: Setup, procs: seq<Process>, p: nat, t: Tables, files: map<Digest, Bytes>, s: State, job: Job,
                 id: nat, w: nat)
    requires Working(c, procs, p, t, job, id) && s.tables == t
    requires LiveMatch(t, job.manifest.session, JobFingerprint(c, job), w)
    requires Gets(c, p, s, At(procs, p, Apply(c, t, Attach(job.upload, w)), files, Idle))
    ensures Ends(c, p, s, job)
  {
    AttachIsCompletion(c, t, job, w);
    var s' := At(procs, p, Apply(c, t, Attach(job.upload, w)), files, Idle);
    assert Ended(t, s'.tables, job.upload, job.manifest, w, 0);
    assert EndsIn(c, p, s, job, s');
  }

  // ---- single steps ----

  lemma EndsCleaning(c: Setup, procs: seq<Process>, p: nat, t: Tables, files: map<Digest, Bytes>, job: Job,
                     promotions: seq<Promotion>, k: nat, w: nat, go: Event)
    requires Idles(procs, p) && go.Go? && |promotions| <= k
    ensures Gets(c, p, At(procs, p, t, files, Cleaning(job, promotions, k, Some(w))),
                 At(procs, p, t, files, AttachingWinner(job, promotions, w)))
  {
    Walks(c, procs, p, t, files, Cleaning(job, promotions, k, Some(w)), go, AttachingWinner(job, promotions, w));
  }

  lemma LooksUpWinner(c: Setup, procs: seq<Process>, p: nat, t: Tables, files: map<Digest, Bytes>, job: Job,
                      promotions: seq<Promotion>, w: nat, go: Event)
    requires Idles(procs, p) && go.Go? && LiveFor(c, t, job) == Some(w)
    ensures Gets(c, p, At(procs, p, t, files, Lost(job, promotions)),
                 At(procs, p, t, files, Cleaning(job, promotions, 0, Some(w))))
  {
    Walks(c, procs, p, t, files, Lost(job, promotions), go, Cleaning(job, promotions, 0, Some(w)));
  }

  lemma Loses(c: Setup, procs: seq<Process>, p: nat, t: Tables, files: map<Digest, Bytes>, job: Job,
              promotions: seq<Promotion>, go: Event)
    requires Idles(procs, p) && go.Go? && go.id !in t.snapshots
    requires Compatible(t, job.manifest) && UploadActive(t, job) && LiveFor(c, t, job).Some?
    ensures Gets(c, p, At(procs, p, t, files, Recording(job, promotions)),
                 At(procs, p, t, files, Lost(job, promotions)))
  {
    Walks(c, procs, p, t, files, Recording(job, promotions), go, Lost(job, promotions));
  }

  lemma EndsPromoting(c: Setup, procs: seq<Process>, p: nat, t: Tables, files: map<Digest, Bytes>, job: Job,
                      promotions: seq<Promotion>, go: Event)
    requires Idles(procs, p) && go.Go? && |promotions| == |job.order|
    ensures Gets(c, p, At(procs, p, t, files, Promoting(job, promotions)),
                 At(procs, p, t, files, Recording(job, promotions)))
  {
    Walks(c, procs, p, t, files, Promoting(job, promotions), go, Recording(job, promotions));
  }

  lemma FindsLiveAgain(c: Setup, procs: seq<Process>, p: nat, t: Tables, files: map<Digest, Bytes>, job: Job, w: nat,
                       go: Event)
    requires Idles(procs, p) && go.Go? && LiveFor(c, t, job) == Some(w)
    ensures Gets(c, p, At(procs, p, t, files, SeekingAgain(job)), At(procs, p, t, files, AttachingSlow(job, w)))
  {
    Walks(c, procs, p, t, files, SeekingAgain(job), go, AttachingSlow(job, w));
  }

  lemma SeesCompatible(c: Setup, procs: seq<Process>, p: nat, t: Tables, files: map<Digest, Bytes>, job: Job, go: Event)
    requires Idles(procs, p) && go.Go? && Compatible(t, job.manifest)
    ensures Gets(c, p, At(procs, p, t, files, CheckingAgain(job)), At(procs, p, t, files, SeekingAgain(job)))
  {
    Walks(c, procs, p, t, files, CheckingAgain(job), go, SeekingAgain(job));
  }

  lemma EndsBlobs(c: Setup, procs: seq<Process>, p: nat, t: Tables, files: map<Digest, Bytes>, job: Job, n: nat,
                  go: Event)
    requires Idles(procs, p) && go.Go? && |job.stripes| <= n
    ensures Gets(c, p, At(procs, p, t, files, AwaitBlobs(job, n)), At(procs, p, t, files, CheckingAgain(job)))
  {
    Walks(c, procs, p, t, files, AwaitBlobs(job, n), go, CheckingAgain(job));
  }

  lemma StillLive(c: Setup, procs: seq<Process>, p: nat, t: Tables, files: map<Digest, Bytes>, job: Job, w: nat,
                  go: Event)
    requires Idles(procs, p) && go.Go? && LiveFor(c, t, job) == Some(w)
    ensures Gets(c, p, At(procs, p, t, files, Rechecking(job)), At(procs, p, t, files, AttachingFast(job, w)))
  {
    Walks(c, procs, p, t, files, Rechecking(job), go, AttachingFast(job, w));
  }

  lemma NoLongerLive(c: Setup, procs: seq<Process>, p: nat, t: Tables, files: map<Digest, Bytes>, job: Job, go: Event)
    requires Idles(procs, p) && go.Go? && LiveFor(c, t, job).None?
    ensures Gets(c, p, At(procs, p, t, files, Rechecking(job)), At(procs, p, t, files, AwaitBlobs(job, 0)))
  {
    Walks(c, procs, p, t, files, Rechecking(job), go, AwaitBlobs(job, 0));
  }

  lemma SeesLive(c: Setup, procs: seq<Process>, p: nat, t: Tables, files: map<Digest, Bytes>, job: Job, go: Event)
    requires Idles(procs, p) && go.Go? && LiveFor(c, t, job).Some?
    ensures Gets(c, p, At(procs, p, t, files, Seeking(job)), At(procs, p, t, files, AwaitSnapshot(job)))
  {
    Walks(c, procs, p, t, files, Seeking(job), go, AwaitSnapshot(job));
  }

  lemma StripesAscend(c: Setup, t: Tables, job: Job)
    requires JobKnown(c, t, job)
    ensures StrictlyAscending(job.stripes)
  {
  }

  lemma LocksRest(c: Setup, procs: seq<Process>, p: nat, t: Tables, files: map<Digest, Bytes>, job: Job, n: nat,
                  go: Event)
    requires Idles(procs, p) && StrictlyAscending(job.stripes) && go.Go?
    ensures Gets(c, p, At(procs, p, t, files, AwaitBlobs(job, n)), At(procs, p, t, files, CheckingAgain(job)))
  {
    if n <= |job.stripes| {
      LocksBlobs(c, procs, p, t, files, job, n, go);
      EndsBlobs(c, procs, p, t, files, job, |job.stripes|, go);
      Then(c, p, At(procs, p, t, files, AwaitBlobs(job, n)), At(procs, p, t, files, AwaitBlobs(job, |job.stripes|)),
           At(procs, p, t, files, CheckingAgain(job)));
    } else {
      EndsBlobs(c, procs, p, t, files, job, n, go);
    }
  }

  lemma RecordsOne(c: Setup, procs: seq<Process>, p: nat, t: Tables, files: map<Digest, Bytes>, job: Job,
                   promotions: seq<Promotion>, now: int, id: nat)
    requires Idles(procs, p) && id !in t.snapshots
    requires Compatible(t, job.manifest) && UploadActive(t, job) && LiveFor(c, t, job).None?
    ensures Gets(c, p, At(procs, p, t, files, Recording(job, promotions)),
                 At(procs, p, Apply(c, t, Win(job.upload, id, now, CreatedBy(promotions))), files, Idle))
  {
    Moves(c, procs, p, t, files, Recording(job, promotions), Go(now, id));
  }

  // ---- from cleanup ----

  lemma WinnerEnds(c: Setup, procs: seq<Process>, p: nat, t: Tables, files: map<Digest, Bytes>, job: Job,
                   promotions: seq<Promotion>, id: nat, w: nat)
    requires Working(c, procs, p, t, job, id) && LiveMatch(t, job.manifest.session, JobFingerprint(c, job), w)
    ensures Ends(c, p, At(procs, p, t, files, AttachingWinner(job, promotions, w)), job)
  {
    AttachesWinner(c, procs, p, t, files, job, promotions, w, Go(0, id));
    Attached(c, procs, p, t, files, At(procs, p, t, files, AttachingWinner(job, promotions, w)), job, id, w);
  }

  lemma CleanedEnds(c: Setup, procs: seq<Process>, p: nat, t: Tables, files: map<Digest, Bytes>, job: Job,
                    promotions: seq<Promotion>, k: nat, id: nat, w: nat)
    requires Working(c, procs, p, t, job, id) && LiveMatch(t, job.manifest.session, JobFingerprint(c, job), w)
    requires |promotions| <= k
    ensures Ends(c, p, At(procs, p, t, files, Cleaning(job, promotions, k, Some(w))), job)
  {
    EndsCleaning(c, procs, p, t, files, job, promotions, k, w, Go(0, id));
    WinnerEnds(c, procs, p, t, files, job, promotions, id, w);
    EndsLater(c, p, At(procs, p, t, files, Cleaning(job, promotions, k, Some(w))),
              At(procs, p, t, files, AttachingWinner(job, promotions, w)), job);
  }

  lemma {:induction false} CleaningEnds(c: Setup, procs: seq<Process>, p: nat, t: Tables, files: map<Digest, Bytes>,
                                        job: Job,
                                        promotions: seq<Promotion>, k: nat, id: nat, w: nat)
    requires Working(c, procs, p, t, job, id) && LiveMatch(t, job.manifest.session, JobFingerprint(c, job), w)
    ensures Ends(c, p, At(procs, p, t, files, Cleaning(job, promotions, k, Some(w))), job)
    decreases |promotions| - k, 0
  {
    if |promotions| <= k {
      CleanedEnds(c, procs, p, t, files, job, promotions, k, id, w);
    } else if promotions[k].created && promotions[k].digest !in t.blobs {
      Condemns(c, procs, p, t, files, job, promotions, k, Some(w), Go(0, id));
      RemovingEnds(c, procs, p, t, files, job, promotions, k, id, w);
      EndsLater(c, p, At(procs, p, t, files, Cleaning(job, promotions, k, Some(w))),
                At(procs, p, t, files, Removing(job, promotions, k, Some(w))), job);
    } else {
      Skips(c, procs, p, t, files, job, promotions, k, Some(w), Go(0, id));
      CleaningEnds(c, procs, p, t, files, job, promotions, k + 1, id, w);
      EndsLater(c, p, At(procs, p, t, files, Cleaning(job, promotions, k, Some(w))),
                At(procs, p, t, files, Cleaning(job, promotions, k + 1, Some(w))), job);
    }
  }

  lemma RemovingEnds(c: Setup, procs: seq<Process>, p: nat, t: Tables, files: map<Digest, Bytes>, job: Job,
                     promotions: seq<Promotion>, k: nat, id: nat, w: nat)
    requires Working(c, procs, p, t, job, id) && LiveMatch(t, job.manifest.session, JobFingerprint(c, job), w)
    requires k < |promotions|
    ensures Ends(c, p, At(procs, p, t, files, Removing(job, promotions, k, Some(w))), job)
    decreases |promotions| - k - 1, 1
  {
    var files' := files - {promotions[k].digest};
    Unlinks(c, procs, p, t, files, job, promotions, k, Some(w), Go(0, id));
    CleaningEnds(c, procs, p, t, files', job, promotions, k + 1, id, w);
    EndsLater(c, p, At(procs, p, t, files, Removing(job, promotions, k, Some(w))),
              At(procs, p, t, files', Cleaning(job, promotions, k + 1, Some(w))), job);
  }

  lemma LostEnds(c: Setup, procs: seq<Process>, p: nat, t: Tables, files: map<Digest, Bytes>, job: Job,
                 promotions: seq<Promotion>, id: nat)
    requires Working(c, procs, p, t, job, id) && LiveFor(c, t, job).Some?
    ensures Ends(c, p, At(procs, p, t, files, Lost(job, promotions)), job)
  {
    var w := LiveFor(c, t, job).value;
    LooksUpWinner(c, procs, p, t, files, job, promotions, w, Go(0, id));
    CleaningEnds(c, procs, p, t, files, job, promotions, 0, id, w);
    EndsLater(c, p, At(procs, p, t, files, Lost(job, promotions)),
              At(procs, p, t, files, Cleaning(job, promotions, 0, Some(w))), job);
  }

  // ---- from recording and promotion ----

  lemma NewIsEnded(c: Setup, t: Tables, job: Job, id: nat, created: set<Digest>)
    requires UploadActive(t, job) && id !in t.snapshots
    ensures EndedOnSome(t, Apply(c, t, Win(job.upload, id, 0, created)), job)
  {
    WinFields(c, t, job.upload, id, 0, created);
    var t', newlyPersisted := Apply(c, t, Win(job.upload, id, 0, created)), NewlyPersisted(job.manifest, created);
    assert HasContent(t', job.manifest, id);
    assert Ended(t, t', job.upload, job.manifest, id, newlyPersisted);
  }

  lemma NewEnds(c: Setup, procs: seq<Process>, p: nat, t: Tables, files: map<Digest, Bytes>, job: Job,
                promotions: seq<Promotion>, id: nat)
    requires Working(c, procs, p, t, job, id) && Compatible(t, job.manifest) && LiveFor(c, t, job).None?
    ensures Ends(c, p, At(procs, p, t, files, Recording(job, promotions)), job)
  {
    var s' := At(procs, p, Apply(c, t, Win(job.upload, id, 0, CreatedBy(promotions))), files, Idle);
    RecordsOne(c, procs, p, t, files, job, promotions, 0, id);
    NewIsEnded(c, t, job, id, CreatedBy(promotions));
    assert EndsIn(c, p, At(procs, p, t, files, Recording(job, promotions)), job, s');
  }

  lemma RecordingEnds(c: Setup, procs: seq<Process>, p: nat, t: Tables, files: map<Digest, Bytes>, job: Job,
                      promotions: seq<Promotion>, id: nat)
    requires Working(c, procs, p, t, job, id) && Compatible(t, job.manifest)
    ensures Ends(c, p, At(procs, p, t, files, Recording(job, promotions)), job)
  {
    if LiveFor(c, t, job).None? {
      NewEnds(c, procs, p, t, files, job, promotions, id);
    } else {
      Loses(c, procs, p, t, files, job, promotions, Go(0, id));
      LostEnds(c, procs, p, t, files, job, promotions, id);
      EndsLater(c, p, At(procs, p, t, files, Recording(job, promotions)),
                At(procs, p, t, files, Lost(job, promotions)), job);
    }
  }

  lemma LinksOne(c: Setup, files: map<Digest, Bytes>, job: Job, n: nat)
    requires CollisionFree(c) && FilesGenuine(c, files) && Verified(c, job) && n < |job.order|
    requires job == MakeJob(c, job.upload, job.manifest, job.staged)
    ensures FilesGenuine(c, Linked(files, job, n))
    ensures job.order[n] in files ==> ExistingFileVerifies(c, files, job, job.order[n])
  {
    var d := job.order[n];
    OrderedDigest(c, job, n);
    var i := FirstWith(job.manifest.artifacts, d);
    assert ArtifactVerified(c.codec, job.manifest.artifacts[i], job.staged[i]);
    if d in files { ExistingVerifies(c, files, job, d); }
  }

  // The promotions on record once the next digest is promoted.
  ghost function WithNext(files: map<Digest, Bytes>, job: Job, promotions: seq<Promotion>): seq<Promotion>
    requires |promotions| < |job.order|
  {
    promotions + [Promotion(job.order[|promotions|], job.order[|promotions|] !in files)]
  }

  lemma LinksNext(c: Setup, procs: seq<Process>, p: nat, t: Tables, files: map<Digest, Bytes>, job: Job,
                  promotions: seq<Promotion>, id: nat)
    requires Working(c, procs, p, t, job, id) && |promotions| < |job.order|
    requires var d := job.order[|promotions|]; d in files ==> ExistingFileVerifies(c, files, job, d)
    ensures Gets(c, p, At(procs, p, t, files, Promoting(job, promotions)),
                 At(procs, p, t, Linked(files, job, |promotions|), Promoting(job, WithNext(files, job, promotions))))
  {
    Moves(c, procs, p, t, files, Promoting(job, promotions), Go(0, id));
  }

  lemma {:induction false} PromotingEnds(c: Setup, procs: seq<Process>, p: nat, t: Tables, files: map<Digest, Bytes>,
                                         job: Job,
                                         promotions: seq<Promotion>, id: nat)
    requires Working(c, procs, p, t, job, id) && Compatible(t, job.manifest) && FilesGenuine(c, files)
    requires |promotions| <= |job.order|
    ensures Ends(c, p, At(procs, p, t, files, Promoting(job, promotions)), job)
    decreases |job.order| - |promotions|
  {
    var n := |promotions|;
    if n == |job.order| {
      EndsPromoting(c, procs, p, t, files, job, promotions, Go(0, id));
      RecordingEnds(c, procs, p, t, files, job, promotions, id);
      EndsLater(c, p, At(procs, p, t, files, Promoting(job, promotions)),
                At(procs, p, t, files, Recording(job, promotions)), job);
    } else {
      var files', promotions' := Linked(files, job, n), WithNext(files, job, promotions);
      LinksOne(c, files, job, n);
      LinksNext(c, procs, p, t, files, job, promotions, id);
      PromotingEnds(c, procs, p, t, files', job, promotions', id);
      EndsLater(c, p, At(procs, p, t, files, Promoting(job, promotions)),
                At(procs, p, t, files', Promoting(job, promotions')), job);
    }
  }

  // ---- from the second search ----

  lemma SlowEnds(c: Setup, procs: seq<Process>, p: nat, t: Tables, files: map<Digest, Bytes>, job: Job, id: nat, w: nat)
    requires Working(c, procs, p, t, job, id) && LiveMatch(t, job.manifest.session, JobFingerprint(c, job), w)
    ensures Ends(c, p, At(procs, p, t, files, AttachingSlow(job, w)), job)
  {
    Moves(c, procs, p, t, files, AttachingSlow(job, w), Go(0, id));
    Attached(c, procs, p, t, files, At(procs, p, t, files, AttachingSlow(job, w)), job, id, w);
  }

  lemma SeekingAgainEnds(c: Setup, procs: seq<Process>, p: nat, t: Tables, files: map<Digest, Bytes>, job: Job, id: nat)
    requires Working(c, procs, p, t, job, id) && Compatible(t, job.manifest) && FilesGenuine(c, files)
    ensures Ends(c, p, At(procs, p, t, files, SeekingAgain(job)), job)
  {
    match LiveFor(c, t, job)
    case Some(w) =>
      FindsLiveAgain(c, procs, p, t, files, job, w, Go(0, id));
      SlowEnds(c, procs, p, t, files, job, id, w);
      EndsLater(c, p, At(procs, p, t, files, SeekingAgain(job)), At(procs, p, t, files, AttachingSlow(job, w)), job);
    case None =>
      SeeksAgain(c, procs, p, t, files, job, Go(0, id));
      PromotingEnds(c, procs, p, t, files, job, [], id);
      EndsLater(c, p, At(procs, p, t, files, SeekingAgain(job)), At(procs, p, t, files, Promoting(job, [])), job);
  }

  lemma CheckingAgainEnds(c: Setup, procs: seq<Process>, p: nat, t: Tables, files: map<Digest, Bytes>, job: Job,
                          id: nat)
    requires Working(c, procs, p, t, job, id) && Compatible(t, job.manifest) && FilesGenuine(c, files)
    ensures Ends(c, p, At(procs, p, t, files, CheckingAgain(job)), job)
  {
    SeesCompatible(c, procs, p, t, files, job, Go(0, id));
    SeekingAgainEnds(c, procs, p, t, files, job, id);
    EndsLater(c, p, At(procs, p, t, files, CheckingAgain(job)), At(procs, p, t, files, SeekingAgain(job)), job);
  }

  lemma BlobsEnd(c: Setup, procs: seq<Process>, p: nat, t: Tables, files: map<Digest, Bytes>, job: Job, n: nat, id: nat)
    requires Working(c, procs, p, t, job, id) && Compatible(t, job.manifest) && FilesGenuine(c, files)
    ensures Ends(c, p, At(procs, p, t, files, AwaitBlobs(job, n)), job)
  {
    StripesAscend(c, t, job);
    LocksRest(c, procs, p, t, files, job, n, Go(0, id));
    CheckingAgainEnds(c, procs, p, t, files, job, id);
    EndsLater(c, p, At(procs, p, t, files, AwaitBlobs(job, n)), At(procs, p, t, files, CheckingAgain(job)), job);
  }

  // ---- from the first search ----

  lemma FastEnds(c: Setup, procs: seq<Process>, p: nat, t: Tables, files: map<Digest, Bytes>, job: Job, id: nat, w: nat)
    requires Working(c, procs, p, t, job, id) && LiveMatch(t, job.manifest.session, JobFingerprint(c, job), w)
    ensures Ends(c, p, At(procs, p, t, files, AttachingFast(job, w)), job)
  {
    Moves(c, procs, p, t, files, AttachingFast(job, w), Go(0, id));
    Attached(c, procs, p, t, files, At(procs, p, t, files, AttachingFast(job, w)), job, id, w);
  }

  lemma RecheckingEnds(c: Setup, procs: seq<Process>, p: nat, t: Tables, files: map<Digest, Bytes>, job: Job, id: nat)
    requires Working(c, procs, p, t, job, id) && Compatible(t, job.manifest) && FilesGenuine(c, files)
    ensures Ends(c, p, At(procs, p, t, files, Rechecking(job)), job)
  {
    match LiveFor(c, t, job)
    case Some(w) =>
      StillLive(c, procs, p, t, files, job, w, Go(0, id));
      FastEnds(c, procs, p, t, files, job, id, w);
      EndsLater(c, p, At(procs, p, t, files, Rechecking(job)), At(procs, p, t, files, AttachingFast(job, w)), job);
    case None =>
      NoLongerLive(c, procs, p, t, files, job, Go(0, id));
      BlobsEnd(c, procs, p, t, files, job, 0, id);
      EndsLater(c, p, At(procs, p, t, files, Rechecking(job)), At(procs, p, t, files, AwaitBlobs(job, 0)), job);
  }

  lemma AwaitSnapshotEnds(c: Setup, procs: seq<Process>, p: nat, t: Tables, files: map<Digest, Bytes>, job: Job,
                          id: nat)
    requires Working(c, procs, p, t, job, id) && Compatible(t, job.manifest) && FilesGenuine(c, files)
    ensures Ends(c, p, At(procs, p, t, files, AwaitSnapshot(job)), job)
  {
    SoloFree(c, procs, p, t, files, AwaitSnapshot(job), SnapshotOfJob(c, job));
    Walks(c, procs, p, t, files, AwaitSnapshot(job), Go(0, id), Rechecking(job));
    RecheckingEnds(c, procs, p, t, files, job, id);
    EndsLater(c, p, At(procs, p, t, files, AwaitSnapshot(job)), At(procs, p, t, files, Rechecking(job)), job);
  }

  lemma SeekingEnds(c: Setup, procs: seq<Process>, p: nat, t: Tables, files: map<Digest, Bytes>, job: Job, id: nat)
    requires Working(c, procs, p, t, job, id) && Compatible(t, job.manifest) && FilesGenuine(c, files)
    ensures Ends(c, p, At(procs, p, t, files, Seeking(job)), job)
  {
    if LiveFor(c, t, job).Some? {
      SeesLive(c, procs, p, t, files, job, Go(0, id));
      AwaitSnapshotEnds(c, procs, p, t, files, job, id);
      EndsLater(c, p, At(procs, p, t, files, Seeking(job)), At(procs, p, t, files, AwaitSnapshot(job)), job);
    } else {
      SeeksNone(c, procs, p, t, files, job, Go(0, id));
      BlobsEnd(c, procs, p, t, files, job, 0, id);
      EndsLater(c, p, At(procs, p, t, files, Seeking(job)), At(procs, p, t, files, AwaitBlobs(job, 0)), job);
    }
  }

  lemma CheckingEnds(c: Setup, procs: seq<Process>, p: nat, t: Tables, files: map<Digest, Bytes>, job: Job, id: nat)
    requires Working(c, procs, p, t, job, id) && Compatible(t, job.manifest) && FilesGenuine(c, files)
    ensures Ends(c, p, At(procs, p, t, files, Checking(job)), job)
  {
    Checks(c, procs, p, t, files, job, Go(0, id));
    SeekingEnds(c, procs, p, t, files, job, id);
    EndsLater(c, p, At(procs, p, t, files, Checking(job)), At(procs, p, t, files, Seeking(job)), job);
  }

  // ---- from any point ----

  ghost predicate HasWinner(t: Tables, m: Manifest) {
    exists w :: HasContent(t, m, w)
  }

  // What the rest of a completion can still run into: rows of another representation, the deletion of the snapshot it
  // is
  // about to attach to, or an earlier error of its own.
  ghost predicate CanFinish(t: Tables, q: Process)
    requires HasJob(q)
  {
    match q
    case AttachingFast(_, _) => true
    case AttachingSlow(_, w) => Live(t, w)
    case AttachingWinner(_, _, w) => Live(t, w)
    case Cleaning(_, _, _, winner) => winner.Some? && Live(t, winner.value)
    case Removing(_, _, _, winner) => winner.Some? && Live(t, winner.value)
    case Lost(job, _) => HasWinner(t, job.manifest)
    case _ => Compatible(t, q.job.manifest)
  }

  lemma EarlyEnds(c: Setup, procs: seq<Process>, p: nat, t: Tables, files: map<Digest, Bytes>, q: Process, id: nat)
    requires HasJob(q) && !HasPromotions(q) && !q.AttachingFast? && !q.AttachingSlow?
    requires Working(c, procs, p, t, q.job, id) && Compatible(t, q.job.manifest) && FilesGenuine(c, files)
    ensures Ends(c, p, At(procs, p, t, files, q), q.job)
  {
    match q
    case Checking(job) => CheckingEnds(c, procs, p, t, files, job, id);
    case Seeking(job) => SeekingEnds(c, procs, p, t, files, job, id);
    case AwaitSnapshot(job) => AwaitSnapshotEnds(c, procs, p, t, files, job, id);
    case Rechecking(job) => RecheckingEnds(c, procs, p, t, files, job, id);
    case AwaitBlobs(job, n) => BlobsEnd(c, procs, p, t, files, job, n, id);
    case CheckingAgain(job) => CheckingAgainEnds(c, procs, p, t, files, job, id);
    case SeekingAgain(job) => SeekingAgainEnds(c, procs, p, t, files, job, id);
  }

  lemma TargetEnds(c: Setup, procs: seq<Process>, p: nat, t: Tables, files: map<Digest, Bytes>, q: Process, id: nat)
    requires HasJob(q) && (q.AttachingFast? || q.AttachingSlow? || q.AttachingWinner? || q.Cleaning? || q.Removing?)
    requires Working(c, procs, p, t, q.job, id) && CanFinish(t, q) && TargetsKnown(c, t, q) && VictimsKnown(t, q)
    ensures Ends(c, p, At(procs, p, t, files, q), q.job)
  {
    match q
    case AttachingFast(job, w) => FastEnds(c, procs, p, t, files, job, id, w);
    case AttachingSlow(job, w) => SlowEnds(c, procs, p, t, files, job, id, w);
    case AttachingWinner(job, promotions, w) => WinnerEnds(c, procs, p, t, files, job, promotions, id, w);
    case Cleaning(job, promotions, k, winner) => CleaningEnds(c, procs, p, t, files, job, promotions, k, id,
                                                              winner.value);
    case Removing(job, promotions, k, winner) => RemovingEnds(c, procs, p, t, files, job, promotions, k, id,
                                                              winner.value);
  }

  lemma LateEnds(c: Setup, procs: seq<Process>, p: nat, t: Tables, files: map<Digest, Bytes>, q: Process, id: nat)
    requires q.Promoting? || q.Recording? || q.Lost?
    requires Working(c, procs, p, t, q.job, id) && FilesGenuine(c, files)
    requires CanFinish(t, q) && PromotionsKnown(files, q)
    ensures Ends(c, p, At(procs, p, t, files, q), q.job)
  {
    match q
    case Promoting(job, promotions) => PromotingEnds(c, procs, p, t, files, job, promotions, id);
    case Recording(job, promotions) => RecordingEnds(c, procs, p, t, files, job, promotions, id);
    case Lost(job, promotions) =>
      FindsContent(c, t, job);
      LostEnds(c, procs, p, t, files, job, promotions, id);
  }

  lemma AloneEnds(c: Setup, procs: seq<Process>, p: nat, t: Tables, files: map<Digest, Bytes>, q: Process, id: nat)
    requires HasJob(q) && Working(c, procs, p, t, q.job, id) && FilesGenuine(c, files)
    requires CanFinish(t, q) && Knows(c, t, files, q)
    ensures Ends(c, p, At(procs, p, t, files, q), q.job)
  {
    if q.Promoting? || q.Recording? || q.Lost? {
      LateEnds(c, procs, p, t, files, q, id);
    } else if HasPromotions(q) || q.AttachingFast? || q.AttachingSlow? {
      TargetEnds(c, procs, p, t, files, q, id);
    } else {
      EarlyEnds(c, procs, p, t, files, q, id);
    }
  }

  lemma WorksAlone(c: Setup, s: State, p: nat, q: Process, id: nat)
    requires CollisionFree(c) && Inv(c, s) && SoloIn(s, p, q) && HasJob(q) && id !in s.tables.snapshots
    ensures var procs := s.procs[p := Idle];
      Working(c, procs, p, s.tables, q.job, id) && s == At(procs, p, s.tables, s.files, q) &&
      Knows(c, s.tables, s.files, q)
  {
    assert Knows(c, s.tables, s.files, s.procs[p]);
    assert s.procs[p := Idle][p := q] == s.procs;
  }

  /** In every reachable state, a completion left alone at any point past the verification of its chunks gets to its
      end and completes its upload on a live snapshot of its content, unless it runs into one of the three obstacles
      named above. */
  lemma EveryCompletionEnds(c: Setup, states: seq<State>, steps: seq<Step>, k: nat, p: nat, q: Process, id: nat)
    requires CollisionFree(c) && Run(c, states, steps) && k < |states| && SoloIn(states[k], p, q) && HasJob(q)
    requires CanFinish(states[k].tables, q) && id !in states[k].tables.snapshots
    ensures Ends(c, p, states[k], q.job)
  {
    var s := states[k];
    ReachableInv(c, states, steps, k);
    WorksAlone(c, s, p, q, id);
    AloneEnds(c, s.procs[p := Idle], p, s.tables, s.files, q, id);
  }
}
