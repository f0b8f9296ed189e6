/** What a completion achieves when nothing gets in its way: run to its end on an
    otherwise idle server, from any reachable state. */
module Progress {
  import opened Basics
  import opened Catalog
  import opened CatalogInvariants
  import opened Provenance
  import opened Protocol
  import opened ProtocolSafety
  import opened ProtocolSteps
  import opened Runs

  // ---- one process under way ----

  ghost predicate Idles(procs: seq<Process>, p: nat) {
    p < |procs| && forall i :: 0 <= i < |procs| ==> procs[i] == Idle
  }

  ghost predicate Solo(s: State, p: nat) {
    s.mode.Serving? && Idles(s.procs, p)
  }

  // One process stands at q; the others are idle.
  ghost predicate SoloIn(s: State, p: nat, q: Process) {
    s.mode.Serving? && p < |s.procs| && s.procs[p] == q && Idles(s.procs[p := Idle], p)
  }

  ghost function At(procs: seq<Process>, p: nat, t: Tables, files: map<Digest, Bytes>, q: Process): State
    requires p < |procs|
  {
    State(t, files, procs[p := q], Serving)
  }

  // An event that starts an operation or takes it one step further.
  predicate Smooth(e: Event) {
    e.Go? || e.Staged? || e.StartComplete? || e.StartDelete? || e.StartCollect?
  }

  ghost function CanTake(c: Setup, p: nat): (State, Event) -> bool {
    (s, e) => Smooth(e) && Can(c, s, p, e)
  }

  ghost function Taking(c: Setup, p: nat): (State, Event) -> State {
    (s, e) => After(c, s, p, e)
  }

  // Process p, taking one step after the other, gets from s to s'.
  ghost predicate Gets(c: Setup, p: nat, s: State, s': State) {
    exists events :: Path(CanTake(c, p), Taking(c, p), s, events, s')
  }

  lemma Stays(c: Setup, p: nat, s: State)
    ensures Gets(c, p, s, s)
  {
    assert Path(CanTake(c, p), Taking(c, p), s, [], s);
  }

  lemma Then(c: Setup, p: nat, s: State, s1: State, s2: State)
    requires Gets(c, p, s, s1) && Gets(c, p, s1, s2)
    ensures Gets(c, p, s, s2)
  {
    var a :| Path(CanTake(c, p), Taking(c, p), s, a, s1);
    var b :| Path(CanTake(c, p), Taking(c, p), s1, b, s2);
    PathJoins(CanTake(c, p), Taking(c, p), s, a, s1, b, s2);
  }

  lemma {:induction false} Chain(c: Setup, p: nat, states: seq<State>)
    requires |states| > 0 && forall k :: 0 < k < |states| ==> Gets(c, p, states[k - 1], states[k])
    ensures Gets(c, p, states[0], states[|states| - 1])
  {
    var n := |states| - 1;
    if n == 0 {
      Stays(c, p, states[0]);
    } else {
      Chain(c, p, states[..n]);
      Then(c, p, states[0], states[n - 1], states[n]);
    }
  }

  lemma OneStep(c: Setup, p: nat, s: State, e: Event)
    requires Smooth(e) && Can(c, s, p, e)
    ensures Gets(c, p, s, After(c, s, p, e))
  {
    var s' := Taking(c, p)(s, e);
    assert Path(CanTake(c, p), Taking(c, p), s', [], s');
    assert [e][1..] == [] && CanTake(c, p)(s, e);
    assert Path(CanTake(c, p), Taking(c, p), s, [e], s');
  }

  lemma SoloFree(c: Setup, procs: seq<Process>, p: nat, t: Tables, files: map<Digest, Bytes>, q: Process, lock: Lock)
    requires Idles(procs, p) && !Holds(c, q, lock)
    ensures Free(c, At(procs, p, t, files, q), lock)
  {
  }

  lemma SoloAfter(c: Setup, procs: seq<Process>, p: nat, t: Tables, files: map<Digest, Bytes>, q: Process, e: Event)
    requires Idles(procs, p) && Smooth(e)
    ensures var s := At(procs, p, t, files, q);
      After(c, s, p, e) ==
      At(procs, p, Apply(c, t, Protocol.Commits(c, s, p, e)), FilesAfter(c, s, p, e), ProcAfter(c, s, q, e))
  {
    var s := At(procs, p, t, files, q);
    assert s.procs[p := ProcAfter(c, s, q, e)] == procs[p := ProcAfter(c, s, q, e)];
  }

  // A step of the one process under way.
  lemma Moves(c: Setup, procs: seq<Process>, p: nat, t: Tables, files: map<Digest, Bytes>, q: Process, e: Event)
    requires Idles(procs, p) && Smooth(e) && Takes(c, At(procs, p, t, files, q), q, e)
    ensures var s := At(procs, p, t, files, q);
      Gets(c, p, s, At(procs, p, Apply(c, t, Protocol.Commits(c, s, p, e)), FilesAfter(c, s, p, e),
                       ProcAfter(c, s, q, e)))
  {
    SoloAfter(c, procs, p, t, files, q, e);
    OneStep(c, p, At(procs, p, t, files, q), e);
  }

  // A step that commits nothing and touches no file.
  lemma Walks(c: Setup, procs: seq<Process>, p: nat, t: Tables, files: map<Digest, Bytes>, q: Process, e: Event,
              q': Process)
    requires Idles(procs, p) && Smooth(e) && Takes(c, At(procs, p, t, files, q), q, e)
    requires Protocol.Commits(c, At(procs, p, t, files, q), p, e) == Nothing
    requires FilesAfter(c, At(procs, p, t, files, q), p, e) == files &&
      q' == ProcAfter(c, At(procs, p, t, files, q), q, e)
    ensures Gets(c, p, At(procs, p, t, files, q), At(procs, p, t, files, q'))
  {
    Moves(c, procs, p, t, files, q, e);
  }

  // ---- completion, up to its locks ----

  lemma Opens(c: Setup, procs: seq<Process>, p: nat, t: Tables, files: map<Digest, Bytes>, u: nat, go: Event)
    requires Idles(procs, p) && go.Go?
    ensures Gets(c, p, At(procs, p, t, files, Idle), At(procs, p, t, files, Opened(u)))
  {
    Walks(c, procs, p, t, files, Idle, StartComplete(u), AwaitUpload(u));
    SoloFree(c, procs, p, t, files, AwaitUpload(u), UploadOf(c, u));
    Walks(c, procs, p, t, files, AwaitUpload(u), go, Opened(u));
    Then(c, p, At(procs, p, t, files, Idle), At(procs, p, t, files, AwaitUpload(u)), At(procs, p, t, files, Opened(u)));
  }

  lemma Stages(c: Setup, procs: seq<Process>, p: nat, t: Tables, files: map<Digest, Bytes>, job: Job)
    requires Idles(procs, p) && JobKnown(c, t, job)
    ensures Gets(c, p, At(procs, p, t, files, Opened(job.upload)), At(procs, p, t, files, Checking(job)))
  {
    Walks(c, procs, p, t, files, Opened(job.upload), Staged(job.staged), Checking(job));
  }

  lemma Checks(c: Setup, procs: seq<Process>, p: nat, t: Tables, files: map<Digest, Bytes>, job: Job, go: Event)
    requires Idles(procs, p) && Compatible(t, job.manifest) && go.Go?
    ensures Gets(c, p, At(procs, p, t, files, Checking(job)), At(procs, p, t, files, Seeking(job)))
  {
    Walks(c, procs, p, t, files, Checking(job), go, Seeking(job));
  }

  lemma Prepares(c: Setup, procs: seq<Process>, p: nat, t: Tables, files: map<Digest, Bytes>, job: Job, go: Event)
    requires Idles(procs, p) && JobKnown(c, t, job) && Compatible(t, job.manifest) && go.Go?
    ensures Gets(c, p, At(procs, p, t, files, Idle), At(procs, p, t, files, Seeking(job)))
  {
    var s0, s1 := At(procs, p, t, files, Idle), At(procs, p, t, files, Opened(job.upload));
    var s2, s3 := At(procs, p, t, files, Checking(job)), At(procs, p, t, files, Seeking(job));
    Opens(c, procs, p, t, files, job.upload, go);
    Stages(c, procs, p, t, files, job);
    Checks(c, procs, p, t, files, job, go);
    Then(c, p, s0, s1, s2);
    Then(c, p, s0, s2, s3);
  }

  // ---- a completion that finds its content live ----

  lemma FindsLive(c: Setup, procs: seq<Process>, p: nat, t: Tables, files: map<Digest, Bytes>, job: Job, id: nat,
                  go: Event)
    requires Idles(procs, p) && LiveFor(c, t, job) == Some(id) && go.Go?
    ensures Gets(c, p, At(procs, p, t, files, Seeking(job)), At(procs, p, t, files, Rechecking(job)))
  {
    Walks(c, procs, p, t, files, Seeking(job), go, AwaitSnapshot(job));
    SoloFree(c, procs, p, t, files, AwaitSnapshot(job), SnapshotOfJob(c, job));
    Walks(c, procs, p, t, files, AwaitSnapshot(job), go, Rechecking(job));
    Then(c, p, At(procs, p, t, files, Seeking(job)), At(procs, p, t, files, AwaitSnapshot(job)),
         At(procs, p, t, files, Rechecking(job)));
  }

  lemma AttachesFast(c: Setup, procs: seq<Process>, p: nat, t: Tables, files: map<Digest, Bytes>, job: Job, id: nat,
                     go: Event)
    requires Idles(procs, p) && LiveFor(c, t, job) == Some(id) && UploadActive(t, job) && go.Go?
    ensures Gets(c, p, At(procs, p, t, files, Rechecking(job)),
                 At(procs, p, Apply(c, t, Attach(job.upload, id)), files, Idle))
  {
    Walks(c, procs, p, t, files, Rechecking(job), go, AttachingFast(job, id));
    Moves(c, procs, p, t, files, AttachingFast(job, id), go);
    Then(c, p, At(procs, p, t, files, Rechecking(job)), At(procs, p, t, files, AttachingFast(job, id)),
         At(procs, p, Apply(c, t, Attach(job.upload, id)), files, Idle));
  }

  // ---- a completion that records a new snapshot ----

  lemma SeeksNone(c: Setup, procs: seq<Process>, p: nat, t: Tables, files: map<Digest, Bytes>, job: Job, go: Event)
    requires Idles(procs, p) && LiveFor(c, t, job).None? && go.Go?
    ensures Gets(c, p, At(procs, p, t, files, Seeking(job)), At(procs, p, t, files, AwaitBlobs(job, 0)))
  {
    Walks(c, procs, p, t, files, Seeking(job), go, AwaitBlobs(job, 0));
  }

  lemma HoldsEarlier(c: Setup, job: Job, n: nat)
    requires StrictlyAscending(job.stripes) && n < |job.stripes|
    ensures !Holds(c, AwaitBlobs(job, n), BlobLock(job.stripes[n]))
  {
  }

  lemma LocksBlob(c: Setup, procs: seq<Process>, p: nat, t: Tables, files: map<Digest, Bytes>, job: Job, n: nat,
                  go: Event)
    requires Idles(procs, p) && StrictlyAscending(job.stripes) && n < |job.stripes| && go.Go?
    ensures Gets(c, p, At(procs, p, t, files, AwaitBlobs(job, n)), At(procs, p, t, files, AwaitBlobs(job, n + 1)))
  {
    HoldsEarlier(c, job, n);
    SoloFree(c, procs, p, t, files, AwaitBlobs(job, n), BlobLock(job.stripes[n]));
    Walks(c, procs, p, t, files, AwaitBlobs(job, n), go, AwaitBlobs(job, n + 1));
  }

  lemma LocksBlobs(c: Setup, procs: seq<Process>, p: nat, t: Tables, files: map<Digest, Bytes>, job: Job, n: nat,
                   go: Event)
    requires Idles(procs, p) && StrictlyAscending(job.stripes) && n <= |job.stripes| && go.Go?
    ensures Gets(c, p, At(procs, p, t, files, AwaitBlobs(job, n)),
                 At(procs, p, t, files, AwaitBlobs(job, |job.stripes|)))
  {
    var states := seq(|job.stripes| - n + 1, i requires 0 <= i <= |job.stripes| - n =>
      At(procs, p, t, files, AwaitBlobs(job, n + i)));
    forall i | 0 < i < |states| ensures Gets(c, p, states[i - 1], states[i]) {
      LocksBlob(c, procs, p, t, files, job, n + i - 1, go);
    }
    Chain(c, p, states);
  }

  lemma ChecksAgain(c: Setup, procs: seq<Process>, p: nat, t: Tables, files: map<Digest, Bytes>, job: Job, go: Event)
    requires Idles(procs, p) && Compatible(t, job.manifest) && go.Go?
    ensures Gets(c, p, At(procs, p, t, files, AwaitBlobs(job, |job.stripes|)),
                 At(procs, p, t, files, SeekingAgain(job)))
  {
    Walks(c, procs, p, t, files, AwaitBlobs(job, |job.stripes|), go, CheckingAgain(job));
    Walks(c, procs, p, t, files, CheckingAgain(job), go, SeekingAgain(job));
    Then(c, p, At(procs, p, t, files, AwaitBlobs(job, |job.stripes|)), At(procs, p, t, files, CheckingAgain(job)),
         At(procs, p, t, files, SeekingAgain(job)));
  }

  lemma SeeksAgain(c: Setup, procs: seq<Process>, p: nat, t: Tables, files: map<Digest, Bytes>, job: Job, go: Event)
    requires Idles(procs, p) && LiveFor(c, t, job).None? && go.Go?
    ensures Gets(c, p, At(procs, p, t, files, SeekingAgain(job)), At(procs, p, t, files, Promoting(job, [])))
  {
    Walks(c, procs, p, t, files, SeekingAgain(job), go, Promoting(job, []));
  }

  lemma StartsPromoting(c: Setup, procs: seq<Process>, p: nat, t: Tables, files: map<Digest, Bytes>, job: Job,
                        go: Event)
    requires Idles(procs, p) && JobKnown(c, t, job) && Compatible(t, job.manifest) && LiveFor(c, t, job).None? && go.Go?
    ensures Gets(c, p, At(procs, p, t, files, Seeking(job)), At(procs, p, t, files, Promoting(job, [])))
  {
    var s0, s1 := At(procs, p, t, files, Seeking(job)), At(procs, p, t, files, AwaitBlobs(job, 0));
    var s2 := At(procs, p, t, files, AwaitBlobs(job, |job.stripes|));
    var s3, s4 := At(procs, p, t, files, SeekingAgain(job)), At(procs, p, t, files, Promoting(job, []));
    SeeksNone(c, procs, p, t, files, job, go);
    LocksBlobs(c, procs, p, t, files, job, 0, go);
    ChecksAgain(c, procs, p, t, files, job, go);
    SeeksAgain(c, procs, p, t, files, job, go);
    Then(c, p, s0, s1, s2);
    Then(c, p, s0, s2, s3);
    Then(c, p, s0, s3, s4);
  }

  // The bytes a job promotes for a digest it declares.
  ghost function StagedOf(job: Job, d: Digest): Bytes {
    if |job.staged| == |job.manifest.artifacts| && d in StoredDigests(job.manifest) then StagedFor(job, d) else []
  }

  // The files once the first n digests of the job are promoted, and the promotions on record then.
  ghost function Promoted(files: map<Digest, Bytes>, job: Job, n: nat): map<Digest, Bytes>
    requires n <= |job.order|
  {
    if n == 0 then files
    else LinkIfAbsent(Promoted(files, job, n - 1), job.order[n - 1], StagedOf(job, job.order[n - 1]))
  }

  ghost function Promotions(files: map<Digest, Bytes>, job: Job, n: nat): seq<Promotion>
    requires n <= |job.order|
  {
    seq(n, i requires 0 <= i < n => Promotion(job.order[i], job.order[i] !in files))
  }

  lemma {:induction false} PromotedAt(files: map<Digest, Bytes>, job: Job, n: nat)
    requires n <= |job.order|
    ensures forall d :: d in Promoted(files, job, n) <==> d in files || d in job.order[..n]
    ensures forall d :: d in Promoted(files, job, n) ==>
      Promoted(files, job, n)[d] == if d in files then files[d] else StagedOf(job, d)
  {
    if n > 0 {
      PromotedAt(files, job, n - 1);
      assert job.order[..n] == job.order[..n - 1] + [job.order[n - 1]];
    }
  }

  lemma PromotedNext(c: Setup, files: map<Digest, Bytes>, job: Job, n: nat)
    requires n < |job.order| && StrictlyAscending(job.order) && Verified(c, job)
    requires job.order[n] in StoredDigests(job.manifest)
    ensures Linked(Promoted(files, job, n), job, n) == Promoted(files, job, n + 1)
    ensures job.order[n] in Promoted(files, job, n) <==> job.order[n] in files
    ensures var d := job.order[n];
      Promotions(files, job, n) + [Promotion(d, d !in files)] == Promotions(files, job, n + 1)
  {
    PromotedAt(files, job, n);
    assert job.order[n] !in job.order[..n];
  }

  lemma NothingPromoted(files: map<Digest, Bytes>, job: Job)
    ensures Promoted(files, job, 0) == files && Promotions(files, job, 0) == []
  {
  }

  // A file of the digest already in place holds the bytes the job has staged.
  lemma ExistingVerifies(c: Setup, files: map<Digest, Bytes>, job: Job, d: Digest)
    requires CollisionFree(c) && Verified(c, job) && d in StoredDigests(job.manifest)
    requires d in files && c.codec.sha256(files[d]) == d
    ensures ExistingFileVerifies(c, files, job, d)
  {
    var i := FirstWith(job.manifest.artifacts, d);
    assert ArtifactVerified(c.codec, job.manifest.artifacts[i], job.staged[i]);
    assert c.codec.sha256(files[d]) == c.codec.sha256(job.staged[i]);
  }

  ghost function PromotingAt(procs: seq<Process>, p: nat, t: Tables, files: map<Digest, Bytes>, job: Job, n: nat): State
    requires p < |procs| && n <= |job.order|
  {
    At(procs, p, t, Promoted(files, job, n), Promoting(job, Promotions(files, job, n)))
  }

  lemma PromotesOne(c: Setup, procs: seq<Process>, p: nat, t: Tables, files: map<Digest, Bytes>, job: Job, n: nat,
                    go: Event)
    requires CollisionFree(c) && FilesGenuine(c, files) && Idles(procs, p) && JobKnown(c, t, job)
    requires n < |job.order| && go.Go?
    ensures Gets(c, p, PromotingAt(procs, p, t, files, job, n), PromotingAt(procs, p, t, files, job, n + 1))
  {
    var d := job.order[n];
    OrderedDigest(c, job, n);
    PromotedNext(c, files, job, n);
    if d in files {
      PromotedAt(files, job, n);
      ExistingVerifies(c, Promoted(files, job, n), job, d);
    }
    Moves(c, procs, p, t, Promoted(files, job, n), Promoting(job, Promotions(files, job, n)), go);
  }

  lemma {:induction false} PromotesFirst(c: Setup, procs: seq<Process>, p: nat, t: Tables, files: map<Digest, Bytes>,
                                         job: Job, n: nat)
    requires p < |procs| && n <= |job.order|
    requires forall k :: 0 <= k < |job.order| ==>
      Gets(c, p, PromotingAt(procs, p, t, files, job, k), PromotingAt(procs, p, t, files, job, k + 1))
    ensures Gets(c, p, PromotingAt(procs, p, t, files, job, 0), PromotingAt(procs, p, t, files, job, n))
  {
    if n == 0 {
      Stays(c, p, PromotingAt(procs, p, t, files, job, 0));
    } else {
      PromotesFirst(c, procs, p, t, files, job, n - 1);
      Then(c, p, PromotingAt(procs, p, t, files, job, 0), PromotingAt(procs, p, t, files, job, n - 1),
           PromotingAt(procs, p, t, files, job, n));
    }
  }

  lemma PromotesAll(c: Setup, procs: seq<Process>, p: nat, t: Tables, files: map<Digest, Bytes>, job: Job, go: Event)
    requires CollisionFree(c) && FilesGenuine(c, files) && Idles(procs, p) && JobKnown(c, t, job) && go.Go?
    ensures Gets(c, p, At(procs, p, t, files, Promoting(job, [])), PromotingAt(procs, p, t, files, job, |job.order|))
  {
    forall k | 0 <= k < |job.order|
      ensures Gets(c, p, PromotingAt(procs, p, t, files, job, k), PromotingAt(procs, p, t, files, job, k + 1))
    {
      PromotesOne(c, procs, p, t, files, job, k, go);
    }
    PromotesFirst(c, procs, p, t, files, job, |job.order|);
    NothingPromoted(files, job);
  }

  // The digests of the manifest that had no file.
  ghost function MissingOf(files: map<Digest, Bytes>, m: Manifest): set<Digest> {
    StoredDigests(m) - files.Keys
  }

  lemma PromotionsCreate(c: Setup, files: map<Digest, Bytes>, job: Job)
    requires job == MakeJob(c, job.upload, job.manifest, job.staged)
    ensures CreatedBy(Promotions(files, job, |job.order|)) == MissingOf(files, job.manifest)
  {
    var promotions := Promotions(files, job, |job.order|);
    forall d ensures d in CreatedBy(promotions) <==> d in MissingOf(files, job.manifest) {
      if d in MissingOf(files, job.manifest) {
        assert d in job.order;
        var i :| 0 <= i < |job.order| && job.order[i] == d;
        assert promotions[i] == Promotion(d, true);
      }
    }
  }

  lemma RecordsNew(c: Setup, procs: seq<Process>, p: nat, t: Tables, files: map<Digest, Bytes>, job: Job,
                   promotions: seq<Promotion>, now: int, id: nat)
    requires Idles(procs, p) && UploadActive(t, job) && Compatible(t, job.manifest) && LiveFor(c, t, job).None?
    requires |promotions| == |job.order| && id !in t.snapshots
    ensures Gets(c, p, At(procs, p, t, files, Promoting(job, promotions)),
                 At(procs, p, Apply(c, t, Win(job.upload, id, now, CreatedBy(promotions))), files, Idle))
  {
    Walks(c, procs, p, t, files, Promoting(job, promotions), Go(now, id), Recording(job, promotions));
    Moves(c, procs, p, t, files, Recording(job, promotions), Go(now, id));
    Then(c, p, At(procs, p, t, files, Promoting(job, promotions)), At(procs, p, t, files, Recording(job, promotions)),
         At(procs, p, Apply(c, t, Win(job.upload, id, now, CreatedBy(promotions))), files, Idle));
  }

  lemma Records(c: Setup, procs: seq<Process>, p: nat, t: Tables, files: map<Digest, Bytes>, job: Job, now: int,
                id: nat)
    requires CollisionFree(c) && FilesGenuine(c, files) && Idles(procs, p) && JobKnown(c, t, job)
    requires Compatible(t, job.manifest) && LiveFor(c, t, job).None? && id !in t.snapshots
    ensures Gets(c, p, At(procs, p, t, files, Idle),
                 At(procs, p, Apply(c, t, Win(job.upload, id, now, MissingOf(files, job.manifest))),
                    Promoted(files, job, |job.order|), Idle))
  {
    var go, n := Go(now, id), |job.order|;
    var files' := Promoted(files, job, n);
    var s0, s1 := At(procs, p, t, files, Idle), At(procs, p, t, files, Seeking(job));
    var s2 := At(procs, p, t, files, Promoting(job, []));
    var s3 := At(procs, p, t, files', Promoting(job, Promotions(files, job, n)));
    var s4 := At(procs, p, Apply(c, t, Win(job.upload, id, now, MissingOf(files, job.manifest))), files', Idle);
    Prepares(c, procs, p, t, files, job, go);
    StartsPromoting(c, procs, p, t, files, job, go);
    PromotesAll(c, procs, p, t, files, job, go);
    PromotionsCreate(c, files, job);
    RecordsNew(c, procs, p, t, files', job, Promotions(files, job, n), now, id);
    Then(c, p, s0, s1, s2);
    Then(c, p, s0, s2, s3);
    Then(c, p, s0, s3, s4);
  }

  lemma Attaches(c: Setup, procs: seq<Process>, p: nat, t: Tables, files: map<Digest, Bytes>, job: Job, id: nat,
                 go: Event)
    requires Idles(procs, p) && JobKnown(c, t, job) && Compatible(t, job.manifest)
    requires LiveFor(c, t, job) == Some(id) && go.Go?
    ensures Gets(c, p, At(procs, p, t, files, Idle), At(procs, p, Apply(c, t, Attach(job.upload, id)), files, Idle))
  {
    var s0, s1 := At(procs, p, t, files, Idle), At(procs, p, t, files, Seeking(job));
    var s2 := At(procs, p, t, files, Rechecking(job));
    var s3 := At(procs, p, Apply(c, t, Attach(job.upload, id)), files, Idle);
    Prepares(c, procs, p, t, files, job, go);
    FindsLive(c, procs, p, t, files, job, id, go);
    AttachesFast(c, procs, p, t, files, job, id, go);
    Then(c, p, s0, s1, s2);
    Then(c, p, s0, s2, s3);
  }

  // ---- what an undisturbed completion leaves ----

  // Every artifact's bytes in place, and no file changed.
  ghost predicate AddedBytes(c: Setup, files: map<Digest, Bytes>, files': map<Digest, Bytes>, m: Manifest) {
    && AllHeld(c, files', m.artifacts)
    && files'.Keys == files.Keys + StoredDigests(m) && forall d :: d in files ==> files'[d] == files[d]
  }

  // A new live snapshot of the manifest, recorded now; the upload completed on it; one new capture.
  ghost predicate RecordedRows(t: Tables, t': Tables, u: nat, m: Manifest, now: int, id: nat, newlyPersisted: nat) {
    && t'.uploads == t.uploads[u := Completed(m, id, newlyPersisted)]
    && t'.captures == t.captures[u := Capture(id, m.session, m.context)]
    && id in t'.snapshots && t'.snapshots == t.snapshots[id := t'.snapshots[id]] && Live(t', id)
    && t'.snapshots[id].manifest == m && t'.snapshots[id].session == m.session && t'.snapshots[id].completedAt == now
  }

  // A snapshot recorded with the bytes of the files that were missing as newly persisted.
  ghost predicate RecordedSnapshot(c: Setup, s: State, s': State, u: nat, m: Manifest, now: int, id: nat) {
    && RecordedRows(s.tables, s'.tables, u, m, now, id, NewlyPersisted(m, MissingOf(s.files, m)))
    && AddedBytes(c, s.files, s'.files, m)
  }

  // An upload completed on a live snapshot of its content: no bytes, one new capture, every row as it was.
  ghost predicate CompletedOn(t: Tables, t': Tables, u: nat, m: Manifest, w: nat) {
    && HasContent(t, m, w)
    && t'.uploads == t.uploads[u := Completed(m, w, 0)]
    && t'.captures == t.captures[u := Capture(w, m.session, m.context)]
    && t'.snapshots == t.snapshots && t'.blobs == t.blobs
  }

  lemma HeldOne(c: Setup, files: map<Digest, Bytes>, job: Job, i: nat)
    requires CollisionFree(c) && Verified(c, job) && i < |job.manifest.artifacts| &&
      job.manifest.artifacts[i].stored in files
    requires var d := job.manifest.artifacts[i].stored; c.codec.sha256(files[d]) == d || files[d] == StagedOf(job, d)
    ensures Held(c, files, job.manifest.artifacts[i])
  {
    var a := job.manifest.artifacts[i];
    assert a.stored in StoredDigests(job.manifest);
    assert ArtifactVerified(c.codec, a, job.staged[i]);
    var j := FirstWith(job.manifest.artifacts, a.stored);
    assert ArtifactVerified(c.codec, job.manifest.artifacts[j], job.staged[j]);
    assert c.codec.sha256(job.staged[j]) == c.codec.sha256(job.staged[i]);
  }

  ghost predicate Orders(job: Job, digests: set<Digest>) {
    forall d :: d in job.order <==> d in digests
  }

  lemma PromotedKeys(files: map<Digest, Bytes>, job: Job, digests: set<Digest>)
    requires Orders(job, digests)
    ensures Promoted(files, job, |job.order|).Keys == files.Keys + digests
    ensures forall d :: d in Promoted(files, job, |job.order|) ==>
      Promoted(files, job, |job.order|)[d] == if d in files then files[d] else StagedOf(job, d)
  {
    PromotedAt(files, job, |job.order|);
    assert job.order[..|job.order|] == job.order;
  }

  lemma PromotedHeld(c: Setup, files: map<Digest, Bytes>, job: Job)
    requires CollisionFree(c) && FilesGenuine(c, files) && Verified(c, job)
    requires Orders(job, StoredDigests(job.manifest))
    ensures AllHeld(c, Promoted(files, job, |job.order|), job.manifest.artifacts)
  {
    var m, files' := job.manifest, Promoted(files, job, |job.order|);
    PromotedKeys(files, job, StoredDigests(m));
    forall i | 0 <= i < |m.artifacts| ensures Held(c, files', m.artifacts[i]) {
      assert m.artifacts[i].stored in StoredDigests(m);
      HeldOne(c, files', job, i);
    }
  }

  lemma JobOrders(c: Setup, job: Job)
    requires job == MakeJob(c, job.upload, job.manifest, job.staged)
    ensures Orders(job, StoredDigests(job.manifest))
  {
  }

  lemma PromotedBytes(c: Setup, files: map<Digest, Bytes>, job: Job)
    requires CollisionFree(c) && FilesGenuine(c, files) && Verified(c, job)
    requires Orders(job, StoredDigests(job.manifest))
    ensures AddedBytes(c, files, Promoted(files, job, |job.order|), job.manifest)
  {
    PromotedHeld(c, files, job);
    PromotedKeys(files, job, StoredDigests(job.manifest));
  }

  lemma WinFields(c: Setup, t: Tables, u: nat, id: nat, now: int, created: set<Digest>)
    requires u in t.uploads && id !in t.snapshots
    ensures var m := t.uploads[u].manifest;
      RecordedRows(t, Apply(c, t, Win(u, id, now, created)), u, m, now, id, NewlyPersisted(m, created))
  {
  }

  lemma SoloAt(s: State, p: nat)
    requires Solo(s, p)
    ensures s == At(s.procs, p, s.tables, s.files, Idle) && Idles(s.procs, p)
  {
    assert s.procs[p := Idle] == s.procs;
  }

  lemma FindsContent(c: Setup, t: Tables, job: Job)
    requires CollisionFree(c) && SnapshotsGenuine(c, t)
    ensures LiveFor(c, t, job).Some? ==> HasContent(t, job.manifest, LiveFor(c, t, job).value)
    ensures LiveFor(c, t, job).None? ==> forall id :: !HasContent(t, job.manifest, id)
  {
    forall id
      ensures LiveMatch(t, job.manifest.session, JobFingerprint(c, job), id) <==> HasContent(t, job.manifest, id)
    {
      MatchIsContent(c, t, job.manifest, id);
    }
  }

  lemma AttachIsCompletion(c: Setup, t: Tables, job: Job, w: nat)
    requires CollisionFree(c) && SnapshotsGenuine(c, t) && UploadActive(t, job)
    requires LiveMatch(t, job.manifest.session, JobFingerprint(c, job), w)
    ensures CompletedOn(t, Apply(c, t, Attach(job.upload, w)), job.upload, job.manifest, w)
  {
    MatchIsContent(c, t, job.manifest, w);
  }

  lemma CompletesNew(c: Setup, s: State, p: nat, job: Job, now: int, id: nat) returns (s': State)
    requires CollisionFree(c) && Inv(c, s) && Solo(s, p) && JobKnown(c, s.tables, job)
    requires Compatible(s.tables, job.manifest) && LiveFor(c, s.tables, job).None? && id !in s.tables.snapshots
    ensures Gets(c, p, s, s') && Solo(s', p) && RecordedSnapshot(c, s, s', job.upload, job.manifest, now, id)
  {
    var created := MissingOf(s.files, job.manifest);
    s' := At(s.procs, p, Apply(c, s.tables, Win(job.upload, id, now, created)), Promoted(s.files, job, |job.order|),
             Idle);
    SoloAt(s, p);
    Records(c, s.procs, p, s.tables, s.files, job, now, id);
    WinFields(c, s.tables, job.upload, id, now, created);
    JobOrders(c, job);
    PromotedBytes(c, s.files, job);
  }

  lemma CompletesAttached(c: Setup, s: State, p: nat, job: Job, id: nat) returns (s': State)
    requires CollisionFree(c) && Inv(c, s) && Solo(s, p) && JobKnown(c, s.tables, job)
    requires Compatible(s.tables, job.manifest) && LiveFor(c, s.tables, job) == Some(id)
    ensures Gets(c, p, s, s') && Solo(s', p) && s'.files == s.files
    ensures CompletedOn(s.tables, s'.tables, job.upload, job.manifest, id)
  {
    s' := At(s.procs, p, Apply(c, s.tables, Attach(job.upload, id)), s.files, Idle);
    SoloAt(s, p);
    Attaches(c, s.procs, p, s.tables, s.files, job, id, Go(0, 0));
    AttachIsCompletion(c, s.tables, job, id);
  }

  /** From every reachable state, a completion of an active upload whose chunks verify, and whose representations
      agree with the blob rows, gets to its end if nothing gets in its way. It attaches to the live snapshot of its
      content if there is one, and records a new one with all its bytes otherwise. */
  lemma UndisturbedCompletion(c: Setup, states: seq<State>, steps: seq<Step>, k: nat, p: nat, job: Job, now: int,
                              id: nat)
    returns (s': State)
    requires CollisionFree(c) && Run(c, states, steps) && k < |states| && Solo(states[k], p)
    requires UploadActive(states[k].tables, job) && Verified(c, job) && Compatible(states[k].tables, job.manifest)
    requires job == MakeJob(c, job.upload, job.manifest, job.staged) && id !in states[k].tables.snapshots
    ensures Gets(c, p, states[k], s') && Solo(s', p)
    ensures if exists w :: HasContent(states[k].tables, job.manifest, w)
      then s'.files == states[k].files &&
      exists w :: CompletedOn(states[k].tables, s'.tables, job.upload, job.manifest, w)
      else RecordedSnapshot(c, states[k], s', job.upload, job.manifest, now, id)
  {
    ReachableInv(c, states, steps, k);
    FindsContent(c, states[k].tables, job);
    match LiveFor(c, states[k].tables, job)
    case None => s' := CompletesNew(c, states[k], p, job, now, id);
    case Some(w) => s' := CompletesAttached(c, states[k], p, job, w);
  }
}
