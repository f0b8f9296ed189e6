/** Concrete runs of the protocol, for any collision-free deployment: one process
    completes, deletes and collects one piece of content, step by step, without
    a crash or a dropped request. */
module Scenarios {
  import opened Basics
  import opened Catalog
  import opened Protocol
  import opened ProtocolSafety
  import opened Runs

  // ---- paths ----

  ghost predicate Undisturbed(c: Setup, states: seq<State>, steps: seq<Step>) {
    |states| == |steps| + 1 &&
    forall k :: 0 <= k < |steps| ==> Taken(c, states, steps, k) && !steps[k].event.Crash? && !steps[k].event.Cancel?
  }

  ghost predicate Leads(c: Setup, s: State, s': State) {
    exists states, steps :: Undisturbed(c, states, steps) && states[0] == s && states[|steps|] == s'
  }

  lemma StaysPut(c: Setup, s: State)
    ensures Leads(c, s, s)
  {
    var states, steps: seq<Step> := [s], [];
    assert Undisturbed(c, states, steps) && states[|steps|] == s;
  }

  // One more step at the end.
  lemma Appends(c: Setup, states: seq<State>, steps: seq<Step>, p: nat, e: Event)
    requires Undisturbed(c, states, steps) && Can(c, states[|steps|], p, e) && !e.Crash? && !e.Cancel?
    ensures Undisturbed(c, states + [After(c, states[|steps|], p, e)], steps + [Step(p, e)])
  {
    var states', steps' := states + [After(c, states[|steps|], p, e)], steps + [Step(p, e)];
    forall k | 0 <= k < |steps'|
      ensures Taken(c, states', steps', k) && !steps'[k].event.Crash? && !steps'[k].event.Cancel?
    {
      if k < |steps| {
        assert Taken(c, states, steps, k);
        assert states'[k] == states[k] && states'[k + 1] == states[k + 1] && steps'[k] == steps[k];
      }
    }
  }

  lemma Moves(c: Setup, s0: State, s: State, p: nat, e: Event)
    requires Leads(c, s0, s) && Can(c, s, p, e) && !e.Crash? && !e.Cancel?
    ensures Leads(c, s0, After(c, s, p, e))
  {
    var states, steps :| Undisturbed(c, states, steps) && states[0] == s0 && states[|steps|] == s;
    Appends(c, states, steps, p, e);
    var states', steps' := states + [After(c, s, p, e)], steps + [Step(p, e)];
    assert states'[0] == s0 && states'[|steps'|] == After(c, s, p, e);
  }

  // ---- one process, serving ----

  ghost function At(t: Tables, files: map<Digest, Bytes>, q: Process): State {
    State(t, files, [q], Serving)
  }

  lemma Steps(c: Setup, s0: State, t: Tables, files: map<Digest, Bytes>, q: Process, e: Event)
    requires Leads(c, s0, At(t, files, q)) && !External(e) && !e.Cancel? && Takes(c, At(t, files, q), q, e)
    ensures Leads(c, s0, At(Apply(c, t, Commits(c, At(t, files, q), 0, e)), FilesAfter(c, At(t, files, q), 0, e),
                            ProcAfter(c, At(t, files, q), q, e)))
  {
    Moves(c, s0, At(t, files, q), 0, e);
    assert [q][0 := ProcAfter(c, At(t, files, q), q, e)] == [ProcAfter(c, At(t, files, q), q, e)];
  }

  // A step that only moves the process.
  lemma Walks(c: Setup, s0: State, t: Tables, files: map<Digest, Bytes>, q: Process, e: Event, q': Process)
    requires Leads(c, s0, At(t, files, q)) && !External(e) && !e.Cancel? && Takes(c, At(t, files, q), q, e)
    requires Commits(c, At(t, files, q), 0, e) == Nothing && FilesAfter(c, At(t, files, q), 0, e) == files
    requires q' == ProcAfter(c, At(t, files, q), q, e)
    ensures Leads(c, s0, At(t, files, q'))
  {
    Steps(c, s0, t, files, q, e);
  }

  // ---- one piece of content ----

  const CONTENT: Bytes := [1, 2, 3]
  const GO := Go(0, 0)

  ghost function ContentDigest(c: Setup): Digest { c.codec.sha256(CONTENT) }

  ghost function ContentManifest(c: Setup): Manifest {
    Manifest(0, Context(None, None, None, None, 1), [Artifact("a", ContentDigest(c), 3, ContentDigest(c), 3, Identity)])
  }

  ghost function ContentPrint(c: Setup): Digest { Fingerprint(c, ContentManifest(c)) }

  ghost function ContentJob(c: Setup, u: nat): Job {
    MakeJob(c, u, ContentManifest(c), [CONTENT])
  }

  lemma SingleAscends(x: nat)
    ensures Ascending({x}) == [x]
  {
    assert x in Ascending({x}) && Ascending({x})[0] in {x};
  }

  lemma ContentJobIs(c: Setup, u: nat)
    ensures var m, job, d := ContentManifest(c), ContentJob(c, u), ContentDigest(c);
      && StoredDigests(m) == {d} && DeclaredSize(m, d) == 3 && Declared(m, d).compression == Identity && Consistent(m)
      && job.order == [d] && job.stripes == [c.blobStripe(d)] && Verified(c, job) && StagedFor(job, d) == CONTENT
  {
    var m, d := ContentManifest(c), ContentDigest(c);
    assert m.artifacts[0].stored == d;
    assert StoredDigests(m) == {d};
    assert (set x | x in StoredDigests(m) :: c.blobStripe(x)) == {c.blobStripe(d)};
    SingleAscends(d);
    SingleAscends(c.blobStripe(d));
    assert Declared(m, d) == m.artifacts[0];
  }

  // The content can be stored: nothing live has it, and any row or file of its digest agrees with it.
  ghost predicate Storable(c: Setup, t: Tables, files: map<Digest, Bytes>) {
    var d := ContentDigest(c);
    && (d in t.blobs ==> t.blobs[d].size == 3 && t.blobs[d].compression == Identity)
    && (d in files ==> files[d] == CONTENT)
    && (forall id :: !LiveMatch(t, 0, ContentPrint(c), id))
  }

  ghost predicate Pending(c: Setup, t: Tables, files: map<Digest, Bytes>, u: nat) {
    Storable(c, t, files) && u in t.uploads && t.uploads[u] == Active(ContentManifest(c))
  }

  lemma Submits(c: Setup, s0: State, t: Tables, files: map<Digest, Bytes>, u: nat)
    requires Leads(c, s0, At(t, files, Idle)) && Storable(c, t, files) && u !in t.uploads
    ensures Pending(c, Apply(c, t, Create(u, ContentManifest(c))), files, u)
    ensures Leads(c, s0, At(Apply(c, t, Create(u, ContentManifest(c))), files, Idle))
  {
    ContentJobIs(c, u);
    Moves(c, s0, At(t, files, Idle), 0, Submit(u, ContentManifest(c)));
    var t' := Apply(c, t, Create(u, ContentManifest(c)));
    forall id ensures LiveMatch(t', 0, ContentPrint(c), id) <==> LiveMatch(t, 0, ContentPrint(c), id) {}
  }

  lemma Opens(c: Setup, s0: State, t: Tables, files: map<Digest, Bytes>, u: nat)
    requires Leads(c, s0, At(t, files, Idle))
    ensures Leads(c, s0, At(t, files, Opened(u)))
  {
    Walks(c, s0, t, files, Idle, StartComplete(u), AwaitUpload(u));
    Walks(c, s0, t, files, AwaitUpload(u), GO, Opened(u));
  }

  lemma Stages(c: Setup, s0: State, t: Tables, files: map<Digest, Bytes>, u: nat)
    requires Leads(c, s0, At(t, files, Opened(u))) && Pending(c, t, files, u)
    ensures Leads(c, s0, At(t, files, Checking(ContentJob(c, u))))
  {
    ContentJobIs(c, u);
    Walks(c, s0, t, files, Opened(u), Staged([CONTENT]), Checking(ContentJob(c, u)));
  }

  lemma Agrees(c: Setup, t: Tables, files: map<Digest, Bytes>)
    requires Storable(c, t, files)
    ensures Compatible(t, ContentManifest(c))
  {
  }

  lemma Checks(c: Setup, s0: State, t: Tables, files: map<Digest, Bytes>, job: Job)
    requires Leads(c, s0, At(t, files, Checking(job))) && Compatible(t, job.manifest)
    ensures Leads(c, s0, At(t, files, Seeking(job)))
  {
    Walks(c, s0, t, files, Checking(job), GO, Seeking(job));
  }

  // The two lookups of a live snapshot find none.
  lemma FindsNone(c: Setup, t: Tables, files: map<Digest, Bytes>, u: nat)
    requires Storable(c, t, files)
    ensures LiveFor(c, t, ContentJob(c, u)).None?
  {
    assert JobFingerprint(c, ContentJob(c, u)) == ContentPrint(c);
  }

  lemma Seeks(c: Setup, s0: State, t: Tables, files: map<Digest, Bytes>, job: Job)
    requires Leads(c, s0, At(t, files, Seeking(job))) && LiveFor(c, t, job).None?
    ensures Leads(c, s0, At(t, files, AwaitBlobs(job, 0)))
  {
    Walks(c, s0, t, files, Seeking(job), GO, AwaitBlobs(job, 0));
  }

  lemma TakesBlob(c: Setup, s0: State, t: Tables, files: map<Digest, Bytes>, job: Job)
    requires Leads(c, s0, At(t, files, AwaitBlobs(job, 0))) && |job.stripes| == 1
    ensures Leads(c, s0, At(t, files, AwaitBlobs(job, 1)))
  {
    Walks(c, s0, t, files, AwaitBlobs(job, 0), GO, AwaitBlobs(job, 1));
  }

  lemma HasBlobs(c: Setup, s0: State, t: Tables, files: map<Digest, Bytes>, job: Job)
    requires Leads(c, s0, At(t, files, AwaitBlobs(job, 1))) && |job.stripes| == 1
    ensures Leads(c, s0, At(t, files, CheckingAgain(job)))
  {
    Walks(c, s0, t, files, AwaitBlobs(job, 1), GO, CheckingAgain(job));
  }

  lemma ChecksAgain(c: Setup, s0: State, t: Tables, files: map<Digest, Bytes>, job: Job)
    requires Leads(c, s0, At(t, files, CheckingAgain(job))) && Compatible(t, job.manifest)
    ensures Leads(c, s0, At(t, files, SeekingAgain(job)))
  {
    Walks(c, s0, t, files, CheckingAgain(job), GO, SeekingAgain(job));
  }

  lemma SeeksAgain(c: Setup, s0: State, t: Tables, files: map<Digest, Bytes>, job: Job)
    requires Leads(c, s0, At(t, files, SeekingAgain(job))) && LiveFor(c, t, job).None?
    ensures Leads(c, s0, At(t, files, Promoting(job, [])))
  {
    Walks(c, s0, t, files, SeekingAgain(job), GO, Promoting(job, []));
  }

  lemma Prepares(c: Setup, s0: State, t: Tables, files: map<Digest, Bytes>, u: nat)
    requires Leads(c, s0, At(t, files, Idle)) && Pending(c, t, files, u)
    ensures Leads(c, s0, At(t, files, Promoting(ContentJob(c, u), [])))
  {
    var job := ContentJob(c, u);
    ContentJobIs(c, u);
    Agrees(c, t, files);
    FindsNone(c, t, files, u);
    Opens(c, s0, t, files, u);
    Stages(c, s0, t, files, u);
    Checks(c, s0, t, files, job);
    Seeks(c, s0, t, files, job);
    TakesBlob(c, s0, t, files, job);
    HasBlobs(c, s0, t, files, job);
    ChecksAgain(c, s0, t, files, job);
    SeeksAgain(c, s0, t, files, job);
  }

  ghost function Recorder(c: Setup, u: nat, files: map<Digest, Bytes>): Process {
    Recording(ContentJob(c, u), [Promotion(ContentDigest(c), ContentDigest(c) !in files)])
  }

  // The hard link: a file is put in place, or the one there verifies.
  lemma Links(c: Setup, t: Tables, files: map<Digest, Bytes>, u: nat)
    requires Pending(c, t, files, u)
    ensures var q, d := Promoting(ContentJob(c, u), []), ContentDigest(c);
      && FilesAfter(c, At(t, files, q), 0, GO) == files[d := CONTENT]
      && AfterGo(c, At(t, files, q), q) == Promoting(ContentJob(c, u), [Promotion(d, d !in files)])
  {
    ContentJobIs(c, u);
  }

  lemma Promotes(c: Setup, s0: State, t: Tables, files: map<Digest, Bytes>, u: nat)
    requires Leads(c, s0, At(t, files, Promoting(ContentJob(c, u), []))) && Pending(c, t, files, u)
    ensures Leads(c, s0, At(t, files[ContentDigest(c) := CONTENT],
                            Promoting(ContentJob(c, u), [Promotion(ContentDigest(c), ContentDigest(c) !in files)])))
  {
    Links(c, t, files, u);
    Steps(c, s0, t, files, Promoting(ContentJob(c, u), []), GO);
  }

  lemma AllPromoted(c: Setup, s0: State, t: Tables, files: map<Digest, Bytes>, job: Job, promotions: seq<Promotion>)
    requires Leads(c, s0, At(t, files, Promoting(job, promotions))) && |promotions| == |job.order|
    ensures Leads(c, s0, At(t, files, Recording(job, promotions)))
  {
    Walks(c, s0, t, files, Promoting(job, promotions), GO, Recording(job, promotions));
  }

  lemma ReadyToRecord(c: Setup, s0: State, t: Tables, files: map<Digest, Bytes>, u: nat)
    requires Leads(c, s0, At(t, files, Idle)) && Pending(c, t, files, u)
    ensures Leads(c, s0, At(t, files[ContentDigest(c) := CONTENT], Recorder(c, u, files)))
  {
    Prepares(c, s0, t, files, u);
    Promotes(c, s0, t, files, u);
    ContentJobIs(c, u);
    AllPromoted(c, s0, t, files[ContentDigest(c) := CONTENT], ContentJob(c, u),
                [Promotion(ContentDigest(c), ContentDigest(c) !in files)]);
  }

  // The transaction recorded from there.
  ghost function Recorded(c: Setup, u: nat, id: nat, now: int, files: map<Digest, Bytes>): Transaction {
    Win(u, id, now, if ContentDigest(c) in files then {} else {ContentDigest(c)})
  }

  lemma CreatedByOne(d: Digest, created: bool)
    ensures CreatedBy([Promotion(d, created)]) == if created then {d} else {}
  {
    assert created ==> [Promotion(d, created)][0].created;
  }

  lemma RecordsWhat(c: Setup, t: Tables, files: map<Digest, Bytes>, u: nat, id: nat, now: int)
    requires Pending(c, t, files, u)
    ensures CommitsOnGo(c, t, Recorder(c, u, files), now, id) == Recorded(c, u, id, now, files)
    ensures AfterGo(c, At(t, files[ContentDigest(c) := CONTENT], Recorder(c, u, files)), Recorder(c, u, files)) == Idle
  {
    ContentJobIs(c, u);
    FindsNone(c, t, files, u);
    CreatedByOne(ContentDigest(c), ContentDigest(c) !in files);
    assert Compatible(t, ContentManifest(c));
  }

  lemma SingleAfter(c: Setup, t: Tables, files: map<Digest, Bytes>, q: Process, now: int, id: nat)
    requires AfterGo(c, At(t, files, q), q) == Idle && q.Recording?
    ensures After(c, At(t, files, q), 0, Go(now, id)) == At(Apply(c, t, CommitsOnGo(c, t, q, now, id)), files, Idle)
  {
    assert [q][0 := Idle] == [Idle];
  }

  lemma Records(c: Setup, t: Tables, files: map<Digest, Bytes>, u: nat, id: nat, now: int)
    requires Pending(c, t, files, u) && id !in t.snapshots
    ensures var s := At(t, files[ContentDigest(c) := CONTENT], Recorder(c, u, files));
      && Can(c, s, 0, Go(now, id)) && Commits(c, s, 0, Go(now, id)) == Recorded(c, u, id, now, files)
      && After(c, s, 0, Go(now, id)) == At(Apply(c, t, Recorded(c, u, id, now, files)),
                                           files[ContentDigest(c) := CONTENT], Idle)
  {
    RecordsWhat(c, t, files, u, id, now);
    SingleAfter(c, t, files[ContentDigest(c) := CONTENT], Recorder(c, u, files), now, id);
  }

  lemma Completes(c: Setup, s0: State, t: Tables, files: map<Digest, Bytes>, u: nat, id: nat, now: int)
    requires Leads(c, s0, At(t, files, Idle)) && Pending(c, t, files, u) && id !in t.snapshots
    ensures Leads(c, s0, At(Apply(c, t, Recorded(c, u, id, now, files)), files[ContentDigest(c) := CONTENT], Idle))
  {
    ReadyToRecord(c, s0, t, files, u);
    Records(c, t, files, u, id, now);
    Moves(c, s0, At(t, files[ContentDigest(c) := CONTENT], Recorder(c, u, files)), 0, Go(now, id));
  }

  // ---- what recording and deleting leave ----

  // Only snapshot id is live; it holds the content.
  ghost predicate Holding(c: Setup, t: Tables, id: nat) {
    var d := ContentDigest(c);
    && LiveMatch(t, 0, ContentPrint(c), id) && (forall other :: Live(t, other) ==> other == id)
    && d in t.blobs && t.blobs[d].size == 3 && t.blobs[d].compression == Identity
    && id in t.artifacts && |t.artifacts[id]| == 1 && t.artifacts[id][0].blob == BlobId(d, t.blobs[d].serial)
  }

  // Nothing is live; the row of the content is due from `due` on.
  ghost predicate Orphaned(c: Setup, t: Tables, due: int) {
    var d := ContentDigest(c);
    && (forall id :: !Live(t, id))
    && d in t.blobs && t.blobs[d].size == 3 && t.blobs[d].compression == Identity
    && t.blobs[d].candidate.Some? && t.blobs[d].candidate.value.eligibleAfter == due
  }

  ghost function Uploaded(c: Setup, t: Tables, u: nat): Tables {
    Apply(c, t, Create(u, ContentManifest(c)))
  }

  ghost function AfterArchiving(c: Setup, t: Tables, u: nat, id: nat, now: int, files: map<Digest, Bytes>): Tables {
    Apply(c, Uploaded(c, t, u), Recorded(c, u, id, now, files))
  }

  lemma ArchivedRow(c: Setup, t: Tables, u: nat, id: nat, now: int, files: map<Digest, Bytes>)
    requires Storable(c, t, files)
    ensures var d, t' := ContentDigest(c), AfterArchiving(c, t, u, id, now, files);
      && d in t'.blobs && t'.blobs[d].size == 3 && t'.blobs[d].compression == Identity
      && id in t'.artifacts && |t'.artifacts[id]| == 1 && t'.artifacts[id][0].blob == BlobId(d, t'.blobs[d].serial)
  {
    ContentJobIs(c, u);
    var m, before := ContentManifest(c), Uploaded(c, t, u);
    var blobs := BlobsWith(before, m);
    assert ContentDigest(c) in blobs;
    assert AfterArchiving(c, t, u, id, now, files).artifacts[id] == ArtifactRows(blobs, m);
  }

  lemma ArchivedHolds(c: Setup, t: Tables, u: nat, id: nat, now: int, files: map<Digest, Bytes>)
    requires (forall other :: !Live(t, other)) && id !in t.snapshots && Storable(c, t, files)
    ensures Holding(c, AfterArchiving(c, t, u, id, now, files), id)
  {
    ArchivedRow(c, t, u, id, now, files);
    var t' := AfterArchiving(c, t, u, id, now, files);
    forall other | other != id ensures !Live(t', other) { assert !Live(t, other); }
  }

  lemma Archives(c: Setup, s0: State, t: Tables, files: map<Digest, Bytes>, u: nat, id: nat, now: int)
    requires Leads(c, s0, At(t, files, Idle)) && (forall other :: !Live(t, other)) && Storable(c, t, files)
    requires u !in t.uploads && id !in t.snapshots
    ensures var t' := AfterArchiving(c, t, u, id, now, files);
      Leads(c, s0, At(t', files[ContentDigest(c) := CONTENT], Idle)) && Holding(c, t', id)
  {
    Submits(c, s0, t, files, u);
    Completes(c, s0, Uploaded(c, t, u), files, u, id, now);
    ArchivedHolds(c, t, u, id, now, files);
  }

  // ---- deletion ----

  lemma HoldingStripes(c: Setup, t: Tables, id: nat)
    requires Holding(c, t, id)
    ensures BlobStripes(c, set i | 0 <= i < |RowsOf(t, id)| :: RowsOf(t, id)[i].blob.digest) ==
            [c.blobStripe(ContentDigest(c))]
  {
    var rows, d := RowsOf(t, id), ContentDigest(c);
    assert rows[0].blob.digest == d;
    assert (set i | 0 <= i < |rows| :: rows[i].blob.digest) == {d};
    assert (set x | x in {d} :: c.blobStripe(x)) == {c.blobStripe(d)};
    SingleAscends(c.blobStripe(d));
  }

  lemma StartsDeleting(c: Setup, s0: State, t: Tables, files: map<Digest, Bytes>, id: nat)
    requires Leads(c, s0, At(t, files, Idle)) && LiveMatch(t, 0, ContentPrint(c), id)
    ensures Leads(c, s0, At(t, files, Deleting(id, 0, ContentPrint(c))))
  {
    var fp := ContentPrint(c);
    Walks(c, s0, t, files, Idle, StartDelete(id), AwaitDeletion(id, 0, fp));
    Walks(c, s0, t, files, AwaitDeletion(id, 0, fp), GO, Deleting(id, 0, fp));
  }

  lemma FindsRows(c: Setup, s0: State, t: Tables, files: map<Digest, Bytes>, id: nat)
    requires Leads(c, s0, At(t, files, Deleting(id, 0, ContentPrint(c)))) && Holding(c, t, id)
    ensures Leads(c, s0, At(t, files, AwaitDeletionBlobs(id, 0, ContentPrint(c), [c.blobStripe(ContentDigest(c))], 0)))
  {
    HoldingStripes(c, t, id);
    Walks(c, s0, t, files, Deleting(id, 0, ContentPrint(c)), GO,
          AwaitDeletionBlobs(id, 0, ContentPrint(c), [c.blobStripe(ContentDigest(c))], 0));
  }

  lemma LocksDeletion(c: Setup, s0: State, t: Tables, files: map<Digest, Bytes>, id: nat, fp: Digest, stripe: nat)
    requires Leads(c, s0, At(t, files, AwaitDeletionBlobs(id, 0, fp, [stripe], 0)))
    ensures Leads(c, s0, At(t, files, Burying(id, 0, fp, [stripe])))
  {
    Walks(c, s0, t, files, AwaitDeletionBlobs(id, 0, fp, [stripe], 0), GO, AwaitDeletionBlobs(id, 0, fp, [stripe], 1));
    Walks(c, s0, t, files, AwaitDeletionBlobs(id, 0, fp, [stripe], 1), GO, Burying(id, 0, fp, [stripe]));
  }

  lemma Buries(c: Setup, s0: State, t: Tables, files: map<Digest, Bytes>, id: nat, fp: Digest, stripe: nat, tomb: nat,
               now: int)
    requires Leads(c, s0, At(t, files, Burying(id, 0, fp, [stripe]))) && Live(t, id) && tomb !in t.tombstones
    ensures Leads(c, s0, At(Apply(c, t, Delete(id, tomb, now)), files, Idle))
  {
    Steps(c, s0, t, files, Burying(id, 0, fp, [stripe]), Go(now, tomb));
  }

  lemma DropsLast(c: Setup, t: Tables, id: nat, tomb: nat, now: int)
    requires Holding(c, t, id)
    ensures forall other :: !Live(Dropped(t, id, tomb, now), other)
  {
    forall other ensures !Live(Dropped(t, id, tomb, now), other) { assert Live(t, other) ==> other == id; }
  }

  lemma DeletedOrphans(c: Setup, t: Tables, id: nat, tomb: nat, now: int)
    requires Holding(c, t, id)
    ensures Orphaned(c, Apply(c, t, Delete(id, tomb, now)), now + c.grace)
  {
    var d, t' := ContentDigest(c), Apply(c, t, Delete(id, tomb, now));
    DropsLast(c, t, id, tomb, now);
    assert RowsOf(t, id)[0].blob == BlobId(d, t.blobs[d].serial);
    assert Uses(RowsOf(t, id), BlobId(d, t.blobs[d].serial));
    assert !RowReferenced(Dropped(t, id, tomb, now), d);
    forall other ensures !Live(t', other) { assert !Live(Dropped(t, id, tomb, now), other); }
  }

  lemma Deletes(c: Setup, s0: State, t: Tables, files: map<Digest, Bytes>, id: nat, tomb: nat, now: int)
    requires Leads(c, s0, At(t, files, Idle)) && Holding(c, t, id) && tomb !in t.tombstones
    ensures Leads(c, s0, At(Apply(c, t, Delete(id, tomb, now)), files, Idle))
    ensures Orphaned(c, Apply(c, t, Delete(id, tomb, now)), now + c.grace)
  {
    var fp, stripe := ContentPrint(c), c.blobStripe(ContentDigest(c));
    StartsDeleting(c, s0, t, files, id);
    FindsRows(c, s0, t, files, id);
    LocksDeletion(c, s0, t, files, id, fp, stripe);
    Buries(c, s0, t, files, id, fp, stripe, tomb, now);
    DeletedOrphans(c, t, id, tomb, now);
  }

  // ---- collection ----

  ghost function ContentRow(c: Setup, t: Tables): BlobId
  {
    BlobId(ContentDigest(c), if ContentDigest(c) in t.blobs then t.blobs[ContentDigest(c)].serial else 0)
  }

  lemma Picks(c: Setup, s0: State, t: Tables, files: map<Digest, Bytes>, due: int)
    requires Leads(c, s0, At(t, files, Idle)) && Orphaned(c, t, due)
    ensures Leads(c, s0, At(t, files, Authorising(due, ContentRow(c, t), [])))
  {
    var blob := ContentRow(c, t);
    Walks(c, s0, t, files, Idle, StartCollect(due, [blob]), Picking(due, [blob]));
    Walks(c, s0, t, files, Picking(due, [blob]), GO, Authorising(due, blob, []));
  }

  lemma Authorises(c: Setup, s0: State, t: Tables, files: map<Digest, Bytes>, due: int)
    requires Leads(c, s0, At(t, files, Authorising(due, ContentRow(c, t), []))) && Orphaned(c, t, due)
    ensures Leads(c, s0, At(t, files, Unlinking(due, ContentRow(c, t), [])))
  {
    Walks(c, s0, t, files, Authorising(due, ContentRow(c, t), []), GO, Unlinking(due, ContentRow(c, t), []));
  }

  // The file goes, the commit fails.
  lemma FailsToCommit(c: Setup, s0: State, t: Tables, files: map<Digest, Bytes>, due: int, blob: BlobId)
    requires Leads(c, s0, At(t, files, Unlinking(due, blob, [])))
    ensures Leads(c, s0, At(t, files - {blob.digest}, Idle))
  {
    Steps(c, s0, t, files, Unlinking(due, blob, []), GO);
    Walks(c, s0, t, files - {blob.digest}, Dropping(due, blob, []), Fail, Idle);
  }

  // ---- runs ----

  ghost function Start(): State {
    At(EmptyTables(), map[], Idle)
  }

  /** From a path and one more step, a run that ends with that step. */
  lemma RunTo(c: Setup, s: State, p: nat, e: Event) returns (states: seq<State>, steps: seq<Step>)
    requires Leads(c, Start(), s) && Can(c, s, p, e) && !e.Crash? && !e.Cancel?
    ensures Run(c, states, steps) && Undisturbed(c, states, steps)
    ensures |steps| > 0 && steps[|steps| - 1] == Step(p, e) && states[|steps| - 1] == s &&
      states[|steps|] == After(c, s, p, e)
  {
    var states0, steps0 :| Undisturbed(c, states0, steps0) && states0[0] == Start() && states0[|steps0|] == s;
    Appends(c, states0, steps0, p, e);
    states, steps := states0 + [After(c, s, p, e)], steps0 + [Step(p, e)];
    assert states[0] == Start() && Initial(Start());
    forall k | 0 <= k < |steps| ensures Taken(c, states, steps, k) {}
  }
}
