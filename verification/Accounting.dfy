/** Where the physical bytes went: what completions report as newly persisted,
    against the rows that exist and the rows garbage collection removed. */
module Accounting {
  import opened Basics
  import opened Catalog
  import opened CatalogInvariants
  import opened Provenance
  import opened Protocol
  import opened ProtocolSafety
  import opened ProtocolSteps
  import opened ProtocolKnowledge
  import opened Runs

  ghost function ReportedBy(uploads: map<nat, Upload>): nat -> nat {
    u => if u in uploads && uploads[u].Completed? then uploads[u].newlyPersisted else 0
  }

  ghost function SizesOf(blobs: map<Digest, Blob>): nat -> nat {
    d => if d in blobs then blobs[d].size else 0
  }

  ghost function Reported(uploads: map<nat, Upload>): nat {
    SumOver(uploads.Keys, ReportedBy(uploads))
  }

  ghost function RowBytes(blobs: map<Digest, Blob>): nat {
    SumOver(blobs.Keys, SizesOf(blobs))
  }

  // Every reported byte is in a row, was collected, or restored a file under an existing row; every
  // byte in a row was reported, or its file was found already there.
  ghost predicate Balanced(t: Tables) {
    Reported(t.uploads) + t.ledger.adopted == RowBytes(t.blobs) + t.ledger.collected + t.ledger.relinked
  }

  ghost predicate Conserved(t: Tables) {
    Reported(t.uploads) == RowBytes(t.blobs) + t.ledger.collected
  }

  // ---- sums over changed maps ----

  lemma ReportedUpdate(uploads: map<nat, Upload>, u: nat, upload: Upload)
    requires u in uploads ==> uploads[u].Active?
    ensures Reported(uploads[u := upload]) == Reported(uploads) + if upload.Completed? then upload.newlyPersisted else 0
  {
    var after := uploads[u := upload];
    var rest := uploads.Keys - {u};
    SumAgree(rest, ReportedBy(after), ReportedBy(uploads));
    SumRemove(after.Keys, ReportedBy(after), u);
    assert after.Keys - {u} == rest;
    if u in uploads { SumRemove(uploads.Keys, ReportedBy(uploads), u); } else { assert rest == uploads.Keys; }
  }

  lemma ReportedRemove(uploads: map<nat, Upload>, u: nat)
    requires u in uploads && uploads[u].Active?
    ensures Reported(uploads - {u}) == Reported(uploads)
  {
    SumRemove(uploads.Keys, ReportedBy(uploads), u);
    assert (uploads - {u}).Keys == uploads.Keys - {u};
    SumAgree(uploads.Keys - {u}, ReportedBy(uploads - {u}), ReportedBy(uploads));
  }

  lemma RowBytesSame(blobs: map<Digest, Blob>, blobs': map<Digest, Blob>)
    requires blobs'.Keys == blobs.Keys && forall d :: d in blobs ==> blobs'[d].size == blobs[d].size
    ensures RowBytes(blobs') == RowBytes(blobs)
  {
    SumAgree(blobs.Keys, SizesOf(blobs'), SizesOf(blobs));
  }

  lemma RowBytesRemove(blobs: map<Digest, Blob>, d: Digest)
    requires d in blobs
    ensures RowBytes(blobs) == RowBytes(blobs - {d}) + blobs[d].size
  {
    SumRemove(blobs.Keys, SizesOf(blobs), d);
    assert (blobs - {d}).Keys == blobs.Keys - {d};
    SumAgree(blobs.Keys - {d}, SizesOf(blobs - {d}), SizesOf(blobs));
  }

  lemma RowBytesWith(t: Tables, m: Manifest)
    ensures RowBytes(BlobsWith(t, m)) == RowBytes(t.blobs) + NewlyPersisted(m, StoredDigests(m) - t.blobs.Keys)
  {
    var blobs' := BlobsWith(t, m);
    var missing := StoredDigests(m) - t.blobs.Keys;
    assert blobs'.Keys == t.blobs.Keys + missing;
    SumUnion(t.blobs.Keys, missing, SizesOf(blobs'));
    SumAgree(t.blobs.Keys, SizesOf(blobs'), SizesOf(t.blobs));
    SumAgree(missing, SizesOf(blobs'), DeclaredSizes(m));
  }

  lemma PersistedSplit(m: Manifest, created: set<Digest>, rows: set<Digest>)
    requires created <= StoredDigests(m)
    ensures NewlyPersisted(m, created) + NewlyPersisted(m, (StoredDigests(m) - rows) - created)
         == NewlyPersisted(m, created * rows) + NewlyPersisted(m, StoredDigests(m) - rows)
  {
    var f := DeclaredSizes(m);
    var missing := StoredDigests(m) - rows;
    SumUnion(created * rows, created - rows, f);
    assert created == created * rows + (created - rows);
    SumUnion(created - rows, missing - created, f);
    assert missing == (created - rows) + (missing - created);
  }

  // ---- every transaction keeps the balance ----

  lemma WinSums(c: Setup, t: Tables, x: Transaction)
    requires x.Win? && Allowed(c, t, x)
    ensures var t' := Apply(c, t, x); var m := t.uploads[x.upload].manifest;
      && Reported(t'.uploads) == Reported(t.uploads) + NewlyPersisted(m, x.created)
      && RowBytes(t'.blobs) == RowBytes(t.blobs) + NewlyPersisted(m, StoredDigests(m) - t.blobs.Keys)
      && t'.ledger.collected == t.ledger.collected
      && t'.ledger.relinked == t.ledger.relinked + NewlyPersisted(m, x.created * t.blobs.Keys)
      && t'.ledger.adopted == t.ledger.adopted + NewlyPersisted(m, (StoredDigests(m) - t.blobs.Keys) - x.created)
  {
    var m := t.uploads[x.upload].manifest;
    ReportedUpdate(t.uploads, x.upload, Completed(m, x.snapshot, NewlyPersisted(m, x.created)));
    RowBytesWith(t, m);
  }

  lemma WinBalances(c: Setup, t: Tables, x: Transaction)
    requires x.Win? && Allowed(c, t, x) && Balanced(t)
    ensures Balanced(Apply(c, t, x))
  {
    WinSums(c, t, x);
    PersistedSplit(t.uploads[x.upload].manifest, x.created, t.blobs.Keys);
  }

  lemma CollectBalances(c: Setup, t: Tables, x: Transaction)
    requires x.Collect? && Allowed(c, t, x) && Balanced(t)
    ensures Balanced(Apply(c, t, x))
  {
    RowBytesRemove(t.blobs, x.blob.digest);
  }

  lemma UploadsBalance(c: Setup, t: Tables, x: Transaction)
    requires (x.Create? || x.Terminate? || x.Attach?) && Allowed(c, t, x) && Balanced(t)
    ensures Balanced(Apply(c, t, x))
  {
    if x.Create? { ReportedUpdate(t.uploads, x.upload, Active(x.manifest)); }
    if x.Terminate? { ReportedRemove(t.uploads, x.upload); }
    if x.Attach? { ReportedUpdate(t.uploads, x.upload, Completed(t.uploads[x.upload].manifest, x.snapshot, 0)); }
  }

  lemma OthersKeepSizes(c: Setup, t: Tables, x: Transaction)
    requires x.Delete? || x.Unschedule? || x.Schedule? || x.Rebuild? || x.Nothing?
    ensures var t' := Apply(c, t, x);
      && t'.uploads == t.uploads && t'.ledger == t.ledger
      && t'.blobs.Keys == t.blobs.Keys && forall d :: d in t.blobs ==> t'.blobs[d].size == t.blobs[d].size
  {
  }

  lemma OthersBalance(c: Setup, t: Tables, x: Transaction)
    requires (x.Delete? || x.Unschedule? || x.Schedule? || x.Rebuild? || x.Nothing?) && Balanced(t)
    ensures Balanced(Apply(c, t, x))
  {
    OthersKeepSizes(c, t, x);
    RowBytesSame(t.blobs, Apply(c, t, x).blobs);
  }

  lemma KeepsBalance(c: Setup, t: Tables, x: Transaction)
    requires Allowed(c, t, x) && Balanced(t)
    ensures Balanced(Apply(c, t, x))
  {
    if x.Win? { WinBalances(c, t, x); }
    else if x.Collect? { CollectBalances(c, t, x); }
    else if x.Create? || x.Terminate? || x.Attach? { UploadsBalance(c, t, x); }
    else { OthersBalance(c, t, x); }
  }

  lemma StepBalances(c: Setup, states: seq<State>, steps: seq<Step>, k: nat, t: Tables, t': Tables)
    requires CollisionFree(c) && Run(c, states, steps) && k < |steps|
    requires t == states[k].tables && t' == states[k + 1].tables && Balanced(t)
    ensures Balanced(t')
  {
    CommittedStep(c, states, steps, k);
    KeepsBalance(c, t, Committed(c, states, steps, k));
  }

  lemma {:induction false} AlwaysBalanced(c: Setup, states: seq<State>, steps: seq<Step>, k: nat)
    requires CollisionFree(c) && Run(c, states, steps) && k < |states|
    ensures Balanced(states[k].tables)
  {
    if k == 0 {
      StartsBalanced(states[0]);
    } else {
      AlwaysBalanced(c, states, steps, k - 1);
      StepBalances(c, states, steps, k - 1, states[k - 1].tables, states[k].tables);
    }
  }

  lemma StartsBalanced(s: State)
    requires Initial(s)
    ensures Balanced(s.tables)
  {
    EmptySums(s.tables);
  }

  lemma EmptySums(t: Tables)
    requires t == EmptyTables()
    ensures Reported(t.uploads) == 0 && RowBytes(t.blobs) == 0
  {
  }

  /** One completion keeps the plain law exactly when the files it created under existing rows weigh as much
      as the rows it created for existing files. */
  lemma WinConservesIff(c: Setup, t: Tables, x: Transaction)
    requires x.Win? && Allowed(c, t, x) && Conserved(t)
    ensures var m := t.uploads[x.upload].manifest;
      Conserved(Apply(c, t, x)) <==>
      NewlyPersisted(m, x.created * t.blobs.Keys) == NewlyPersisted(m, (StoredDigests(m) - t.blobs.Keys) - x.created)
  {
    WinSums(c, t, x);
    ConservesIff(t, Apply(c, t, x), t.uploads[x.upload].manifest, x.created);
  }

  lemma ConservesIff(t: Tables, t': Tables, m: Manifest, created: set<Digest>)
    requires Conserved(t) && created <= StoredDigests(m)
    requires Reported(t'.uploads) == Reported(t.uploads) + NewlyPersisted(m, created)
    requires RowBytes(t'.blobs) == RowBytes(t.blobs) + NewlyPersisted(m, StoredDigests(m) - t.blobs.Keys)
    requires t'.ledger.collected == t.ledger.collected
    ensures Conserved(t') <==>
      NewlyPersisted(m, created * t.blobs.Keys) == NewlyPersisted(m, (StoredDigests(m) - t.blobs.Keys) - created)
  {
    PersistedSplit(m, created, t.blobs.Keys);
  }

  lemma {:induction false} SumOne(f: nat -> nat, x: nat)
    ensures SumOver({x}, f) == f(x)
  {
    SumRemove({x}, f, x);
    assert {x} - {x} == {};
  }

  // ---- clean runs: no crash, and no process dropped or failing between a file operation and the
  //      transaction or cleanup that answers for it ----

  predicate Owes(q: Process) {
    HasPromotions(q) && !q.AttachingWinner?
  }

  predicate CleanStep(q: Process, e: Event) {
    && (e.Cancel? ==> !Owes(q) && !q.Dropping?)
    && (e.Fail? ==> !q.Dropping? && !((q.Cleaning? || q.Removing?) && q.winner.None?))
  }

  ghost predicate CleanRun(c: Setup, states: seq<State>, steps: seq<Step>) {
    Run(c, states, steps) &&
    forall k :: 0 <= k < |steps| ==>
      !steps[k].event.Crash? && (steps[k].actor < |states[k].procs| ==> CleanStep(states[k].procs[steps[k].actor],
                                                                                  steps[k].event))
  }

  // The process promoted d, believes it created the file, and has yet to record it or clean it up.
  predicate Answers(q: Process, d: Digest) {
    Owes(q) &&
    exists i ::
      0 <= i < |q.promotions| && (q.Cleaning? || q.Removing? ==> q.k <= i) && q.promotions[i] == Promotion(d, true)
  }

  ghost predicate FileAnswered(s: State, d: Digest) {
    d in s.files && d !in s.tables.blobs ==> exists p :: 0 <= p < |s.procs| && Answers(s.procs[p], d)
  }

  predicate Drops(q: Process, d: Digest) {
    q.Dropping? && q.blob.digest == d
  }

  ghost predicate RowAnswered(s: State, d: Digest) {
    d in s.tables.blobs && d !in s.files ==> exists p :: 0 <= p < |s.procs| && Drops(s.procs[p], d)
  }

  // Until it records, a completion knows which digests have no row: those it created.
  ghost predicate FlagsExact(t: Tables, q: Process) {
    (q.Promoting? || q.Recording?) ==>
      forall i :: 0 <= i < |q.promotions| ==> (q.promotions[i].created <==> q.promotions[i].digest !in t.blobs)
  }

  ghost predicate DroppedGone(files: map<Digest, Bytes>, q: Process) {
    q.Dropping? ==> q.blob.digest !in files
  }

  ghost predicate Clean(s: State) {
    && s.mode.Serving?
    && (forall d :: FileAnswered(s, d))
    && (forall d :: RowAnswered(s, d))
    && (forall p :: 0 <= p < |s.procs| ==> FlagsExact(s.tables, s.procs[p]) && DroppedGone(s.files, s.procs[p]))
  }

  lemma AnsweringHolds(c: Setup, t: Tables, files: map<Digest, Bytes>, q: Process, d: Digest)
    requires Knows(c, t, files, q) && (Answers(q, d) || Drops(q, d))
    ensures Holds(c, q, BlobOf(c, d))
  {
    if Answers(q, d) {
      var i :| 0 <= i < |q.promotions| && q.promotions[i] == Promotion(d, true);
      OrderedDigest(c, q.job, i);
      JobBlobLock(c, q, d);
    }
  }

  lemma OwesUnderLock(c: Setup, s: State, p: nat, k: nat, d: Digest)
    requires Inv(c, s) && p < |s.procs| && Holds(c, s.procs[p], BlobOf(c, d))
    requires k < |s.procs| && (Answers(s.procs[k], d) || Drops(s.procs[k], d))
    ensures k == p
  {
    assert Knows(c, s.tables, s.files, s.procs[k]);
    AnsweringHolds(c, s.tables, s.files, s.procs[k], d);
    assert Both(c, s.procs[k], s.procs[p], BlobOf(c, d));
  }

  // Under the blob lock of d, no other process owes anything for d: file and row are both there or neither is.
  lemma LockedMatches(c: Setup, s: State, p: nat, d: Digest)
    requires Inv(c, s) && Clean(s) && p < |s.procs| && Holds(c, s.procs[p], BlobOf(c, d))
    requires !Answers(s.procs[p], d) && !Drops(s.procs[p], d)
    ensures d in s.files <==> d in s.tables.blobs
  {
    assert FileAnswered(s, d) && RowAnswered(s, d);
    forall k | 0 <= k < |s.procs| ensures !Answers(s.procs[k], d) && !Drops(s.procs[k], d) {
      if Answers(s.procs[k], d) || Drops(s.procs[k], d) { OwesUnderLock(c, s, p, k, d); }
    }
  }

  // ---- a clean step keeps file and row answered for ----

  // A process that answers for a file goes on answering until the file has a row or is gone.
  lemma KeepsAnswering(c: Setup, s: State, q: Process, e: Event, d: Digest)
    requires Takes(c, s, q, e) && CleanStep(q, e) && Answers(q, d)
    requires d !in s.tables.blobs && !(q.Removing? && e.Go? && q.k < |q.promotions| && d == q.promotions[q.k].digest)
    requires !(e.Go? && CommitsOnGo(c, s.tables, q, e.now, e.id).Win?)
    requires q.Promoting? ==> |q.promotions| <= |q.job.order|
    ensures Answers(ProcAfter(c, s, q, e), d)
  {
    var i :|
      0 <= i < |q.promotions| && (q.Cleaning? || q.Removing? ==> q.k <= i) &&
      q.promotions[i] == Promotion(d, true);
    var q' := ProcAfter(c, s, q, e);
    CarriesPromotions(c, s, q, e, i, d);
    assert q'.promotions[i] == Promotion(d, true);
  }

  lemma CarriesPromotions(c: Setup, s: State, q: Process, e: Event, i: nat, d: Digest)
    requires Takes(c, s, q, e) && CleanStep(q, e) && Owes(q)
    requires i < |q.promotions| && (q.Cleaning? || q.Removing? ==> q.k <= i) && q.promotions[i] == Promotion(d, true)
    requires d !in s.tables.blobs && !(q.Removing? && e.Go? && q.k < |q.promotions| && d == q.promotions[q.k].digest)
    requires !(e.Go? && CommitsOnGo(c, s.tables, q, e.now, e.id).Win?)
    requires q.Promoting? ==> |q.promotions| <= |q.job.order|
    ensures var q' := ProcAfter(c, s, q, e);
      Owes(q') && q.promotions <= q'.promotions && (q'.Cleaning? || q'.Removing? ==> q'.k <= i)
  {
  }

  lemma LinkAnswered(c: Setup, s: State, q: Process, e: Event, d: Digest)
    requires Takes(c, s, q, e) && q.Promoting? && |q.promotions| < |q.job.order| && d == q.job.order[|q.promotions|]
    requires d !in s.files && !e.Cancel?
    ensures Answers(ProcAfter(c, s, q, e), d)
  {
    var q' := ProcAfter(c, s, q, e);
    assert q'.promotions[|q.promotions|] == Promotion(d, true);
  }

  lemma CleanFile(c: Setup, s: State, p: nat, e: Event, d: Digest)
    requires CollisionFree(c) && Inv(c, s) && Clean(s) && Can(c, s, p, e) && !External(e) && CleanStep(s.procs[p], e)
    ensures FileAnswered(After(c, s, p, e), d)
  {
    var s' := After(c, s, p, e);
    var q := s.procs[p];
    if d in s'.files && d !in s'.tables.blobs {
      assert Knows(c, s.tables, s.files, q);
      if d !in s.files {
        if !Touches(q, d) { OnlyTouched(c, s, p, e, d); }
        NewFile(c, s, p, e, d);
        assert Answers(s'.procs[p], d);
      } else {
        RowStaysAway(c, s, p, e, d);
        assert FileAnswered(s, d);
        var k :| 0 <= k < |s.procs| && Answers(s.procs[k], d);
        if k == p { OwnFile(c, s, p, e, d); }
        assert Answers(s'.procs[k], d);
      }
    }
  }

  lemma NewFile(c: Setup, s: State, p: nat, e: Event, d: Digest)
    requires Can(c, s, p, e) && !External(e) && Touches(s.procs[p], d)
    requires d !in s.files && d in FilesAfter(c, s, p, e)
    ensures Answers(ProcAfter(c, s, s.procs[p], e), d)
  {
    LinkAnswered(c, s, s.procs[p], e, d);
  }

  // A present file gets no new reason to be unowned: its row is dropped only after the file is gone.
  lemma RowStaysAway(c: Setup, s: State, p: nat, e: Event, d: Digest)
    requires Inv(c, s) && Clean(s) && Can(c, s, p, e) && !External(e)
    requires d in s.files && d !in Apply(c, s.tables, Commits(c, s, p, e)).blobs
    ensures d !in s.tables.blobs
  {
    var x := Commits(c, s, p, e);
    CommitsAllowed(c, s, p, e);
    if d in s.tables.blobs {
      OnlyCollectDrops(c, s.tables, x, d);
      CollectsByDropping(c, s, p, e);
      assert false;
    }
  }

  lemma CollectsByDropping(c: Setup, s: State, p: nat, e: Event)
    requires Can(c, s, p, e) && !External(e) && Commits(c, s, p, e).Collect?
    ensures Drops(s.procs[p], Commits(c, s, p, e).blob.digest)
  {
  }

  lemma OnlyCollectDrops(c: Setup, t: Tables, x: Transaction, d: Digest)
    requires Allowed(c, t, x) && d in t.blobs && d !in Apply(c, t, x).blobs
    ensures x.Collect? && x.blob.digest == d
  {
  }

  lemma OwnFile(c: Setup, s: State, p: nat, e: Event, d: Digest)
    requires Inv(c, s) && Can(c, s, p, e) && !External(e) && CleanStep(s.procs[p], e)
    requires Answers(s.procs[p], d) && d !in s.tables.blobs
    requires d in FilesAfter(c, s, p, e) && d !in Apply(c, s.tables, Commits(c, s, p, e)).blobs
    ensures Answers(ProcAfter(c, s, s.procs[p], e), d)
  {
    var q := s.procs[p];
    assert Knows(c, s.tables, s.files, q);
    if e.Go? {
      if CommitsOnGo(c, s.tables, q, e.now, e.id).Win? { WinCovers(c, s.tables, s.files, q, e.now, e.id, d); }
      if q.Removing? && Touches(q, d) { RemovedIsGone(c, s, p, e, d); }
    }
    KeepsAnswering(c, s, q, e, d);
  }

  lemma WinCovers(c: Setup, t: Tables, files: map<Digest, Bytes>, q: Process, now: int, id: nat, d: Digest)
    requires Knows(c, t, files, q) && Answers(q, d) && CommitsOnGo(c, t, q, now, id).Win?
    ensures d in Apply(c, t, CommitsOnGo(c, t, q, now, id)).blobs
  {
    var i :| 0 <= i < |q.promotions| && q.promotions[i] == Promotion(d, true);
    OrderedDigest(c, q.job, i);
    WinRows(c, t, CommitsOnGo(c, t, q, now, id), d);
  }

  lemma WinRows(c: Setup, t: Tables, x: Transaction, d: Digest)
    requires x.Win? && x.upload in t.uploads && d in StoredDigests(t.uploads[x.upload].manifest)
    ensures d in Apply(c, t, x).blobs
  {
  }

  lemma RemovedIsGone(c: Setup, s: State, p: nat, e: Event, d: Digest)
    requires p < |s.procs| && e.Go? && Touches(s.procs[p], d) && s.procs[p].Removing?
    ensures d !in FilesAfter(c, s, p, e)
  {
  }

  lemma CleanRow(c: Setup, s: State, p: nat, e: Event, d: Digest)
    requires CollisionFree(c) && Inv(c, s) && Clean(s) && Can(c, s, p, e) && !External(e) && CleanStep(s.procs[p], e)
    ensures RowAnswered(After(c, s, p, e), d)
  {
    var s' := After(c, s, p, e);
    var q := s.procs[p];
    assert Knows(c, s.tables, s.files, q);
    if d in s'.tables.blobs && d !in s'.files {
      if d in s.files {
        if !Touches(q, d) { OnlyTouched(c, s, p, e, d); }
        LostUnderRow(c, s, p, e, d);
        assert Drops(s'.procs[p], d);
      } else {
        NoNewBareRow(c, s, p, e, d);
        assert RowAnswered(s, d);
        var k :| 0 <= k < |s.procs| && Drops(s.procs[k], d);
        if k == p { DropRemovesRow(c, s, p, e, d); }
        assert Drops(s'.procs[k], d);
      }
    }
  }

  lemma LostUnderRow(c: Setup, s: State, p: nat, e: Event, d: Digest)
    requires AllKnow(c, s) && Can(c, s, p, e) && !External(e) && Touches(s.procs[p], d)
    requires d in s.files && d !in FilesAfter(c, s, p, e) && d in Apply(c, s.tables, Commits(c, s, p, e)).blobs
    ensures Drops(ProcAfter(c, s, s.procs[p], e), d)
  {
    assert Knows(c, s.tables, s.files, s.procs[p]);
    if !s.procs[p].Unlinking? { RemovalHasNoRow(c, s, p, e, d); }
  }

  lemma RemovalHasNoRow(c: Setup, s: State, p: nat, e: Event, d: Digest)
    requires Can(c, s, p, e) && !External(e) && Touches(s.procs[p], d) && !s.procs[p].Unlinking? &&
      VictimsKnown(s.tables, s.procs[p])
    requires d in s.files && d !in FilesAfter(c, s, p, e)
    ensures d !in Apply(c, s.tables, Commits(c, s, p, e)).blobs
  {
  }

  lemma NoNewBareRow(c: Setup, s: State, p: nat, e: Event, d: Digest)
    requires CollisionFree(c) && Inv(c, s) && Can(c, s, p, e) && !External(e)
    requires d !in s.files && d in Apply(c, s.tables, Commits(c, s, p, e)).blobs
    ensures d in s.tables.blobs
  {
    var x := Commits(c, s, p, e);
    CommitsAllowed(c, s, p, e);
    if d !in s.tables.blobs {
      OnlyWinAdds(c, s.tables, x, d);
      WinnerPromoted(c, s, p, e, d);
      assert false;
    }
  }

  // The process that wins stands at its recording.
  lemma RecordingWins(c: Setup, s: State, p: nat, e: Event)
    requires Can(c, s, p, e) && Commits(c, s, p, e).Win?
    ensures p < |s.procs| && s.procs[p].Recording? && UploadActive(s.tables, s.procs[p].job)
    ensures var q, x := s.procs[p], Commits(c, s, p, e);
      && x.upload == q.job.upload && x.created == CreatedBy(q.promotions)
  {
  }

  lemma AllPromoted(c: Setup, t: Tables, files: map<Digest, Bytes>, q: Process, d: Digest)
    requires Knows(c, t, files, q) && q.Recording? && d in StoredDigests(q.job.manifest)
    ensures d in files
  {
    assert d in q.job.order;
    var i :| 0 <= i < |q.job.order| && q.job.order[i] == d;
    assert q.job.order[i] in files;
  }

  lemma WinnerPromoted(c: Setup, s: State, p: nat, e: Event, d: Digest)
    requires AllKnow(c, s) && Can(c, s, p, e) && !External(e) && Commits(c, s, p, e).Win?
    requires var u := Commits(c, s, p, e).upload;
      u in s.tables.uploads && d in StoredDigests(s.tables.uploads[u].manifest)
    ensures d in s.files
  {
    RecordingWins(c, s, p, e);
    assert Knows(c, s.tables, s.files, s.procs[p]);
    AllPromoted(c, s.tables, s.files, s.procs[p], d);
  }

  lemma OnlyWinAdds(c: Setup, t: Tables, x: Transaction, d: Digest)
    requires Allowed(c, t, x) && d !in t.blobs && d in Apply(c, t, x).blobs
    ensures x.Win? && d in StoredDigests(t.uploads[x.upload].manifest)
  {
  }

  // The commit of a collection removes the row it was about to drop.
  lemma DropRemovesRow(c: Setup, s: State, p: nat, e: Event, d: Digest)
    requires AllKnow(c, s) && Can(c, s, p, e) && !External(e) && CleanStep(s.procs[p], e) && Drops(s.procs[p], d)
    ensures d !in Apply(c, s.tables, Commits(c, s, p, e)).blobs
  {
    assert Knows(c, s.tables, s.files, s.procs[p]);
  }

  // ---- flags and removed files, of the acting process and of the others ----

  lemma RowPresence(c: Setup, t: Tables, x: Transaction, d: Digest)
    requires Allowed(c, t, x) && !ChangesRow(t, x, d)
    ensures d in Apply(c, t, x).blobs <==> d in t.blobs
  {
    if d in t.blobs && d !in Apply(c, t, x).blobs { OnlyCollectDrops(c, t, x, d); }
    if d !in t.blobs { NoRowFrame(c, t, x, d); }
  }

  lemma OthersFlags(c: Setup, s: State, p: nat, e: Event, k: nat)
    requires Inv(c, s) && Clean(s) && Can(c, s, p, e) && !External(e) && k < |s.procs| && k != p
    ensures FlagsExact(Apply(c, s.tables, Commits(c, s, p, e)), s.procs[k])
  {
    var q := s.procs[k];
    assert Knows(c, s.tables, s.files, q) && FlagsExact(s.tables, q);
    CommitsAllowed(c, s, p, e);
    if q.Promoting? || q.Recording? {
      forall i | 0 <= i < |q.promotions|
        ensures q.promotions[i].created <==> q.promotions[i].digest !in Apply(c, s.tables, Commits(c, s, p, e)).blobs
      {
        OrderedDigest(c, q.job, i);
        JobBlobLock(c, q, q.promotions[i].digest);
        DigestFrame(c, s, p, e, k, q.promotions[i].digest);
        RowPresence(c, s.tables, Commits(c, s, p, e), q.promotions[i].digest);
      }
    }
  }

  lemma OthersGone(c: Setup, s: State, p: nat, e: Event, k: nat)
    requires Inv(c, s) && Clean(s) && Can(c, s, p, e) && !External(e) && k < |s.procs| && k != p
    ensures DroppedGone(FilesAfter(c, s, p, e), s.procs[k])
  {
    var q := s.procs[k];
    assert DroppedGone(s.files, q);
    if q.Dropping? && ChangesFile(s.files, FilesAfter(c, s, p, e), q.blob.digest) {
      FilesUnderLock(c, s, p, e, q.blob.digest);
      Excluded(c, s, p, k, BlobOf(c, q.blob.digest));
    }
  }

  lemma OwnGone(c: Setup, s: State, p: nat, e: Event)
    requires Can(c, s, p, e) && !External(e) && CleanStep(s.procs[p], e) && DroppedGone(s.files, s.procs[p])
    ensures DroppedGone(FilesAfter(c, s, p, e), ProcAfter(c, s, s.procs[p], e))
  {
  }

  lemma OwnFlags(c: Setup, s: State, p: nat, e: Event)
    requires Inv(c, s) && Clean(s) && Can(c, s, p, e) && !External(e)
    ensures FlagsExact(Apply(c, s.tables, Commits(c, s, p, e)), ProcAfter(c, s, s.procs[p], e))
  {
    var q := s.procs[p];
    var q' := ProcAfter(c, s, q, e);
    assert Knows(c, s.tables, s.files, q) && FlagsExact(s.tables, q);
    if q'.Promoting? || q'.Recording? {
      assert HasJob(q');
      OwnCommits(c, s, p, e);
      assert Apply(c, s.tables, Commits(c, s, p, e)) == s.tables;
      if q.Promoting? && |q.promotions| < |q.job.order| {
        var d := q.job.order[|q.promotions|];
        NextMatches(c, s, p);
        NextFlag(c, s, q, e);
      } else {
        SameFlags(c, s, q, e);
      }
    }
  }

  lemma NextMatches(c: Setup, s: State, p: nat)
    requires Inv(c, s) && Clean(s) && p < |s.procs|
    requires s.procs[p].Promoting? && |s.procs[p].promotions| < |s.procs[p].job.order|
    ensures var d := s.procs[p].job.order[|s.procs[p].promotions|]; d in s.files <==> d in s.tables.blobs
  {
    var q := s.procs[p];
    var d := q.job.order[|q.promotions|];
    assert Knows(c, s.tables, s.files, q);
    OrderedDigest(c, q.job, |q.promotions|);
    JobBlobLock(c, q, d);
    forall i | 0 <= i < |q.promotions| ensures q.promotions[i].digest != d {
      assert q.promotions[i].digest == q.job.order[i] && StrictlyAscending(q.job.order);
    }
    LockedMatches(c, s, p, d);
  }

  lemma NextFlag(c: Setup, s: State, q: Process, e: Event)
    requires Takes(c, s, q, e) && q.Promoting? && |q.promotions| < |q.job.order| && FlagsExact(s.tables, q)
    requires var d := q.job.order[|q.promotions|]; d in s.files <==> d in s.tables.blobs
    ensures FlagsExact(s.tables, ProcAfter(c, s, q, e))
  {
  }

  lemma SameFlags(c: Setup, s: State, q: Process, e: Event)
    requires Takes(c, s, q, e) && FlagsExact(s.tables, q) && !(q.Promoting? && |q.promotions| < |q.job.order|)
    ensures FlagsExact(s.tables, ProcAfter(c, s, q, e))
  {
    if e.Go? {
      SameFlagsOnGo(c, s, q);
    } else if e.Fail? || e.FailLinked? {
      FailKeepsJob(c, s, q);
    }
  }

  lemma SameFlagsOnGo(c: Setup, s: State, q: Process)
    requires FlagsExact(s.tables, q) && !(q.Promoting? && |q.promotions| < |q.job.order|)
    ensures FlagsExact(s.tables, AfterGo(c, s, q))
  {
  }

  lemma KeepsClean(c: Setup, s: State, p: nat, e: Event)
    requires CollisionFree(c) && Inv(c, s) && Clean(s) && Can(c, s, p, e) && !e.Crash?
    requires p < |s.procs| ==> CleanStep(s.procs[p], e)
    ensures Clean(After(c, s, p, e))
  {
    var s' := After(c, s, p, e);
    if External(e) {
      SubmissionClean(c, s, p, e);
    } else {
      forall d ensures FileAnswered(s', d) { CleanFile(c, s, p, e, d); }
      forall d ensures RowAnswered(s', d) { CleanRow(c, s, p, e, d); }
      forall k | 0 <= k < |s'.procs| ensures FlagsExact(s'.tables, s'.procs[k]) && DroppedGone(s'.files, s'.procs[k]) {
        if k == p { OwnFlags(c, s, p, e); OwnGone(c, s, p, e); }
        else { OthersFlags(c, s, p, e, k); OthersGone(c, s, p, e, k); }
      }
    }
  }

  lemma SubmissionClean(c: Setup, s: State, p: nat, e: Event)
    requires Clean(s) && Can(c, s, p, e) && External(e) && !e.Crash?
    ensures Clean(After(c, s, p, e))
  {
    var s' := After(c, s, p, e);
    assert s'.files == s.files && s'.tables.blobs == s.tables.blobs && s'.procs == s.procs;
    forall d ensures FileAnswered(s', d) && RowAnswered(s', d) {
      assert FileAnswered(s, d) && RowAnswered(s, d);
    }
    forall k | 0 <= k < |s'.procs| ensures FlagsExact(s'.tables, s'.procs[k]) && DroppedGone(s'.files, s'.procs[k]) {
      assert FlagsExact(s.tables, s.procs[k]);
    }
  }

  lemma {:induction false} CleanRunsStayClean(c: Setup, states: seq<State>, steps: seq<Step>, k: nat)
    requires CollisionFree(c) && CleanRun(c, states, steps) && k < |states|
    ensures Clean(states[k])
  {
    if k > 0 {
      CleanRunsStayClean(c, states, steps, k - 1);
      ReachableInv(c, states, steps, k - 1);
      assert Taken(c, states, steps, k - 1);
      KeepsClean(c, states[k - 1], steps[k - 1].actor, steps[k - 1].event);
    }
  }

  /** In a clean run, whenever no completion or collection is half way, the files are exactly those the rows
      name: losers of a race and failed completions leave nothing behind. */
  lemma QuietFilesMatchRows(c: Setup, states: seq<State>, steps: seq<Step>, k: nat)
    requires CollisionFree(c) && CleanRun(c, states, steps) && k < |states|
    requires forall p :: 0 <= p < |states[k].procs| ==> !Owes(states[k].procs[p]) && !states[k].procs[p].Dropping?
    ensures states[k].files.Keys == states[k].tables.blobs.Keys
  {
    CleanRunsStayClean(c, states, steps, k);
    var s := states[k];
    forall d ensures d in s.files <==> d in s.tables.blobs {
      assert FileAnswered(s, d) && RowAnswered(s, d);
    }
  }

  // ---- conservation ----

  // A completion in a clean run creates exactly the files whose digests have no row.
  lemma CreatesWhatIsMissing(c: Setup, s: State, q: Process)
    requires Knows(c, s.tables, s.files, q) && q.Recording? && FlagsExact(s.tables, q)
    ensures CreatedBy(q.promotions) == StoredDigests(q.job.manifest) - s.tables.blobs.Keys
  {
    CreatedDeclared(c, q.job, q.promotions);
    forall d | d in StoredDigests(q.job.manifest) && d !in s.tables.blobs ensures d in CreatedBy(q.promotions) {
      assert d in q.job.order;
      var i :| 0 <= i < |q.job.order| && q.job.order[i] == d;
      assert q.promotions[i].digest == d && q.promotions[i].created;
    }
  }

  lemma LedgerQuiet(c: Setup, t: Tables, x: Transaction)
    requires x.Win? && x.upload in t.uploads ==> x.created == StoredDigests(t.uploads[x.upload].manifest) - t.blobs.Keys
    ensures Apply(c, t, x).ledger.relinked == t.ledger.relinked && Apply(c, t, x).ledger.adopted == t.ledger.adopted
  {
    if x.Win? && x.upload in t.uploads {
      var missing := StoredDigests(t.uploads[x.upload].manifest) - t.blobs.Keys;
      assert x.created * t.blobs.Keys == {} && missing - x.created == {};
    }
  }

  lemma StepLedgerQuiet(c: Setup, s: State, p: nat, e: Event)
    requires Inv(c, s) && Clean(s) && Can(c, s, p, e)
    ensures var t' := Apply(c, s.tables, Commits(c, s, p, e));
      t'.ledger.relinked == s.tables.ledger.relinked && t'.ledger.adopted == s.tables.ledger.adopted
  {
    var x := Commits(c, s, p, e);
    if x.Win? {
      assert Knows(c, s.tables, s.files, s.procs[p]) && FlagsExact(s.tables, s.procs[p]);
      CreatesWhatIsMissing(c, s, s.procs[p]);
    }
    LedgerQuiet(c, s.tables, x);
  }

  lemma LedgerStaysQuiet(c: Setup, states: seq<State>, steps: seq<Step>, k: nat)
    requires CollisionFree(c) && CleanRun(c, states, steps) && k < |steps|
    ensures states[k + 1].tables.ledger.relinked == states[k].tables.ledger.relinked
    ensures states[k + 1].tables.ledger.adopted == states[k].tables.ledger.adopted
  {
    CleanRunsStayClean(c, states, steps, k);
    ReachableInv(c, states, steps, k);
    assert Taken(c, states, steps, k);
    StepLedgerQuiet(c, states[k], steps[k].actor, steps[k].event);
  }

  lemma {:induction false} LedgerZero(c: Setup, states: seq<State>, steps: seq<Step>, k: nat)
    requires CollisionFree(c) && CleanRun(c, states, steps) && k < |states|
    ensures states[k].tables.ledger.relinked == states[k].tables.ledger.adopted == 0
  {
    if k > 0 {
      LedgerZero(c, states, steps, k - 1);
      LedgerStaysQuiet(c, states, steps, k - 1);
    }
  }

  /** Conservation: in every clean run, at every moment, the bytes reported as newly persisted over all
      completed uploads equal the bytes of the rows that exist plus those garbage collection removed. */
  lemma BytesConserved(c: Setup, states: seq<State>, steps: seq<Step>, k: nat)
    requires CollisionFree(c) && CleanRun(c, states, steps) && k < |states|
    ensures Conserved(states[k].tables)
  {
    LedgerZero(c, states, steps, k);
    AlwaysBalanced(c, states, steps, k);
  }
}
