/** Uploads over whole runs: any interleaving of creations, chunk requests,
    completions, terminations, crashes, damage while down, and recoveries. */
module UploadRuns {
  import opened Basics
  import opened Uploads

  // ---- the invariant ----

  ghost predicate IdsDisjoint(s: Store) {
    forall id :: id in s.uploads ==> id !in s.audits
  }

  // One capture identifier: one upload row at most, and one manifest digest throughout.
  ghost predicate CapturesAgree(s: Store) {
    && (forall u, v :: u in s.uploads && v in s.uploads && s.uploads[u].capture == s.uploads[v].capture ==> u == v)
    && (forall u, a :: u in s.uploads && a in s.audits && s.uploads[u].capture == s.audits[a].capture ==>
          s.uploads[u].manifestSha256 == s.audits[a].manifestSha256)
    && (forall a, b :: a in s.audits && b in s.audits && s.audits[a].capture == s.audits[b].capture ==>
          s.audits[a].manifestSha256 == s.audits[b].manifestSha256)
  }

  ghost predicate RecordFits(s: Store, key: ChunkKey) {
    key in s.chunks && key.upload in s.uploads && ExpectedOf(s.uploads[key.upload], key) == Some(s.chunks[key].length)
  }

  ghost predicate RecordsFit(s: Store) {
    forall k :: k in s.chunks ==> RecordFits(s, k)
  }

  ghost predicate FilesInDirs(s: Store) {
    forall k :: k in s.files ==> k.upload in s.dirs
  }

  ghost predicate RecordsHeld(c: Setup, s: Store) {
    forall k :: k in s.chunks && Active(s, k.upload) ==> Verifies(c, s.files, k, s.chunks[k])
  }

  ghost predicate StoreSound(s: Store) {
    IdsDisjoint(s) && CapturesAgree(s) && RecordsFit(s) && FilesInDirs(s)
  }

  ghost predicate Exclusion(c: Setup, s: State) {
    forall i, j, stripe ::
      0 <= i < |s.procs| && 0 <= j < |s.procs| && Holds(c, s.procs[i], stripe) && Holds(c, s.procs[j], stripe) ==>
        i == j
  }

  ghost predicate Knows(c: Setup, s: Store, q: Process) {
    match q
    case Storing(key, record) => Active(s, key.upload) && key !in s.chunks &&
    ExpectedOf(s.uploads[key.upload], key) == Some(record.length)
    case Linked(key, record) =>
      && Active(s, key.upload) && key !in s.chunks && ExpectedOf(s.uploads[key.upload], key) == Some(record.length)
      && Verifies(c, s.files, key, record)
    case Clearing(id) => !Active(s, id) && (id in s.uploads || id in s.audits)
    case _ => true
  }

  ghost predicate Inv(c: Setup, s: State) {
    && StoreSound(s.store)
    && Exclusion(c, s)
    && (s.serving ==> RecordsHeld(c, s.store))
    && (forall i :: 0 <= i < |s.procs| ==> Knows(c, s.store, s.procs[i]))
    && (!s.serving ==> forall i :: 0 <= i < |s.procs| ==> s.procs[i].Idle?)
  }

  // ---- preservation ----

  // What a step can do to rows and files.
  lemma StepIds(c: Setup, s: State, p: nat, e: Event)
    requires IdsDisjoint(s.store) && Can(c, s, p, e)
    ensures IdsDisjoint(After(c, s, p, e).store)
  {
  }

  lemma StepCaptures(c: Setup, s: State, p: nat, e: Event)
    requires IdsDisjoint(s.store) && CapturesAgree(s.store) && Can(c, s, p, e)
    ensures CapturesAgree(After(c, s, p, e).store)
  {
    var t := After(c, s, p, e).store;
    if e.Create? && !CaptureConflicts(s.store, e.capture, e.manifestSha256) {
      CreateCaptures(s.store, e);
    } else {
      forall id | id in t.uploads ensures id in s.store.uploads && SameIdentity(s.store.uploads[id], t.uploads[id]) {}
    }
  }

  ghost predicate SameIdentity(u: Upload, v: Upload) {
    u.capture == v.capture && u.manifestSha256 == v.manifestSha256 && u.sizes == v.sizes && u.chunkSize == v.chunkSize
  }

  lemma CreateCaptures(s: Store, e: Event)
    requires CapturesAgree(s) && e.Create? && e.id !in s.uploads && !CaptureConflicts(s, e.capture, e.manifestSha256)
    ensures CapturesAgree(AfterCreate(s, e.id, e.capture, e.manifestSha256, e.sizes, e.chunkSize))
  {
  }

  lemma StepRecords(c: Setup, s: State, p: nat, e: Event)
    requires RecordsFit(s.store) && Can(c, s, p, e) && (p < |s.procs| ==> Knows(c, s.store, s.procs[p]))
    ensures RecordsFit(After(c, s, p, e).store)
  {
    var t := After(c, s, p, e).store;
    forall k | k in t.chunks ensures RecordFits(t, k) {
      if k in s.store.chunks {
        OldRecordFits(c, s, p, e, k);
      } else {
        NewRecordFits(c, s, p, e, k);
      }
    }
  }

  lemma OldRecordFits(c: Setup, s: State, p: nat, e: Event, k: ChunkKey)
    requires RecordFits(s.store, k) && Can(c, s, p, e) && k in After(c, s, p, e).store.chunks
    ensures RecordFits(After(c, s, p, e).store, k)
  {
    SameExpected(s.store.uploads[k.upload], After(c, s, p, e).store.uploads[k.upload], k);
  }

  lemma NewRecordFits(c: Setup, s: State, p: nat, e: Event, k: ChunkKey)
    requires Can(c, s, p, e) && (p < |s.procs| ==> Knows(c, s.store, s.procs[p]))
    requires k !in s.store.chunks && k in After(c, s, p, e).store.chunks
    ensures RecordFits(After(c, s, p, e).store, k)
  {
  }

  lemma SameExpected(u: Upload, v: Upload, k: ChunkKey)
    requires u.sizes == v.sizes && u.chunkSize == v.chunkSize
    ensures ExpectedOf(u, k) == ExpectedOf(v, k)
  {
  }

  lemma StepDirs(c: Setup, s: State, p: nat, e: Event)
    requires FilesInDirs(s.store) && Can(c, s, p, e)
    ensures FilesInDirs(After(c, s, p, e).store)
  {
  }

  lemma StepHeld(c: Setup, s: State, p: nat, e: Event)
    requires s.serving && RecordsHeld(c, s.store) && RecordsFit(s.store) && Can(c, s, p, e) && !e.Crash?
    requires p < |s.procs| ==> Knows(c, s.store, s.procs[p])
    ensures RecordsHeld(c, After(c, s, p, e).store)
  {
    var t := After(c, s, p, e).store;
    forall k | k in t.chunks && Active(t, k.upload) ensures Verifies(c, t.files, k, t.chunks[k]) {
      if k in s.store.chunks {
        assert RecordFits(s.store, k);
        assert Active(s.store, k.upload);
        assert Verifies(c, s.store.files, k, s.store.chunks[k]);
      }
    }
  }

  lemma StepExclusion(c: Setup, s: State, p: nat, e: Event)
    requires Exclusion(c, s) && Can(c, s, p, e)
    ensures Exclusion(c, After(c, s, p, e))
  {
    var t := After(c, s, p, e);
    forall i, j, stripe | 0 <= i < |t.procs| && 0 <= j < |t.procs| && Holds(c, t.procs[i], stripe) &&
    Holds(c, t.procs[j], stripe)
      ensures i == j
    {
      if i != j {
        if i == p { HoldsAfter(c, s, p, e, stripe); }
        if j == p { HoldsAfter(c, s, p, e, stripe); }
      }
    }
  }

  lemma HoldsAfter(c: Setup, s: State, p: nat, e: Event, stripe: nat)
    requires Can(c, s, p, e) && p < |s.procs| && !e.Crash? && p < |After(c, s, p, e).procs| &&
      Holds(c, After(c, s, p, e).procs[p], stripe)
    ensures Holds(c, s.procs[p], stripe) || (forall i :: 0 <= i < |s.procs| ==> !Holds(c, s.procs[i], stripe))
  {
  }

  lemma OwnKnows(c: Setup, s: State, p: nat, e: Event)
    requires s.serving && p < |s.procs| && Takes(c, s, s.procs[p], e) && Knows(c, s.store, s.procs[p])
    ensures Knows(c, After(c, s, p, e).store, ProcAfter(c, s, s.procs[p], e))
  {
  }

  lemma OthersKnow(c: Setup, s: State, p: nat, e: Event, k: nat)
    requires Inv(c, s) && s.serving && p < |s.procs| && Takes(c, s, s.procs[p], e) && k < |s.procs| && k != p
    ensures Knows(c, After(c, s, p, e).store, s.procs[k])
  {
    var q := s.procs[k];
    assert Knows(c, s.store, q);
    if q.Storing? || q.Linked? { OtherChunkKnows(c, s, p, e, k); }
    if q.Clearing? { OtherClearKnows(c, s, p, e, q.id); }
  }

  lemma OtherClearKnows(c: Setup, s: State, p: nat, e: Event, id: nat)
    requires s.serving && p < |s.procs| && Takes(c, s, s.procs[p], e)
    requires !Active(s.store, id) && (id in s.store.uploads || id in s.store.audits)
    ensures !Active(After(c, s, p, e).store, id) &&
      (id in After(c, s, p, e).store.uploads || id in After(c, s, p, e).store.audits)
  {
  }

  // Under the upload lock, no other process ends the upload or records the chunk.
  lemma OtherChunkKnows(c: Setup, s: State, p: nat, e: Event, k: nat)
    requires Inv(c, s) && s.serving && p < |s.procs| && Takes(c, s, s.procs[p], e) && k < |s.procs| && k != p
    requires s.procs[k].Storing? || s.procs[k].Linked?
    ensures Knows(c, After(c, s, p, e).store, s.procs[k])
  {
    var q := s.procs[k];
    var id := q.key.upload;
    assert Knows(c, s.store, q) && Knows(c, s.store, s.procs[p]);
    assert Holds(c, q, c.uploadStripe(id));
    assert !Holds(c, s.procs[p], c.uploadStripe(id));
    assert !Free(c, s, id);
    OtherKeeps(c, s, p, e, q.key);
    SameExpected(s.store.uploads[id], After(c, s, p, e).store.uploads[id], q.key);
  }

  lemma OtherKeeps(c: Setup, s: State, p: nat, e: Event, key: ChunkKey)
    requires s.serving && p < |s.procs| && Takes(c, s, s.procs[p], e) && Knows(c, s.store, s.procs[p])
    requires !Holds(c, s.procs[p], c.uploadStripe(key.upload)) && !Free(c, s, key.upload)
    requires Active(s.store, key.upload) && key !in s.store.chunks
    ensures var t := After(c, s, p, e).store;
      && Active(t, key.upload) && SameIdentity(s.store.uploads[key.upload], t.uploads[key.upload]) && key !in t.chunks
      && (key in s.store.files ==> key in t.files && t.files[key] == s.store.files[key])
  {
  }

  lemma CreateKnows(c: Setup, s: State, p: nat, e: Event, k: nat)
    requires e.Create? && Can(c, s, p, e) && k < |s.procs| && Knows(c, s.store, s.procs[k])
    ensures Knows(c, After(c, s, p, e).store, s.procs[k])
  {
  }

  lemma KeepsStoreSound(c: Setup, s: State, p: nat, e: Event)
    requires Inv(c, s) && Can(c, s, p, e)
    ensures StoreSound(After(c, s, p, e).store)
  {
    StepIds(c, s, p, e);
    StepCaptures(c, s, p, e);
    StepRecords(c, s, p, e);
    StepDirs(c, s, p, e);
  }

  lemma KeepsKnowledge(c: Setup, s: State, p: nat, e: Event)
    requires Inv(c, s) && Can(c, s, p, e)
    ensures forall i :: 0 <= i < |After(c, s, p, e).procs| ==>
      Knows(c, After(c, s, p, e).store, After(c, s, p, e).procs[i])
  {
    var t := After(c, s, p, e);
    forall i | 0 <= i < |t.procs| ensures Knows(c, t.store, t.procs[i]) {
      if e.Create? {
        CreateKnows(c, s, p, e, i);
      } else if !e.Crash? && !e.Damage? && !e.Recover? {
        if i == p { OwnKnows(c, s, p, e); } else { OthersKnow(c, s, p, e, i); }
      }
    }
  }

  lemma KeepsHeld(c: Setup, s: State, p: nat, e: Event)
    requires Inv(c, s) && Can(c, s, p, e) && After(c, s, p, e).serving
    ensures RecordsHeld(c, After(c, s, p, e).store)
  {
    if e.Recover? {
      RecoveryIsQuiescent(c, s.store);
    } else {
      StepHeld(c, s, p, e);
    }
  }

  lemma KeepsInv(c: Setup, s: State, p: nat, e: Event)
    requires Inv(c, s) && Can(c, s, p, e)
    ensures Inv(c, After(c, s, p, e))
  {
    KeepsStoreSound(c, s, p, e);
    StepExclusion(c, s, p, e);
    KeepsKnowledge(c, s, p, e);
    if After(c, s, p, e).serving { KeepsHeld(c, s, p, e); }
  }

  // ---- runs ----

  datatype Step = Step(actor: nat, event: Event)

  ghost predicate Taken(c: Setup, states: seq<State>, steps: seq<Step>, k: nat)
    requires k < |steps| && |states| == |steps| + 1
  {
    && Can(c, states[k], steps[k].actor, steps[k].event)
    && states[k + 1] == After(c, states[k], steps[k].actor, steps[k].event)
  }

  ghost predicate Run(c: Setup, states: seq<State>, steps: seq<Step>) {
    |states| == |steps| + 1 && Initial(states[0]) && forall k :: 0 <= k < |steps| ==> Taken(c, states, steps, k)
  }

  lemma {:induction false} ReachableInv(c: Setup, states: seq<State>, steps: seq<Step>, k: nat)
    requires Run(c, states, steps) && k < |states|
    ensures Inv(c, states[k])
  {
    if k > 0 {
      ReachableInv(c, states, steps, k - 1);
      assert Taken(c, states, steps, k - 1);
      KeepsInv(c, states[k - 1], steps[k - 1].actor, steps[k - 1].event);
    }
  }

  /** An upload identifier is in at most one of active, completed and terminal audit. */
  lemma OneLife(c: Setup, states: seq<State>, steps: seq<Step>, k: nat, id: nat)
    requires Run(c, states, steps) && k < |states|
    ensures id in states[k].store.uploads ==> id !in states[k].store.audits
  {
    ReachableInv(c, states, steps, k);
  }

  // What one step leaves of an upload.
  ghost predicate LivesOn(s: Store, t: Store, id: nat) {
    && (id in s.audits ==> id in t.audits && t.audits[id] == s.audits[id])
    && (id in s.uploads && s.uploads[id].status == Completed ==> id in t.uploads && t.uploads[id] == s.uploads[id])
    && (id in s.uploads ==>
          || (id in t.uploads && SameIdentity(s.uploads[id], t.uploads[id]))
          || (id in t.audits && t.audits[id] == Audit(s.uploads[id].capture, s.uploads[id].manifestSha256)))
  }

  lemma StepLivesOn(c: Setup, s: State, p: nat, e: Event, id: nat)
    requires Inv(c, s) && Can(c, s, p, e)
    ensures LivesOn(s.store, After(c, s, p, e).store, id)
  {
  }

  lemma LivesOnTransitive(s: Store, t: Store, u: Store, id: nat)
    requires LivesOn(s, t, id) && LivesOn(t, u, id)
    ensures LivesOn(s, u, id)
  {
  }

  /** Completed uploads and terminal audits are final, and an active upload keeps its identity until it becomes
      one of them. */
  lemma {:induction false} LivesOnThroughout(c: Setup, states: seq<State>, steps: seq<Step>, j: nat, k: nat, id: nat)
    requires Run(c, states, steps) && j <= k < |states|
    ensures LivesOn(states[j].store, states[k].store, id)
  {
    if j < k {
      LivesOnThroughout(c, states, steps, j, k - 1, id);
      ReachableInv(c, states, steps, k - 1);
      assert Taken(c, states, steps, k - 1);
      StepLivesOn(c, states[k - 1], steps[k - 1].actor, steps[k - 1].event, id);
      LivesOnTransitive(states[j].store, states[k - 1].store, states[k].store, id);
    }
  }

  // Upload id was at some time recorded under a capture identifier with a manifest digest.
  ghost predicate Recorded(s: Store, id: nat, capture: nat, manifestSha256: Digest) {
    || (id in s.uploads && s.uploads[id].capture == capture && s.uploads[id].manifestSha256 == manifestSha256)
    || (id in s.audits && s.audits[id] == Audit(capture, manifestSha256))
  }

  /** All uploads and audits ever recorded for one capture identifier, at any two moments of a run, carry the
      same manifest digest. */
  lemma CaptureMeansOneManifest(c: Setup, states: seq<State>, steps: seq<Step>, j: nat, k: nat, u: nat, v: nat,
                                capture: nat, a: Digest, b: Digest)
    requires Run(c, states, steps) && j <= k < |states|
    requires Recorded(states[j].store, u, capture, a) && Recorded(states[k].store, v, capture, b)
    ensures a == b
  {
    LivesOnThroughout(c, states, steps, j, k, u);
    assert Recorded(states[k].store, u, capture, a);
    ReachableInv(c, states, steps, k);
  }

  // Recovery that finds the file of a record missing or damaged.
  ghost predicate Discards(c: Setup, s: Store, e: Event, key: ChunkKey) {
    e.Recover? && key in s.chunks && !Verifies(c, s.files, key, s.chunks[key])
  }

  ghost predicate SameFile(s: Store, t: Store, key: ChunkKey) {
    key in s.files ==> key in t.files && t.files[key] == s.files[key]
  }

  predicate Damages(e: Event, key: ChunkKey) {
    e.Damage? && e.key == key
  }

  // The record and its file are there unchanged.
  ghost predicate ChunkKept(s: Store, t: Store, key: ChunkKey) {
    && key in s.chunks && key in t.chunks && t.chunks[key] == s.chunks[key]
    && key in s.files && key in t.files && t.files[key] == s.files[key]
  }

  lemma RecordStays(c: Setup, s: State, p: nat, e: Event, key: ChunkKey)
    requires Can(c, s, p, e) && key in s.store.chunks && Active(s.store, key.upload) &&
      Active(After(c, s, p, e).store, key.upload)
    requires !Discards(c, s.store, e, key)
    ensures key in After(c, s, p, e).store.chunks && After(c, s, p, e).store.chunks[key] == s.store.chunks[key]
  {
  }

  lemma FileStays(c: Setup, s: State, p: nat, e: Event, key: ChunkKey)
    requires Can(c, s, p, e) && key in s.store.chunks && Active(s.store, key.upload)
    requires p < |s.procs| ==> Knows(c, s.store, s.procs[p])
    requires !Discards(c, s.store, e, key) && !Damages(e, key)
    ensures SameFile(s.store, After(c, s, p, e).store, key)
  {
  }

  lemma StepKeepsChunk(c: Setup, states: seq<State>, steps: seq<Step>, k: nat, key: ChunkKey)
    requires Run(c, states, steps) && k < |steps| && key in states[k].store.chunks
    requires Active(states[k].store, key.upload) && Active(states[k + 1].store, key.upload)
    requires Verifies(c, states[k].store.files, key, states[k].store.chunks[key]) && !Damages(steps[k].event, key)
    ensures ChunkKept(states[k].store, states[k + 1].store, key)
  {
    ReachableInv(c, states, steps, k);
    assert Taken(c, states, steps, k);
    if steps[k].actor < |states[k].procs| { assert Knows(c, states[k].store, states[k].procs[steps[k].actor]); }
    RecordStays(c, states[k], steps[k].actor, steps[k].event, key);
    FileStays(c, states[k], steps[k].actor, steps[k].event, key);
  }

  // An upload active at two moments of a run was active all the time in between.
  lemma ActiveBetween(c: Setup, states: seq<State>, steps: seq<Step>, j: nat, m: nat, k: nat, id: nat)
    requires Run(c, states, steps) && j <= m <= k < |states|
    requires Active(states[j].store, id) && Active(states[k].store, id)
    ensures Active(states[m].store, id)
  {
    LivesOnThroughout(c, states, steps, j, m, id);
    LivesOnThroughout(c, states, steps, m, k, id);
    ReachableInv(c, states, steps, k);
  }

  /** Between any two moments of a run at which an upload is active, whatever happens in between, crashes and recoveries
      included, an accepted chunk that verifies at the first keeps its record and its bytes. The one exception is a file
      damaged from outside while the server is down. */
  lemma {:induction false} AcceptedChunksStay(c: Setup, states: seq<State>, steps: seq<Step>, j: nat, k: nat,
                                              key: ChunkKey)
    requires Run(c, states, steps) && j <= k < |states| && key in states[j].store.chunks
    requires Active(states[j].store, key.upload) && Active(states[k].store, key.upload)
    requires Verifies(c, states[j].store.files, key, states[j].store.chunks[key])
    requires forall m :: j <= m < k ==> !Damages(steps[m].event, key)
    ensures ChunkKept(states[j].store, states[k].store, key)
  {
    if j < k {
      ActiveBetween(c, states, steps, j, k - 1, k, key.upload);
      AcceptedChunksStay(c, states, steps, j, k - 1, key);
      StepKeepsChunk(c, states, steps, k - 1, key);
    }
  }

  /** While the server is up, every accepted record of an active upload has its negotiated length and a file of
      exactly that length and digest. */
  lemma AcceptedChunksAreHeld(c: Setup, states: seq<State>, steps: seq<Step>, k: nat, key: ChunkKey)
    requires Run(c, states, steps) && k < |states| && states[k].serving
    requires key in states[k].store.chunks && Active(states[k].store, key.upload)
    ensures Verifies(c, states[k].store.files, key, states[k].store.chunks[key])
    ensures Negotiated(states[k].store.uploads[key.upload], key, states[k].store.chunks[key].length)
  {
    ReachableInv(c, states, steps, k);
    assert RecordFits(states[k].store, key);
    ExpectedIsNegotiated(states[k].store.uploads[key.upload], key, states[k].store.chunks[key].length);
  }
}
