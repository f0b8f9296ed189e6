/** What the requests of an upload achieve when nothing gets in their way: each,
    run to its end on an otherwise idle server, leaves exactly what it should. */
module UploadProgress {
  import opened Basics
  import opened Uploads
  import C = Chunks

  ghost predicate Resting(s: State, p: nat) {
    s.serving && p < |s.procs| && forall i :: 0 <= i < |s.procs| ==> s.procs[i] == Idle
  }

  // Process p takes these steps in turn.
  ghost function Steps(c: Setup, s: State, p: nat, events: seq<Event>): State
    decreases |events|
  {
    if events == [] then s else Steps(c, After(c, s, p, events[0]), p, events[1..])
  }

  ghost predicate CanAll(c: Setup, s: State, p: nat, events: seq<Event>)
    decreases |events|
  {
    events == [] || (Can(c, s, p, events[0]) && CanAll(c, After(c, s, p, events[0]), p, events[1..]))
  }

  lemma First(c: Setup, s: State, p: nat, e: Event, rest: seq<Event>)
    ensures Steps(c, s, p, [e] + rest) == Steps(c, After(c, s, p, e), p, rest)
    ensures CanAll(c, s, p, [e] + rest) <==> Can(c, s, p, e) && CanAll(c, After(c, s, p, e), p, rest)
  {
    assert ([e] + rest)[1..] == rest;
  }

  lemma BackToRest(procs: seq<Process>, p: nat, q: Process)
    requires p < |procs| && forall i :: 0 <= i < |procs| ==> procs[i] == Idle
    ensures procs[p := q][p := Idle] == procs
  {
  }

  // ---- chunks ----

  ghost function PutEvents(c: Setup, key: ChunkKey, bytes: Bytes): seq<Event> {
    [Put(key, ChunkRecord(|bytes|, c.sha256(bytes)))] + ([Link(bytes)] + ([Persist] + ([Refresh] + [])))
  }

  // The store with the chunk accepted, its status aside.
  ghost predicate HasChunk(s: Store, s': Store, key: ChunkKey, bytes: Bytes, sha256: Digest) {
    && s'.chunks == s.chunks[key := ChunkRecord(|bytes|, sha256)]
    && s'.audits == s.audits && s'.dirs == s.dirs + {key.upload}
    && s'.files == (if key in s.files then s.files else s.files[key := bytes])
    && s'.uploads.Keys == s.uploads.Keys
    && (forall id :: id in s.uploads && id != key.upload ==> s'.uploads[id] == s.uploads[id])
  }

  // An upload shows as uploaded exactly when it has every chunk of every artifact and no other.
  ghost predicate ShowsChunks(s: Store, id: nat)
    requires id in s.uploads
  {
    s.uploads[id].status == ArtifactUploaded <==>
      forall a, i :: 0 <= a < |s.uploads[id].sizes| && 0 <= i ==> ChunkDue(s, id, a, i)
  }

  ghost predicate ChunkDue(s: Store, id: nat, a: nat, i: nat)
    requires id in s.uploads && a < |s.uploads[id].sizes|
  {
    var count := C.ChunkCount(s.uploads[id].sizes[a], s.uploads[id].chunkSize);
    count.Some? && (ChunkKey(id, a, i) in s.chunks <==> i < count.value)
  }

  lemma StatusShows(s: Store, id: nat)
    requires id in s.uploads && s.uploads[id].status == StatusFor(s.chunks, s.uploads[id], id)
    ensures ShowsChunks(s, id)
  {
    var u := s.uploads[id];
    if AllAccepted(s.chunks, u, id) {
      forall a, i | 0 <= a < |u.sizes| && 0 <= i ensures ChunkDue(s, id, a, i) {
        IndexListed(s.chunks, id, a, i);
        assert IndexesOf(s.chunks, id, a) == C.Range(CountOf(u, a).value);
      }
    }
    if forall a, i :: 0 <= a < |u.sizes| && 0 <= i ==> ChunkDue(s, id, a, i) {
      forall a | 0 <= a < |u.sizes|
        ensures CountOf(u, a).Some? && IndexesOf(s.chunks, id, a) == C.Range(CountOf(u, a).value)
      {
        assert ChunkDue(s, id, a, 0);
        forall i: nat ensures i in IndexesOf(s.chunks, id, a) <==> i in C.Range(CountOf(u, a).value) {
          assert ChunkDue(s, id, a, i);
          IndexListed(s.chunks, id, a, i);
        }
      }
    }
  }

  lemma IndexListed(chunks: map<ChunkKey, ChunkRecord>, id: nat, a: nat, i: nat)
    ensures i in IndexesOf(chunks, id, a) <==> ChunkKey(id, a, i) in chunks
  {
    if ChunkKey(id, a, i) in chunks { assert ChunkKey(id, a, i).index == i; }
  }

  /** A chunk of the negotiated length, put on an active upload that lacks it, is accepted: its record and its file are
      there, nothing else changes, and the upload's status is exact. A file of its digest already in place is kept. */
  lemma PutAccepts(c: Setup, s: State, p: nat, key: ChunkKey, bytes: Bytes)
    requires Resting(s, p) && Active(s.store, key.upload) && key !in s.store.chunks
    requires var u := s.store.uploads[key.upload];
      Negotiated(u, key, |bytes|) && u.sizes[key.artifact] <= C.U64_MAX
    requires key in s.store.files ==> |s.store.files[key]| == |bytes| && c.sha256(s.store.files[key]) == c.sha256(bytes)
    ensures CanAll(c, s, p, PutEvents(c, key, bytes))
    ensures var s' := Steps(c, s, p, PutEvents(c, key, bytes));
      && s'.procs == s.procs && s'.serving && HasChunk(s.store, s'.store, key, bytes, c.sha256(bytes))
      && Verifies(c, s'.store.files, key, ChunkRecord(|bytes|, c.sha256(bytes)))
      && ShowsChunks(s'.store, key.upload)
  {
    ExpectedIsNegotiated(s.store.uploads[key.upload], key, |bytes|);
    var record := ChunkRecord(|bytes|, c.sha256(bytes));
    var s1 := s.(procs := s.procs[p := Storing(key, record)]);
    var s2 := State(WithFile(s.store, key, bytes), s.procs[p := Linked(key, record)], true);
    var s3 := State(AfterPersist(s2.store, key, record), s.procs[p := Refreshing(key.upload)], true);
    var s4 := State(AfterRefresh(s3.store, key.upload), s.procs, true);
    PutStarts(c, s, p, key, bytes);
    PutLinks(c, s1, p, key, bytes, s.procs);
    PutPersists(c, s2, p, key, record, s.procs);
    PutRefreshes(c, s3, p, key.upload, s.procs);
    First(c, s, p, Put(key, record), [Link(bytes)] + ([Persist] + ([Refresh] + [])));
    First(c, s1, p, Link(bytes), [Persist] + ([Refresh] + []));
    First(c, s2, p, Persist, [Refresh] + []);
    First(c, s3, p, Refresh, []);
    PutStored(c, s.store, key, bytes);
  }

  lemma PutStarts(c: Setup, s: State, p: nat, key: ChunkKey, bytes: Bytes)
    requires Resting(s, p) && Active(s.store, key.upload) && key !in s.store.chunks
    requires ExpectedOf(s.store.uploads[key.upload], key) == Some(|bytes|)
    ensures var record := ChunkRecord(|bytes|, c.sha256(bytes));
      Can(c, s, p, Put(key, record)) &&
      After(c, s, p, Put(key, record)) == s.(procs := s.procs[p := Storing(key, record)])
  {
  }

  lemma PutLinks(c: Setup, s: State, p: nat, key: ChunkKey, bytes: Bytes, procs: seq<Process>)
    requires s.serving && p < |procs| && s.procs == procs[p := Storing(key, ChunkRecord(|bytes|, c.sha256(bytes)))]
    requires key in s.store.files ==> |s.store.files[key]| == |bytes| && c.sha256(s.store.files[key]) == c.sha256(bytes)
    ensures Can(c, s, p, Link(bytes))
    ensures After(c, s, p, Link(bytes)) ==
      State(WithFile(s.store, key, bytes), procs[p := Linked(key, ChunkRecord(|bytes|, c.sha256(bytes)))], true)
  {
  }

  lemma PutPersists(c: Setup, s: State, p: nat, key: ChunkKey, record: ChunkRecord, procs: seq<Process>)
    requires s.serving && p < |procs| && s.procs == procs[p := Linked(key, record)] && Active(s.store, key.upload)
    ensures Can(c, s, p, Persist)
    ensures var store' := AfterPersist(s.store, key, record);
      After(c, s, p, Persist) == State(store', procs[p := Refreshing(key.upload)], true)
  {
  }

  lemma PutRefreshes(c: Setup, s: State, p: nat, id: nat, procs: seq<Process>)
    requires s.serving && p < |procs| && procs[p] == Idle && s.procs == procs[p := Refreshing(id)]
    ensures Can(c, s, p, Refresh) && After(c, s, p, Refresh) == State(AfterRefresh(s.store, id), procs, true)
  {
  }

  // What the three writes of a put leave.
  lemma PutStored(c: Setup, s: Store, key: ChunkKey, bytes: Bytes)
    requires Active(s, key.upload) && key !in s.chunks
    requires key in s.files ==> |s.files[key]| == |bytes| && c.sha256(s.files[key]) == c.sha256(bytes)
    ensures var record := ChunkRecord(|bytes|, c.sha256(bytes));
      var s' := AfterRefresh(AfterPersist(WithFile(s, key, bytes), key, record), key.upload);
      && HasChunk(s, s', key, bytes, c.sha256(bytes)) && Verifies(c, s'.files, key, record)
      && key.upload in s'.uploads && ShowsChunks(s', key.upload)
  {
    var record := ChunkRecord(|bytes|, c.sha256(bytes));
    var before := AfterPersist(WithFile(s, key, bytes), key, record);
    var after := AfterRefresh(before, key.upload);
    StatusOfSameLayout(after.chunks, before.uploads[key.upload], after.uploads[key.upload], key.upload);
    StatusShows(after, key.upload);
  }

  /** Putting a chunk that is already accepted, or one of another length than negotiated, changes nothing. */
  lemma PutRefuses(c: Setup, s: State, p: nat, key: ChunkKey, record: ChunkRecord)
    requires Resting(s, p) && Active(s.store, key.upload)
    requires key in s.store.chunks || !Negotiated(s.store.uploads[key.upload], key, record.length)
    ensures Can(c, s, p, Put(key, record)) && After(c, s, p, Put(key, record)) == s
  {
    ExpectedIsNegotiated(s.store.uploads[key.upload], key, record.length);
    assert s.procs[p := Idle] == s.procs;
  }

  // ---- creation ----

  // An upload with this capture identifier ended early, and had another manifest.
  ghost predicate AuditedOtherwise(s: Store, capture: nat, sha256: Digest) {
    exists a :: a in s.audits && s.audits[a].capture == capture && s.audits[a].manifestSha256 != sha256
  }

  /** A new upload is recorded with its capture identifier, manifest, sizes and chunk size, uploaded at once exactly
      if every artifact is empty. It is refused exactly if its capture identifier has an upload, or an audit of
      another manifest. */
  lemma CreateRecords(c: Setup, s: State, p: nat, id: nat, capture: nat, sha256: Digest, sizes: seq<nat>,
                      chunkSize: nat)
    requires Can(c, s, p, Create(id, capture, sha256, sizes, chunkSize)) && chunkSize > 0
    ensures var s' := After(c, s, p, Create(id, capture, sha256, sizes, chunkSize));
      var refused :=
        (exists u :: u in s.store.uploads && s.store.uploads[u].capture == capture) ||
        AuditedOtherwise(s.store, capture, sha256);
      if refused then s' == s
      else
        && s'.procs == s.procs && id in s'.store.uploads
        && s'.store == s.store.(uploads := s.store.uploads[id := s'.store.uploads[id]])
        && s'.store.uploads[id].(status := Created) == Upload(capture, sha256, Created, sizes, chunkSize)
        && s'.store.uploads[id].status ==
             (if forall i :: 0 <= i < |sizes| ==> sizes[i] == 0 then ArtifactUploaded else Created)
  {
    forall i | 0 <= i < |sizes| ensures C.ChunkCount(sizes[i], chunkSize) == Some(0) <==> sizes[i] == 0 {
      if sizes[i] > 0 && C.ChunkCount(sizes[i], chunkSize).Some? {
        C.CountBounds(sizes[i], chunkSize, C.ChunkCount(sizes[i], chunkSize).value);
      }
    }
  }

  // ---- the end of an upload ----

  // No chunk file and no directory of this upload; every other file and directory as before.
  ghost predicate Cleared(s: Store, s': Store, id: nat) {
    && s'.dirs == s.dirs - {id} && (forall k :: k in s'.files <==> k in s.files && k.upload != id)
    && (forall k :: k in s'.files ==> s'.files[k] == s.files[k])
  }

  /** Completing an upload that has all its chunks marks it completed, keeps its records and clears its files. */
  lemma CompleteEnds(c: Setup, s: State, p: nat, id: nat)
    requires Resting(s, p) && Active(s.store, id) && AllAccepted(s.store.chunks, s.store.uploads[id], id)
    ensures CanAll(c, s, p, [Complete(id)] + ([Clear] + []))
    ensures var s' := Steps(c, s, p, [Complete(id)] + ([Clear] + []));
      && s'.procs == s.procs && Cleared(s.store, s'.store, id)
      && s'.store.uploads == s.store.uploads[id := s.store.uploads[id].(status := Completed)]
      && s'.store.audits == s.store.audits && s'.store.chunks == s.store.chunks
  {
    var s1 := After(c, s, p, Complete(id));
    assert s1.procs[p] == Clearing(id);
    First(c, s, p, Complete(id), [Clear] + []);
    First(c, s1, p, Clear, []);
    BackToRest(s.procs, p, Clearing(id));
  }

  /** Ending an upload early, by request or by expiry, replaces its row and records by an audit of its capture
      identifier and manifest, and clears its files. */
  lemma TerminateEnds(c: Setup, s: State, p: nat, id: nat)
    requires Resting(s, p) && Active(s.store, id) && id !in s.store.audits
    ensures CanAll(c, s, p, [Terminate(id)] + ([Clear] + []))
    ensures var s' := Steps(c, s, p, [Terminate(id)] + ([Clear] + []));
      && s'.procs == s.procs && Cleared(s.store, s'.store, id)
      && s'.store.uploads == s.store.uploads - {id}
      && s'.store.audits ==
           s.store.audits[id := Audit(s.store.uploads[id].capture, s.store.uploads[id].manifestSha256)]
      && (forall k :: k in s'.store.chunks <==> k in s.store.chunks && k.upload != id)
      && (forall k :: k in s'.store.chunks ==> s'.store.chunks[k] == s.store.chunks[k])
  {
    var s1 := After(c, s, p, Terminate(id));
    assert s1.procs[p] == Clearing(id);
    First(c, s, p, Terminate(id), [Clear] + []);
    First(c, s1, p, Clear, []);
    BackToRest(s.procs, p, Clearing(id));
  }
}
