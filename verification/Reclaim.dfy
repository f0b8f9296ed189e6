/** What deletion, garbage collection and a lost completion race give back when
    nothing gets in their way, from any reachable state. */
module Reclaim {
  import opened Basics
  import opened Catalog
  import opened CatalogInvariants
  import opened Provenance
  import opened Protocol
  import opened ProtocolSafety
  import opened ProtocolSteps
  import opened Progress
  import opened Runs

  // ---- deletion ----

  lemma AwaitsBlob(c: Setup, procs: seq<Process>, p: nat, t: Tables, files: map<Digest, Bytes>, id: nat, session: nat,
                   fingerprint: Digest, stripes: seq<nat>, n: nat, go: Event)
    requires Idles(procs, p) && n < |stripes| && StrictlyAscending(stripes) && go.Go?
    ensures Gets(c, p, At(procs, p, t, files, AwaitDeletionBlobs(id, session, fingerprint, stripes, n)),
                 At(procs, p, t, files, AwaitDeletionBlobs(id, session, fingerprint, stripes, n + 1)))
  {
    var q := AwaitDeletionBlobs(id, session, fingerprint, stripes, n);
    SoloFree(c, procs, p, t, files, q, BlobLock(stripes[n]));
    Walks(c, procs, p, t, files, q, go, AwaitDeletionBlobs(id, session, fingerprint, stripes, n + 1));
  }

  lemma LocksDeletion(c: Setup, procs: seq<Process>, p: nat, t: Tables, files: map<Digest, Bytes>, id: nat,
                      session: nat,
                      fingerprint: Digest, stripes: seq<nat>, go: Event)
    requires Idles(procs, p) && StrictlyAscending(stripes) && go.Go?
    ensures Gets(c, p, At(procs, p, t, files, AwaitDeletionBlobs(id, session, fingerprint, stripes, 0)),
                 At(procs, p, t, files, AwaitDeletionBlobs(id, session, fingerprint, stripes, |stripes|)))
  {
    var states := seq(|stripes| + 1, n requires 0 <= n <= |stripes| =>
      At(procs, p, t, files, AwaitDeletionBlobs(id, session, fingerprint, stripes, n)));
    forall n | 0 < n < |states| ensures Gets(c, p, states[n - 1], states[n]) {
      AwaitsBlob(c, procs, p, t, files, id, session, fingerprint, stripes, n - 1, go);
    }
    Chain(c, p, states);
  }

  ghost function DeletionLocks(c: Setup, t: Tables, id: nat): seq<nat> {
    var rows := RowsOf(t, id);
    BlobStripes(c, set i | 0 <= i < |rows| :: rows[i].blob.digest)
  }

  lemma OpensDeletion(c: Setup, procs: seq<Process>, p: nat, t: Tables, files: map<Digest, Bytes>, id: nat, go: Event)
    requires Idles(procs, p) && Live(t, id) && go.Go?
    ensures var session, fingerprint := t.snapshots[id].session, t.snapshots[id].fingerprint;
      Gets(c, p, At(procs, p, t, files, Idle), At(procs, p, t, files, Deleting(id, session, fingerprint)))
  {
    var session, fingerprint := t.snapshots[id].session, t.snapshots[id].fingerprint;
    Walks(c, procs, p, t, files, Idle, StartDelete(id), AwaitDeletion(id, session, fingerprint));
    SoloFree(c, procs, p, t, files, AwaitDeletion(id, session, fingerprint), SnapshotOf(c, session, fingerprint));
    Walks(c, procs, p, t, files, AwaitDeletion(id, session, fingerprint), go, Deleting(id, session, fingerprint));
    Then(c, p, At(procs, p, t, files, Idle), At(procs, p, t, files, AwaitDeletion(id, session, fingerprint)),
         At(procs, p, t, files, Deleting(id, session, fingerprint)));
  }

  lemma LooksUpDeletion(c: Setup, procs: seq<Process>, p: nat, t: Tables, files: map<Digest, Bytes>, id: nat,
                        session: nat,
                        fingerprint: Digest, go: Event)
    requires Idles(procs, p) && Live(t, id) && go.Go?
    ensures Gets(c, p, At(procs, p, t, files, Deleting(id, session, fingerprint)),
                 At(procs, p, t, files, AwaitDeletionBlobs(id, session, fingerprint, DeletionLocks(c, t, id), 0)))
  {
    Walks(c, procs, p, t, files, Deleting(id, session, fingerprint), go,
          AwaitDeletionBlobs(id, session, fingerprint, DeletionLocks(c, t, id), 0));
  }

  lemma EndsLocking(c: Setup, procs: seq<Process>, p: nat, t: Tables, files: map<Digest, Bytes>, id: nat, session: nat,
                    fingerprint: Digest, stripes: seq<nat>, go: Event)
    requires Idles(procs, p) && go.Go?
    ensures Gets(c, p, At(procs, p, t, files, AwaitDeletionBlobs(id, session, fingerprint, stripes, |stripes|)),
                 At(procs, p, t, files, Burying(id, session, fingerprint, stripes)))
  {
    Walks(c, procs, p, t, files, AwaitDeletionBlobs(id, session, fingerprint, stripes, |stripes|), go,
          Burying(id, session, fingerprint, stripes));
  }

  lemma ReachesBurying(c: Setup, procs: seq<Process>, p: nat, t: Tables, files: map<Digest, Bytes>, id: nat,
                       session: nat,
                       fingerprint: Digest, go: Event)
    requires Idles(procs, p) && Live(t, id) && go.Go?
    ensures Gets(c, p, At(procs, p, t, files, Deleting(id, session, fingerprint)),
                 At(procs, p, t, files, Burying(id, session, fingerprint, DeletionLocks(c, t, id))))
  {
    var stripes := DeletionLocks(c, t, id);
    LooksUpDeletion(c, procs, p, t, files, id, session, fingerprint, go);
    LocksDeletion(c, procs, p, t, files, id, session, fingerprint, stripes, go);
    EndsLocking(c, procs, p, t, files, id, session, fingerprint, stripes, go);
    Then(c, p, At(procs, p, t, files, Deleting(id, session, fingerprint)),
         At(procs, p, t, files, AwaitDeletionBlobs(id, session, fingerprint, stripes, 0)),
         At(procs, p, t, files, AwaitDeletionBlobs(id, session, fingerprint, stripes, |stripes|)));
    Then(c, p, At(procs, p, t, files, Deleting(id, session, fingerprint)),
         At(procs, p, t, files, AwaitDeletionBlobs(id, session, fingerprint, stripes, |stripes|)),
         At(procs, p, t, files, Burying(id, session, fingerprint, stripes)));
  }

  lemma Buries(c: Setup, procs: seq<Process>, p: nat, t: Tables, files: map<Digest, Bytes>, id: nat, stripes: seq<nat>,
               now: int, tomb: nat)
    requires Idles(procs, p) && Live(t, id) && tomb !in t.tombstones
    ensures var session, fingerprint := t.snapshots[id].session, t.snapshots[id].fingerprint;
      Gets(c, p, At(procs, p, t, files, Burying(id, session, fingerprint, stripes)),
           At(procs, p, Apply(c, t, Delete(id, tomb, now)), files, Idle))
  {
    var session, fingerprint := t.snapshots[id].session, t.snapshots[id].fingerprint;
    Moves(c, procs, p, t, files, Burying(id, session, fingerprint, stripes), Go(now, tomb));
  }

  lemma Deletes(c: Setup, procs: seq<Process>, p: nat, t: Tables, files: map<Digest, Bytes>, id: nat, now: int,
                tomb: nat)
    requires Idles(procs, p) && Live(t, id) && tomb !in t.tombstones
    ensures Gets(c, p, At(procs, p, t, files, Idle), At(procs, p, Apply(c, t, Delete(id, tomb, now)), files, Idle))
  {
    var session, fingerprint, stripes := t.snapshots[id].session, t.snapshots[id].fingerprint, DeletionLocks(c, t, id);
    var s0, s1 := At(procs, p, t, files, Idle), At(procs, p, t, files, Deleting(id, session, fingerprint));
    var s2 := At(procs, p, t, files, Burying(id, session, fingerprint, stripes));
    var s3 := At(procs, p, Apply(c, t, Delete(id, tomb, now)), files, Idle);
    OpensDeletion(c, procs, p, t, files, id, Go(now, tomb));
    ReachesBurying(c, procs, p, t, files, id, session, fingerprint, Go(now, tomb));
    Buries(c, procs, p, t, files, id, stripes, now, tomb);
    Then(c, p, s0, s1, s2);
    Then(c, p, s0, s2, s3);
  }

  // ---- what a deletion leaves ----

  ghost predicate DeclaredBy(t: Tables, id: nat, d: Digest) {
    exists i :: Declares(t, id, i, d)
  }

  // Some other live snapshot declares the digest.
  ghost predicate DeclaredElsewhere(t: Tables, id: nat, d: Digest) {
    exists other :: other != id && DeclaredBy(t, other, d)
  }

  // The row of a digest only the deleted snapshot declared becomes a candidate, due after the grace period; every other
  // row stays as it is.
  ghost predicate OrphanedRow(c: Setup, t: Tables, t': Tables, id: nat, now: int, d: Digest)
    requires d in t.blobs && d in t'.blobs
  {
    if DeclaredBy(t, id, d) && !DeclaredElsewhere(t, id, d)
    then t'.blobs[d] == t.blobs[d].(candidate := Some(Candidate(now, now + c.grace)))
    else t'.blobs[d] == t.blobs[d]
  }

  // The snapshot is tombstoned and its artifact rows are gone; no bytes are.
  ghost predicate DeletedSnapshot(c: Setup, t: Tables, t': Tables, id: nat, now: int, tomb: nat)
    requires id in t.snapshots
  {
    var row := t.snapshots[id];
    && t'.snapshots == t.snapshots[id := row.(deletedAt := Some(now))]
    && t'.tombstones == t.tombstones[tomb := Tombstone(id, row.session, row.fingerprint, now, None)]
    && t'.artifacts == t.artifacts - {id} && t'.uploads == t.uploads && t'.captures == t.captures
    && t'.blobs.Keys == t.blobs.Keys && forall d :: d in t.blobs ==> OrphanedRow(c, t, t', id, now, d)
  }

  lemma UsedIsDeclared(t: Tables, id: nat, d: Digest)
    requires ProjectionsFit(t) && Live(t, id) && d in t.blobs
    ensures Uses(RowsOf(t, id), BlobId(d, t.blobs[d].serial)) <==> DeclaredBy(t, id, d)
  {
    var rows, artifacts, blob := t.artifacts[id], t.snapshots[id].manifest.artifacts, BlobId(d, t.blobs[d].serial);
    assert RowsFit(t.blobs, artifacts, rows);
    if i :| 0 <= i < |rows| && rows[i].blob == blob {
      assert RowFits(t.blobs, artifacts[i], rows[i]);
      assert Declares(t, id, i, d);
    }
    if i :| Declares(t, id, i, d) {
      assert RowFits(t.blobs, artifacts[i], rows[i]);
      assert rows[i].blob == blob;
    }
  }

  lemma DeclaredAfterDelete(c: Setup, t: Tables, x: Transaction, d: Digest)
    requires x.Delete? && Allowed(c, t, x) && d in t.blobs && ProjectionsFit(Apply(c, t, x))
    ensures RowReferenced(Apply(c, t, x), d) <==> DeclaredElsewhere(t, x.snapshot, d)
  {
    var t' := Apply(c, t, x);
    ReferencedMeansDeclared(t', d);
    if id, i :| Declares(t', id, i, d) {
      assert Declares(t, id, i, d);
      assert DeclaredBy(t, id, d);
    }
    if other :| other != x.snapshot && DeclaredBy(t, other, d) {
      var i :| Declares(t, other, i, d);
      assert Declares(t', other, i, d);
    }
  }

  lemma DeletedRow(c: Setup, t: Tables, x: Transaction, d: Digest)
    requires BlobsSound(c, t) && x.Delete? && Allowed(c, t, x) && d in t.blobs && ProjectionsFit(Apply(c, t, x))
    ensures OrphanedRow(c, t, Apply(c, t, x), x.snapshot, x.now, d)
  {
    UsedIsDeclared(t, x.snapshot, d);
    DeclaredAfterDelete(c, t, x, d);
    DeleteKeepsCandidate(c, t, x, d);
    if DeclaredBy(t, x.snapshot, d) {
      ReferencedMeansDeclared(t, d);
      assert CandidateExact(c, t, d);
    }
  }

  lemma DeleteFields(c: Setup, t: Tables, x: Transaction)
    requires BlobsSound(c, t) && x.Delete? && Allowed(c, t, x)
    ensures DeletedSnapshot(c, t, Apply(c, t, x), x.snapshot, x.now, x.tombstone)
  {
    KeepsBlobsSound(c, t, x);
    forall d | d in t.blobs ensures OrphanedRow(c, t, Apply(c, t, x), x.snapshot, x.now, d) {
      DeletedRow(c, t, x, d);
    }
  }

  /** From every reachable state, the deletion of a live snapshot gets to its end if nothing gets in its way. The
      digests only that snapshot declared become due after the grace period, counted from the deletion's clock. */
  lemma UndisturbedDeletion(c: Setup, states: seq<State>, steps: seq<Step>, k: nat, p: nat, id: nat, now: int,
                            tomb: nat)
    returns (s': State)
    requires CollisionFree(c) && Run(c, states, steps) && k < |states| && Solo(states[k], p)
    requires Live(states[k].tables, id) && tomb !in states[k].tables.tombstones
    ensures Gets(c, p, states[k], s') && Solo(s', p) && s'.files == states[k].files
    ensures DeletedSnapshot(c, states[k].tables, s'.tables, id, now, tomb)
  {
    var s := states[k];
    ReachableInv(c, states, steps, k);
    s' := At(s.procs, p, Apply(c, s.tables, Delete(id, tomb, now)), s.files, Idle);
    SoloAt(s, p);
    Deletes(c, s.procs, p, s.tables, s.files, id, now, tomb);
    DeleteFields(c, s.tables, Delete(id, tomb, now));
  }

  // ---- collection ----

  // The digests of the queue whose row is still due.
  ghost function DueDigests(t: Tables, queue: seq<BlobId>, now: int): set<Digest> {
    set b | b in queue && Collectable(t, b, now) :: b.digest
  }

  lemma DueIsUnreferenced(c: Setup, t: Tables, blob: BlobId, now: int)
    requires BlobsSound(c, t) && Collectable(t, blob, now)
    ensures !Referenced(t, blob)
  {
    assert CandidateExact(c, t, blob.digest);
  }

  lemma Picks(c: Setup, procs: seq<Process>, p: nat, t: Tables, files: map<Digest, Bytes>, queue: seq<BlobId>, now: int,
              go: Event)
    requires Idles(procs, p) && queue != [] && go.Go?
    ensures Gets(c, p, At(procs, p, t, files, Picking(now, queue)),
                 At(procs, p, t, files, Authorising(now, queue[0], queue[1..])))
  {
    SoloFree(c, procs, p, t, files, Picking(now, queue), BlobOf(c, queue[0].digest));
    Walks(c, procs, p, t, files, Picking(now, queue), go, Authorising(now, queue[0], queue[1..]));
  }

  lemma Authorises(c: Setup, procs: seq<Process>, p: nat, t: Tables, files: map<Digest, Bytes>, blob: BlobId,
                   queue: seq<BlobId>, now: int, go: Event)
    requires BlobsSound(c, t) && Idles(procs, p) && Collectable(t, blob, now) && go.Go?
    ensures Gets(c, p, At(procs, p, t, files, Authorising(now, blob, queue)),
                 At(procs, p, t, files, Unlinking(now, blob, queue)))
  {
    DueIsUnreferenced(c, t, blob, now);
    Walks(c, procs, p, t, files, Authorising(now, blob, queue), go, Unlinking(now, blob, queue));
  }

  lemma UnlinksBlob(c: Setup, procs: seq<Process>, p: nat, t: Tables, files: map<Digest, Bytes>, blob: BlobId,
                    queue: seq<BlobId>, now: int, go: Event)
    requires Idles(procs, p) && go.Go?
    ensures Gets(c, p, At(procs, p, t, files, Unlinking(now, blob, queue)),
                 At(procs, p, t, files - {blob.digest}, Dropping(now, blob, queue)))
  {
    Moves(c, procs, p, t, files, Unlinking(now, blob, queue), go);
  }

  lemma DropsRow(c: Setup, procs: seq<Process>, p: nat, t: Tables, files: map<Digest, Bytes>, blob: BlobId,
                 queue: seq<BlobId>, now: int, go: Event)
    requires Idles(procs, p) && go.Go?
    ensures Gets(c, p, At(procs, p, t, files, Dropping(now, blob, queue)),
                 At(procs, p, Apply(c, t, Collect(blob, now)), files, Picking(now, queue)))
  {
    Moves(c, procs, p, t, files, Dropping(now, blob, queue), go);
  }

  // The rows of these digests gone, and nothing else changed.
  ghost predicate Dropped(t: Tables, t': Tables, digests: set<Digest>) {
    t' == t.(blobs := t.blobs - digests, ledger := t'.ledger)
  }

  lemma DueAfterCollect(c: Setup, t: Tables, queue: seq<BlobId>, now: int)
    requires BlobsSound(c, t) && queue != [] && Collectable(t, queue[0], now)
    ensures var t', d := Apply(c, t, Collect(queue[0], now)), queue[0].digest;
      && BlobsSound(c, t') && Dropped(t, t', {d})
      && DueDigests(t, queue, now) == {d} + DueDigests(t', queue[1..], now)
  {
    DueIsUnreferenced(c, t, queue[0], now);
    KeepsBlobsSound(c, t, Collect(queue[0], now));
    var t', rest := Apply(c, t, Collect(queue[0], now)), queue[1..];
    assert queue == [queue[0]] + rest;
    forall b | b in rest && b.digest != queue[0].digest ensures Collectable(t', b, now) <==> Collectable(t, b, now) {
    }
    forall b | b in rest && Collectable(t', b, now) ensures Collectable(t, b, now) {
    }
  }

  lemma DueWithout(t: Tables, queue: seq<BlobId>, now: int)
    requires queue != [] && !Collectable(t, queue[0], now)
    ensures DueDigests(t, queue, now) == DueDigests(t, queue[1..], now)
  {
    assert queue == [queue[0]] + queue[1..];
  }

  lemma DroppedTwice(t: Tables, t1: Tables, t2: Tables, d: Digest, rest: set<Digest>)
    requires Dropped(t, t1, {d}) && Dropped(t1, t2, rest)
    ensures Dropped(t, t2, {d} + rest)
  {
    WithoutBoth(t.blobs, d, rest);
  }

  lemma WithoutBoth<T>(m: map<Digest, T>, d: Digest, rest: set<Digest>)
    ensures m - {d} - rest == m - ({d} + rest)
  {
  }

  lemma PassesOver(c: Setup, procs: seq<Process>, p: nat, t: Tables, files: map<Digest, Bytes>, blob: BlobId,
                   queue: seq<BlobId>, now: int, go: Event)
    requires Idles(procs, p) && !Collectable(t, blob, now) && go.Go?
    ensures Gets(c, p, At(procs, p, t, files, Authorising(now, blob, queue)),
                 At(procs, p, t, files, Picking(now, queue)))
  {
    Walks(c, procs, p, t, files, Authorising(now, blob, queue), go, Picking(now, queue));
  }

  lemma CollectsOne(c: Setup, procs: seq<Process>, p: nat, t: Tables, files: map<Digest, Bytes>, queue: seq<BlobId>,
                    now: int,
                    go: Event)
    requires BlobsSound(c, t) && Idles(procs, p) && queue != [] && Collectable(t, queue[0], now) && go.Go?
    ensures Gets(c, p, At(procs, p, t, files, Picking(now, queue)),
                 At(procs, p, Apply(c, t, Collect(queue[0], now)), files - {queue[0].digest}, Picking(now, queue[1..])))
  {
    var blob, rest, files' := queue[0], queue[1..], files - {queue[0].digest};
    var s0, s1 := At(procs, p, t, files, Picking(now, queue)), At(procs, p, t, files, Authorising(now, blob, rest));
    var s2 := At(procs, p, t, files, Unlinking(now, blob, rest));
    var s3 := At(procs, p, t, files', Dropping(now, blob, rest));
    Picks(c, procs, p, t, files, queue, now, go);
    Authorises(c, procs, p, t, files, blob, rest, now, go);
    UnlinksBlob(c, procs, p, t, files, blob, rest, now, go);
    DropsRow(c, procs, p, t, files', blob, rest, now, go);
    Then(c, p, s0, s1, s2);
    Then(c, p, s0, s2, s3);
    Then(c, p, s0, s3, At(procs, p, Apply(c, t, Collect(blob, now)), files', Picking(now, rest)));
  }

  lemma EndsPass(c: Setup, procs: seq<Process>, p: nat, t: Tables, files: map<Digest, Bytes>, now: int, go: Event)
    requires Idles(procs, p) && go.Go?
    ensures Gets(c, p, At(procs, p, t, files, Picking(now, [])), At(procs, p, t, files, Idle))
  {
    Walks(c, procs, p, t, files, Picking(now, []), go, Idle);
  }

  lemma {:induction false} Collects(c: Setup, procs: seq<Process>, p: nat, t: Tables, files: map<Digest, Bytes>,
                                    queue: seq<BlobId>, now: int, go: Event) returns (t': Tables)
    requires BlobsSound(c, t) && Idles(procs, p) && go.Go?
    ensures Gets(c, p, At(procs, p, t, files, Picking(now, queue)),
                 At(procs, p, t', files - DueDigests(t, queue, now), Idle))
    ensures Dropped(t, t', DueDigests(t, queue, now))
    decreases |queue|
  {
    if queue == [] {
      t' := t;
      assert files - DueDigests(t, [], now) == files && t.blobs - DueDigests(t, [], now) == t.blobs;
      EndsPass(c, procs, p, t, files, now, go);
    } else if Collectable(t, queue[0], now) {
      t' := CollectsMore(c, procs, p, t, files, queue, now, go);
    } else {
      var rest := queue[1..];
      Picks(c, procs, p, t, files, queue, now, go);
      PassesOver(c, procs, p, t, files, queue[0], rest, now, go);
      Then(c, p, At(procs, p, t, files, Picking(now, queue)), At(procs, p, t, files, Authorising(now, queue[0], rest)),
           At(procs, p, t, files, Picking(now, rest)));
      t' := Collects(c, procs, p, t, files, rest, now, go);
      DueWithout(t, queue, now);
      Then(c, p, At(procs, p, t, files, Picking(now, queue)), At(procs, p, t, files, Picking(now, rest)),
           At(procs, p, t', files - DueDigests(t, queue, now), Idle));
    }
  }

  lemma CollectsMore(c: Setup, procs: seq<Process>, p: nat, t: Tables, files: map<Digest, Bytes>, queue: seq<BlobId>,
                     now: int, go: Event) returns (t': Tables)
    requires BlobsSound(c, t) && Idles(procs, p) && queue != [] && Collectable(t, queue[0], now) && go.Go?
    ensures Gets(c, p, At(procs, p, t, files, Picking(now, queue)),
                 At(procs, p, t', files - DueDigests(t, queue, now), Idle))
    ensures Dropped(t, t', DueDigests(t, queue, now))
    decreases |queue|, 0
  {
    var d, rest, t1 := queue[0].digest, queue[1..], Apply(c, t, Collect(queue[0], now));
    CollectsOne(c, procs, p, t, files, queue, now, go);
    DueAfterCollect(c, t, queue, now);
    t' := Collects(c, procs, p, t1, files - {d}, rest, now, go);
    DroppedTwice(t, t1, t', d, DueDigests(t1, rest, now));
    WithoutBoth(files, d, DueDigests(t1, rest, now));
    Then(c, p, At(procs, p, t, files, Picking(now, queue)), At(procs, p, t1, files - {d}, Picking(now, rest)),
         At(procs, p, t', files - DueDigests(t, queue, now), Idle));
  }

  /** In every reachable state, a pass left alone before its next row gets to its end: of the rows still in its queue
      those due are gone, with their files, and nothing else has changed. */
  lemma UndisturbedPass(c: Setup, states: seq<State>, steps: seq<Step>, k: nat, p: nat, queue: seq<BlobId>, now: int)
    returns (s': State)
    requires CollisionFree(c) && Run(c, states, steps) && k < |states| && SoloIn(states[k], p, Picking(now, queue))
    ensures Gets(c, p, states[k], s') && Solo(s', p)
    ensures s'.files == states[k].files - DueDigests(states[k].tables, queue, now)
    ensures Dropped(states[k].tables, s'.tables, DueDigests(states[k].tables, queue, now))
  {
    var s, procs := states[k], states[k].procs[p := Idle];
    ReachableInv(c, states, steps, k);
    assert procs[p := s.procs[p]] == s.procs && procs[p := Idle] == procs;
    var t' := Collects(c, procs, p, s.tables, s.files, queue, now, Go(now, 0));
    s' := At(procs, p, t', s.files - DueDigests(s.tables, queue, now), Idle);
  }

  /** From every reachable state, a pass that selects these due rows gets to its end if nothing gets in its way: those
      rows and their files are gone, and nothing else has changed. */
  lemma UndisturbedCollection(c: Setup, states: seq<State>, steps: seq<Step>, k: nat, p: nat, queue: seq<BlobId>,
                              now: int) returns (s': State)
    requires CollisionFree(c) && Run(c, states, steps) && k < |states| && Solo(states[k], p)
    requires forall i :: 0 <= i < |queue| ==> Collectable(states[k].tables, queue[i], now)
    ensures Gets(c, p, states[k], s') && Solo(s', p)
    ensures var digests := set b | b in queue :: b.digest;
      s'.files == states[k].files - digests && Dropped(states[k].tables, s'.tables, digests)
  {
    var s, go := states[k], Go(now, 0);
    ReachableInv(c, states, steps, k);
    SoloAt(s, p);
    Walks(c, s.procs, p, s.tables, s.files, Idle, StartCollect(now, queue), Picking(now, queue));
    var t' := Collects(c, s.procs, p, s.tables, s.files, queue, now, go);
    assert DueDigests(s.tables, queue, now) == set b | b in queue :: b.digest;
    s' := At(s.procs, p, t', s.files - DueDigests(s.tables, queue, now), Idle);
    Then(c, p, s, At(s.procs, p, s.tables, s.files, Picking(now, queue)), s');
  }

  // ---- a completion that lost its race ----

  // Among the first n promotions, the files created for this completion whose digest has no row.
  ghost function Uncommitted(t: Tables, promotions: seq<Promotion>, n: nat): set<Digest>
    requires n <= |promotions|
  {
    CreatedBy(promotions[..n]) - t.blobs.Keys
  }

  lemma UncommittedNext(t: Tables, promotions: seq<Promotion>, n: nat)
    requires n < |promotions|
    ensures var d := promotions[n].digest;
      Uncommitted(t, promotions, n + 1) ==
      Uncommitted(t, promotions, n) + (if promotions[n].created && d !in t.blobs then {d} else {})
  {
    assert promotions[..n + 1] == promotions[..n] + [promotions[n]];
    CreatedNext(promotions[..n], promotions[n]);
  }

  lemma CreatedNext(promotions: seq<Promotion>, last: Promotion)
    ensures CreatedBy(promotions + [last]) == CreatedBy(promotions) + (if last.created then {last.digest} else {})
  {
    var all := promotions + [last];
    forall d | d in CreatedBy(promotions) + (if last.created then {last.digest} else {}) ensures d in CreatedBy(all) {
      if d in CreatedBy(promotions) {
        var i :| 0 <= i < |promotions| && promotions[i].created && promotions[i].digest == d;
        assert all[i] == promotions[i];
      } else {
        assert all[|promotions|] == last;
      }
    }
  }

  ghost function CleaningAt(procs: seq<Process>, p: nat, t: Tables, files: map<Digest, Bytes>, job: Job,
                            promotions: seq<Promotion>, n: nat, winner: Option<nat>): State
    requires p < |procs| && n <= |promotions|
  {
    At(procs, p, t, files - Uncommitted(t, promotions, n), Cleaning(job, promotions, n, winner))
  }

  lemma Skips(c: Setup, procs: seq<Process>, p: nat, t: Tables, files: map<Digest, Bytes>, job: Job,
              promotions: seq<Promotion>, n: nat, winner: Option<nat>, go: Event)
    requires Idles(procs, p) && n < |promotions| && go.Go?
    requires !(promotions[n].created && promotions[n].digest !in t.blobs)
    ensures Gets(c, p, At(procs, p, t, files, Cleaning(job, promotions, n, winner)),
                 At(procs, p, t, files, Cleaning(job, promotions, n + 1, winner)))
  {
    Walks(c, procs, p, t, files, Cleaning(job, promotions, n, winner), go, Cleaning(job, promotions, n + 1, winner));
  }

  lemma Condemns(c: Setup, procs: seq<Process>, p: nat, t: Tables, files: map<Digest, Bytes>, job: Job,
                 promotions: seq<Promotion>, n: nat, winner: Option<nat>, go: Event)
    requires Idles(procs, p) && n < |promotions| && go.Go?
    requires promotions[n].created && promotions[n].digest !in t.blobs
    ensures Gets(c, p, At(procs, p, t, files, Cleaning(job, promotions, n, winner)),
                 At(procs, p, t, files, Removing(job, promotions, n, winner)))
  {
    Walks(c, procs, p, t, files, Cleaning(job, promotions, n, winner), go, Removing(job, promotions, n, winner));
  }

  lemma Unlinks(c: Setup, procs: seq<Process>, p: nat, t: Tables, files: map<Digest, Bytes>, job: Job,
                promotions: seq<Promotion>, n: nat, winner: Option<nat>, go: Event)
    requires Idles(procs, p) && n < |promotions| && go.Go?
    ensures Gets(c, p, At(procs, p, t, files, Removing(job, promotions, n, winner)),
                 At(procs, p, t, files - {promotions[n].digest}, Cleaning(job, promotions, n + 1, winner)))
  {
    Moves(c, procs, p, t, files, Removing(job, promotions, n, winner), go);
  }

  lemma CleansOne(c: Setup, procs: seq<Process>, p: nat, t: Tables, files: map<Digest, Bytes>, job: Job,
                  promotions: seq<Promotion>, n: nat, winner: Option<nat>, go: Event)
    requires Idles(procs, p) && n < |promotions| && go.Go?
    ensures Gets(c, p, CleaningAt(procs, p, t, files, job, promotions, n, winner),
                 CleaningAt(procs, p, t, files, job, promotions, n + 1, winner))
  {
    var files', files'' := files - Uncommitted(t, promotions, n), files - Uncommitted(t, promotions, n + 1);
    UncommittedNext(t, promotions, n);
    if promotions[n].created && promotions[n].digest !in t.blobs {
      assert files' - {promotions[n].digest} == files'';
      Condemns(c, procs, p, t, files', job, promotions, n, winner, go);
      Unlinks(c, procs, p, t, files', job, promotions, n, winner, go);
      Then(c, p, At(procs, p, t, files', Cleaning(job, promotions, n, winner)),
           At(procs, p, t, files', Removing(job, promotions, n, winner)),
           At(procs, p, t, files'', Cleaning(job, promotions, n + 1, winner)));
    } else {
      assert files' == files'';
      Skips(c, procs, p, t, files', job, promotions, n, winner, go);
    }
  }

  lemma {:induction false} CleansFirst(c: Setup, procs: seq<Process>, p: nat, t: Tables, files: map<Digest, Bytes>,
                                       job: Job,
                                       promotions: seq<Promotion>, n: nat, winner: Option<nat>, go: Event)
    requires Idles(procs, p) && n <= |promotions| && go.Go?
    ensures Gets(c, p, CleaningAt(procs, p, t, files, job, promotions, 0, winner),
                 CleaningAt(procs, p, t, files, job, promotions, n, winner))
  {
    if n == 0 {
      Stays(c, p, CleaningAt(procs, p, t, files, job, promotions, 0, winner));
    } else {
      CleansFirst(c, procs, p, t, files, job, promotions, n - 1, winner, go);
      CleansOne(c, procs, p, t, files, job, promotions, n - 1, winner, go);
      Then(c, p, CleaningAt(procs, p, t, files, job, promotions, 0, winner),
           CleaningAt(procs, p, t, files, job, promotions, n - 1, winner),
           CleaningAt(procs, p, t, files, job, promotions, n, winner));
    }
  }

  lemma ChoosesWinner(c: Setup, procs: seq<Process>, p: nat, t: Tables, files: map<Digest, Bytes>, job: Job,
                      promotions: seq<Promotion>, w: nat, go: Event)
    requires Idles(procs, p) && go.Go?
    ensures Gets(c, p, At(procs, p, t, files, Cleaning(job, promotions, |promotions|, Some(w))),
                 At(procs, p, t, files, AttachingWinner(job, promotions, w)))
  {
    Walks(c, procs, p, t, files, Cleaning(job, promotions, |promotions|, Some(w)), go,
          AttachingWinner(job, promotions, w));
  }

  lemma AttachesWinner(c: Setup, procs: seq<Process>, p: nat, t: Tables, files: map<Digest, Bytes>, job: Job,
                       promotions: seq<Promotion>, w: nat, go: Event)
    requires Idles(procs, p) && Live(t, w) && UploadActive(t, job) && go.Go?
    ensures Gets(c, p, At(procs, p, t, files, AttachingWinner(job, promotions, w)),
                 At(procs, p, Apply(c, t, Attach(job.upload, w)), files, Idle))
  {
    Moves(c, procs, p, t, files, AttachingWinner(job, promotions, w), go);
  }

  lemma FindsWinner(c: Setup, procs: seq<Process>, p: nat, t: Tables, files: map<Digest, Bytes>, job: Job,
                    promotions: seq<Promotion>, go: Event)
    requires Idles(procs, p) && go.Go?
    ensures Gets(c, p, At(procs, p, t, files, Lost(job, promotions)),
                 CleaningAt(procs, p, t, files, job, promotions, 0, LiveFor(c, t, job)))
  {
    assert promotions[..0] == [] && CreatedBy([]) == {} && files - Uncommitted(t, promotions, 0) == files;
    Walks(c, procs, p, t, files, Lost(job, promotions), go, Cleaning(job, promotions, 0, LiveFor(c, t, job)));
  }

  lemma GivesUp(c: Setup, procs: seq<Process>, p: nat, t: Tables, files: map<Digest, Bytes>, job: Job,
                promotions: seq<Promotion>, w: nat, go: Event)
    requires Idles(procs, p) && LiveFor(c, t, job) == Some(w) && UploadActive(t, job) && go.Go?
    ensures Gets(c, p, At(procs, p, t, files, Lost(job, promotions)),
                 At(procs, p, Apply(c, t, Attach(job.upload, w)), files - Uncommitted(t, promotions, |promotions|),
                    Idle))
  {
    var n, winner := |promotions|, LiveFor(c, t, job);
    var s0 := At(procs, p, t, files, Lost(job, promotions));
    var s1 := CleaningAt(procs, p, t, files, job, promotions, 0, winner);
    var s2, files' := CleaningAt(procs, p, t, files, job, promotions, n, winner), files - Uncommitted(t, promotions, n);
    var s3 := At(procs, p, t, files', AttachingWinner(job, promotions, w));
    FindsWinner(c, procs, p, t, files, job, promotions, go);
    CleansFirst(c, procs, p, t, files, job, promotions, n, winner, go);
    ChoosesWinner(c, procs, p, t, files', job, promotions, w, go);
    AttachesWinner(c, procs, p, t, files', job, promotions, w, go);
    Then(c, p, s0, s1, s2);
    Then(c, p, s0, s2, s3);
    Then(c, p, s0, s3, At(procs, p, Apply(c, t, Attach(job.upload, w)), files', Idle));
  }

  lemma SoloLost(c: Setup, s: State, p: nat, job: Job, promotions: seq<Promotion>, w: nat) returns (s': State)
    requires SoloIn(s, p, Lost(job, promotions)) && LiveFor(c, s.tables, job) == Some(w) && UploadActive(s.tables, job)
    ensures Gets(c, p, s, s') && Solo(s', p) && s'.tables == Apply(c, s.tables, Attach(job.upload, w))
    ensures s'.files == s.files - (CreatedBy(promotions) - s.tables.blobs.Keys)
  {
    var procs := s.procs[p := Idle];
    assert promotions[..|promotions|] == promotions && procs[p := s.procs[p]] == s.procs && procs[p := Idle] == procs;
    s' := At(procs, p, Apply(c, s.tables, Attach(job.upload, w)),
             s.files - Uncommitted(s.tables, promotions, |promotions|), Idle);
    GivesUp(c, procs, p, s.tables, s.files, job, promotions, w, Go(0, 0));
  }

  lemma LostKnows(c: Setup, s: State, p: nat, job: Job, promotions: seq<Promotion>)
    requires Inv(c, s) && SoloIn(s, p, Lost(job, promotions))
    ensures UploadActive(s.tables, job)
  {
    assert Knows(c, s.tables, s.files, s.procs[p]);
  }

  /** A completion that finds a winner in its recording transaction removes the files it created that no row owns, keeps
      every other file, and completes its upload on the winner without bytes. */
  lemma LostRaceAttaches(c: Setup, states: seq<State>, steps: seq<Step>, k: nat, p: nat, job: Job,
                         promotions: seq<Promotion>)
    returns (s': State, w: nat)
    requires CollisionFree(c) && Run(c, states, steps) && k < |states| && SoloIn(states[k], p, Lost(job, promotions))
    requires exists id :: HasContent(states[k].tables, job.manifest, id)
    ensures Gets(c, p, states[k], s') && Solo(s', p)
    ensures s'.files == states[k].files - (CreatedBy(promotions) - states[k].tables.blobs.Keys)
    ensures CompletedOn(states[k].tables, s'.tables, job.upload, job.manifest, w)
  {
    var t := states[k].tables;
    ReachableInv(c, states, steps, k);
    LostKnows(c, states[k], p, job, promotions);
    FindsContent(c, t, job);
    w := LiveFor(c, t, job).value;
    s' := SoloLost(c, states[k], p, job, promotions, w);
    AttachIsCompletion(c, t, job, w);
  }
}
