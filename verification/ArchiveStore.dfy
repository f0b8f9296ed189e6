/** The loops inside the protocol's steps, as they run while their locks are held:
    promotion and its cleanup, recording blob rows, scheduling candidates on
    deletion, and a garbage-collection pass. Each is proved to have the effect
    that the transition system gives the step it belongs to. */
module ArchiveStore {
  import opened Basics
  import opened Catalog
  import opened CatalogInvariants
  import opened Protocol

  // What can go wrong while linking one blob.
  datatype LinkFault = NoFault | NotLinked | NotSynced

  predicate ReferencedBy(snapshots: map<nat, Snapshot>, artifacts: map<nat, seq<ArtifactRow>>, blob: BlobId) {
    exists id :: id in snapshots && snapshots[id].deletedAt.None? && id in artifacts &&
      exists i :: 0 <= i < |artifacts[id]| && artifacts[id][i].blob == blob
  }

  lemma ReferencedByIs(t: Tables, blob: BlobId)
    ensures ReferencedBy(t.snapshots, t.artifacts, blob) <==> Referenced(t, blob)
  {
    if ReferencedBy(t.snapshots, t.artifacts, blob) {
      var id :|
        id in t.snapshots && t.snapshots[id].deletedAt.None? && id in t.artifacts &&
        exists i :: 0 <= i < |t.artifacts[id]| && t.artifacts[id][i].blob == blob;
      var i :| 0 <= i < |t.artifacts[id]| && t.artifacts[id][i].blob == blob;
      assert Live(t, id) && RowUses(t, id, i, blob);
    }
    if Referenced(t, blob) {
      var id, i :| Live(t, id) && RowUses(t, id, i, blob);
      assert id in t.snapshots && t.artifacts[id][i].blob == blob;
    }
  }

  // The digests a cleanup removes: created files whose digest has no row.
  ghost function Uncommitted(promotions: seq<Promotion>, blobs: map<Digest, Blob>): set<Digest> {
    CreatedBy(promotions) - blobs.Keys
  }

  lemma CreatedByLast(promotions: seq<Promotion>, p: Promotion)
    ensures CreatedBy(promotions + [p]) == CreatedBy(promotions) + if p.created then {p.digest} else {}
  {
    var more := promotions + [p];
    forall d ensures d in CreatedBy(more) <==> d in CreatedBy(promotions) || (p.created && d == p.digest) {
      if d in CreatedBy(promotions) {
        var i :| 0 <= i < |promotions| && promotions[i].created && promotions[i].digest == d;
        assert more[i] == promotions[i];
      }
      if p.created && d == p.digest { assert more[|promotions|] == p; }
    }
  }

  ghost function DeclaredUpTo(m: Manifest, n: nat): set<Digest>
    requires n <= |m.artifacts|
  {
    set i | 0 <= i < n :: m.artifacts[i].stored
  }

  // The row of digest d once artifacts declaring it have been recorded, or not.
  ghost function RowAfter(t: Tables, m: Manifest, d: Digest, recorded: bool): Blob
    requires d in t.blobs || d in StoredDigests(m)
  {
    if d in t.blobs then (if recorded then t.blobs[d].(candidate := None) else t.blobs[d])
    else Blob(t.nextSerial, Declared(m, d).storedSize, Declared(m, d).compression, None)
  }

  // The blob table once the first n artifacts have been recorded.
  ghost function BlobsUpTo(t: Tables, m: Manifest, n: nat): map<Digest, Blob>
    requires n <= |m.artifacts|
  {
    map d | d in t.blobs.Keys + DeclaredUpTo(m, n) ::
      assert d in t.blobs || d in StoredDigests(m);
      RowAfter(t, m, d, d in DeclaredUpTo(m, n))
  }

  ghost predicate CompatibleUpTo(t: Tables, m: Manifest, n: nat)
    requires n <= |m.artifacts|
  {
    forall i :: 0 <= i < n && m.artifacts[i].stored in t.blobs ==> Fits(t.blobs[m.artifacts[i].stored], m.artifacts[i])
  }

  // Inserts the row of an artifact if there is none, and clears its candidate.
  ghost function WithRow(blobs: map<Digest, Blob>, serial: nat, a: Artifact): map<Digest, Blob> {
    blobs[a.stored := if a.stored in blobs then blobs[a.stored].(candidate := None)
                      else Blob(serial, a.storedSize, a.compression, None)]
  }

  predicate Fits(row: Blob, a: Artifact) {
    row.size == a.storedSize && row.compression == a.compression
  }

  class Store {
    var blobs: map<Digest, Blob>
    var snapshots: map<nat, Snapshot>
    var artifacts: map<nat, seq<ArtifactRow>>
    var nextSerial: nat
    var files: map<Digest, Bytes>

    constructor (blobs: map<Digest, Blob>, snapshots: map<nat, Snapshot>, artifacts: map<nat, seq<ArtifactRow>>,
                 nextSerial: nat, files: map<Digest, Bytes>)
      ensures this.blobs == blobs && this.snapshots == snapshots && this.artifacts == artifacts
      ensures this.nextSerial == nextSerial && this.files == files
    {
      this.blobs, this.snapshots, this.artifacts, this.nextSerial, this.files :=
        blobs, snapshots, artifacts, nextSerial, files;
    }

    // These tables, in place of the same tables of t.
    ghost predicate Holds(t: Tables)
      reads this
    {
      t.blobs == blobs && t.snapshots == snapshots && t.artifacts == artifacts && t.nextSerial == nextSerial
    }

    // ---- promotion ----

    /** Removes what was promoted and has no row, and nothing else. */
    method CleanupUncommittedPromotions(promotions: seq<Promotion>)
      modifies this`files
      ensures files == old(files) - Uncommitted(promotions, blobs)
    {
      for k := 0 to |promotions|
        invariant files == old(files) - Uncommitted(promotions[..k], blobs)
      {
        CreatedByLast(promotions[..k], promotions[k]);
        assert promotions[..k + 1] == promotions[..k] + [promotions[k]];
        if promotions[k].created && promotions[k].digest !in blobs {
          files := files - {promotions[k].digest};
        }
      }
      assert promotions[..|promotions|] == promotions;
    }

    // Links one blob unless a file is there, which must then verify.
    method PromoteBlob(codec: Codec, digest: Digest, size: nat, bytes: Bytes, fault: LinkFault)
      returns (created: Option<bool>)
      modifies this`files
      ensures created == Some(true) ==> digest !in old(files) && fault.NoFault?
      ensures created == Some(false) ==>
        digest in old(files) && digest in files && |files[digest]| == size && codec.sha256(files[digest]) == digest
      ensures files == old(files) || (digest !in old(files) && files == old(files)[digest := bytes])
      ensures created.Some? ==> digest in files
    {
      if digest in files {
        if |files[digest]| == size && codec.sha256(files[digest]) == digest { return Some(false); }
        return None;
      }
      if fault.NotLinked? { return None; }
      files := files[digest := bytes];
      if fault.NotSynced? { return None; }
      created := Some(true);
    }

    ghost predicate PromotedSoFar(before: map<Digest, Bytes>, job: Job, bytes: seq<Bytes>, promotions: seq<Promotion>)
      reads this`files
      requires |promotions| <= |job.order| == |bytes|
    {
      && (forall i :: 0 <= i < |promotions| ==> promotions[i].digest == job.order[i] && job.order[i] in files)
      && (forall i :: 0 <= i < |promotions| ==> (promotions[i].created <==> job.order[i] !in before))
      && (forall i :: 0 <= i < |promotions| && promotions[i].created ==> files[job.order[i]] == bytes[i])
      && (forall d :: d in before ==> d in files && files[d] == before[d])
      && (forall d :: d in files && d !in before ==> d in CreatedBy(promotions))
    }

    // One promotion of the loop below, given those before it.
    method PromoteNext(codec: Codec, ghost before: map<Digest, Bytes>, job: Job, bytes: seq<Bytes>,
                       done: seq<Promotion>, fault: LinkFault)
      returns (created: Option<bool>)
      requires |done| < |job.order| == |bytes| && StrictlyAscending(job.order) &&
        PromotedSoFar(before, job, bytes, done)
      modifies this`files
      ensures created.Some? ==> PromotedSoFar(before, job, bytes, done + [Promotion(job.order[|done|], created.value)])
      ensures files == old(files) ||
        (job.order[|done|] !in old(files) && files == old(files)[job.order[|done|] := bytes[|done|]])
    {
      var k := |done|;
      var d := job.order[k];
      assert forall i :: 0 <= i < k ==> job.order[i] != d;
      created := PromoteBlob(codec, d, DeclaredBytes(job, k), bytes[k], fault);
      if created.Some? { CreatedByLast(done, Promotion(d, created.value)); }
    }

    /** Promotes every unique digest in order. On success each digest has its file, flagged created exactly if
        there was none before, and no other file changed. On failure everything this call created without a row
        is gone again, and no file that has a row, or is none of the job's, is touched. */
    method PromoteUniqueBlobs(codec: Codec, job: Job, bytes: seq<Bytes>, faults: seq<LinkFault>)
      returns (promotions: Option<seq<Promotion>>)
      requires |bytes| == |job.order| == |faults| && StrictlyAscending(job.order)
      modifies this`files
      ensures promotions.Some? ==>
        |promotions.value| == |job.order| && PromotedSoFar(old(files), job, bytes, promotions.value)
      ensures promotions.None? ==>
        forall d :: d in files && d !in blobs ==> d in old(files) && files[d] == old(files)[d]
      ensures promotions.None? ==>
        forall d :: d in old(files) && (d in blobs || d !in job.order) ==> d in files && files[d] == old(files)[d]
    {
      var done: seq<Promotion> := [];
      for k := 0 to |job.order|
        invariant |done| == k && PromotedSoFar(old(files), job, bytes, done)
      {
        var created := PromoteNext(codec, old(files), job, bytes, done, faults[k]);
        if created.None? {
          var cleanup := done + [Promotion(job.order[k], true)];
          CreatedByLast(done, Promotion(job.order[k], true));
          CreatedWereAbsent(old(files), job, done);
          CleanupUncommittedPromotions(cleanup);
          return None;
        }
        done := done + [Promotion(job.order[k], created.value)];
      }
      promotions := Some(done);
    }

    // ---- recording a winning snapshot's rows ----

    method GetOrCreateBlob(a: Artifact) returns (serial: Option<nat>)
      modifies this`blobs
      ensures serial.None? <==> a.stored in old(blobs) && !Fits(old(blobs)[a.stored], a)
      ensures serial.Some? ==> a.stored in blobs && blobs[a.stored].serial == serial.value
      ensures serial.Some? ==> blobs == WithRow(old(blobs), nextSerial, a)
    {
      if a.stored !in blobs { blobs := blobs[a.stored := Blob(nextSerial, a.storedSize, a.compression, None)]; }
      var row := blobs[a.stored];
      if row.size != a.storedSize || row.compression != a.compression { return None; }
      blobs := blobs[a.stored := row.(candidate := None)];
      serial := Some(row.serial);
    }

    method RecordArtifact(ghost t: Tables, m: Manifest, k: nat) returns (row: Option<ArtifactRow>)
      requires k < |m.artifacts| && Consistent(m) && nextSerial == t.nextSerial
      requires blobs == BlobsUpTo(t, m, k) && CompatibleUpTo(t, m, k)
      modifies this`blobs
      ensures row.None? ==> !Compatible(t, m)
      ensures row.Some? ==>
        blobs == BlobsUpTo(t, m, k + 1) && CompatibleUpTo(t, m, k + 1) && ListedRow(t, m, k, row.value)
    {
      var a := m.artifacts[k];
      RecordedNext(t, m, k);
      FitsAsBefore(t, m, k);
      var serial := GetOrCreateBlob(a);
      if serial.None? { return None; }
      row := Some(ArtifactRow(BlobId(a.stored, serial.value), a.path, a.original, a.originalSize));
    }

    /** Gets or creates the blob row of each artifact in turn and lists the artifact rows. The loop conflicts
        exactly when a row already stored under some digest has another size or compression; otherwise its
        result is the blob table and the artifact rows of the winning transaction. */
    method RecordRows(ghost t: Tables, m: Manifest) returns (rows: Option<seq<ArtifactRow>>)
      requires Holds(t) && Consistent(m)
      modifies this`blobs
      ensures rows.Some? <==> Compatible(t, m)
      ensures rows.Some? ==> blobs == BlobsWith(t, m) && rows.value == ArtifactRows(BlobsWith(t, m), m)
    {
      var listed: seq<ArtifactRow> := [];
      NothingRecorded(t, m);
      for k := 0 to |m.artifacts|
        invariant nextSerial == t.nextSerial && blobs == BlobsUpTo(t, m, k) && CompatibleUpTo(t, m, k)
        invariant AllListed(t, m, k, listed)
      {
        var row := RecordArtifact(t, m, k);
        if row.None? { return None; }
        listed := listed + [row.value];
      }
      RecordedAll(t, m, listed);
      rows := Some(listed);
    }

    // ---- deletion ----

    method ScheduleOrClearBlobCandidate(blob: BlobId, candidate: Candidate)
      modifies this`blobs
      ensures blobs == if blob.digest in old(blobs) && old(blobs)[blob.digest].serial == blob.serial
        then old(blobs)[blob.digest := old(blobs)[blob.digest].(candidate :=
               if ReferencedBy(snapshots, artifacts, blob) then None else Some(candidate))]
        else old(blobs)
    {
      if blob.digest in blobs && blobs[blob.digest].serial == blob.serial {
        blobs := blobs[blob.digest := blobs[blob.digest].(candidate :=
          if ReferencedBy(snapshots, artifacts, blob) then None else Some(candidate))];
      }
    }

    /** The deletion transaction: mark the snapshot, drop its artifact rows, then schedule or clear each of their
        blobs by asking the relationships that remain. The loop's result is the transaction's blob table. */
    method DeleteSnapshot(c: Setup, ghost t: Tables, id: nat, ghost tomb: nat, now: int)
      requires Holds(t) && id in snapshots && id in artifacts
      modifies this`snapshots, this`artifacts, this`blobs
      ensures snapshots == Dropped(t, id, tomb, now).snapshots && artifacts == Dropped(t, id, tomb, now).artifacts
      ensures blobs == BlobsAfterDelete(c, t, id, tomb, now)
    {
      var rows := artifacts[id];
      snapshots := snapshots[id := snapshots[id].(deletedAt := Some(now))];
      artifacts := artifacts - {id};
      ghost var dropped := Dropped(t, id, tomb, now);
      for k := 0 to |rows|
        invariant snapshots == dropped.snapshots && artifacts == dropped.artifacts
        invariant blobs.Keys == t.blobs.Keys
        invariant forall d :: d in t.blobs ==>
          blobs[d] == ScheduledUpTo(dropped, rows[..k], d, Candidate(now, now + c.grace))
      {
        ReferencedByIs(dropped, rows[k].blob);
        UsesNext(rows, k);
        ScheduleOrClearBlobCandidate(rows[k].blob, Candidate(now, now + c.grace));
      }
      assert rows[..|rows|] == rows;
    }

    // ---- garbage collection ----

    // One candidate, re-read and re-checked.
    method CollectOne(now: int, blob: BlobId) returns (removed: bool)
      modifies this`blobs, this`files
      ensures removed == (Due(old(blobs), blob, now) && !ReferencedBy(snapshots, artifacts, blob))
      ensures blobs == AfterOne(old(blobs), blob, now, ReferencedBy(snapshots, artifacts, blob))
      ensures files == if removed then old(files) - {blob.digest} else old(files)
    {
      removed := false;
      if Due(blobs, blob, now) {
        if ReferencedBy(snapshots, artifacts, blob) {
          blobs := blobs[blob.digest := blobs[blob.digest].(candidate := None)];
        } else {
          blobs := blobs - {blob.digest};
          files := files - {blob.digest};
          removed := true;
        }
      }
    }

    method CollectNext(ghost t: Tables, now: int, queue: seq<BlobId>, k: nat) returns (removed: bool)
      requires k < |queue| && forall i, j :: 0 <= i < j < |queue| ==> queue[i].digest != queue[j].digest
      requires snapshots == t.snapshots && artifacts == t.artifacts && blobs == PassBlobs(t, queue[..k], now)
      modifies this`blobs, this`files
      ensures blobs == PassBlobs(t, queue[..k + 1], now)
      ensures files == if removed then old(files) - {queue[k].digest} else old(files)
      ensures queue[k].digest !in Gone(t, queue[..k], now)
      ensures Gone(t, queue[..k + 1], now) == Gone(t, queue[..k], now) + if removed then {queue[k].digest} else {}
    {
      PassNext(t, queue, now, k);
      ReferencedByIs(t, queue[k]);
      removed := CollectOne(now, queue[k]);
    }

    /** One pass over a batch of candidates. A blob loses its row and its file exactly if it is in the batch, is
        still due and has no live reference; a due candidate with a live reference is cleared; every other row
        and file stays. The count returned is the number of blobs removed. */
    method CollectOrphanedBlobsAt(ghost t: Tables, now: int, queue: seq<BlobId>) returns (deleted: nat)
      requires Holds(t) && forall i, j :: 0 <= i < j < |queue| ==> queue[i].digest != queue[j].digest
      modifies this`blobs, this`files
      ensures blobs == PassBlobs(t, queue, now) && files == old(files) - Gone(t, queue, now)
      ensures deleted == |Gone(t, queue, now)|
    {
      deleted := 0;
      NothingPassed(t, now);
      ghost var gone: set<Digest> := {};
      for k := 0 to |queue|
        invariant blobs == PassBlobs(t, queue[..k], now) && gone == Gone(t, queue[..k], now)
        invariant files == old(files) - gone && deleted == |gone|
      {
        var removed := CollectNext(t, now, queue, k);
        if removed {
          deleted := deleted + 1;
          gone := gone + {queue[k].digest};
        }
      }
      assert queue[..|queue|] == queue;
    }
  }

  ghost function ScheduledUpTo(dropped: Tables, rows: seq<ArtifactRow>, d: Digest, candidate: Candidate): Blob
    requires d in dropped.blobs
  {
    if Uses(rows, BlobId(d, dropped.blobs[d].serial)) then Scheduled(dropped, d, candidate) else dropped.blobs[d]
  }

  predicate Due(blobs: map<Digest, Blob>, blob: BlobId, now: int) {
    blob.digest in blobs && blobs[blob.digest].serial == blob.serial && blobs[blob.digest].candidate.Some? &&
    blobs[blob.digest].candidate.value.eligibleAfter <= now
  }

  ghost function AfterOne(blobs: map<Digest, Blob>, blob: BlobId, now: int, live: bool): map<Digest, Blob> {
    if !Due(blobs, blob, now) then blobs
    else if live then blobs[blob.digest := blobs[blob.digest].(candidate := None)]
    else blobs - {blob.digest}
  }

  function DeclaredBytes(job: Job, k: nat): nat
    requires k < |job.order|
  {
    var d := job.order[k];
    SizeFor(job.manifest.artifacts, d)
  }

  // The stored size declared by the first artifact with this digest.
  function SizeFor(artifacts: seq<Artifact>, d: Digest): nat {
    if artifacts == [] then 0 else if artifacts[0].stored == d then artifacts[0].storedSize
    else SizeFor(artifacts[1..], d)
  }

  lemma CreatedWereAbsent(before: map<Digest, Bytes>, job: Job, done: seq<Promotion>)
    requires |done| <= |job.order|
    requires forall i :: 0 <= i < |done| ==>
      done[i].digest == job.order[i] && (done[i].created <==> job.order[i] !in before)
    ensures forall d :: d in CreatedBy(done) ==> d !in before && d in job.order
  {
  }

  ghost predicate ListedRow(t: Tables, m: Manifest, i: nat, row: ArtifactRow)
    requires i < |m.artifacts|
  {
    var a := m.artifacts[i];
    row == ArtifactRow(BlobId(a.stored, if a.stored in t.blobs then t.blobs[a.stored].serial
                                        else t.nextSerial), a.path, a.original, a.originalSize)
  }

  ghost predicate AllListed(t: Tables, m: Manifest, n: nat, listed: seq<ArtifactRow>)
    requires n <= |m.artifacts|
  {
    |listed| == n && forall i :: 0 <= i < n ==> ListedRow(t, m, i, listed[i])
  }

  lemma NothingRecorded(t: Tables, m: Manifest)
    ensures BlobsUpTo(t, m, 0) == t.blobs
  {
  }

  lemma UpToNext(m: Manifest, k: nat)
    requires k < |m.artifacts|
    ensures DeclaredUpTo(m, k + 1) == DeclaredUpTo(m, k) + {m.artifacts[k].stored}
  {
  }

  lemma ElementUpTo(t: Tables, m: Manifest, n: nat, d: Digest)
    requires n <= |m.artifacts|
    ensures d in BlobsUpTo(t, m, n) <==> d in t.blobs || d in DeclaredUpTo(m, n)
    ensures d in BlobsUpTo(t, m, n) ==>
      (d in t.blobs || d in StoredDigests(m)) && BlobsUpTo(t, m, n)[d] == RowAfter(t, m, d, d in DeclaredUpTo(m, n))
  {
  }

  lemma OtherElementNext(t: Tables, m: Manifest, k: nat, d: Digest)
    requires k < |m.artifacts| && d != m.artifacts[k].stored
    ensures d in BlobsUpTo(t, m, k + 1) <==> d in BlobsUpTo(t, m, k)
    ensures d in BlobsUpTo(t, m, k) ==> BlobsUpTo(t, m, k + 1)[d] == BlobsUpTo(t, m, k)[d]
  {
    ElementUpTo(t, m, k, d);
    ElementUpTo(t, m, k + 1, d);
    UpToNext(m, k);
  }

  lemma OwnElementNext(t: Tables, m: Manifest, k: nat)
    requires k < |m.artifacts| && Consistent(m)
    ensures var a := m.artifacts[k];
      && a.stored in BlobsUpTo(t, m, k + 1)
      && BlobsUpTo(t, m, k + 1)[a.stored] ==
           (if a.stored in BlobsUpTo(t, m, k) then BlobsUpTo(t, m, k)[a.stored].(candidate := None)
            else Blob(t.nextSerial, a.storedSize, a.compression, None))
  {
    var d := m.artifacts[k].stored;
    ElementUpTo(t, m, k, d);
    ElementUpTo(t, m, k + 1, d);
    UpToNext(m, k);
    DeclaredAgrees(m, k);
  }

  lemma ElementNext(t: Tables, m: Manifest, k: nat, d: Digest)
    requires k < |m.artifacts| && Consistent(m)
    ensures var a := m.artifacts[k]; var next := WithRow(BlobsUpTo(t, m, k), t.nextSerial, a);
      && (d in BlobsUpTo(t, m, k + 1) <==> d in next)
      && (d in next ==> BlobsUpTo(t, m, k + 1)[d] == next[d])
  {
    if d == m.artifacts[k].stored { OwnElementNext(t, m, k); } else { OtherElementNext(t, m, k, d); }
  }

  lemma RecordedNext(t: Tables, m: Manifest, k: nat)
    requires k < |m.artifacts| && Consistent(m)
    ensures BlobsUpTo(t, m, k + 1) == WithRow(BlobsUpTo(t, m, k), t.nextSerial, m.artifacts[k])
  {
    var next := WithRow(BlobsUpTo(t, m, k), t.nextSerial, m.artifacts[k]);
    forall d
      ensures d in BlobsUpTo(t, m, k + 1) <==> d in next
      ensures d in next ==> BlobsUpTo(t, m, k + 1)[d] == next[d]
    {
      ElementNext(t, m, k, d);
    }
  }

  // Artifact k's row fits, as the loop finds it, exactly if it fitted before the loop.
  lemma FitsAsBefore(t: Tables, m: Manifest, k: nat)
    requires k < |m.artifacts| && Consistent(m) && CompatibleUpTo(t, m, k)
    ensures var a := m.artifacts[k]; var before := BlobsUpTo(t, m, k);
      && (a.stored in before && !Fits(before[a.stored], a) ==> !Compatible(t, m))
      && (!(a.stored in before && !Fits(before[a.stored], a)) ==> CompatibleUpTo(t, m, k + 1))
      && a.stored in BlobsUpTo(t, m, k + 1)
      && BlobsUpTo(t, m, k + 1)[a.stored].serial == (if a.stored in t.blobs then t.blobs[a.stored].serial
                                                     else t.nextSerial)
  {
    var a := m.artifacts[k];
    ElementUpTo(t, m, k, a.stored);
    ElementUpTo(t, m, k + 1, a.stored);
    UpToNext(m, k);
    DeclaredAgrees(m, k);
    if a.stored in BlobsUpTo(t, m, k) && !Fits(BlobsUpTo(t, m, k)[a.stored], a) { Incompatible(t, m, k); }
  }

  lemma Incompatible(t: Tables, m: Manifest, k: nat)
    requires k < |m.artifacts| && m.artifacts[k].stored in t.blobs &&
      !Fits(t.blobs[m.artifacts[k].stored], m.artifacts[k])
    ensures !Compatible(t, m)
  {
  }

  lemma RecordedAll(t: Tables, m: Manifest, listed: seq<ArtifactRow>)
    requires CompatibleUpTo(t, m, |m.artifacts|)
    requires AllListed(t, m, |m.artifacts|, listed)
    ensures Compatible(t, m) && BlobsUpTo(t, m, |m.artifacts|) == BlobsWith(t, m)
    ensures listed == ArtifactRows(BlobsWith(t, m), m)
  {
    assert DeclaredUpTo(m, |m.artifacts|) == StoredDigests(m);
    assert BlobsUpTo(t, m, |m.artifacts|) == BlobsWith(t, m);
    forall i | 0 <= i < |m.artifacts| ensures listed[i] == ArtifactRows(BlobsWith(t, m), m)[i] {
      assert ListedRow(t, m, i, listed[i]) && m.artifacts[i].stored in StoredDigests(m);
    }
  }

  lemma UsesNext(rows: seq<ArtifactRow>, k: nat)
    requires k < |rows|
    ensures forall blob :: Uses(rows[..k + 1], blob) <==> Uses(rows[..k], blob) || blob == rows[k].blob
  {
    forall blob ensures Uses(rows[..k + 1], blob) <==> Uses(rows[..k], blob) || blob == rows[k].blob {
      if Uses(rows[..k], blob) {
        var i :| 0 <= i < |rows[..k]| && rows[..k][i].blob == blob;
        assert rows[..k + 1][i].blob == blob;
      }
      if blob == rows[k].blob { assert rows[..k + 1][k].blob == blob; }
      if Uses(rows[..k + 1], blob) && blob != rows[k].blob {
        var i :| 0 <= i < |rows[..k + 1]| && rows[..k + 1][i].blob == blob;
        assert rows[..k][i].blob == blob;
      }
    }
  }

  // In the batch, still due, and unreferenced: its row and file go.
  ghost predicate Doomed(t: Tables, queue: seq<BlobId>, now: int, d: Digest) {
    exists i :: 0 <= i < |queue| && queue[i].digest == d && Collectable(t, queue[i], now) && !Referenced(t, queue[i])
  }

  ghost predicate Cleared(t: Tables, queue: seq<BlobId>, now: int, d: Digest) {
    exists i :: 0 <= i < |queue| && queue[i].digest == d && Collectable(t, queue[i], now) && Referenced(t, queue[i])
  }

  ghost function Gone(t: Tables, queue: seq<BlobId>, now: int): set<Digest> {
    set d | d in t.blobs && Doomed(t, queue, now, d)
  }

  ghost function PassBlobs(t: Tables, queue: seq<BlobId>, now: int): map<Digest, Blob> {
    map d | d in t.blobs && d !in Gone(t, queue, now) ::
      if Cleared(t, queue, now, d) then t.blobs[d].(candidate := None) else t.blobs[d]
  }

  lemma NothingPassed(t: Tables, now: int)
    ensures PassBlobs(t, [], now) == t.blobs && Gone(t, [], now) == {}
  {
  }

  lemma DoomedNext(t: Tables, queue: seq<BlobId>, now: int, k: nat, d: Digest)
    requires k < |queue|
    ensures var b := queue[k];
      Doomed(t, queue[..k + 1], now, d) <==>
        Doomed(t, queue[..k], now, d) || (d == b.digest && Collectable(t, b, now) && !Referenced(t, b))
    ensures var b := queue[k];
      Cleared(t, queue[..k + 1], now, d) <==>
        Cleared(t, queue[..k], now, d) || (d == b.digest && Collectable(t, b, now) && Referenced(t, b))
  {
    var a, b := queue[..k], queue[..k + 1];
    assert b[k] == queue[k] && forall i :: 0 <= i < k ==> b[i] == a[i];
  }

  // Digests are distinct, so the k-th candidate has not been dealt with before.
  lemma NotYet(t: Tables, queue: seq<BlobId>, now: int, k: nat)
    requires k < |queue| && forall i, j :: 0 <= i < j < |queue| ==> queue[i].digest != queue[j].digest
    ensures !Doomed(t, queue[..k], now, queue[k].digest) && !Cleared(t, queue[..k], now, queue[k].digest)
  {
  }

  lemma PassElement(t: Tables, queue: seq<BlobId>, now: int, k: nat, d: Digest)
    requires k < |queue| && forall i, j :: 0 <= i < j < |queue| ==> queue[i].digest != queue[j].digest
    ensures var b := queue[k]; var next := AfterOne(PassBlobs(t, queue[..k], now), b, now, Referenced(t, b));
      && (d in PassBlobs(t, queue[..k + 1], now) <==> d in next)
      && (d in next ==> PassBlobs(t, queue[..k + 1], now)[d] == next[d])
      && (d in Gone(t, queue[..k + 1], now) <==>
            d in Gone(t, queue[..k], now) ||
            (d == b.digest && Due(PassBlobs(t, queue[..k], now), b, now) && !Referenced(t, b)))
  {
    NotYet(t, queue, now, k);
    DoomedNext(t, queue, now, k, d);
  }

  lemma PassNext(t: Tables, queue: seq<BlobId>, now: int, k: nat)
    requires k < |queue| && forall i, j :: 0 <= i < j < |queue| ==> queue[i].digest != queue[j].digest
    ensures var b := queue[k]; var before := PassBlobs(t, queue[..k], now);
      && PassBlobs(t, queue[..k + 1], now) == AfterOne(before, b, now, Referenced(t, b))
      && b.digest !in Gone(t, queue[..k], now)
      && Gone(t, queue[..k + 1], now) ==
           Gone(t, queue[..k], now) + if Due(before, b, now) && !Referenced(t, b) then {b.digest} else {}
  {
    NotYet(t, queue, now, k);
    forall d
      ensures d in PassBlobs(t, queue[..k + 1], now) <==>
        d in AfterOne(PassBlobs(t, queue[..k], now), queue[k], now, Referenced(t, queue[k]))
      ensures d in PassBlobs(t, queue[..k + 1], now) ==>
        PassBlobs(t, queue[..k + 1], now)[d] == AfterOne(PassBlobs(t, queue[..k], now), queue[k], now,
                                                         Referenced(t, queue[k]))[d]
      ensures d in Gone(t, queue[..k + 1], now) <==>
        d in Gone(t, queue[..k], now) ||
        (d == queue[k].digest && Due(PassBlobs(t, queue[..k], now), queue[k], now) && !Referenced(t, queue[k]))
    {
      PassElement(t, queue, now, k, d);
    }
  }

  /** On sound tables a pass over all due candidates clears none of them, because no due candidate has a live
      reference: what it removes is exactly what is due. */
  lemma PassRemovesWhatIsDue(c: Setup, t: Tables, queue: seq<BlobId>, now: int, d: Digest)
    requires BlobsSound(c, t)
    requires forall b :: b in queue <==> Collectable(t, b, now)
    ensures !Cleared(t, queue, now, d)
    ensures Doomed(t, queue, now, d) <==>
      d in t.blobs && t.blobs[d].candidate.Some? && t.blobs[d].candidate.value.eligibleAfter <= now
  {
    if d in t.blobs {
      var b := BlobId(d, t.blobs[d].serial);
      assert CandidateExact(c, t, d);
      if Collectable(t, b, now) {
        var i :| 0 <= i < |queue| && queue[i] == b;
        assert !Referenced(t, queue[i]);
      }
      forall i | 0 <= i < |queue| && queue[i].digest == d ensures queue[i] == b { assert queue[i] in queue; }
    } else {
      forall i | 0 <= i < |queue| ensures queue[i].digest != d { assert queue[i] in queue; }
    }
  }
}
