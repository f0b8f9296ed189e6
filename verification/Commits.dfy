/** What the steps of a run commit: whose clock a transaction carries, and which
    completions attach to a snapshot instead of recording a new one. */
module Commits {
  import opened Basics
  import opened Catalog
  import opened CatalogInvariants
  import opened Provenance
  import opened LatestContext
  import opened Rearchive
  import opened Protocol
  import opened ProtocolSafety
  import opened Runs

  // ---- coalescing ----

  /** A completion attaches exactly when a live snapshot of its session has the same context and, artifact by artifact,
      the same path, original size and original digest; and then to that one. Otherwise it records a new snapshot. */
  lemma CompletionCoalescesIff(c: Setup, states: seq<State>, steps: seq<Step>, k: nat)
    requires CollisionFree(c) && Run(c, states, steps) && k < |steps|
    requires Committed(c, states, steps, k).Win? || Committed(c, states, steps, k).Attach?
    ensures var t, x := states[k].tables, Committed(c, states, steps, k);
      && x.upload in t.uploads && t.uploads[x.upload].Active?
      && (x.Attach? ==> HasContent(t, t.uploads[x.upload].manifest, x.snapshot))
      && (x.Win? ==> forall id :: !HasContent(t, t.uploads[x.upload].manifest, id))
  {
    TablesStep(c, states, steps, k);
    var t, x := states[k].tables, Committed(c, states, steps, k);
    var m := t.uploads[x.upload].manifest;
    forall id ensures LiveMatch(t, m.session, Fingerprint(c, m), id) <==> HasContent(t, m, id) {
      MatchIsContent(c, t, m, id);
    }
  }

  ghost predicate DiffersInOriginal(m: Manifest, n: Manifest) {
    |m.artifacts| != |n.artifacts| ||
    exists i :: 0 <= i < |m.artifacts| && m.artifacts[i].original != n.artifacts[i].original
  }

  // Every live snapshot of the manifest's session differs from it in some original.
  ghost predicate IsNews(t: Tables, m: Manifest) {
    forall id :: Live(t, id) && t.snapshots[id].session == m.session ==> DiffersInOriginal(t.snapshots[id].manifest, m)
  }

  lemma NewsHasNoMatch(t: Tables, m: Manifest, id: nat)
    requires IsNews(t, m)
    ensures !HasContent(t, m, id)
  {
  }

  /** An upload that differs in some original from every live snapshot of its session never attaches to one. */
  lemma DifferentContentNeverAttaches(c: Setup, states: seq<State>, steps: seq<Step>, k: nat, u: nat)
    requires CollisionFree(c) && Run(c, states, steps) && k < |steps| && u in states[k].tables.uploads
    requires IsNews(states[k].tables, states[k].tables.uploads[u].manifest)
    ensures !(Committed(c, states, steps, k).Attach? && Committed(c, states, steps, k).upload == u)
  {
    var x := Committed(c, states, steps, k);
    if x.Attach? && x.upload == u {
      CompletionCoalescesIff(c, states, steps, k);
      NewsHasNoMatch(states[k].tables, states[k].tables.uploads[u].manifest, x.snapshot);
    }
  }

  predicate Attaches(q: Process) {
    q.AttachingFast? || q.AttachingSlow? || q.AttachingWinner?
  }

  /** On each of its three ways to a snapshot, a completion that finds it still live, and its upload still active,
      completes the upload on it: no bytes are reported, the capture carries the upload's session and context, and
      the request ends. If the snapshot was tombstoned meanwhile, nothing is committed. */
  lemma AttachCompletes(c: Setup, s: State, p: nat, now: int, id: nat)
    requires Can(c, s, p, Go(now, id)) && Attaches(s.procs[p])
    ensures var q, s' := s.procs[p], After(c, s, p, Go(now, id));
      if Live(s.tables, q.id) && UploadActive(s.tables, q.job) then
        && s'.tables.uploads == s.tables.uploads[q.job.upload := Completed(q.job.manifest, q.id, 0)]
        && s'.tables.captures == s.tables.captures[q.job.upload := Capture(q.id, q.job.manifest.session,
                                                                           q.job.manifest.context)]
        && s'.procs[p] == Idle
      else
        s'.tables == s.tables
  {
  }

  // ---- submission, expiry, failure ----

  /** While the server serves, any consistent manifest can be submitted under a fresh identifier; it is active then, and
      nothing else has changed. */
  lemma SubmissionOpens(c: Setup, s: State, p: nat, u: nat, m: Manifest)
    requires s.mode.Serving? && u !in s.tables.uploads && Consistent(m)
    ensures Can(c, s, p, Submit(u, m))
    ensures After(c, s, p, Submit(u, m)) == s.(tables := s.tables.(uploads := s.tables.uploads[u := Active(m)]))
  {
  }

  /** Whoever holds the mutex of an active upload can expire it. That ends exactly this upload: nothing under way for it
      can complete it any more, and no other row and no file has changed. */
  lemma ExpiryEnds(c: Setup, s: State, p: nat, u: nat, job: Job)
    requires s.mode.Serving? && u in s.tables.uploads && s.tables.uploads[u].Active? && job.upload == u
    requires p < |s.procs| && (s.procs[p] == Opened(u) || s.procs[p] == HoldingOne(UploadOf(c, u)))
    ensures Can(c, s, p, Expire(u))
    ensures var s' := After(c, s, p, Expire(u));
      && !UploadActive(s'.tables, job) && s'.files == s.files
      && s'.tables == s.tables.(uploads := s'.tables.uploads)
      && s'.tables.uploads.Keys == s.tables.uploads.Keys - {u}
      && forall v :: v in s'.tables.uploads ==> s'.tables.uploads[v] == s.tables.uploads[v]
  {
  }

  /** Nothing is assumed about failures: at every moment the server may crash, every process under way may be dropped,
      and every one that does not wait for a mutex may fail. */
  lemma AnythingMayFail(c: Setup, s: State, p: nat)
    ensures Can(c, s, p, Crash)
    ensures s.mode.Serving? && p < |s.procs| && s.procs[p] != Idle ==> Can(c, s, p, Cancel)
    ensures s.mode.Serving? && p < |s.procs| && s.procs[p] != Idle && Wants(c, s.procs[p]).None? ==> Can(c, s, p, Fail)
    ensures After(c, s, p, Crash).tables == s.tables && After(c, s, p, Crash).files == s.files
    ensures forall i :: 0 <= i < |s.procs| ==> After(c, s, p, Crash).procs[i] == Idle
  {
  }

  // ---- clocks ----

  /** Every transaction that stamps a time carries the clock its own step read: completions at their recording,
      deletions at their burying, and the scheduling of recovery. */
  lemma CommitReadsClock(c: Setup, s: State, p: nat, e: Event)
    requires Can(c, s, p, e)
    ensures var x := Commits(c, s, p, e);
      && (x.Win? ==> e.Go? && p < |s.procs| && s.procs[p].Recording? && x.now == e.now && x.snapshot == e.id)
      && (x.Delete? ==>
            && e.Go? && p < |s.procs| && s.procs[p].Burying? && x.now == e.now
            && x.tombstone == e.id && x.snapshot == s.procs[p].id)
      && (x.Schedule? ==> e.Recover? && s.mode.Scheduling? && x.now == e.now)
  {
  }

  // Step j orphaned the row of d, at the time its clock read.
  ghost predicate OrphanedInStep(c: Setup, states: seq<State>, steps: seq<Step>, j: nat, orphanedAt: int)
    requires j < |steps| && |states| == |steps| + 1
  {
    var s, p, e := states[j], steps[j].actor, steps[j].event;
    || (e.Go? && p < |s.procs| && s.procs[p].Burying? && orphanedAt == e.now)
    || (e.Recover? && s.mode.Scheduling? && orphanedAt == e.now)
  }

  // The collection pass of process p started in step i with this clock, and has been under way since.
  ghost predicate PassSince(states: seq<State>, steps: seq<Step>, p: nat, i: nat, k: nat, now: int) {
    && i < k < |states| && i < |steps|
    && steps[i].actor == p && steps[i].event.StartCollect? && steps[i].event.now == now
    && forall m :: i < m <= k ==> p < |states[m].procs| && Collecting(states[m].procs[p])
  }

  predicate Collecting(q: Process) {
    q.Picking? || q.Authorising? || q.Unlinking? || q.Dropping?
  }

  lemma CollectingStep(c: Setup, s: State, q: Process, e: Event)
    requires Takes(c, s, q, e) && Collecting(ProcAfter(c, s, q, e))
    ensures (e.StartCollect? && ProcAfter(c, s, q, e).now == e.now) ||
            (Collecting(q) && q.now == ProcAfter(c, s, q, e).now)
  {
    if e.Fail? || e.FailLinked? {
      FailKeepsJob(c, s, q);
    } else if e.Go? {
      CollectingGo(c, s, q);
    }
  }

  lemma CollectingGo(c: Setup, s: State, q: Process)
    requires Collecting(AfterGo(c, s, q))
    ensures Collecting(q) && q.now == AfterGo(c, s, q).now
  {
  }

  lemma CollectingBefore(c: Setup, states: seq<State>, steps: seq<Step>, k: nat, p: nat)
    requires Run(c, states, steps) && k < |steps| && p < |states[k + 1].procs| && Collecting(states[k + 1].procs[p])
    ensures var q' := states[k + 1].procs[p];
      || (steps[k].actor == p && steps[k].event.StartCollect? && steps[k].event.now == q'.now)
      || (p < |states[k].procs| && Collecting(states[k].procs[p]) && states[k].procs[p].now == q'.now)
  {
    assert Taken(c, states, steps, k);
    if !External(steps[k].event) && steps[k].actor == p {
      CollectingStep(c, states[k], states[k].procs[p], steps[k].event);
    }
  }

  /** A pass carries one clock reading all along: the one it selected its candidates with. */
  lemma {:induction false} PassKeepsClock(c: Setup, states: seq<State>, steps: seq<Step>, k: nat, p: nat)
    requires Run(c, states, steps) && k < |states| && p < |states[k].procs| && Collecting(states[k].procs[p])
    ensures exists i: nat :: PassSince(states, steps, p, i, k, states[k].procs[p].now)
  {
    if k > 0 {
      CollectingBefore(c, states, steps, k - 1, p);
      var now := states[k].procs[p].now;
      if steps[k - 1].actor == p && steps[k - 1].event.StartCollect? && steps[k - 1].event.now == now {
        assert PassSince(states, steps, p, k - 1, k, now);
      } else {
        PassKeepsClock(c, states, steps, k - 1, p);
        var i: nat :| PassSince(states, steps, p, i, k - 1, now);
        assert PassSince(states, steps, p, i, k, now);
      }
    }
  }

  // The row stayed as it was, and undeclared, from state j to state k.
  ghost predicate IdleThroughout(states: seq<State>, d: Digest, row: Blob, j: nat, k: nat) {
    k < |states| && forall m :: j <= m <= k ==> Idling(states[m].tables, d, row)
  }

  ghost predicate GraceKept(c: Setup, states: seq<State>, steps: seq<Step>, d: Digest, row: Blob, j: nat, i: nat,
                            k: nat)
    requires 0 < j <= k < |states| && i < |steps| && |states| == |steps| + 1
  {
    && row.candidate.Some? && OrphanedInStep(c, states, steps, j - 1, row.candidate.value.orphanedAt)
    && IdleThroughout(states, d, row, j, k)
    && steps[i].event.StartCollect?
    && steps[j - 1].event.now + c.grace <= steps[i].event.now
  }

  /** The grace period, on the clocks the steps read: a collection drops a row, and its file, only if an earlier
      step, a deletion or a recovery, orphaned it at its clock reading n, no live manifest declared the digest in
      between, and the pass selected its candidates at a clock reading of at least n plus the grace period. */
  lemma CollectedAfterGraceOnClocks(c: Setup, states: seq<State>, steps: seq<Step>, k: nat) returns (j: nat, i: nat)
    requires CollisionFree(c) && Run(c, states, steps) && k < |steps|
    requires steps[k].event.Go? && steps[k].actor < |states[k].procs|
    requires var q := states[k].procs[steps[k].actor]; q.Unlinking? || q.Dropping?
    ensures var q := states[k].procs[steps[k].actor];
      && 0 < j <= k && HasRow(states[k].tables, q.blob)
      && PassSince(states, steps, steps[k].actor, i, k, q.now)
      && GraceKept(c, states, steps, q.blob.digest, states[k].tables.blobs[q.blob.digest], j, i, k)
  {
    var p := steps[k].actor;
    var q := states[k].procs[p];
    CollectedOnlyAfterGrace(c, states, steps, k);
    var row := states[k].tables.blobs[q.blob.digest];
    j :| 0 < j <= k && ScheduledThroughout(c, states, steps, q.blob.digest, row, j, k);
    assert Taken(c, states, steps, j - 1);
    CommitReadsClock(c, states[j - 1], steps[j - 1].actor, steps[j - 1].event);
    PassKeepsClock(c, states, steps, k, p);
    i :| PassSince(states, steps, p, i, k, q.now);
  }

  // Step j inserted this tombstone, at the time its clock read.
  ghost predicate BuriedInStep(states: seq<State>, steps: seq<Step>, j: nat, tomb: nat, row: Tombstone)
    requires j < |steps| && |states| == |steps| + 1
  {
    var s, p, e := states[j], steps[j].actor, steps[j].event;
    && e.Go? && p < |s.procs| && s.procs[p].Burying? && e.id == tomb && tomb !in s.tables.tombstones
    && row.snapshot == s.procs[p].id && Live(s.tables, row.snapshot) && row.deletedAt == e.now
  }

  lemma NewTombstone(c: Setup, t: Tables, x: Transaction, tomb: nat)
    requires Allowed(c, t, x) && tomb !in t.tombstones && tomb in Apply(c, t, x).tombstones
    ensures x.Delete? && x.tombstone == tomb && Live(t, x.snapshot)
    ensures Apply(c, t, x).tombstones[tomb].snapshot == x.snapshot && Apply(c, t, x).tombstones[tomb].deletedAt == x.now
  {
    ApplyStepsTombs(c, t, x);
  }

  lemma BuriedNow(c: Setup, states: seq<State>, steps: seq<Step>, k: nat, tomb: nat)
    requires CollisionFree(c) && Run(c, states, steps) && k < |steps|
    requires tomb !in states[k].tables.tombstones && tomb in states[k + 1].tables.tombstones
    ensures BuriedInStep(states, steps, k, tomb, states[k + 1].tables.tombstones[tomb])
  {
    CommittedStep(c, states, steps, k);
    NewTombstone(c, states[k].tables, Committed(c, states, steps, k), tomb);
    assert Taken(c, states, steps, k);
    CommitReadsClock(c, states[k], steps[k].actor, steps[k].event);
  }

  /** Every tombstone was inserted by the one deletion that made its snapshot dead, and both carry the clock that
      deletion read. */
  lemma {:induction false} TombstonesReadTheClock(c: Setup, states: seq<State>, steps: seq<Step>, k: nat, tomb: nat)
    returns (j: nat)
    requires CollisionFree(c) && Run(c, states, steps) && k < |states| && tomb in states[k].tables.tombstones
    ensures j < k && BuriedInStep(states, steps, j, tomb, states[k].tables.tombstones[tomb])
    ensures var row := states[k].tables.tombstones[tomb];
      row.snapshot in states[k].tables.snapshots &&
      states[k].tables.snapshots[row.snapshot].deletedAt == Some(steps[j].event.now)
  {
    TombstonesAreSound(c, states, steps, k, tomb);
    if k == 0 {
      assert false;
    } else if tomb in states[k - 1].tables.tombstones {
      StepForwards(c, states, steps, k - 1, tomb);
      j := TombstonesReadTheClock(c, states, steps, k - 1, tomb);
    } else {
      j := k - 1;
      BuriedNow(c, states, steps, k - 1, tomb);
    }
  }

  // Step j recorded this snapshot for the upload it completed, at the time its clock read.
  ghost predicate RecordedInStep(states: seq<State>, steps: seq<Step>, j: nat, id: nat, row: Snapshot)
    requires j < |steps| && |states| == |steps| + 1
  {
    var s, p, e := states[j], steps[j].actor, steps[j].event;
    && e.Go? && p < |s.procs| && s.procs[p].Recording? && e.id == id && id !in s.tables.snapshots
    && row.completedAt == e.now && row.manifest == s.procs[p].job.manifest
    && s.procs[p].job.upload in s.tables.uploads
    && s.tables.uploads[s.procs[p].job.upload] == Active(row.manifest)
  }

  lemma NewSnapshot(c: Setup, t: Tables, x: Transaction, id: nat)
    requires Allowed(c, t, x) && id !in t.snapshots && id in Apply(c, t, x).snapshots
    ensures x.Win? && x.snapshot == id
    ensures Apply(c, t, x).snapshots[id].completedAt == x.now
    ensures Apply(c, t, x).snapshots[id].manifest == t.uploads[x.upload].manifest
  {
    ApplyStepsIdentity(c, t, x);
  }

  lemma RecordsActive(c: Setup, s: State, p: nat, e: Event)
    requires Can(c, s, p, e) && Commits(c, s, p, e).Win?
    ensures p < |s.procs| && s.procs[p].Recording? && UploadActive(s.tables, s.procs[p].job)
    ensures Commits(c, s, p, e).upload == s.procs[p].job.upload
  {
  }

  lemma RecordedNow(c: Setup, states: seq<State>, steps: seq<Step>, k: nat, id: nat)
    requires CollisionFree(c) && Run(c, states, steps) && k < |steps|
    requires id !in states[k].tables.snapshots && id in states[k + 1].tables.snapshots
    ensures RecordedInStep(states, steps, k, id, states[k + 1].tables.snapshots[id])
  {
    CommittedStep(c, states, steps, k);
    NewSnapshot(c, states[k].tables, Committed(c, states, steps, k), id);
    assert Taken(c, states, steps, k);
    CommitReadsClock(c, states[k], steps[k].actor, steps[k].event);
    RecordsActive(c, states[k], steps[k].actor, steps[k].event);
  }

  /** Every snapshot was recorded by the one completion of an upload with its manifest, and its completion key is
      the clock that completion read. */
  lemma {:induction false} SnapshotsReadTheClock(c: Setup, states: seq<State>, steps: seq<Step>, k: nat, id: nat)
    returns (j: nat)
    requires CollisionFree(c) && Run(c, states, steps) && k < |states| && id in states[k].tables.snapshots
    ensures j < k && RecordedInStep(states, steps, j, id, states[k].tables.snapshots[id])
  {
    if k == 0 {
      assert false;
    } else if id in states[k - 1].tables.snapshots {
      SnapshotsPersist(c, states, steps, k - 1, k, id);
      j := SnapshotsReadTheClock(c, states, steps, k - 1, id);
    } else {
      j := k - 1;
      RecordedNow(c, states, steps, k - 1, id);
    }
  }

  // ---- the latest context, field by field ----

  ghost predicate LiveIn(t: Tables, session: nat, id: nat) {
    Live(t, id) && t.snapshots[id].session == session
  }

  // No live snapshot of the session comes after this one in (completion key, identifier) order.
  ghost predicate NothingLater(t: Tables, session: nat, key: int, last: nat) {
    forall id: nat :: LiveIn(t, session, id) ==>
      t.snapshots[id].completedAt < key || (t.snapshots[id].completedAt == key && id <= last)
  }

  lemma LiveIsArchived(c: Setup, t: Tables, session: nat, id: nat)
    requires ProvenanceSound(c, t)
    ensures Archived(t, session, id) <==> LiveIn(t, session, id)
  {
    if LiveIn(t, session, id) { assert Captured(t, id); }
  }

  lemma NewestIsLast(c: Setup, t: Tables, session: nat, last: nat)
    requires ProvenanceSound(c, t) && Newest(t, session, last)
    ensures NothingLater(t, session, t.snapshots[last].completedAt, last)
  {
    forall id: nat | LiveIn(t, session, id)
      ensures t.snapshots[id].completedAt < t.snapshots[last].completedAt ||
              (t.snapshots[id].completedAt == t.snapshots[last].completedAt && id <= last)
    {
      LiveIsArchived(c, t, session, id);
    }
  }

  // The row of a session, or its absence, spelled out.
  ghost predicate LatestSpelled(t: Tables, session: nat) {
    if session in t.latest then
      var row := t.latest[session];
      && LiveIn(t, session, row.snapshot)
      && row.completedAt == t.snapshots[row.snapshot].completedAt
      && row.context == t.snapshots[row.snapshot].manifest.context
      && NothingLater(t, session, row.completedAt, row.snapshot)
    else
      forall id :: !LiveIn(t, session, id)
  }

  lemma ExactIsSpelled(c: Setup, t: Tables, session: nat)
    requires ProvenanceSound(c, t) && RowExact(t, session)
    ensures LatestSpelled(t, session)
  {
    if session in t.latest {
      var last := t.latest[session].snapshot;
      LiveIsArchived(c, t, session, last);
      NewestIsLast(c, t, session, last);
    } else {
      forall id ensures !LiveIn(t, session, id) { LiveIsArchived(c, t, session, id); }
    }
  }

  /** At every moment a session has a latest context exactly when it has a live snapshot; it is the context of the live
      snapshot with the greatest completion key, and among equal keys with the greatest identifier. */
  lemma LatestIsGreatest(c: Setup, states: seq<State>, steps: seq<Step>, k: nat, session: nat)
    requires CollisionFree(c) && Run(c, states, steps) && k < |states|
    ensures LatestSpelled(states[k].tables, session)
  {
    ReachableInv(c, states, steps, k);
    ExactIsSpelled(c, states[k].tables, session);
  }

  // ---- what recovery repairs ----

  /** Recovery's rebuild makes the latest context of every session right, whatever the table held before. */
  lemma RebuildRepairs(c: Setup, t: Tables, session: nat)
    requires Injective(c.fingerprint) && ProvenanceSound(c, t)
    ensures LatestSpelled(Apply(c, t, Rebuild), session)
  {
    var t' := Apply(c, t, Rebuild);
    ProvenanceGivesAgreement(c, t);
    RebuiltExact(t, t', session);
    KeepsProvenance(c, t, Rebuild);
    ExactIsSpelled(c, t', session);
  }

  lemma RebuiltExact(t: Tables, t': Tables, session: nat)
    requires ContextsAgree(t) && t' == t.(latest := RebuildLatest(t))
    ensures RowExact(t', session)
  {
    RebuildIsExact(t, session);
    forall id ensures Archived(t', session, id) <==> Archived(t, session, id) {}
    if session in t'.latest {
      var last := RebuildRow(t, session).value.snapshot;
      assert Newest(t, session, last) && t'.latest[session] == RowOf(t, last);
    }
  }

  /** Recovery's scheduling makes the candidate fields of every row right, whatever they were before: cleared on a
      row some live manifest declares, kept on an orphan that has them, and set to the clock's reading on one that
      has none. */
  lemma ScheduleRepairs(c: Setup, t: Tables, now: int, d: Digest)
    requires ProjectionsFit(t) && d in t.blobs
    ensures var t', row := Apply(c, t, Schedule(now)), t.blobs[d];
      && t' == t.(blobs := t'.blobs) && t'.blobs.Keys == t.blobs.Keys
      && if exists id, i :: Declares(t, id, i, d) then t'.blobs[d] == row.(candidate := None)
         else if row.candidate.Some? then t'.blobs[d] == row
         else t'.blobs[d] == row.(candidate := Some(Candidate(now, now + c.grace)))
  {
    ReferencedMeansDeclared(t, d);
  }
}
