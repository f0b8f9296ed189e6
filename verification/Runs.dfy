/** Whole runs: any number of completions, deletions, garbage-collection passes,
    crashes and recoveries, interleaved in any way. */
module Runs {
  import opened Basics
  import opened Catalog
  import opened CatalogInvariants
  import opened Provenance
  import opened LatestContext
  import opened Rearchive
  import opened Protocol
  import opened ProtocolSafety
  import opened ProtocolSteps
  import opened ProtocolKnowledge

  datatype Step = Step(actor: nat, event: Event)

  ghost predicate Taken(c: Setup, states: seq<State>, steps: seq<Step>, k: nat)
    requires k < |steps| && |states| == |steps| + 1
  {
    && Can(c, states[k], steps[k].actor, steps[k].event)
    && states[k + 1] == After(c, states[k], steps[k].actor, steps[k].event)
  }

  ghost predicate Run(c: Setup, states: seq<State>, steps: seq<Step>) {
    && |states| == |steps| + 1
    && Initial(states[0])
    && forall k :: 0 <= k < |steps| ==> Taken(c, states, steps, k)
  }

  // The transaction committed by step k.
  ghost function Committed(c: Setup, states: seq<State>, steps: seq<Step>, k: nat): Transaction
    requires k < |steps| && |states| == |steps| + 1
  {
    Commits(c, states[k], steps[k].actor, steps[k].event)
  }

  lemma {:induction false} ReachableInv(c: Setup, states: seq<State>, steps: seq<Step>, k: nat)
    requires CollisionFree(c) && Run(c, states, steps) && k < |states|
    ensures Inv(c, states[k])
  {
    if k == 0 {
      InitialInv(c, states[0]);
    } else {
      ReachableInv(c, states, steps, k - 1);
      assert Taken(c, states, steps, k - 1);
      KeepsInv(c, states[k - 1], steps[k - 1].actor, steps[k - 1].event);
    }
  }

  lemma TablesStep(c: Setup, states: seq<State>, steps: seq<Step>, k: nat)
    requires CollisionFree(c) && Run(c, states, steps) && k < |steps|
    ensures Inv(c, states[k])
    ensures Allowed(c, states[k].tables, Committed(c, states, steps, k))
    ensures states[k + 1].tables == Apply(c, states[k].tables, Committed(c, states, steps, k))
  {
    ReachableInv(c, states, steps, k);
    assert Taken(c, states, steps, k);
    CommitsAllowed(c, states[k], steps[k].actor, steps[k].event);
  }

  // The same, without the invariant.
  lemma CommittedStep(c: Setup, states: seq<State>, steps: seq<Step>, k: nat)
    requires CollisionFree(c) && Run(c, states, steps) && k < |steps|
    ensures Allowed(c, states[k].tables, Committed(c, states, steps, k))
    ensures states[k + 1].tables == Apply(c, states[k].tables, Committed(c, states, steps, k))
  {
    TablesStep(c, states, steps, k);
  }

  // ---- durability ----

  ghost predicate RowMatches(t: Tables, a: Artifact) {
    && a.stored in t.blobs
    && t.blobs[a.stored].size == a.storedSize && t.blobs[a.stored].compression == a.compression
    && t.blobs[a.stored].candidate.None?
  }

  /** In every reachable state, every artifact of a live snapshot has a blob row of the declared size and
      compression that is not up for collection, and a file of exactly that size and digest, which decodes
      to the declared original. */
  lemma LiveArtifactsAreDurable(c: Setup, states: seq<State>, steps: seq<Step>, k: nat, id: nat, i: nat)
    requires CollisionFree(c) && Run(c, states, steps) && k < |states|
    requires Live(states[k].tables, id) && i < |states[k].tables.snapshots[id].manifest.artifacts|
    ensures var a := states[k].tables.snapshots[id].manifest.artifacts[i];
      RowMatches(states[k].tables, a) && Held(c, states[k].files, a)
  {
    ReachableInv(c, states, steps, k);
    var t := states[k].tables;
    var a := t.snapshots[id].manifest.artifacts[i];
    assert AllHeld(c, states[k].files, t.snapshots[id].manifest.artifacts);
    SnapshotDeclares(t, id, i);
    assert RowFits(t.blobs, a, t.artifacts[id][i]);
    assert CandidateExact(c, t, a.stored);
  }

  /** No step of any process, and no crash or recovery, removes or rewrites the file of an artifact that is
      live when the step is taken. */
  lemma NoStepTouchesLiveFiles(c: Setup, states: seq<State>, steps: seq<Step>, k: nat, id: nat, i: nat)
    requires CollisionFree(c) && Run(c, states, steps) && k < |steps|
    requires Live(states[k].tables, id) && i < |states[k].tables.snapshots[id].manifest.artifacts|
    ensures var d := states[k].tables.snapshots[id].manifest.artifacts[i].stored;
      d in states[k].files && d in states[k + 1].files && states[k + 1].files[d] == states[k].files[d]
  {
    ReachableInv(c, states, steps, k);
    assert Taken(c, states, steps, k);
    var s := states[k];
    var a := s.tables.snapshots[id].manifest.artifacts[i];
    assert AllHeld(c, s.files, s.tables.snapshots[id].manifest.artifacts);
    assert Held(c, s.files, a);
    assert id in s.tables.artifacts;
    SnapshotDeclares(s.tables, id, i);
    RemovedUnreferenced(c, s, steps[k].actor, steps[k].event, a.stored);
  }

  lemma StepGrowsHistory(c: Setup, states: seq<State>, steps: seq<Step>, k: nat)
    requires CollisionFree(c) && Run(c, states, steps) && k < |steps|
    ensures Grows(states[k].tables, states[k + 1].tables)
  {
    TablesStep(c, states, steps, k);
    HistoryOnlyGrows(c, states[k].tables, Committed(c, states, steps, k));
  }

  lemma TombstonedTransitively(t: Tables, u: Tables, v: Tables, id: nat)
    requires id in t.snapshots && SameOrTombstoned(t, u, id) && SameOrTombstoned(u, v, id)
    ensures SameOrTombstoned(t, v, id)
  {
  }

  lemma {:induction false} SnapshotsPersist(c: Setup, states: seq<State>, steps: seq<Step>, j: nat, k: nat, id: nat)
    requires CollisionFree(c) && Run(c, states, steps) && j <= k < |states|
    requires id in states[j].tables.snapshots
    ensures SameOrTombstoned(states[j].tables, states[k].tables, id)
  {
    if j < k {
      SnapshotsPersist(c, states, steps, j, k - 1, id);
      StepGrowsHistory(c, states, steps, k - 1);
      TombstonedTransitively(states[j].tables, states[k - 1].tables, states[k].tables, id);
    }
  }

  /** Between any two moments of a run at which a snapshot exists, the second time live, it was live the
      first time too, with the same manifest, and each of its artifacts reads back the same bytes. */
  lemma LiveBytesNeverChange(c: Setup, states: seq<State>, steps: seq<Step>, j: nat, k: nat, id: nat, i: nat)
    requires CollisionFree(c) && Run(c, states, steps) && j <= k < |states|
    requires id in states[j].tables.snapshots && Live(states[k].tables, id)
    requires i < |states[k].tables.snapshots[id].manifest.artifacts|
    ensures Live(states[j].tables, id)
    ensures states[j].tables.snapshots[id].manifest == states[k].tables.snapshots[id].manifest
    ensures var d := states[k].tables.snapshots[id].manifest.artifacts[i].stored;
      d in states[j].files && d in states[k].files && states[j].files[d] == states[k].files[d]
  {
    SnapshotsPersist(c, states, steps, j, k, id);
    LiveArtifactsAreDurable(c, states, steps, j, id, i);
    LiveArtifactsAreDurable(c, states, steps, k, id, i);
    var d := states[k].tables.snapshots[id].manifest.artifacts[i].stored;
    assert c.codec.sha256(states[j].files[d]) == c.codec.sha256(states[k].files[d]);
  }

  // ---- derived state ----

  /** In every reachable state the incrementally maintained latest-context table is the one a full rebuild
      computes, and a blob row carries candidate fields exactly when no live manifest declares its digest. */
  lemma DerivedStateIsExact(c: Setup, states: seq<State>, steps: seq<Step>, k: nat)
    requires CollisionFree(c) && Run(c, states, steps) && k < |states|
    ensures states[k].tables.latest == RebuildLatest(states[k].tables)
    ensures forall d :: d in states[k].tables.blobs ==>
      (states[k].tables.blobs[d].candidate.Some? <==> forall id, i :: !Declares(states[k].tables, id, i, d))
  {
    ReachableInv(c, states, steps, k);
    var t := states[k].tables;
    ProvenanceGivesAgreement(c, t);
    ExactIsRebuilt(t);
    forall d | d in t.blobs
      ensures t.blobs[d].candidate.Some? <==> forall id, i :: !Declares(t, id, i, d)
    {
      assert CandidateExact(c, t, d);
      ReferencedMeansDeclared(t, d);
    }
  }

  // ---- identity and provenance ----

  /** At most one snapshot per (session, fingerprint) is live, and artifact rows exist for exactly the live
      snapshots. */
  lemma OneLiveSnapshotPerFingerprint(c: Setup, states: seq<State>, steps: seq<Step>, k: nat, a: nat, b: nat)
    requires CollisionFree(c) && Run(c, states, steps) && k < |states|
    ensures var t := states[k].tables;
      && (a in t.artifacts <==> Live(t, a))
      && (Live(t, b) && LiveMatch(t, t.snapshots[b].session, t.snapshots[b].fingerprint, a) ==> a == b)
  {
    ReachableInv(c, states, steps, k);
  }

  ghost predicate CapturedAt(c: Setup, states: seq<State>, steps: seq<Step>, j: nat, u: nat, id: nat)
    requires j < |steps| && |states| == |steps| + 1
  {
    && var x := Committed(c, states, steps, j);
    && (x.Win? || x.Attach?) && x.upload == u && x.snapshot == id
    && u in states[j].tables.uploads && states[j].tables.uploads[u].Active?
    && LiveMatch(states[j + 1].tables, states[j].tables.uploads[u].manifest.session,
                 Fingerprint(c, states[j].tables.uploads[u].manifest), id)
  }

  lemma CommittedCapture(c: Setup, t: Tables, x: Transaction, u: nat)
    requires ProvenanceSound(c, t) && Allowed(c, t, x) && u !in t.captures && u in Apply(c, t, x).captures
    ensures (x.Win? || x.Attach?) && x.upload == u && x.snapshot == Apply(c, t, x).captures[u].snapshot
    ensures u in t.uploads && t.uploads[u].Active?
    ensures LiveMatch(Apply(c, t, x), t.uploads[u].manifest.session, Fingerprint(c, t.uploads[u].manifest), x.snapshot)
  {
    ApplyStepsIdentity(c, t, x);
  }

  lemma NewCapture(c: Setup, states: seq<State>, steps: seq<Step>, k: nat, u: nat)
    requires CollisionFree(c) && Run(c, states, steps) && k < |steps|
    requires u !in states[k].tables.captures && u in states[k + 1].tables.captures
    ensures CapturedAt(c, states, steps, k, u, states[k + 1].tables.captures[u].snapshot)
  {
    TablesStep(c, states, steps, k);
    CommittedCapture(c, states[k].tables, Committed(c, states, steps, k), u);
  }

  lemma CompletedMeansCaptured(c: Setup, states: seq<State>, steps: seq<Step>, k: nat, u: nat)
    requires CollisionFree(c) && Run(c, states, steps) && k < |states|
    ensures u in states[k].tables.captures <==> u in states[k].tables.uploads && states[k].tables.uploads[u].Completed?
  {
    ReachableInv(c, states, steps, k);
    if u in states[k].tables.captures { assert CaptureGenuine(c, states[k].tables, u); }
  }

  /** Every completed upload has exactly one capture, made by the one step that completed it, of a snapshot
      that was live and carried the upload's session and fingerprint when that step committed. */
  lemma {:induction false} CapturesLandOnLiveSnapshots(c: Setup, states: seq<State>, steps: seq<Step>, k: nat, u: nat)
    requires CollisionFree(c) && Run(c, states, steps) && k < |states|
    requires u in states[k].tables.uploads && states[k].tables.uploads[u].Completed?
    ensures u in states[k].tables.captures
    ensures exists j :: 0 <= j < k && CapturedAt(c, states, steps, j, u, states[k].tables.captures[u].snapshot)
  {
    CompletedMeansCaptured(c, states, steps, k, u);
    if k > 0 {
      if u in states[k - 1].tables.captures {
        CompletedMeansCaptured(c, states, steps, k - 1, u);
        CapturesLandOnLiveSnapshots(c, states, steps, k - 1, u);
        StepGrowsHistory(c, states, steps, k - 1);
      } else {
        NewCapture(c, states, steps, k - 1, u);
      }
    }
  }

  /** The snapshot lock closes the race with deletion: a completion that found its snapshot under that lock
      always attaches to it, while the snapshot is live. */
  lemma FastAttachNeverMisses(c: Setup, states: seq<State>, steps: seq<Step>, k: nat)
    requires CollisionFree(c) && Run(c, states, steps) && k < |steps|
    requires steps[k].event.Go? && steps[k].actor < |states[k].procs|
    requires states[k].procs[steps[k].actor].AttachingFast?
    ensures var q := states[k].procs[steps[k].actor];
      Committed(c, states, steps, k) == Attach(q.job.upload, q.id) && Live(states[k + 1].tables, q.id)
  {
    TablesStep(c, states, steps, k);
    var q := states[k].procs[steps[k].actor];
    assert Knows(c, states[k].tables, states[k].files, q);
  }

  // ---- garbage collection and time ----

  lemma CandidateSet(c: Setup, t: Tables, x: Transaction, d: Digest)
    requires Allowed(c, t, x) && d in Apply(c, t, x).blobs && Apply(c, t, x).blobs[d].candidate.Some?
    requires !(d in t.blobs && t.blobs[d] == Apply(c, t, x).blobs[d])
    ensures (x.Delete? || x.Schedule?) && Apply(c, t, x).blobs[d].candidate == Some(Candidate(x.now, x.now + c.grace))
  {
  }

  lemma NewCandidate(c: Setup, states: seq<State>, steps: seq<Step>, d: Digest, k: nat)
    requires CollisionFree(c) && Run(c, states, steps) && k < |steps|
    requires d in states[k + 1].tables.blobs && states[k + 1].tables.blobs[d].candidate.Some?
    requires !(d in states[k].tables.blobs && states[k].tables.blobs[d] == states[k + 1].tables.blobs[d])
    ensures var x := Committed(c, states, steps, k);
      (x.Delete? || x.Schedule?) && states[k + 1].tables.blobs[d].candidate == Some(Candidate(x.now, x.now + c.grace))
  {
    CommittedStep(c, states, steps, k);
    CandidateSet(c, states[k].tables, Committed(c, states, steps, k), d);
  }

  // From the step before state j until state k the row was scheduled, unchanged and unreferenced.
  ghost predicate ScheduledThroughout(c: Setup, states: seq<State>, steps: seq<Step>, d: Digest, row: Blob, j: nat,
                                      k: nat)
    requires 0 < j <= k < |states| && |states| == |steps| + 1
  {
    && var x := Committed(c, states, steps, j - 1);
    && (x.Delete? || x.Schedule?) && row.candidate == Some(Candidate(x.now, x.now + c.grace))
    && forall m :: j <= m <= k ==> Idling(states[m].tables, d, row)
  }

  ghost predicate Idling(t: Tables, d: Digest, row: Blob) {
    d in t.blobs && t.blobs[d] == row && forall id, i :: !Declares(t, id, i, d)
  }

  lemma {:induction false} CandidateHistory(c: Setup, states: seq<State>, steps: seq<Step>, d: Digest, k: nat)
    requires CollisionFree(c) && Run(c, states, steps) && k < |states|
    requires d in states[k].tables.blobs && states[k].tables.blobs[d].candidate.Some?
    ensures exists j {:trigger ScheduledThroughout(c, states, steps, d, states[k].tables.blobs[d], j, k)} ::
      0 < j <= k && ScheduledThroughout(c, states, steps, d, states[k].tables.blobs[d], j, k)
  {
    var row := states[k].tables.blobs[d];
    DerivedStateIsExact(c, states, steps, k);
    assert Idling(states[k].tables, d, row);
    if k > 0 {
      var t := states[k - 1].tables;
      if d in t.blobs && t.blobs[d] == row {
        CandidateHistory(c, states, steps, d, k - 1);
        var j :| 0 < j <= k - 1 && ScheduledThroughout(c, states, steps, d, row, j, k - 1);
        assert ScheduledThroughout(c, states, steps, d, row, j, k);
      } else {
        NewCandidate(c, states, steps, d, k - 1);
        assert ScheduledThroughout(c, states, steps, d, row, k, k);
      }
    }
  }

  /** Garbage collection drops a row, and removes its file, only when its clock has reached the grace period
      past the recorded time at which the row was scheduled, and no live manifest declared the digest at
      any moment in between. */
  lemma CollectedOnlyAfterGrace(c: Setup, states: seq<State>, steps: seq<Step>, k: nat)
    requires CollisionFree(c) && Run(c, states, steps) && k < |steps|
    requires steps[k].event.Go? && steps[k].actor < |states[k].procs|
    requires var q := states[k].procs[steps[k].actor]; q.Unlinking? || q.Dropping?
    ensures var q := states[k].procs[steps[k].actor];
      && HasRow(states[k].tables, q.blob)
      && var row := states[k].tables.blobs[q.blob.digest];
      && row.candidate.Some? && row.candidate.value.orphanedAt + c.grace <= q.now
      && exists j {:trigger ScheduledThroughout(c, states, steps, q.blob.digest, row, j, k)} ::
           0 < j <= k && ScheduledThroughout(c, states, steps, q.blob.digest, row, j, k)
  {
    ReachableInv(c, states, steps, k);
    var q := states[k].procs[steps[k].actor];
    assert Knows(c, states[k].tables, states[k].files, q);
    assert CandidateExact(c, states[k].tables, q.blob.digest);
    CandidateHistory(c, states, steps, q.blob.digest, k);
  }

  // ---- rearchive history ----

  // Each deletion in this fingerprint's history up to state k reads a clock past every earlier one. Deletions of
  // other fingerprints may read any clock.
  ghost predicate ClockAdvances(c: Setup, states: seq<State>, steps: seq<Step>, k: nat, session: nat,
                                fingerprint: Digest)
    requires k < |states| == |steps| + 1
  {
    forall m :: 0 <= m < k ==> AdvancesAt(c, states, steps, m, session, fingerprint)
  }

  ghost predicate AdvancesAt(c: Setup, states: seq<State>, steps: seq<Step>, m: nat, session: nat, fingerprint: Digest)
    requires m < |steps| && |states| == |steps| + 1
  {
    Concerns(c, states[m].tables, Committed(c, states, steps, m), session, fingerprint) ==>
      DeletesLater(states[m].tables, Committed(c, states, steps, m))
  }

  // The history of one fingerprint is a chain, deleted in ascending order.
  ghost predicate OneChain(t: Tables, session: nat, fingerprint: Digest, snaps: seq<nat>, tombs: seq<nat>) {
    Chain(t, session, fingerprint, snaps, tombs) && DeletionsAscend(t, tombs)
  }

  lemma StepExtendsChain(c: Setup, states: seq<State>, steps: seq<Step>, k: nat, session: nat, fingerprint: Digest,
                         snaps: seq<nat>, tombs: seq<nat>)
    returns (snaps': seq<nat>, tombs': seq<nat>)
    requires CollisionFree(c) && Run(c, states, steps) && k < |steps|
    requires AdvancesAt(c, states, steps, k, session, fingerprint) &&
      OneChain(states[k].tables, session, fingerprint, snaps, tombs)
    ensures OneChain(states[k + 1].tables, session, fingerprint, snaps', tombs')
  {
    CommittedStep(c, states, steps, k);
    snaps', tombs' := ChainExtends(c, states[k].tables, Committed(c, states, steps, k), session, fingerprint, snaps,
                                   tombs);
  }

  lemma EmptyChain(t: Tables, session: nat, fingerprint: Digest)
    requires t == EmptyTables()
    ensures OneChain(t, session, fingerprint, [], [])
  {
  }

  /** Over every run in which the deletion clock of this fingerprint strictly increases, the snapshots and
      tombstones of that fingerprint form one alternating chain, linked forwards and backwards. */
  lemma {:induction false} HistoryIsOneChain(c: Setup, states: seq<State>, steps: seq<Step>, k: nat, session: nat,
                                             fingerprint: Digest)
    returns (snaps: seq<nat>, tombs: seq<nat>)
    requires CollisionFree(c) && Run(c, states, steps) && k < |states| &&
      ClockAdvances(c, states, steps, k, session, fingerprint)
    ensures OneChain(states[k].tables, session, fingerprint, snaps, tombs)
  {
    if k == 0 {
      snaps, tombs := [], [];
      EmptyChain(states[0].tables, session, fingerprint);
    } else {
      assert AdvancesAt(c, states, steps, k - 1, session, fingerprint);
      var snaps0, tombs0 := HistoryIsOneChain(c, states, steps, k - 1, session, fingerprint);
      snaps, tombs := StepExtendsChain(c, states, steps, k - 1, session, fingerprint, snaps0, tombs0);
    }
  }

  lemma StepForwards(c: Setup, states: seq<State>, steps: seq<Step>, k: nat, tomb: nat)
    requires CollisionFree(c) && Run(c, states, steps) && k < |steps| && tomb in states[k].tables.tombstones
    ensures SameOrForwarded(states[k].tables, states[k + 1].tables, tomb)
  {
    TablesStep(c, states, steps, k);
    ForwardedOnce(c, states[k].tables, Committed(c, states, steps, k), tomb);
  }

  lemma ForwardedTransitively(t: Tables, u: Tables, v: Tables, tomb: nat)
    requires tomb in t.tombstones && SameOrForwarded(t, u, tomb) && SameOrForwarded(u, v, tomb)
    ensures SameOrForwarded(t, v, tomb)
  {
  }

  lemma TombstonesAreSound(c: Setup, states: seq<State>, steps: seq<Step>, k: nat, tomb: nat)
    requires CollisionFree(c) && Run(c, states, steps) && k < |states| && tomb in states[k].tables.tombstones
    ensures TombSound(states[k].tables, tomb)
  {
    ReachableInv(c, states, steps, k);
  }

  /** A forward link, once set, is final, and is answered by the back link of a snapshot of the same session
      and fingerprint. */
  lemma {:induction false} ForwardLinksAreFinal(c: Setup, states: seq<State>, steps: seq<Step>, j: nat, k: nat,
                                                tomb: nat)
    requires CollisionFree(c) && Run(c, states, steps) && j <= k < |states| && tomb in states[j].tables.tombstones
    ensures SameOrForwarded(states[j].tables, states[k].tables, tomb)
    ensures TombSound(states[k].tables, tomb)
  {
    if j < k {
      ForwardLinksAreFinal(c, states, steps, j, k - 1, tomb);
      StepForwards(c, states, steps, k - 1, tomb);
      ForwardedTransitively(states[j].tables, states[k - 1].tables, states[k].tables, tomb);
    }
    TombstonesAreSound(c, states, steps, k, tomb);
  }

  // ---- recovery ----

  lemma RebuildIsIdle(c: Setup, t: Tables)
    requires CollisionFree(c) && TablesSound(c, t)
    ensures Apply(c, t, Rebuild) == t
  {
    ProvenanceGivesAgreement(c, t);
    ExactIsRebuilt(t);
  }

  lemma ScheduleIsIdle(c: Setup, t: Tables, now: int)
    requires CandidatesExact(c, t)
    ensures Apply(c, t, Schedule(now)) == t
  {
    var t' := AfterSchedule(c, t, now);
    forall d | d in t.blobs ensures t'.blobs[d] == t.blobs[d] { assert CandidateExact(c, t, d); }
    assert t'.blobs == t.blobs;
  }

  lemma RecoveryStep(c: Setup, s: State, p: nat, e: Event)
    requires CollisionFree(c) && Inv(c, s) && Can(c, s, p, e) && (!s.mode.Serving? || e.Crash?)
    ensures Apply(c, s.tables, Commits(c, s, p, e)) == s.tables
    ensures forall d :: d in FilesAfter(c, s, p, e) ==> d in s.files && FilesAfter(c, s, p, e)[d] == s.files[d]
    ensures forall d :: d in s.files && d in s.tables.blobs ==> d in FilesAfter(c, s, p, e)
    ensures After(c, s, p, e).mode.Serving? ==> s.files.Keys <= s.tables.blobs.Keys && FilesAfter(c, s, p, e) == s.files
  {
    RebuildIsIdle(c, s.tables);
    if e.Recover? { ScheduleIsIdle(c, s.tables, e.now); }
  }

  ghost function Owned(files: map<Digest, Bytes>, blobs: map<Digest, Blob>): map<Digest, Bytes> {
    map d | d in files && d in blobs :: files[d]
  }

  // Since the crash: the same rows, and every file that has one.
  ghost predicate Recovering(s: State, s': State) {
    && s'.tables == s.tables
    && Owned(s'.files, s.tables.blobs) == Owned(s.files, s.tables.blobs)
    && (s'.mode.Serving? ==> s'.files.Keys <= s.tables.blobs.Keys)
  }

  lemma RecoveryStepFrom(c: Setup, states: seq<State>, steps: seq<Step>, i: nat, j: nat)
    requires CollisionFree(c) && Run(c, states, steps) && i <= j < |steps|
    requires (i == j && steps[i].event.Crash?) || (Recovering(states[i], states[j]) && !states[j].mode.Serving?)
    ensures Recovering(states[i], states[j + 1])
  {
    ReachableInv(c, states, steps, j);
    assert Taken(c, states, steps, j);
    var s, e := states[j], steps[j].event;
    RecoveryStep(c, s, steps[j].actor, e);
    OwnedStays(s.files, FilesAfter(c, s, steps[j].actor, e), s.tables.blobs);
  }

  lemma OwnedStays(files: map<Digest, Bytes>, files': map<Digest, Bytes>, blobs: map<Digest, Blob>)
    requires forall d :: d in files' ==> d in files && files'[d] == files[d]
    requires forall d :: d in files && d in blobs ==> d in files'
    ensures Owned(files', blobs) == Owned(files, blobs)
  {
  }

  lemma {:induction false} RecoveryProgress(c: Setup, states: seq<State>, steps: seq<Step>, i: nat, j: nat)
    requires CollisionFree(c) && Run(c, states, steps) && i < j < |states|
    requires steps[i].event.Crash? && forall m :: i < m < j ==> !states[m].mode.Serving?
    ensures Recovering(states[i], states[j])
  {
    if i < j - 1 { RecoveryProgress(c, states, steps, i, j - 1); }
    RecoveryStepFrom(c, states, steps, i, j - 1);
  }

  /** Recovery after a crash at any step, itself interrupted by any number of further crashes, ends quiescent
      and idempotent: it leaves every row as it was, keeps exactly the files that have a row, leaves no process
      and no lock behind, and changes nothing at all when every file already had a row, as after an
      earlier recovery. */
  lemma RecoveryIsQuiescent(c: Setup, states: seq<State>, steps: seq<Step>, i: nat, j: nat)
    requires CollisionFree(c) && Run(c, states, steps) && i < j < |states|
    requires steps[i].event.Crash? && forall m :: i < m < j ==> !states[m].mode.Serving?
    requires states[j].mode.Serving?
    ensures states[j].tables == states[i].tables
    ensures states[j].files == Owned(states[i].files, states[i].tables.blobs)
    ensures forall p :: 0 <= p < |states[j].procs| ==> states[j].procs[p].Idle?
    ensures states[i].files.Keys <= states[i].tables.blobs.Keys ==> states[j].files == states[i].files
  {
    RecoveryProgress(c, states, steps, i, j);
    assert states[j].files == Owned(states[j].files, states[i].tables.blobs);
    if states[i].files.Keys <= states[i].tables.blobs.Keys {
      assert Owned(states[i].files, states[i].tables.blobs) == states[i].files;
    }
    RecoveredIdle(c, states, steps, i, j);
  }

  lemma RecoveredIdle(c: Setup, states: seq<State>, steps: seq<Step>, i: nat, j: nat)
    requires CollisionFree(c) && Run(c, states, steps) && i < j < |states|
    requires steps[i].event.Crash? && forall m :: i < m < j ==> !states[m].mode.Serving?
    ensures forall p :: 0 <= p < |states[j].procs| ==> states[j].procs[p].Idle?
  {
    assert Taken(c, states, steps, j - 1);
    if i < j - 1 {
      ReachableInv(c, states, steps, j - 1);
      assert External(steps[j - 1].event);
    }
  }
}
