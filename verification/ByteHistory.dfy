/** The bytes a run wrote, read off its states: which files each completion found
    missing when it promoted them, and what that means for conservation. */
module ByteHistory {
  import opened Basics
  import opened Catalog
  import opened Protocol
  import opened ProtocolSafety
  import opened ProtocolSteps
  import opened ProtocolKnowledge
  import opened Runs
  import opened Accounting

  // ---- the promotions of one attempt ----

  predicate Attempts(q: Process) {
    q.Promoting? || q.Recording?
  }

  // From state j on, the process works on the same job, up to state k.
  ghost predicate SameAttempt(states: seq<State>, p: nat, j: nat, k: nat) {
    k < |states| &&
    forall m :: j <= m <= k ==>
      p < |states[m].procs| && Attempts(states[m].procs[p]) && p < |states[k].procs| && Attempts(states[k].procs[p]) &&
      states[m].procs[p].job == states[k].procs[p].job
  }

  // In step j process p promoted d, and it is still at that attempt in state k.
  ghost predicate PromotedAt(states: seq<State>, steps: seq<Step>, p: nat, j: nat, k: nat, d: Digest) {
    && j < k < |states| && j < |steps| && SameAttempt(states, p, j, k) && steps[j].actor == p && steps[j].event.Go?
    && var q := states[j].procs[p];
    && q.Promoting? && |q.promotions| < |q.job.order| && q.job.order[|q.promotions|] == d
  }

  // What a step of its own does to a process that stays at its attempt.
  ghost predicate Continued(files: map<Digest, Bytes>, q: Process, q': Process) {
    && Attempts(q) && Attempts(q') && q'.job == q.job
    && (q'.promotions == q.promotions ||
        (q.Promoting? && |q.promotions| < |q.job.order| &&
         q'.promotions == q.promotions + [Promotion(q.job.order[|q.promotions|],
                                                    q.job.order[|q.promotions|] !in files)]))
  }

  lemma OwnStep(c: Setup, s: State, q: Process, e: Event)
    requires Takes(c, s, q, e) && Attempts(ProcAfter(c, s, q, e))
    ensures ProcAfter(c, s, q, e) == Promoting(ProcAfter(c, s, q, e).job, []) ||
      Continued(s.files, q, ProcAfter(c, s, q, e))
    ensures Continued(s.files, q, ProcAfter(c, s, q, e)) && ProcAfter(c, s, q, e).promotions != q.promotions ==> e.Go?
    ensures q.Promoting? && |q.promotions| < |q.job.order| && e.Go? ==> ProcAfter(c, s, q, e).promotions != q.promotions
  {
    if e.Fail? || e.FailLinked? { FailKeepsJob(c, s, q); }
  }

  lemma AttemptStep(c: Setup, states: seq<State>, steps: seq<Step>, k: nat, p: nat)
    requires Run(c, states, steps) && k < |steps| && p < |states[k + 1].procs| && Attempts(states[k + 1].procs[p])
    ensures p < |states[k].procs|
    ensures var q, q' := states[k].procs[p], states[k + 1].procs[p];
      && (q' == Promoting(q'.job, []) || Continued(states[k].files, q, q'))
      && (Continued(states[k].files, q, q') && q'.promotions != q.promotions ==>
            steps[k].actor == p && steps[k].event.Go?)
      && (q.Promoting? && |q.promotions| < |q.job.order| && steps[k].actor == p && steps[k].event.Go? ==>
            q'.promotions != q.promotions)
  {
    assert Taken(c, states, steps, k);
    if !External(steps[k].event) && steps[k].actor == p {
      OwnStep(c, states[k], states[k].procs[p], steps[k].event);
    }
  }

  // Every promotion on record was made in some step of the attempt, and records whether the file was there.
  lemma {:induction false} PromotionHappened(c: Setup, states: seq<State>, steps: seq<Step>, p: nat, k: nat, i: nat)
    returns (j: nat)
    requires CollisionFree(c) && Run(c, states, steps) && k < |states|
    requires p < |states[k].procs| && Attempts(states[k].procs[p]) && i < |states[k].procs[p].promotions|
    ensures PromotedAt(states, steps, p, j, k, states[k].procs[p].promotions[i].digest)
  {
    if k == 0 {
      assert false;
    } else {
      AttemptStep(c, states, steps, k - 1, p);
      var q, q' := states[k - 1].procs[p], states[k].procs[p];
      if i < |q.promotions| {
        j := PromotionHappened(c, states, steps, p, k - 1, i);
      } else {
        j := k - 1;
      }
      assert SameAttempt(states, p, j, k);
    }
  }

  // A promotion made in step j stays on record.
  lemma {:induction false} PromotionRecorded(c: Setup, states: seq<State>, steps: seq<Step>, p: nat, j: nat, k: nat,
                                             d: Digest)
    requires Run(c, states, steps) && PromotedAt(states, steps, p, j, k, d)
    ensures states[j].procs[p].promotions + [Promotion(d, d !in states[j].files)] <= states[k].procs[p].promotions
  {
    if k == j + 1 {
      AttemptStep(c, states, steps, j, p);
      NotStartedOver(c, states, steps, p, j);
    } else {
      assert SameAttempt(states, p, j, k - 1);
      PromotionRecorded(c, states, steps, p, j, k - 1, d);
      AttemptStep(c, states, steps, k - 1, p);
      NotStartedOver(c, states, steps, p, k - 1);
    }
  }

  // A process at an attempt does not start another one in a single step.
  lemma NotStartedOver(c: Setup, states: seq<State>, steps: seq<Step>, p: nat, k: nat)
    requires Run(c, states, steps) && k < |steps| && p < |states[k].procs| && Attempts(states[k].procs[p])
    requires p < |states[k + 1].procs| && Attempts(states[k + 1].procs[p])
    ensures Continued(states[k].files, states[k].procs[p], states[k + 1].procs[p])
  {
    assert Taken(c, states, steps, k);
    if !External(steps[k].event) && steps[k].actor == p {
      AtAttempt(c, states[k], states[k].procs[p], steps[k].event);
    }
  }

  lemma AtAttempt(c: Setup, s: State, q: Process, e: Event)
    requires Takes(c, s, q, e) && Attempts(q) && Attempts(ProcAfter(c, s, q, e))
    ensures Continued(s.files, q, ProcAfter(c, s, q, e))
  {
    if e.Fail? || e.FailLinked? { FailKeepsJob(c, s, q); }
  }

  // ---- rows, between a promotion and its commit ----

  lemma StepKeepsRow(c: Setup, states: seq<State>, steps: seq<Step>, p: nat, k: nat, d: Digest)
    requires CollisionFree(c) && Run(c, states, steps) && k < |steps| && p < |states[k].procs| &&
      p < |states[k + 1].procs|
    requires Attempts(states[k].procs[p]) && Attempts(states[k + 1].procs[p]) &&
      d in StoredDigests(states[k].procs[p].job.manifest)
    ensures d in states[k].tables.blobs <==> d in states[k + 1].tables.blobs
  {
    TablesStep(c, states, steps, k);
    assert Taken(c, states, steps, k);
    AttemptKeepsRow(c, states[k], steps[k].actor, steps[k].event, p, states[k + 1].procs[p], d);
  }

  lemma AttemptKeepsRow(c: Setup, s: State, actor: nat, e: Event, p: nat, q': Process, d: Digest)
    requires Inv(c, s) && Can(c, s, actor, e) && Allowed(c, s.tables, Commits(c, s, actor, e))
    requires p < |s.procs| && Attempts(s.procs[p]) && Attempts(q')
    requires |ProcsAfter(c, s, actor, e)| == |s.procs| && ProcsAfter(c, s, actor, e)[p] == q'
    requires d in StoredDigests(s.procs[p].job.manifest)
    ensures d in s.tables.blobs <==> d in Apply(c, s.tables, Commits(c, s, actor, e)).blobs
  {
    if External(e) {
      SubmissionKeepsRows(c, s, p, actor, e);
    } else if actor == p {
      OwnCommits(c, s, p, e);
    } else {
      OthersKeepRow(c, s, actor, e, p, d);
    }
  }

  lemma SubmissionKeepsRows(c: Setup, s: State, p: nat, actor: nat, e: Event)
    requires QuietWhileRecovering(s) && p < |s.procs| && !s.procs[p].Idle? && Can(c, s, actor, e) && External(e) &&
      !e.Crash?
    ensures Apply(c, s.tables, Commits(c, s, actor, e)).blobs == s.tables.blobs
  {
    assert s.mode.Serving?;
  }

  lemma OthersKeepRow(c: Setup, s: State, actor: nat, e: Event, p: nat, d: Digest)
    requires Inv(c, s) && Can(c, s, actor, e) && !External(e) && p < |s.procs| && actor != p
    requires Attempts(s.procs[p]) && d in StoredDigests(s.procs[p].job.manifest)
    requires Allowed(c, s.tables, Commits(c, s, actor, e))
    ensures d in s.tables.blobs <==> d in Apply(c, s.tables, Commits(c, s, actor, e)).blobs
  {
    assert Knows(c, s.tables, s.files, s.procs[p]);
    JobBlobLock(c, s.procs[p], d);
    DigestFrame(c, s, actor, e, p, d);
    RowPresence(c, s.tables, Commits(c, s, actor, e), d);
  }

  lemma {:induction false} RowsKept(c: Setup, states: seq<State>, steps: seq<Step>, p: nat, j: nat, k: nat, d: Digest)
    requires CollisionFree(c) && Run(c, states, steps) && j <= k && SameAttempt(states, p, j, k)
    requires d in StoredDigests(states[k].procs[p].job.manifest)
    ensures d in states[j].tables.blobs <==> d in states[k].tables.blobs
  {
    if j < k {
      assert SameAttempt(states, p, j, k - 1);
      RowsKept(c, states, steps, p, j, k - 1, d);
      StepKeepsRow(c, states, steps, p, k - 1, d);
    }
  }

  // ---- what a completion reports ----

  // The attempt that is at its end in state k found no file of d when it promoted it.
  ghost predicate FileMissing(states: seq<State>, steps: seq<Step>, p: nat, k: nat, d: Digest) {
    exists j: nat :: PromotedAt(states, steps, p, j, k, d) && d !in states[j].files
  }

  // The manifest a winning step records, empty for any other step.
  ghost function WonManifest(c: Setup, states: seq<State>, steps: seq<Step>, k: nat): Manifest
    requires k < |steps| && |states| == |steps| + 1
  {
    var x := Committed(c, states, steps, k);
    if x.Win? && x.upload in states[k].tables.uploads then states[k].tables.uploads[x.upload].manifest
    else Manifest(0, Context(None, None, None, None, 0), [])
  }

  // The promotion of d on record says whether its file was missing, whichever step made it.
  lemma FlagIsMissing(c: Setup, states: seq<State>, steps: seq<Step>, p: nat, k: nat, i: nat)
    requires CollisionFree(c) && Run(c, states, steps) && k < |states| && p < |states[k].procs|
    requires states[k].procs[p].Recording? && i < |states[k].procs[p].promotions|
    ensures var promotion := states[k].procs[p].promotions[i];
      promotion.created <==> FileMissing(states, steps, p, k, promotion.digest)
  {
    var q := states[k].procs[p];
    var d := q.promotions[i].digest;
    ReachableInv(c, states, steps, k);
    assert Knows(c, states[k].tables, states[k].files, q);
    var j := PromotionHappened(c, states, steps, p, k, i);
    FlagOf(c, states, steps, p, j, k, i);
    if FileMissing(states, steps, p, k, d) {
      var other: nat :| PromotedAt(states, steps, p, other, k, d) && d !in states[other].files;
      FlagOf(c, states, steps, p, other, k, i);
    }
  }

  lemma FlagOf(c: Setup, states: seq<State>, steps: seq<Step>, p: nat, j: nat, k: nat, i: nat)
    requires Run(c, states, steps) && k < |states| && p < |states[k].procs| && Attempts(states[k].procs[p])
    requires i < |states[k].procs[p].promotions| &&
      PromotionsNamed(states[k].procs[p].job, states[k].procs[p].promotions)
    requires StrictlyAscending(states[k].procs[p].job.order)
    requires PromotedAt(states, steps, p, j, k, states[k].procs[p].promotions[i].digest)
    ensures states[k].procs[p].promotions[i].created <==> states[k].procs[p].promotions[i].digest !in states[j].files
  {
    var q := states[k].procs[p];
    var d := q.promotions[i].digest;
    PromotionRecorded(c, states, steps, p, j, k, d);
    var n := |states[j].procs[p].promotions|;
    assert q.promotions[n] == Promotion(d, d !in states[j].files);
    assert q.job.order[n] == q.job.order[i];
  }

  lemma WinnerAt(c: Setup, states: seq<State>, steps: seq<Step>, k: nat)
    requires CollisionFree(c) && Run(c, states, steps) && k < |steps| && Committed(c, states, steps, k).Win?
    ensures var p, x, s := steps[k].actor, Committed(c, states, steps, k), states[k];
      && p < |s.procs| && s.procs[p].Recording? && Knows(c, s.tables, s.files, s.procs[p])
      && x.upload in s.tables.uploads && s.tables.uploads[x.upload].manifest == s.procs[p].job.manifest
      && x.created == CreatedBy(s.procs[p].promotions) && x.created <= StoredDigests(s.procs[p].job.manifest)
  {
    TablesStep(c, states, steps, k);
    assert Taken(c, states, steps, k);
    RecordingWins(c, states[k], steps[k].actor, steps[k].event);
    assert Knows(c, states[k].tables, states[k].files, states[k].procs[steps[k].actor]);
  }

  /** A winning completion reports exactly the digests whose file was missing at the moment it promoted them. */
  lemma WinReportsMissing(c: Setup, states: seq<State>, steps: seq<Step>, k: nat)
    requires CollisionFree(c) && Run(c, states, steps) && k < |steps| && Committed(c, states, steps, k).Win?
    ensures Committed(c, states, steps, k).created ==
      set d | d in StoredDigests(WonManifest(c, states, steps, k)) && FileMissing(states, steps, steps[k].actor, k, d)
  {
    WinnerAt(c, states, steps, k);
    forall d | d in StoredDigests(WonManifest(c, states, steps, k))
      ensures d in Committed(c, states, steps, k).created <==> FileMissing(states, steps, steps[k].actor, k, d)
    {
      ReportsDigest(c, states, steps, steps[k].actor, k, d);
    }
  }

  /** From that moment to its commit, no other process gives the digest a row or takes its row away. */
  lemma PromotedRowsStay(c: Setup, states: seq<State>, steps: seq<Step>, k: nat, j: nat, d: Digest)
    requires CollisionFree(c) && Run(c, states, steps) && k < |steps| && Committed(c, states, steps, k).Win?
    requires PromotedAt(states, steps, steps[k].actor, j, k, d)
    ensures d in states[j].tables.blobs <==> d in states[k].tables.blobs
  {
    WinnerAt(c, states, steps, k);
    assert d in states[k].procs[steps[k].actor].job.order;
    RowsKept(c, states, steps, steps[k].actor, j, k, d);
  }

  lemma CreatedAtIndex(order: seq<Digest>, promotions: seq<Promotion>, i: nat)
    requires StrictlyAscending(order) && i < |promotions| <= |order|
    requires forall n :: 0 <= n < |promotions| ==> promotions[n].digest == order[n]
    ensures order[i] in CreatedBy(promotions) <==> promotions[i].created
  {
    if order[i] in CreatedBy(promotions) {
      var n :| 0 <= n < |promotions| && promotions[n].created && promotions[n].digest == order[i];
    }
  }

  lemma ReportsDigest(c: Setup, states: seq<State>, steps: seq<Step>, p: nat, k: nat, d: Digest)
    requires CollisionFree(c) && Run(c, states, steps) && k < |states| && p < |states[k].procs|
    requires states[k].procs[p].Recording? && Knows(c, states[k].tables, states[k].files, states[k].procs[p])
    requires d in StoredDigests(states[k].procs[p].job.manifest)
    ensures d in CreatedBy(states[k].procs[p].promotions) <==> FileMissing(states, steps, p, k, d)
  {
    var q := states[k].procs[p];
    assert d in q.job.order;
    var i :| 0 <= i < |q.job.order| && q.job.order[i] == d;
    CreatedAtIndex(q.job.order, q.promotions, i);
    FlagIsMissing(c, states, steps, p, k, i);
  }

  // ---- totals over a run ----

  // Digests recorded in step k whose row was there while the file was missing, and the other way round.
  ghost function RelinkedIn(c: Setup, states: seq<State>, steps: seq<Step>, k: nat): set<Digest>
    requires k < |steps| && |states| == |steps| + 1
  {
    set d | d in StoredDigests(WonManifest(c, states, steps, k)) && d in states[k].tables.blobs &&
            FileMissing(states, steps, steps[k].actor, k, d)
  }

  ghost function AdoptedIn(c: Setup, states: seq<State>, steps: seq<Step>, k: nat): set<Digest>
    requires k < |steps| && |states| == |steps| + 1
  {
    set d | d in StoredDigests(WonManifest(c, states, steps, k)) && d !in states[k].tables.blobs &&
            !FileMissing(states, steps, steps[k].actor, k, d)
  }

  ghost function RelinkedBytes(c: Setup, states: seq<State>, steps: seq<Step>, k: nat): nat
    requires k < |states| == |steps| + 1
  {
    if k == 0 then 0
    else
      RelinkedBytes(c, states, steps, k - 1) +
      NewlyPersisted(WonManifest(c, states, steps, k - 1), RelinkedIn(c, states, steps, k - 1))
  }

  ghost function AdoptedBytes(c: Setup, states: seq<State>, steps: seq<Step>, k: nat): nat
    requires k < |states| == |steps| + 1
  {
    if k == 0 then 0
    else
      AdoptedBytes(c, states, steps, k - 1) +
      NewlyPersisted(WonManifest(c, states, steps, k - 1), AdoptedIn(c, states, steps, k - 1))
  }

  // Sizes of the rows collections removed.
  ghost function CollectedBytes(c: Setup, states: seq<State>, steps: seq<Step>, k: nat): nat
    requires k < |states| == |steps| + 1
  {
    if k == 0 then 0
    else
      var x := Committed(c, states, steps, k - 1);
      CollectedBytes(c, states, steps, k - 1) +
      if x.Collect? && HasRow(states[k - 1].tables, x.blob) then states[k - 1].tables.blobs[x.blob.digest].size else 0
  }

  lemma NothingWeighs(m: Manifest)
    ensures NewlyPersisted(m, {}) == 0
  {
  }

  lemma OthersAddNothing(c: Setup, t: Tables, x: Transaction)
    requires !x.Win?
    ensures var ledger := Apply(c, t, x).ledger;
      && ledger.relinked == t.ledger.relinked && ledger.adopted == t.ledger.adopted
      && ledger.collected == t.ledger.collected +
           if x.Collect? && HasRow(t, x.blob) then t.blobs[x.blob.digest].size else 0
  {
  }

  lemma WinSets(c: Setup, states: seq<State>, steps: seq<Step>, k: nat)
    requires CollisionFree(c) && Run(c, states, steps) && k < |steps| && Committed(c, states, steps, k).Win?
    ensures var m, rows := WonManifest(c, states, steps, k), states[k].tables.blobs.Keys;
      var created := Committed(c, states, steps, k).created;
      && created * rows == RelinkedIn(c, states, steps, k)
      && (StoredDigests(m) - rows) - created == AdoptedIn(c, states, steps, k)
  {
    WinReportsMissing(c, states, steps, k);
  }

  lemma WinAdds(c: Setup, states: seq<State>, steps: seq<Step>, k: nat)
    requires CollisionFree(c) && Run(c, states, steps) && k < |steps| && Committed(c, states, steps, k).Win?
    ensures var m := WonManifest(c, states, steps, k);
      var before, after := states[k].tables.ledger, states[k + 1].tables.ledger;
      && after.collected == before.collected
      && after.relinked == before.relinked + NewlyPersisted(m, RelinkedIn(c, states, steps, k))
      && after.adopted == before.adopted + NewlyPersisted(m, AdoptedIn(c, states, steps, k))
  {
    CommittedStep(c, states, steps, k);
    WinSets(c, states, steps, k);
    WinSums(c, states[k].tables, Committed(c, states, steps, k));
  }

  lemma OthersAdd(c: Setup, states: seq<State>, steps: seq<Step>, k: nat)
    requires CollisionFree(c) && Run(c, states, steps) && k < |steps| && !Committed(c, states, steps, k).Win?
    ensures NewlyPersisted(WonManifest(c, states, steps, k), RelinkedIn(c, states, steps, k)) == 0
    ensures NewlyPersisted(WonManifest(c, states, steps, k), AdoptedIn(c, states, steps, k)) == 0
    ensures var x := Committed(c, states, steps, k);
      var before, after := states[k].tables.ledger, states[k + 1].tables.ledger;
      && after.relinked == before.relinked && after.adopted == before.adopted
      && after.collected == before.collected +
           if x.Collect? && HasRow(states[k].tables, x.blob) then states[k].tables.blobs[x.blob.digest].size else 0
  {
    CommittedStep(c, states, steps, k);
    NothingWeighs(WonManifest(c, states, steps, k));
    OthersAddNothing(c, states[k].tables, Committed(c, states, steps, k));
    assert StoredDigests(WonManifest(c, states, steps, k)) == {};
    assert RelinkedIn(c, states, steps, k) == {} && AdoptedIn(c, states, steps, k) == {};
  }

  // The history the tables carry is the one the run's states tell.
  lemma {:induction false} LedgerIsHistory(c: Setup, states: seq<State>, steps: seq<Step>, k: nat)
    requires CollisionFree(c) && Run(c, states, steps) && k < |states|
    ensures states[k].tables.ledger == Ledger(CollectedBytes(c, states, steps, k), RelinkedBytes(c, states, steps, k),
                                              AdoptedBytes(c, states, steps, k))
  {
    if k > 0 {
      LedgerIsHistory(c, states, steps, k - 1);
      if Committed(c, states, steps, k - 1).Win? {
        WinAdds(c, states, steps, k - 1);
      } else {
        OthersAdd(c, states, steps, k - 1);
      }
    }
  }

  /** The full law, over every run, with crashes, dropped requests and failures anywhere: reported bytes plus bytes of
      files found under no row equal row bytes plus collected bytes plus bytes of files missing under a row. Found and
      missing are read off the files in place when each completion promoted them. The plain law holds at a moment
      exactly when those two corrections are equal. */
  lemma BytesBalance(c: Setup, states: seq<State>, steps: seq<Step>, k: nat)
    requires CollisionFree(c) && Run(c, states, steps) && k < |states|
    ensures var t := states[k].tables;
      && Reported(t.uploads) + AdoptedBytes(c, states, steps, k) ==
           RowBytes(t.blobs) + CollectedBytes(c, states, steps, k) + RelinkedBytes(c, states, steps, k)
      && (Reported(t.uploads) == RowBytes(t.blobs) + CollectedBytes(c, states, steps, k) <==>
           AdoptedBytes(c, states, steps, k) == RelinkedBytes(c, states, steps, k))
  {
    AlwaysBalanced(c, states, steps, k);
    LedgerIsHistory(c, states, steps, k);
  }

  // Every completion up to state k found a file exactly where it found a row.
  ghost predicate StoresAgree(c: Setup, states: seq<State>, steps: seq<Step>, k: nat)
    requires k < |states| == |steps| + 1
  {
    forall m :: 0 <= m < k ==> AgreesAt(c, states, steps, m)
  }

  ghost predicate AgreesAt(c: Setup, states: seq<State>, steps: seq<Step>, m: nat)
    requires m < |steps| && |states| == |steps| + 1
  {
    Committed(c, states, steps, m).Win? ==>
      forall d :: d in StoredDigests(WonManifest(c, states, steps, m)) ==>
        (d in states[m].tables.blobs <==> !FileMissing(states, steps, steps[m].actor, m, d))
  }

  lemma {:induction false} AgreeingAddsNothing(c: Setup, states: seq<State>, steps: seq<Step>, k: nat)
    requires Run(c, states, steps) && k < |states| && StoresAgree(c, states, steps, k)
    ensures RelinkedBytes(c, states, steps, k) == AdoptedBytes(c, states, steps, k) == 0
  {
    if k > 0 {
      AgreeingAddsNothing(c, states, steps, k - 1);
      assert AgreesAt(c, states, steps, k - 1);
      assert RelinkedIn(c, states, steps, k - 1) == {} && AdoptedIn(c, states, steps, k - 1) == {};
      NothingWeighs(WonManifest(c, states, steps, k - 1));
    }
  }

  /** Conservation in any run, crashes and failures included, in which every completion finds a file exactly where it
      finds a row: reported bytes equal row bytes plus collected bytes. */
  lemma ConservedWhileStoresAgree(c: Setup, states: seq<State>, steps: seq<Step>, k: nat)
    requires CollisionFree(c) && Run(c, states, steps) && k < |states| && StoresAgree(c, states, steps, k)
    ensures Reported(states[k].tables.uploads) == RowBytes(states[k].tables.blobs) + CollectedBytes(c, states, steps, k)
  {
    AgreeingAddsNothing(c, states, steps, k);
    BytesBalance(c, states, steps, k);
  }

  // What step k adds to the two sides of the plain law cancels out.
  ghost predicate EvenAt(c: Setup, states: seq<State>, steps: seq<Step>, k: nat)
    requires k < |steps| && |states| == |steps| + 1
  {
    NewlyPersisted(WonManifest(c, states, steps, k), RelinkedIn(c, states, steps, k)) ==
    NewlyPersisted(WonManifest(c, states, steps, k), AdoptedIn(c, states, steps, k))
  }

  lemma LawStep(t: Tables, t': Tables, relinked: nat, adopted: nat)
    requires Balanced(t) && Balanced(t') && Conserved(t)
    requires t'.ledger.relinked == t.ledger.relinked + relinked && t'.ledger.adopted == t.ledger.adopted + adopted
    ensures Conserved(t') <==> relinked == adopted
  {
  }

  lemma StepAdds(c: Setup, states: seq<State>, steps: seq<Step>, k: nat)
    requires CollisionFree(c) && Run(c, states, steps) && k < |steps|
    ensures var m := WonManifest(c, states, steps, k);
      var before, after := states[k].tables.ledger, states[k + 1].tables.ledger;
      && after.relinked == before.relinked + NewlyPersisted(m, RelinkedIn(c, states, steps, k))
      && after.adopted == before.adopted + NewlyPersisted(m, AdoptedIn(c, states, steps, k))
  {
    if Committed(c, states, steps, k).Win? { WinAdds(c, states, steps, k); } else { OthersAdd(c, states, steps, k); }
  }

  lemma StepConservesIff(c: Setup, states: seq<State>, steps: seq<Step>, k: nat)
    requires CollisionFree(c) && Run(c, states, steps) && k < |steps| && Conserved(states[k].tables)
    ensures Conserved(states[k + 1].tables) <==> EvenAt(c, states, steps, k)
  {
    StepAdds(c, states, steps, k);
    AlwaysBalanced(c, states, steps, k);
    AlwaysBalanced(c, states, steps, k + 1);
    var m := WonManifest(c, states, steps, k);
    LawStep(states[k].tables, states[k + 1].tables, NewlyPersisted(m, RelinkedIn(c, states, steps, k)),
            NewlyPersisted(m, AdoptedIn(c, states, steps, k)));
  }

  ghost predicate ConservedUpTo(states: seq<State>, k: nat)
    requires k < |states|
  {
    forall m :: 0 <= m <= k ==> ConservedAt(states, m)
  }

  ghost predicate ConservedAt(states: seq<State>, m: nat)
    requires m < |states|
  {
    Conserved(states[m].tables)
  }

  ghost predicate EvenUpTo(c: Setup, states: seq<State>, steps: seq<Step>, k: nat)
    requires k < |states| == |steps| + 1
  {
    forall m :: 0 <= m < k ==> EvenAt(c, states, steps, m)
  }

  lemma UpToNext(c: Setup, states: seq<State>, steps: seq<Step>, k: nat)
    requires k < |steps| && |states| == |steps| + 1
    ensures ConservedUpTo(states, k + 1) <==> ConservedUpTo(states, k) && ConservedAt(states, k + 1)
    ensures EvenUpTo(c, states, steps, k + 1) <==> EvenUpTo(c, states, steps, k) && EvenAt(c, states, steps, k)
  {
  }

  lemma StartsConserved(states: seq<State>)
    requires |states| > 0 && Initial(states[0])
    ensures ConservedUpTo(states, 0)
  {
    EmptySums(states[0].tables);
    assert ConservedAt(states, 0);
  }

  lemma NextIff(c: Setup, states: seq<State>, steps: seq<Step>, k: nat)
    requires CollisionFree(c) && Run(c, states, steps) && k < |steps|
    requires ConservedUpTo(states, k) <==> EvenUpTo(c, states, steps, k)
    ensures ConservedUpTo(states, k + 1) <==> EvenUpTo(c, states, steps, k + 1)
  {
    UpToNext(c, states, steps, k);
    if ConservedUpTo(states, k) {
      assert ConservedAt(states, k);
      StepConservesIff(c, states, steps, k);
    }
  }

  /** Exactly when the plain law holds at every moment of a run up to state k: when in each completion the files missing
      under rows weigh as much as the files found under none. */
  lemma {:induction false} AlwaysConservedIff(c: Setup, states: seq<State>, steps: seq<Step>, k: nat)
    requires CollisionFree(c) && Run(c, states, steps) && k < |states|
    ensures ConservedUpTo(states, k) <==> EvenUpTo(c, states, steps, k)
  {
    if k == 0 {
      StartsConserved(states);
    } else {
      AlwaysConservedIff(c, states, steps, k - 1);
      NextIff(c, states, steps, k - 1);
    }
  }
}
