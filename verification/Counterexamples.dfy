/** Runs, free of crashes and dropped requests, in which a promise of the code
    fails. Each exists for every collision-free deployment. */
module Counterexamples {
  import opened Basics
  import opened Catalog
  import opened Rearchive
  import opened Protocol
  import opened ProtocolSafety
  import opened Runs
  import opened Accounting
  import opened History
  import opened Scenarios

  // ---- physical bytes ----

  ghost function ContentFile(c: Setup): map<Digest, Bytes> { map[ContentDigest(c) := CONTENT] }

  // The content archived once, as upload 1 and snapshot 1, and deleted at time 10.
  ghost function Once(c: Setup): Tables { AfterArchiving(c, EmptyTables(), 1, 1, 0, map[]) }
  ghost function Deleted(c: Setup): Tables { Apply(c, Once(c), Delete(1, 1, 10)) }

  lemma ArchiveOnce(c: Setup)
    ensures Leads(c, Start(), At(Once(c), ContentFile(c), Idle)) && Holding(c, Once(c), 1)
  {
    StaysPut(c, Start());
    Archives(c, Start(), EmptyTables(), map[], 1, 1, 0);
    assert map[][ContentDigest(c) := CONTENT] == ContentFile(c);
  }

  lemma OnceKeys(c: Setup)
    ensures Once(c).uploads.Keys == {1} && Once(c).snapshots.Keys == {1} && Once(c).tombstones == map[]
    ensures Once(c).blobs.Keys == {ContentDigest(c)}
    ensures Once(c).snapshots[1].rearchivedFrom == None && Once(c).snapshots[1].session == 0
    ensures Once(c).snapshots[1].fingerprint == ContentPrint(c)
  {
    ContentJobIs(c, 1);
    assert PriorTombstone(EmptyTables(), 0, ContentPrint(c)).None?;
  }

  lemma DeleteOnce(c: Setup)
    ensures Leads(c, Start(), At(Deleted(c), ContentFile(c), Idle)) && Orphaned(c, Deleted(c), 10 + c.grace)
  {
    ArchiveOnce(c);
    OnceKeys(c);
    Deletes(c, Start(), Once(c), ContentFile(c), 1, 1, 10);
  }

  lemma DeletedKeys(c: Setup)
    ensures Deleted(c).uploads.Keys == {1} && Deleted(c).snapshots.Keys == {1} && Deleted(c).ledger == Once(c).ledger
    ensures Deleted(c).blobs.Keys == {ContentDigest(c)}
    ensures Deleted(c).tombstones == map[1 := Tombstone(1, 0, ContentPrint(c), 10, None)]
    ensures Closed(c, Deleted(c), 1) && Deleted(c).snapshots[1].rearchivedFrom == None
  {
    OnceKeys(c);
    DeleteMarks(c, Once(c), 1, 1, 10);
  }

  // A deleted snapshot of the content.
  ghost predicate Closed(c: Setup, t: Tables, id: nat) {
    Same(t, 0, ContentPrint(c), id) && t.snapshots[id].deletedAt.Some?
  }

  lemma DeleteMarks(c: Setup, t: Tables, id: nat, tomb: nat, now: int)
    requires Same(t, 0, ContentPrint(c), id)
    ensures var t' := Apply(c, t, Delete(id, tomb, now));
      && t'.uploads == t.uploads && t'.ledger == t.ledger && t'.blobs.Keys == t.blobs.Keys
      && t'.snapshots == t.snapshots[id := t.snapshots[id].(deletedAt := Some(now))] && Closed(c, t', id)
      && t'.tombstones == t.tombstones[tomb := Tombstone(id, 0, ContentPrint(c), now, None)]
  {
  }

  // A collection removes the file and cannot commit.
  lemma LoseFile(c: Setup)
    ensures Leads(c, Start(), At(Deleted(c), map[], Idle))
  {
    DeleteOnce(c);
    Picks(c, Start(), Deleted(c), ContentFile(c), 10 + c.grace);
    Authorises(c, Start(), Deleted(c), ContentFile(c), 10 + c.grace);
    FailsToCommit(c, Start(), Deleted(c), ContentFile(c), 10 + c.grace, ContentRow(c, Deleted(c)));
    assert ContentFile(c) - {ContentDigest(c)} == map[];
  }

  // The content comes again, and its file is created again.
  lemma ReturnsAfterLoss(c: Setup)
    ensures Pending(c, Uploaded(c, Deleted(c), 2), map[], 2)
    ensures Leads(c, Start(), At(Uploaded(c, Deleted(c), 2), ContentFile(c), Recorder(c, 2, map[])))
  {
    LoseFile(c);
    DeleteOnce(c);
    DeletedKeys(c);
    var none: map<Digest, Bytes> := map[];
    assert Storable(c, Deleted(c), none);
    Submits(c, Start(), Deleted(c), none, 2);
    ReadyToRecord(c, Start(), Uploaded(c, Deleted(c), 2), none, 2);
    assert none[ContentDigest(c) := CONTENT] == ContentFile(c);
  }

  lemma ContentWeighs(c: Setup)
    ensures NewlyPersisted(ContentManifest(c), {ContentDigest(c)}) == 3 && NewlyPersisted(ContentManifest(c), {}) == 0
  {
    ContentJobIs(c, 1);
    SumOne(DeclaredSizes(ContentManifest(c)), ContentDigest(c));
  }

  // What a completion of the content adds to the history of bytes.
  lemma WinLedger(c: Setup, t: Tables, u: nat, id: nat, now: int, created: set<Digest>)
    requires u in t.uploads
    ensures var m := t.uploads[u].manifest; var ledger := Apply(c, t, Win(u, id, now, created)).ledger;
      && ledger.collected == t.ledger.collected
      && ledger.relinked == t.ledger.relinked + NewlyPersisted(m, created * t.blobs.Keys)
      && ledger.adopted == t.ledger.adopted + NewlyPersisted(m, (StoredDigests(m) - t.blobs.Keys) - created)
  {
  }

  lemma FreshSets(c: Setup, rows: set<Digest>)
    requires ContentDigest(c) !in rows
    ensures var m, d := ContentManifest(c), ContentDigest(c);
      NewlyPersisted(m, {d} * rows) == 0 && NewlyPersisted(m, (StoredDigests(m) - rows) - {d}) == 0
  {
    var m, d := ContentManifest(c), ContentDigest(c);
    ContentJobIs(c, 1);
    var relinked, adopted := {d} * rows, (StoredDigests(m) - rows) - {d};
    assert relinked == {} && adopted == {};
  }

  lemma FreshLedger(c: Setup, t: Tables, u: nat, id: nat, now: int)
    requires u in t.uploads && t.uploads[u] == Active(ContentManifest(c)) && ContentDigest(c) !in t.blobs
    ensures Apply(c, t, Win(u, id, now, {ContentDigest(c)})).ledger == t.ledger
  {
    WinLedger(c, t, u, id, now, {ContentDigest(c)});
    FreshSets(c, t.blobs.Keys);
  }

  lemma RelinkedLedger(c: Setup, t: Tables, u: nat, id: nat, now: int)
    requires u in t.uploads && t.uploads[u] == Active(ContentManifest(c)) && ContentDigest(c) in t.blobs
    ensures Apply(c, t, Win(u, id, now, {ContentDigest(c)})).ledger == t.ledger.(relinked := t.ledger.relinked + 3)
  {
    var d := ContentDigest(c);
    WinLedger(c, t, u, id, now, {d});
    ContentJobIs(c, u);
    ContentWeighs(c);
    assert {d} * t.blobs.Keys == {d};
    assert {d} - t.blobs.Keys - {d} == {};
  }

  lemma LedgerBefore(c: Setup)
    ensures Uploaded(c, Deleted(c), 2).ledger == Ledger(0, 0, 0)
  {
    DeletedKeys(c);
    FreshLedger(c, Uploaded(c, EmptyTables(), 1), 1, 1, 0);
  }

  lemma ReportsAgain(c: Setup) returns (states: seq<State>, steps: seq<Step>)
    ensures Run(c, states, steps) && Undisturbed(c, states, steps) && |steps| > 0
    ensures Committed(c, states, steps, |steps| - 1) == Win(2, 2, 20, {ContentDigest(c)})
    ensures states[|steps| - 1].tables == Uploaded(c, Deleted(c), 2)
    ensures states[|steps|].tables == Apply(c, Uploaded(c, Deleted(c), 2), Win(2, 2, 20, {ContentDigest(c)}))
  {
    var t, none: map<Digest, Bytes> := Uploaded(c, Deleted(c), 2), map[];
    ReturnsAfterLoss(c);
    DeletedKeys(c);
    Records(c, t, none, 2, 2, 20);
    assert none[ContentDigest(c) := CONTENT] == ContentFile(c);
    states, steps := RunTo(c, At(t, ContentFile(c), Recorder(c, 2, none)), 0, Go(20, 2));
  }

  lemma LedgersApart(c: Setup, t: Tables, t': Tables)
    requires t == Uploaded(c, Deleted(c), 2) && t' == Apply(c, t, Win(2, 2, 20, {ContentDigest(c)}))
    ensures t.ledger == Ledger(0, 0, 0) && t'.ledger == Ledger(0, 3, 0)
  {
    LedgerBefore(c);
    DeletedKeys(c);
    RelinkedLedger(c, t, 2, 2, 20);
  }

  lemma LawBreaks(c: Setup, states: seq<State>, steps: seq<Step>, k: nat)
    requires CollisionFree(c) && Run(c, states, steps) && k < |steps|
    requires states[k].tables.ledger == Ledger(0, 0, 0) && states[k + 1].tables.ledger == Ledger(0, 3, 0)
    ensures Conserved(states[k].tables) && !Conserved(states[k + 1].tables)
  {
    AlwaysBalanced(c, states, steps, k);
    AlwaysBalanced(c, states, steps, k + 1);
  }

  lemma ReportsUnbalanced(c: Setup) returns (states: seq<State>, steps: seq<Step>)
    ensures Run(c, states, steps) && Undisturbed(c, states, steps) && |steps| > 0
    ensures Committed(c, states, steps, |steps| - 1).Win?
    ensures states[|steps| - 1].tables.ledger == Ledger(0, 0, 0) && states[|steps|].tables.ledger == Ledger(0, 3, 0)
  {
    states, steps := ReportsAgain(c);
    LedgersApart(c, states[|steps| - 1].tables, states[|steps|].tables);
  }

  /** Physical bytes are not conserved by every run, even without a crash: here a collection removes the file and
      cannot commit, and the next completion of that content reports its bytes a second time. */
  lemma LostFileCountsTwice(c: Setup) returns (states: seq<State>, steps: seq<Step>)
    requires CollisionFree(c)
    ensures Run(c, states, steps) && Undisturbed(c, states, steps) && |steps| > 0
    ensures Committed(c, states, steps, |steps| - 1).Win?
    ensures Conserved(states[|steps| - 1].tables) && !Conserved(states[|steps|].tables)
  {
    states, steps := ReportsUnbalanced(c);
    LawBreaks(c, states, steps, |steps| - 1);
  }

  // ---- rearchive links ----

  // Archived again at 11, deleted again by a clock that stepped back to 5.
  ghost function Twice(c: Setup): Tables { AfterArchiving(c, Deleted(c), 2, 2, 11, ContentFile(c)) }
  ghost function SteppedBack(c: Setup): Tables { Apply(c, Twice(c), Delete(2, 2, 5)) }

  lemma TwiceTables(c: Setup)
    ensures Twice(c).uploads.Keys == {1, 2} && Twice(c).snapshots.Keys == {1, 2}
    ensures Twice(c).tombstones == map[1 := Tombstone(1, 0, ContentPrint(c), 10, Some(2))]
    ensures Closed(c, Twice(c), 1) && Twice(c).snapshots[1].rearchivedFrom == None
    ensures Same(Twice(c), 0, ContentPrint(c), 2) && Twice(c).snapshots[2].rearchivedFrom == Some(1)
  {
    DeletedKeys(c);
    var t := Uploaded(c, Deleted(c), 2);
    assert LastBuried(t, 0, ContentPrint(c), 1);
    LastIsPrior(t, 0, ContentPrint(c), 1);
  }

  lemma ArchiveTwice(c: Setup)
    ensures Leads(c, Start(), At(Twice(c), ContentFile(c), Idle)) && Holding(c, Twice(c), 2)
  {
    DeleteOnce(c);
    DeletedKeys(c);
    Archives(c, Start(), Deleted(c), ContentFile(c), 2, 2, 11);
    assert ContentFile(c)[ContentDigest(c) := CONTENT] == ContentFile(c);
  }

  lemma SteppedBackTables(c: Setup)
    ensures SteppedBack(c).uploads.Keys == {1, 2} && SteppedBack(c).snapshots.Keys == {1, 2}
    ensures SteppedBack(c).tombstones ==
      map[1 := Tombstone(1, 0, ContentPrint(c), 10, Some(2)), 2 := Tombstone(2, 0, ContentPrint(c), 5, None)]
    ensures Closed(c, SteppedBack(c), 1) && SteppedBack(c).snapshots[1].rearchivedFrom == None
    ensures Closed(c, SteppedBack(c), 2) && SteppedBack(c).snapshots[2].rearchivedFrom == Some(1)
  {
    TwiceTables(c);
    DeleteMarks(c, Twice(c), 2, 2, 5);
  }

  lemma DeleteTwice(c: Setup)
    ensures Leads(c, Start(), At(SteppedBack(c), ContentFile(c), Idle)) && Orphaned(c, SteppedBack(c), 5 + c.grace)
  {
    ArchiveTwice(c);
    TwiceTables(c);
    Deletes(c, Start(), Twice(c), ContentFile(c), 2, 2, 5);
  }

  lemma FirstTombstoneIsLast(c: Setup, t: Tables)
    requires t.tombstones == SteppedBack(c).tombstones
    ensures PriorTombstone(t, 0, ContentPrint(c)) == Some(1)
    ensures t.tombstones.Keys == {1, 2} && t.tombstones[1].rearchivedAs == Some(2) &&
      t.tombstones[2].rearchivedAs == None
  {
    SteppedBackTables(c);
    assert LastBuried(t, 0, ContentPrint(c), 1);
    LastIsPrior(t, 0, ContentPrint(c), 1);
  }

  lemma ThirdPends(c: Setup)
    ensures Pending(c, Uploaded(c, SteppedBack(c), 3), ContentFile(c), 3)
    ensures Leads(c, Start(), At(Uploaded(c, SteppedBack(c), 3), ContentFile(c), Recorder(c, 3, ContentFile(c))))
  {
    DeleteTwice(c);
    SteppedBackTables(c);
    assert Storable(c, SteppedBack(c), ContentFile(c));
    Submits(c, Start(), SteppedBack(c), ContentFile(c), 3);
    ReadyToRecord(c, Start(), Uploaded(c, SteppedBack(c), 3), ContentFile(c), 3);
    assert ContentFile(c)[ContentDigest(c) := CONTENT] == ContentFile(c);
  }

  lemma LinksBackward(c: Setup, t: Tables, u: nat, id: nat, now: int)
    requires u in t.uploads && t.uploads[u] == Active(ContentManifest(c)) && t.tombstones == SteppedBack(c).tombstones
    ensures var x := Win(u, id, now, {}); var t' := Apply(c, t, x);
      && Concerns(c, t, x, 0, ContentPrint(c)) && !LinksForward(c, t, x, 0, ContentPrint(c))
      && id in t'.snapshots && t'.snapshots[id].rearchivedFrom == Some(1)
      && t'.tombstones.Keys == {1, 2}
      && t'.tombstones[1].rearchivedAs == Some(2) && t'.tombstones[2].rearchivedAs == None
  {
    FirstTombstoneIsLast(c, t);
  }

  /** A fingerprint's history is not one chain in every run: here a snapshot is deleted at 10, its rearchive deleted
      at 5 by a clock that stepped back, and the content archived once more. The new snapshot's back link names the
      first tombstone, which already leads to the first rearchive; the second tombstone is left without a forward
      link. */
  lemma ClockStepBackBreaksChain(c: Setup) returns (states: seq<State>, steps: seq<Step>)
    requires CollisionFree(c)
    ensures Run(c, states, steps) && Undisturbed(c, states, steps) && |steps| > 0
    ensures Chained(states[|steps| - 1].tables, 0, ContentPrint(c)) &&
      !Chained(states[|steps|].tables, 0, ContentPrint(c))
    ensures var t := states[|steps|].tables;
      && 3 in t.snapshots && t.snapshots[3].rearchivedFrom == Some(1)
      && t.tombstones.Keys == {1, 2} && t.tombstones[1].rearchivedAs == Some(2) && t.tombstones[2].rearchivedAs == None
  {
    var t := Uploaded(c, SteppedBack(c), 3);
    SteppedBackTables(c);
    ThirdPends(c);
    Records(c, t, ContentFile(c), 3, 3, 20);
    assert ContentFile(c)[ContentDigest(c) := CONTENT] == ContentFile(c);
    states, steps := RunTo(c, At(t, ContentFile(c), Recorder(c, 3, ContentFile(c))), 0, Go(20, 3));
    LinksBackward(c, t, 3, 3, 20);
    ChainedBefore(c, t);
    assert states[|steps| - 1].tables == t;
    assert !ForwardAt(c, states, steps, |steps| - 1, 0, ContentPrint(c));
    HistoryIsOneChainIff(c, states, steps, |steps|, 0, ContentPrint(c));
  }

  lemma ChainedBefore(c: Setup, t: Tables)
    requires t == Uploaded(c, SteppedBack(c), 3)
    ensures Chained(t, 0, ContentPrint(c))
  {
    SteppedBackTables(c);
    var fp := ContentPrint(c);
    forall id ensures id in [1, 2] <==> Same(t, 0, fp, id) {}
    forall k ensures k in [1, 2] <==> Buried(t, 0, fp, k) {}
    assert ChainSnapshot(t, [1, 2], 0, 1) && ChainSnapshot(t, [1, 2], 1, 2);
    assert ChainTombstone(t, [1, 2], 0, 1) && ChainTombstone(t, [1, 2], 1, 2);
    assert Chain(t, 0, fp, [1, 2], [1, 2]);
  }
}
