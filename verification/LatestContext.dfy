/** The per-session latest-context row is maintained incrementally; it always
    equals the full rebuild over live, captured snapshots. */
module LatestContext {
  import opened Basics
  import opened Catalog
  import opened Provenance

  ghost predicate ContextsAgree(t: Tables) {
    forall u :: u in t.captures ==>
      && t.captures[u].snapshot in t.snapshots
      && t.captures[u].context == t.snapshots[t.captures[u].snapshot].manifest.context
  }

  lemma ProvenanceGivesAgreement(c: Setup, t: Tables)
    requires Injective(c.fingerprint) && ProvenanceSound(c, t)
    ensures ContextsAgree(t)
  {
    forall u | u in t.captures
      ensures t.captures[u].context == t.snapshots[t.captures[u].snapshot].manifest.context
    {
      assert CaptureGenuine(c, t, u);
      CoalescedAgree(c, t, u, u);
    }
  }

  ghost function RowOf(t: Tables, id: nat): Latest
    requires id in t.snapshots
  {
    Latest(id, t.snapshots[id].completedAt, t.snapshots[id].manifest.context)
  }

  // The independent statement of what the projection row of a session must be.
  ghost predicate RowExact(t: Tables, session: nat) {
    if session in t.latest then
      var id := t.latest[session].snapshot; Newest(t, session, id) && t.latest[session] == RowOf(t, id)
    else
      forall id :: !Archived(t, session, id)
  }

  ghost predicate LatestExact(t: Tables) {
    forall session :: RowExact(t, session)
  }

  lemma {:induction false} NewestAmong(t: Tables, session: nat, ids: set<nat>) returns (best: nat)
    requires ids != {} && forall id :: id in ids ==> Archived(t, session, id)
    ensures best in ids && Archived(t, session, best)
    ensures forall id :: id in ids ==>
      id in t.snapshots && AtMost(t.snapshots[id].completedAt, id, t.snapshots[best].completedAt, best)
  {
    best :| best in ids;
    var rest := ids - {best};
    assert forall id :: id in ids ==> id == best || id in rest;
    if rest != {} {
      var other := NewestAmong(t, session, rest);
      if AtMost(t.snapshots[best].completedAt, best, t.snapshots[other].completedAt, other) { best := other; }
    }
  }

  lemma NewestExists(t: Tables, session: nat, id: nat)
    requires Archived(t, session, id)
    ensures exists best :: Newest(t, session, best)
  {
    var ids := set i | i in t.snapshots && Archived(t, session, i);
    assert id in ids;
    var best := NewestAmong(t, session, ids);
    assert Newest(t, session, best);
  }

  lemma NewestUnique(t: Tables, session: nat, id: nat, other: nat)
    requires Newest(t, session, id) && Newest(t, session, other)
    ensures id == other
  {
  }

  lemma RebuildIsExact(t: Tables, session: nat)
    requires ContextsAgree(t)
    ensures match RebuildRow(t, session)
            case None => forall id :: !Archived(t, session, id)
            case Some(row) => Newest(t, session, row.snapshot) && row == RowOf(t, row.snapshot)
  {
    if id :| Archived(t, session, id) { NewestExists(t, session, id); }
  }

  /** The projection equals the full rebuild, whatever capture the rebuild happens to pick. */
  lemma ExactIsRebuilt(t: Tables)
    requires ContextsAgree(t) && LatestExact(t)
    ensures t.latest == RebuildLatest(t)
  {
    forall session ensures (session in t.latest <==> session in RebuildLatest(t)) &&
      (session in t.latest ==> t.latest[session] == RebuildLatest(t)[session])
    {
      assert RowExact(t, session);
      RebuildIsExact(t, session);
      if session in t.latest {
        var id := t.latest[session].snapshot;
        assert Newest(t, session, id) && t.snapshots[id].session in Sessions(t);
        NewestUnique(t, session, id, RebuildRow(t, session).value.snapshot);
      }
    }
  }

  // How a step moves snapshot id in or out of the archived ones of a session; those that stay do not change.
  ghost predicate ArchivedMoves(t: Tables, t': Tables, x: Transaction, session: nat, id: nat) {
    && (Archived(t', session, id) <==>
          if x.Win? && id == x.snapshot then x.upload in t.uploads && session == t.uploads[x.upload].manifest.session
          else Archived(t, session, id) && !(x.Delete? && id == x.snapshot))
    && (Archived(t, session, id) && !(x.Delete? && id == x.snapshot) ==>
          id in t'.snapshots && t'.snapshots[id] == t.snapshots[id] && !(x.Win? && id == x.snapshot))
  }

  ghost predicate ArchivedStep(t: Tables, t': Tables, x: Transaction, session: nat) {
    && (forall id :: Archived(t', session, id) <==>
          if x.Win? && id == x.snapshot then x.upload in t.uploads && session == t.uploads[x.upload].manifest.session
          else Archived(t, session, id) && !(x.Delete? && id == x.snapshot))
    && (forall id :: Archived(t, session, id) && !(x.Delete? && id == x.snapshot) ==>
          id in t'.snapshots && t'.snapshots[id] == t.snapshots[id] && !(x.Win? && id == x.snapshot))
  }

  ghost predicate AllCaptured(t: Tables) {
    forall id :: id in t.snapshots ==> Captured(t, id)
  }

  lemma ArchivedAfter(c: Setup, t: Tables, t': Tables, x: Transaction, session: nat, id: nat)
    requires AllCaptured(t) && AllCaptured(t') && IdentityStep(c, t, t', x)
    ensures ArchivedMoves(t, t', x, session, id)
  {
    assert Archived(t, session, id) <==> Live(t, id) && t.snapshots[id].session == session;
    assert Archived(t', session, id) <==> Live(t', id) && t'.snapshots[id].session == session;
  }

  lemma AllMoves(t: Tables, t': Tables, x: Transaction, session: nat)
    requires forall id :: ArchivedMoves(t, t', x, session, id)
    ensures ArchivedStep(t, t', x, session)
  {
    forall id
      ensures Archived(t', session, id) <==>
        if x.Win? && id == x.snapshot then x.upload in t.uploads && session == t.uploads[x.upload].manifest.session
        else Archived(t, session, id) && !(x.Delete? && id == x.snapshot)
      ensures Archived(t, session, id) && !(x.Delete? && id == x.snapshot) ==>
        id in t'.snapshots && t'.snapshots[id] == t.snapshots[id] && !(x.Win? && id == x.snapshot)
    {
      assert ArchivedMoves(t, t', x, session, id);
    }
  }

  lemma StepMovesArchived(c: Setup, t: Tables, t': Tables, x: Transaction, session: nat)
    requires ProvenanceSound(c, t) && IdentityStep(c, t, t', x)
    ensures ArchivedStep(t, t', x, session)
  {
    StepKeepsProvenance(c, t, t', x);
    forall id ensures ArchivedMoves(t, t', x, session, id) { ArchivedAfter(c, t, t', x, session, id); }
    AllMoves(t, t', x, session);
  }

  ghost predicate LatestStep(t: Tables, t': Tables, x: Transaction) {
    match x
    case Win(u, id, _, _) =>
      && u in t.uploads && id in t'.snapshots
      && t'.latest == UpsertLatest(t.latest, t.uploads[u].manifest.session, RowOf(t', id))
    case Attach(u, id) =>
      && u in t.uploads && id in t.snapshots
      && t'.latest == UpsertLatest(t.latest, t.uploads[u].manifest.session,
                        Latest(id, t.snapshots[id].completedAt, t.uploads[u].manifest.context))
    case Delete(id, _, _) =>
      && id in t.snapshots
      && t'.latest == (match RebuildRow(t', t.snapshots[id].session)
                       case None => t.latest - {t.snapshots[id].session}
                       case Some(row) => t.latest[t.snapshots[id].session := row])
    case Rebuild => t'.latest == RebuildLatest(t)
    case _ => t'.latest == t.latest
  }

  // The rebuild reads snapshots and captures only.
  lemma SameRebuild(t: Tables, t': Tables, session: nat)
    requires ContextsAgree(t) && t'.snapshots == t.snapshots && t'.captures == t.captures
    ensures RebuildRow(t', session) == RebuildRow(t, session)
  {
    forall id ensures Archived(t', session, id) <==> Archived(t, session, id) {}
    forall id ensures Newest(t', session, id) <==> Newest(t, session, id) {}
    RebuildIsExact(t, session);
    RebuildIsExact(t', session);
    if RebuildRow(t, session).Some? {
      NewestUnique(t, session, RebuildRow(t, session).value.snapshot, RebuildRow(t', session).value.snapshot);
    }
  }

  lemma ApplyStepsLatest(c: Setup, t: Tables, x: Transaction)
    requires Injective(c.fingerprint) && ProvenanceSound(c, t) && Allowed(c, t, x)
    ensures LatestStep(t, Apply(c, t, x), x)
  {
    if x.Delete? {
      KeepsProvenance(c, t, x);
      ProvenanceGivesAgreement(c, Apply(c, t, x));
      DeleteStepsLatest(c, t, x);
    }
  }

  lemma DeleteStepsLatest(c: Setup, t: Tables, x: Transaction)
    requires x.Delete? && x.snapshot in t.snapshots && ContextsAgree(Apply(c, t, x))
    ensures LatestStep(t, Apply(c, t, x), x)
  {
    var scheduled := Dropped(t, x.snapshot, x.tombstone, x.now)
      .(blobs := BlobsAfterDelete(c, t, x.snapshot, x.tombstone, x.now));
    var t' := AfterDelete(c, t, x.snapshot, x.tombstone, x.now);
    SameRebuild(t', scheduled, t.snapshots[x.snapshot].session);
  }

  lemma WinKeepsRow(t: Tables, t': Tables, x: Transaction, session: nat)
    requires ArchivedStep(t, t', x, session) && LatestStep(t, t', x) && x.Win? && RowExact(t, session)
    ensures RowExact(t', session)
  {
  }

  lemma AttachKeepsRow(t: Tables, t': Tables, x: Transaction, session: nat)
    requires ArchivedStep(t, t', x, session) && LatestStep(t, t', x) && x.Attach? && RowExact(t, session)
    requires x.upload in t.uploads && Archived(t, t.uploads[x.upload].manifest.session, x.snapshot)
    ensures RowExact(t', session)
  {
    assert t'.latest == t.latest || session != t.uploads[x.upload].manifest.session;
  }

  lemma DeleteKeepsRow(t: Tables, t': Tables, x: Transaction, session: nat)
    requires ArchivedStep(t, t', x, session) && LatestStep(t, t', x) && x.Delete? && RowExact(t, session) &&
      ContextsAgree(t')
    ensures RowExact(t', session)
  {
    if session == t.snapshots[x.snapshot].session {
      RebuildIsExact(t', session);
    } else {
      assert !Archived(t, session, x.snapshot);
    }
  }

  lemma OtherKeepsRow(t: Tables, t': Tables, x: Transaction, session: nat)
    requires ArchivedStep(t, t', x, session) && t'.latest == t.latest && !x.Win? && !x.Delete? && RowExact(t, session)
    ensures RowExact(t', session)
  {
  }

  lemma AttachesToArchived(c: Setup, t: Tables, t': Tables, x: Transaction)
    requires ProvenanceSound(c, t) && IdentityStep(c, t, t', x) && x.Attach?
    ensures x.upload in t.uploads && Archived(t, t.uploads[x.upload].manifest.session, x.snapshot)
  {
    assert Captured(t, x.snapshot);
  }

  lemma KeepsLatest(c: Setup, t: Tables, x: Transaction)
    requires Injective(c.fingerprint) && ProvenanceSound(c, t) && LatestExact(t) && Allowed(c, t, x)
    ensures LatestExact(Apply(c, t, x))
  {
    var t' := Apply(c, t, x);
    ApplyStepsIdentity(c, t, x);
    ApplyStepsLatest(c, t, x);
    KeepsProvenance(c, t, x);
    ProvenanceGivesAgreement(c, t);
    ProvenanceGivesAgreement(c, t');
    ExactIsRebuilt(t);
    forall session ensures RowExact(t', session) {
      StepKeepsRow(c, t, t', x, session);
    }
  }

  lemma StepKeepsRow(c: Setup, t: Tables, t': Tables, x: Transaction, session: nat)
    requires ProvenanceSound(c, t) && IdentityStep(c, t, t', x) && LatestStep(t, t', x)
    requires ContextsAgree(t') && t.latest == RebuildLatest(t) && RowExact(t, session)
    ensures RowExact(t', session)
  {
    StepMovesArchived(c, t, t', x, session);
    if x.Win? { WinKeepsRow(t, t', x, session); }
    else if x.Attach? { AttachesToArchived(c, t, t', x); AttachKeepsRow(t, t', x, session); }
    else if x.Delete? { DeleteKeepsRow(t, t', x, session); }
    else { OtherKeepsRow(t, t', x, session); }
  }
}
