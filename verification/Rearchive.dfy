/** Deletion and rearchive history: tombstones and the snapshots that follow
    them, linked both ways. */
module Rearchive {
  import opened Basics
  import opened Catalog
  import opened Provenance

  // What a transaction does to tombstones and to the backward link of the snapshot it inserts.
  ghost predicate TombStep(c: Setup, t: Tables, t': Tables, x: Transaction) {
    && IdentityStep(c, t, t', x)
    && match x
       case Win(u, id, _, _) =>
         var m := t.uploads[u].manifest;
         var prior := PriorTombstone(t, m.session, Fingerprint(c, m));
         && t'.snapshots[id].rearchivedFrom == prior
         && t'.tombstones == (if prior.Some? && t.tombstones[prior.value].rearchivedAs.None?
                              then t.tombstones[prior.value := t.tombstones[prior.value].(rearchivedAs := Some(id))]
                              else t.tombstones)
       case Delete(id, tomb, now) =>
         && tomb !in t.tombstones
         && t'.tombstones == t.tombstones[tomb :=
              Tombstone(id, t.snapshots[id].session, t.snapshots[id].fingerprint, now, None)]
       case _ => t'.tombstones == t.tombstones
  }

  lemma ApplyStepsTombs(c: Setup, t: Tables, x: Transaction)
    requires Allowed(c, t, x)
    ensures TombStep(c, t, Apply(c, t, x), x)
  {
    ApplyStepsIdentity(c, t, x);
  }

  ghost predicate Same(t: Tables, session: nat, fingerprint: Digest, id: nat) {
    id in t.snapshots && t.snapshots[id].session == session && t.snapshots[id].fingerprint == fingerprint
  }

  // A tombstone describes its deleted snapshot, and its forward link is answered by a back link.
  ghost predicate TombSound(t: Tables, k: nat)
    requires k in t.tombstones
  {
    var tomb := t.tombstones[k];
    && Same(t, tomb.session, tomb.fingerprint, tomb.snapshot)
    && t.snapshots[tomb.snapshot].deletedAt == Some(tomb.deletedAt)
    && (tomb.rearchivedAs.Some? ==>
          Same(t, tomb.session, tomb.fingerprint, tomb.rearchivedAs.value) &&
          t.snapshots[tomb.rearchivedAs.value].rearchivedFrom == Some(k))
  }

  ghost predicate BackLinkSound(t: Tables, id: nat)
    requires id in t.snapshots
  {
    t.snapshots[id].rearchivedFrom.Some? ==>
      Buried(t, t.snapshots[id].session, t.snapshots[id].fingerprint, t.snapshots[id].rearchivedFrom.value)
  }

  ghost predicate Entombed(t: Tables, id: nat) {
    exists k :: k in t.tombstones && t.tombstones[k].snapshot == id
  }

  ghost predicate LinksSound(t: Tables) {
    && (forall k :: k in t.tombstones ==> TombSound(t, k))
    && (forall id :: id in t.snapshots ==> BackLinkSound(t, id))
    && (forall id :: id in t.snapshots && t.snapshots[id].deletedAt.Some? ==> Entombed(t, id))
    && (forall j, k ::
          j in t.tombstones && k in t.tombstones && t.tombstones[j].snapshot == t.tombstones[k].snapshot ==> j == k)
  }

  ghost predicate SameOrForwarded(t: Tables, t': Tables, k: nat)
    requires k in t.tombstones
  {
    && k in t'.tombstones
    && (t'.tombstones[k] == t.tombstones[k] ||
        (t.tombstones[k].rearchivedAs.None? && t'.tombstones[k].(rearchivedAs := None) == t.tombstones[k]))
  }

  lemma StepForwardsOnce(c: Setup, t: Tables, t': Tables, x: Transaction)
    requires TombStep(c, t, t', x)
    ensures forall k :: k in t.tombstones ==> SameOrForwarded(t, t', k)
  {
  }

  lemma StepKeepsTomb(c: Setup, t: Tables, t': Tables, x: Transaction, k: nat)
    requires LinksSound(t) && TombStep(c, t, t', x) && k in t'.tombstones
    ensures TombSound(t', k)
  {
    if k in t.tombstones { assert TombSound(t, k); }
  }

  lemma StepKeepsBackLink(c: Setup, t: Tables, t': Tables, x: Transaction, id: nat)
    requires LinksSound(t) && TombStep(c, t, t', x) && id in t'.snapshots
    ensures BackLinkSound(t', id)
  {
    StepForwardsOnce(c, t, t', x);
    if id in t.snapshots { assert BackLinkSound(t, id); }
  }

  lemma StepKeepsTombsDistinct(c: Setup, t: Tables, t': Tables, x: Transaction, j: nat, k: nat)
    requires LinksSound(t) && TombStep(c, t, t', x)
    requires j in t'.tombstones && k in t'.tombstones && t'.tombstones[j].snapshot == t'.tombstones[k].snapshot
    ensures j == k
  {
    assert j in t.tombstones ==> TombSound(t, j);
    assert k in t.tombstones ==> TombSound(t, k);
  }

  lemma StepKeepsLinks(c: Setup, t: Tables, t': Tables, x: Transaction)
    requires LinksSound(t) && TombStep(c, t, t', x)
    ensures LinksSound(t')
  {
    forall k | k in t'.tombstones ensures TombSound(t', k) { StepKeepsTomb(c, t, t', x, k); }
    forall id | id in t'.snapshots ensures BackLinkSound(t', id) { StepKeepsBackLink(c, t, t', x, id); }
    forall id | id in t'.snapshots && t'.snapshots[id].deletedAt.Some?
      ensures Entombed(t', id)
    {
      StepEntombs(c, t, t', x, id);
    }
    forall j, k | j in t'.tombstones && k in t'.tombstones && t'.tombstones[j].snapshot == t'.tombstones[k].snapshot
      ensures j == k
    {
      StepKeepsTombsDistinct(c, t, t', x, j, k);
    }
  }

  lemma StepEntombs(c: Setup, t: Tables, t': Tables, x: Transaction, id: nat)
    requires LinksSound(t) && TombStep(c, t, t', x)
    requires id in t'.snapshots && t'.snapshots[id].deletedAt.Some?
    ensures Entombed(t', id)
  {
    if x.Delete? && id == x.snapshot {
      assert t'.tombstones[x.tombstone].snapshot == id;
    } else {
      var k :| k in t.tombstones && t.tombstones[k].snapshot == id;
      assert k in t'.tombstones && t'.tombstones[k].snapshot == id;
    }
  }

  lemma KeepsLinks(c: Setup, t: Tables, x: Transaction)
    requires LinksSound(t) && Allowed(c, t, x)
    ensures LinksSound(Apply(c, t, x))
  {
    ApplyStepsTombs(c, t, x);
    StepKeepsLinks(c, t, Apply(c, t, x), x);
  }

  /** A forward link is set at most once, and a tombstone never goes away or changes otherwise. */
  lemma ForwardedOnce(c: Setup, t: Tables, x: Transaction, k: nat)
    requires Allowed(c, t, x) && k in t.tombstones
    ensures SameOrForwarded(t, Apply(c, t, x), k)
  {
    ApplyStepsTombs(c, t, x);
    StepForwardsOnce(c, t, Apply(c, t, x), x);
  }

  // ---- the history of one fingerprint as a chain s0 -> t0 -> s1 -> t1 -> ... ----

  ghost predicate Listed(t: Tables, session: nat, fingerprint: Digest, snaps: seq<nat>, tombs: seq<nat>) {
    && (forall i, j :: 0 <= i < j < |snaps| ==> snaps[i] != snaps[j])
    && (forall i, j :: 0 <= i < j < |tombs| ==> tombs[i] != tombs[j])
    && (forall id :: id in snaps <==> Same(t, session, fingerprint, id))
    && (forall k :: k in tombs <==> Buried(t, session, fingerprint, k))
  }

  ghost predicate ChainSnapshot(t: Tables, tombs: seq<nat>, i: nat, id: nat) {
    && id in t.snapshots
    && (t.snapshots[id].deletedAt.Some? <==> i < |tombs|)
    && i <= |tombs|
    && t.snapshots[id].rearchivedFrom == if i == 0 then None else Some(tombs[i - 1])
  }

  ghost predicate ChainTombstone(t: Tables, snaps: seq<nat>, i: nat, k: nat) {
    && i < |snaps|
    && k in t.tombstones
    && t.tombstones[k].snapshot == snaps[i]
    && t.tombstones[k].rearchivedAs == if i + 1 < |snaps| then Some(snaps[i + 1]) else None
  }

  ghost predicate Chain(t: Tables, session: nat, fingerprint: Digest, snaps: seq<nat>, tombs: seq<nat>) {
    && Listed(t, session, fingerprint, snaps, tombs)
    && |tombs| <= |snaps| <= |tombs| + 1
    && (forall i :: 0 <= i < |snaps| ==> ChainSnapshot(t, tombs, i, snaps[i]))
    && (forall i :: 0 <= i < |tombs| ==> ChainTombstone(t, snaps, i, tombs[i]))
  }

  ghost predicate DeletionsAscend(t: Tables, tombs: seq<nat>) {
    (forall i :: 0 <= i < |tombs| ==> tombs[i] in t.tombstones) &&
    forall i, j :: 0 <= i < j < |tombs| ==> t.tombstones[tombs[i]].deletedAt < t.tombstones[tombs[j]].deletedAt
  }

  // The deletion clock moved past every earlier deletion of the same fingerprint.
  ghost predicate DeletesLater(t: Tables, x: Transaction) {
    x.Delete? && x.snapshot in t.snapshots ==>
      forall k :: Buried(t, t.snapshots[x.snapshot].session, t.snapshots[x.snapshot].fingerprint, k) ==>
        t.tombstones[k].deletedAt < x.now
  }

  ghost predicate Concerns(c: Setup, t: Tables, x: Transaction, session: nat, fingerprint: Digest) {
    match x
    case Win(u, _, _, _) =>
      u in t.uploads && t.uploads[u].manifest.session == session && Fingerprint(c, t.uploads[u].manifest) == fingerprint
    case Delete(id, _, _) => Same(t, session, fingerprint, id)
    case _ => false
  }

  lemma LastOfAscending(t: Tables, session: nat, fingerprint: Digest, snaps: seq<nat>, tombs: seq<nat>)
    requires Listed(t, session, fingerprint, snaps, tombs) && DeletionsAscend(t, tombs)
    ensures PriorTombstone(t, session, fingerprint) == if tombs == [] then None else Some(tombs[|tombs| - 1])
  {
    if tombs == [] {
      forall k ensures !Buried(t, session, fingerprint, k) { assert k !in tombs; }
    } else {
      var last := tombs[|tombs| - 1];
      assert last in tombs;
      forall k | Buried(t, session, fingerprint, k)
        ensures AtMost(t.tombstones[k].deletedAt, k, t.tombstones[last].deletedAt, last)
      {
        assert k in tombs;
      }
      assert LastBuried(t, session, fingerprint, last);
    }
  }

  // A live snapshot can only be the last one of the chain.
  lemma NoLiveMeansEntombed(t: Tables, session: nat, fingerprint: Digest, snaps: seq<nat>, tombs: seq<nat>)
    requires Chain(t, session, fingerprint, snaps, tombs)
    requires forall id :: !LiveMatch(t, session, fingerprint, id)
    ensures |snaps| == |tombs|
  {
    if |snaps| == |tombs| + 1 {
      var id := snaps[|tombs|];
      assert id in snaps && ChainSnapshot(t, tombs, |tombs|, id);
      assert LiveMatch(t, session, fingerprint, id);
    }
  }

  lemma ListSnapshot(t: Tables, t': Tables, session: nat, fingerprint: Digest, snaps: seq<nat>, tombs: seq<nat>,
                     id: nat)
    requires Listed(t, session, fingerprint, snaps, tombs)
    requires id !in t.snapshots && Same(t', session, fingerprint, id)
    requires forall other :: other != id ==>
      (Same(t', session, fingerprint, other) <==> Same(t, session, fingerprint, other))
    requires forall k :: Buried(t', session, fingerprint, k) <==> Buried(t, session, fingerprint, k)
    ensures Listed(t', session, fingerprint, snaps + [id], tombs)
  {
    forall i | 0 <= i < |snaps| ensures snaps[i] != id { assert snaps[i] in snaps; }
    forall other ensures other in snaps + [id] <==> Same(t', session, fingerprint, other) {
      assert other in snaps + [id] <==> other in snaps || other == id;
    }
  }

  lemma ListTombstone(t: Tables, t': Tables, session: nat, fingerprint: Digest, snaps: seq<nat>, tombs: seq<nat>,
                      tomb: nat)
    requires Listed(t, session, fingerprint, snaps, tombs)
    requires tomb !in t.tombstones && Buried(t', session, fingerprint, tomb)
    requires forall id :: Same(t', session, fingerprint, id) <==> Same(t, session, fingerprint, id)
    requires forall k :: k != tomb ==> (Buried(t', session, fingerprint, k) <==> Buried(t, session, fingerprint, k))
    ensures Listed(t', session, fingerprint, snaps, tombs + [tomb])
  {
    forall i | 0 <= i < |tombs| ensures tombs[i] != tomb { assert tombs[i] in tombs; }
    forall k ensures k in tombs + [tomb] <==> Buried(t', session, fingerprint, k) {
      assert k in tombs + [tomb] <==> k in tombs || k == tomb;
    }
  }

  lemma ChainWin(c: Setup, t: Tables, t': Tables, x: Transaction, session: nat, fingerprint: Digest, snaps: seq<nat>,
                 tombs: seq<nat>)
    requires Chain(t, session, fingerprint, snaps, tombs) && TombStep(c, t, t', x)
    requires x.Win? && Concerns(c, t, x, session, fingerprint)
    requires PriorTombstone(t, session, fingerprint) == if tombs == [] then None else Some(tombs[|tombs| - 1])
    ensures Chain(t', session, fingerprint, snaps + [x.snapshot], tombs)
    ensures DeletionsAscend(t, tombs) ==> DeletionsAscend(t', tombs)
  {
    NoLiveMeansEntombed(t, session, fingerprint, snaps, tombs);
    WinLists(c, t, t', x, session, fingerprint);
    WinExtends(t, t', x.snapshot, session, fingerprint, snaps, tombs);
    WinKeepsOrder(t, t', x.snapshot, session, fingerprint, tombs);
  }

  lemma WinKeepsOrder(t: Tables, t': Tables, id: nat, session: nat, fingerprint: Digest, tombs: seq<nat>)
    requires WinMoves(t, t', id, session, fingerprint, if tombs == [] then None else Some(tombs[|tombs| - 1]))
    ensures DeletionsAscend(t, tombs) ==> DeletionsAscend(t', tombs)
  {
  }

  // The same, from what a winning insert does to the rows of the fingerprint.
  lemma WinExtends(t: Tables, t': Tables, id: nat, session: nat, fingerprint: Digest, snaps: seq<nat>, tombs: seq<nat>)
    requires Chain(t, session, fingerprint, snaps, tombs) && |snaps| == |tombs|
    requires WinMoves(t, t', id, session, fingerprint, if tombs == [] then None else Some(tombs[|tombs| - 1]))
    ensures Chain(t', session, fingerprint, snaps + [id], tombs)
  {
    WinListed(t, t', id, session, fingerprint, snaps, tombs);
    forall i | 0 <= i < |snaps| + 1 ensures ChainSnapshot(t', tombs, i, (snaps + [id])[i]) {
      WinSnapshotAt(t, t', id, session, fingerprint, snaps, tombs, i);
    }
    forall i | 0 <= i < |tombs| ensures ChainTombstone(t', snaps + [id], i, tombs[i]) {
      WinTombstoneAt(t, t', id, session, fingerprint, snaps, tombs, i);
    }
  }

  lemma WinListed(t: Tables, t': Tables, id: nat, session: nat, fingerprint: Digest, snaps: seq<nat>, tombs: seq<nat>)
    requires Listed(t, session, fingerprint, snaps, tombs)
    requires WinMoves(t, t', id, session, fingerprint, if tombs == [] then None else Some(tombs[|tombs| - 1]))
    ensures Listed(t', session, fingerprint, snaps + [id], tombs)
  {
    ListSnapshot(t, t', session, fingerprint, snaps, tombs, id);
  }

  lemma WinSnapshotAt(t: Tables, t': Tables, id: nat, session: nat, fingerprint: Digest, snaps: seq<nat>,
                      tombs: seq<nat>, i: nat)
    requires Chain(t, session, fingerprint, snaps, tombs) && i <= |snaps| == |tombs|
    requires WinMoves(t, t', id, session, fingerprint, if tombs == [] then None else Some(tombs[|tombs| - 1]))
    ensures ChainSnapshot(t', tombs, i, (snaps + [id])[i])
  {
    if i < |snaps| {
      assert ChainSnapshot(t, tombs, i, snaps[i]);
      WinKeepsSnapshot(t, t', id, session, fingerprint, tombs, i, snaps[i]);
    } else {
      WinEndsChain(t, t', id, session, fingerprint, tombs);
    }
  }

  lemma WinTombstoneAt(t: Tables, t': Tables, id: nat, session: nat, fingerprint: Digest, snaps: seq<nat>,
                       tombs: seq<nat>, i: nat)
    requires Chain(t, session, fingerprint, snaps, tombs) && i < |tombs| == |snaps|
    requires WinMoves(t, t', id, session, fingerprint, Some(tombs[|tombs| - 1]))
    ensures ChainTombstone(t', snaps + [id], i, tombs[i])
  {
    assert ChainTombstone(t, snaps, i, tombs[i]);
    assert i < |tombs| - 1 ==> tombs[i] != tombs[|tombs| - 1];
    WinKeepsTombstone(t, t', id, session, fingerprint, snaps, tombs, i);
  }

  lemma WinKeepsSnapshot(t: Tables, t': Tables, id: nat, session: nat, fingerprint: Digest, tombs: seq<nat>, i: nat,
                         other: nat)
    requires WinMoves(t, t', id, session, fingerprint, if tombs == [] then None else Some(tombs[|tombs| - 1]))
    requires ChainSnapshot(t, tombs, i, other)
    ensures ChainSnapshot(t', tombs, i, other)
  {
  }

  lemma WinEndsChain(t: Tables, t': Tables, id: nat, session: nat, fingerprint: Digest, tombs: seq<nat>)
    requires WinMoves(t, t', id, session, fingerprint, if tombs == [] then None else Some(tombs[|tombs| - 1]))
    ensures ChainSnapshot(t', tombs, |tombs|, id)
  {
  }

  // The last tombstone gains its forward link, every other keeps the one it has.
  lemma WinKeepsTombstone(t: Tables, t': Tables, id: nat, session: nat, fingerprint: Digest, snaps: seq<nat>,
                          tombs: seq<nat>, i: nat)
    requires i < |tombs| == |snaps| && ChainTombstone(t, snaps, i, tombs[i])
    requires WinMoves(t, t', id, session, fingerprint, Some(tombs[|tombs| - 1]))
    requires i < |tombs| - 1 ==> tombs[i] != tombs[|tombs| - 1]
    ensures ChainTombstone(t', snaps + [id], i, tombs[i])
  {
    assert i + 1 < |snaps| ==> (snaps + [id])[i + 1] == snaps[i + 1];
  }

  ghost predicate WinMoves(t: Tables, t': Tables, id: nat, session: nat, fingerprint: Digest, prior: Option<nat>) {
    && id !in t.snapshots && LiveMatch(t', session, fingerprint, id)
    && t'.snapshots[id].rearchivedFrom == prior
    && (forall other :: other != id ==>
          (Same(t', session, fingerprint, other) <==> Same(t, session, fingerprint, other)))
    && (forall other :: other in t.snapshots ==> other in t'.snapshots && t'.snapshots[other] == t.snapshots[other])
    && (forall k :: Buried(t', session, fingerprint, k) <==> Buried(t, session, fingerprint, k))
    && (forall k :: k in t.tombstones ==>
          k in t'.tombstones &&
          t'.tombstones[k] == if prior == Some(k) && t.tombstones[k].rearchivedAs.None?
                              then t.tombstones[k].(rearchivedAs := Some(id)) else t.tombstones[k])
  }

  lemma WinLists(c: Setup, t: Tables, t': Tables, x: Transaction, session: nat, fingerprint: Digest)
    requires TombStep(c, t, t', x) && x.Win? && Concerns(c, t, x, session, fingerprint)
    ensures WinMoves(t, t', x.snapshot, session, fingerprint, PriorTombstone(t, session, fingerprint))
  {
  }

  lemma ChainDelete(c: Setup, t: Tables, t': Tables, x: Transaction, session: nat, fingerprint: Digest,
                    snaps: seq<nat>, tombs: seq<nat>)
    requires Chain(t, session, fingerprint, snaps, tombs) && TombStep(c, t, t', x)
    requires x.Delete? && Concerns(c, t, x, session, fingerprint)
    ensures Chain(t', session, fingerprint, snaps, tombs + [x.tombstone])
    ensures DeletionsAscend(t, tombs) && DeletesLater(t, x) ==> DeletionsAscend(t', tombs + [x.tombstone])
  {
    DeleteLists(c, t, t', x, session, fingerprint);
    DeleteExtends(t, t', x.snapshot, x.tombstone, x.now, session, fingerprint, snaps, tombs);
    if DeletionsAscend(t, tombs) && DeletesLater(t, x) {
      forall i | 0 <= i < |tombs| ensures Buried(t, session, fingerprint, tombs[i]) { assert tombs[i] in tombs; }
    }
  }

  ghost predicate DeleteMoves(t: Tables, t': Tables, id: nat, tomb: nat, now: int, session: nat, fingerprint: Digest) {
    && Same(t, session, fingerprint, id) && t.snapshots[id].deletedAt.None? && tomb !in t.tombstones
    && t'.snapshots == t.snapshots[id := t.snapshots[id].(deletedAt := Some(now))]
    && t'.tombstones == t.tombstones[tomb := Tombstone(id, session, fingerprint, now, None)]
  }

  lemma DeleteLists(c: Setup, t: Tables, t': Tables, x: Transaction, session: nat, fingerprint: Digest)
    requires TombStep(c, t, t', x) && x.Delete? && Concerns(c, t, x, session, fingerprint)
    ensures DeleteMoves(t, t', x.snapshot, x.tombstone, x.now, session, fingerprint)
  {
  }

  // A live snapshot of a chain is its last element.
  lemma LiveIsLast(t: Tables, snaps: seq<nat>, tombs: seq<nat>, id: nat)
    requires |snaps| <= |tombs| + 1 && forall i :: 0 <= i < |snaps| ==> ChainSnapshot(t, tombs, i, snaps[i])
    requires id in snaps && id in t.snapshots && t.snapshots[id].deletedAt.None?
    ensures |snaps| == |tombs| + 1 && snaps[|tombs|] == id
  {
    var n :| 0 <= n < |snaps| && snaps[n] == id;
    assert ChainSnapshot(t, tombs, n, snaps[n]);
  }

  lemma DeleteExtends(t: Tables, t': Tables, id: nat, tomb: nat, now: int, session: nat, fingerprint: Digest,
                      snaps: seq<nat>, tombs: seq<nat>)
    requires Chain(t, session, fingerprint, snaps, tombs) && DeleteMoves(t, t', id, tomb, now, session, fingerprint)
    ensures Chain(t', session, fingerprint, snaps, tombs + [tomb])
  {
    assert id in snaps;
    LiveIsLast(t, snaps, tombs, id);
    DeletionListed(t, t', id, tomb, now, session, fingerprint, snaps, tombs);
    forall i | 0 <= i < |snaps| ensures ChainSnapshot(t', tombs + [tomb], i, snaps[i]) {
      DeleteKeepsSnapshot(t, t', id, tomb, now, session, fingerprint, snaps, tombs, i);
    }
    forall i | 0 <= i < |tombs| + 1 ensures ChainTombstone(t', snaps, i, (tombs + [tomb])[i]) {
      DeleteKeepsTombstone(t, t', id, tomb, now, session, fingerprint, snaps, tombs, i);
    }
  }

  lemma DeletionListed(t: Tables, t': Tables, id: nat, tomb: nat, now: int, session: nat, fingerprint: Digest,
                       snaps: seq<nat>, tombs: seq<nat>)
    requires Listed(t, session, fingerprint, snaps, tombs) && DeleteMoves(t, t', id, tomb, now, session, fingerprint)
    ensures Listed(t', session, fingerprint, snaps, tombs + [tomb])
  {
    ListTombstone(t, t', session, fingerprint, snaps, tombs, tomb);
  }

  // The deleted snapshot is the live one at the end; every other stands as before.
  lemma DeleteKeepsSnapshot(t: Tables, t': Tables, id: nat, tomb: nat, now: int, session: nat, fingerprint: Digest,
                            snaps: seq<nat>, tombs: seq<nat>, i: nat)
    requires Chain(t, session, fingerprint, snaps, tombs) && DeleteMoves(t, t', id, tomb, now, session, fingerprint)
    requires i < |snaps| == |tombs| + 1 && snaps[|tombs|] == id
    ensures ChainSnapshot(t', tombs + [tomb], i, snaps[i])
  {
    assert ChainSnapshot(t, tombs, i, snaps[i]);
  }

  lemma DeleteKeepsTombstone(t: Tables, t': Tables, id: nat, tomb: nat, now: int, session: nat, fingerprint: Digest,
                             snaps: seq<nat>, tombs: seq<nat>, i: nat)
    requires Chain(t, session, fingerprint, snaps, tombs) && DeleteMoves(t, t', id, tomb, now, session, fingerprint)
    requires i <= |tombs| && |snaps| == |tombs| + 1 && snaps[|tombs|] == id
    ensures ChainTombstone(t', snaps, i, (tombs + [tomb])[i])
  {
    if i < |tombs| { assert ChainTombstone(t, snaps, i, tombs[i]); }
  }

  lemma ChainOther(c: Setup, t: Tables, t': Tables, x: Transaction, session: nat, fingerprint: Digest, snaps: seq<nat>,
                   tombs: seq<nat>)
    requires Chain(t, session, fingerprint, snaps, tombs) && TombStep(c, t, t', x)
    requires !Concerns(c, t, x, session, fingerprint)
    ensures Chain(t', session, fingerprint, snaps, tombs)
    ensures DeletionsAscend(t, tombs) ==> DeletionsAscend(t', tombs)
  {
    forall id ensures Same(t', session, fingerprint, id) <==> Same(t, session, fingerprint, id) {}
    forall id | Same(t, session, fingerprint, id) ensures t'.snapshots[id] == t.snapshots[id] {}
    forall k ensures Buried(t', session, fingerprint, k) <==> Buried(t, session, fingerprint, k) {}
    forall k | Buried(t, session, fingerprint, k) ensures t'.tombstones[k] == t.tombstones[k] {}
    forall i | 0 <= i < |snaps| ensures ChainSnapshot(t', tombs, i, snaps[i]) {
      assert snaps[i] in snaps && ChainSnapshot(t, tombs, i, snaps[i]);
    }
    forall i | 0 <= i < |tombs|
      ensures ChainTombstone(t', snaps, i, tombs[i]) && Buried(t, session, fingerprint, tombs[i])
    {
      assert tombs[i] in tombs && ChainTombstone(t, snaps, i, tombs[i]);
    }
  }

  /** While deletion keys of a fingerprint strictly increase, its whole history stays one alternating chain. */
  lemma ChainExtends(c: Setup, t: Tables, x: Transaction, session: nat, fingerprint: Digest, snaps: seq<nat>,
                     tombs: seq<nat>)
    returns (snaps': seq<nat>, tombs': seq<nat>)
    requires Chain(t, session, fingerprint, snaps, tombs) && DeletionsAscend(t, tombs)
    requires Allowed(c, t, x) && (Concerns(c, t, x, session, fingerprint) ==> DeletesLater(t, x))
    ensures Chain(Apply(c, t, x), session, fingerprint, snaps', tombs') && DeletionsAscend(Apply(c, t, x), tombs')
    ensures snaps <= snaps' && tombs <= tombs'
  {
    snaps', tombs' := snaps, tombs;
    var t' := Apply(c, t, x);
    ApplyStepsTombs(c, t, x);
    if !Concerns(c, t, x, session, fingerprint) {
      ChainOther(c, t, t', x, session, fingerprint, snaps, tombs);
    } else if x.Win? {
      LastOfAscending(t, session, fingerprint, snaps, tombs);
      ChainWin(c, t, t', x, session, fingerprint, snaps, tombs);
      snaps' := snaps + [x.snapshot];
    } else {
      ChainDelete(c, t, t', x, session, fingerprint, snaps, tombs);
      tombs' := tombs + [x.tombstone];
    }
  }

  /** Exactly when a rearchive keeps the history one chain: when the tombstone with the greatest deletion
      key, which the rearchive links to, is the one that ends the chain. A clock that stepped back between
      two deletions of the fingerprint makes it another one. */
  lemma RearchiveKeepsChainIff(c: Setup, t: Tables, x: Transaction, session: nat, fingerprint: Digest, snaps: seq<nat>,
                               tombs: seq<nat>)
    requires Chain(t, session, fingerprint, snaps, tombs) && tombs != []
    requires Allowed(c, t, x) && x.Win? && Concerns(c, t, x, session, fingerprint)
    ensures LastBuried(t, session, fingerprint, tombs[|tombs| - 1]) <==>
            exists snaps', tombs' :: Chain(Apply(c, t, x), session, fingerprint, snaps', tombs')
  {
    var t' := Apply(c, t, x);
    var last := tombs[|tombs| - 1];
    ApplyStepsTombs(c, t, x);
    assert last in tombs;
    NoLiveMeansEntombed(t, session, fingerprint, snaps, tombs);
    assert ChainTombstone(t, snaps, |tombs| - 1, last);
    if LastBuried(t, session, fingerprint, last) {
      LastIsPrior(t, session, fingerprint, last);
      ChainWin(c, t, t', x, session, fingerprint, snaps, tombs);
    } else if snaps', tombs' :| Chain(t', session, fingerprint, snaps', tombs') {
      LiveEndsChain(t', session, fingerprint, snaps', tombs', x.snapshot, last);
    }
  }

  lemma LastIsPrior(t: Tables, session: nat, fingerprint: Digest, last: nat)
    requires LastBuried(t, session, fingerprint, last)
    ensures PriorTombstone(t, session, fingerprint) == Some(last)
  {
  }

  // With a live snapshot at the end of a chain, no tombstone of it is left without a forward link.
  lemma LiveEndsChain(t: Tables, session: nat, fingerprint: Digest, snaps: seq<nat>, tombs: seq<nat>, id: nat, k: nat)
    requires Chain(t, session, fingerprint, snaps, tombs)
    requires LiveMatch(t, session, fingerprint, id) && Buried(t, session, fingerprint, k)
    ensures t.tombstones[k].rearchivedAs.Some?
  {
    assert id in snaps && k in tombs;
    var n :| 0 <= n < |snaps| && snaps[n] == id;
    assert ChainSnapshot(t, tombs, n, id);
    var i :| 0 <= i < |tombs| && tombs[i] == k;
    assert ChainTombstone(t, snaps, i, k);
  }
}
