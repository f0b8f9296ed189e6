/** Exactly which runs keep the rearchive history of a fingerprint one chain. */
module History {
  import opened Basics
  import opened Catalog
  import opened Provenance
  import opened Rearchive
  import opened Protocol
  import opened ProtocolSafety
  import opened Runs

  // A rearchive of this fingerprint finds the tombstone with the greatest deletion key not yet rearchived.
  ghost predicate LinksForward(c: Setup, t: Tables, x: Transaction, session: nat, fingerprint: Digest) {
    x.Win? && Concerns(c, t, x, session, fingerprint) && PriorTombstone(t, session, fingerprint).Some? ==>
      t.tombstones[PriorTombstone(t, session, fingerprint).value].rearchivedAs.None?
  }

  ghost predicate Chained(t: Tables, session: nat, fingerprint: Digest) {
    exists snaps, tombs :: Chain(t, session, fingerprint, snaps, tombs)
  }

  // ---- one transaction ----

  lemma {:induction false} LastExists(t: Tables, keys: set<nat>) returns (last: nat)
    requires keys != {} && keys <= t.tombstones.Keys
    ensures last in keys
    ensures forall k :: k in keys ==> AtMost(t.tombstones[k].deletedAt, k, t.tombstones[last].deletedAt, last)
  {
    last :| last in keys;
    var rest := keys - {last};
    if rest != {} {
      var other := LastExists(t, rest);
      if AtMost(t.tombstones[last].deletedAt, last, t.tombstones[other].deletedAt, other) { last := other; }
    }
  }

  lemma SomeLastBuried(t: Tables, session: nat, fingerprint: Digest, k: nat)
    requires Buried(t, session, fingerprint, k)
    ensures PriorTombstone(t, session, fingerprint).Some?
  {
    var buried := set b | b in t.tombstones && Buried(t, session, fingerprint, b);
    assert k in buried;
    var last := LastExists(t, buried);
    assert LastBuried(t, session, fingerprint, last);
  }

  // In a chain without a live snapshot only the last tombstone has no forward link.
  lemma UnforwardedIsLast(t: Tables, session: nat, fingerprint: Digest, snaps: seq<nat>, tombs: seq<nat>)
    requires Chain(t, session, fingerprint, snaps, tombs) && |snaps| == |tombs|
    requires PriorTombstone(t, session, fingerprint).Some? ==>
      t.tombstones[PriorTombstone(t, session, fingerprint).value].rearchivedAs.None?
    ensures PriorTombstone(t, session, fingerprint) == if tombs == [] then None else Some(tombs[|tombs| - 1])
  {
    var prior := PriorTombstone(t, session, fingerprint);
    if tombs != [] {
      assert tombs[0] in tombs;
      SomeLastBuried(t, session, fingerprint, tombs[0]);
    }
    if prior.Some? {
      assert prior.value in tombs;
      var i :| 0 <= i < |tombs| && tombs[i] == prior.value;
      assert ChainTombstone(t, snaps, i, tombs[i]);
    }
  }

  lemma StepStaysChained(c: Setup, t: Tables, x: Transaction, session: nat, fingerprint: Digest)
    requires Allowed(c, t, x) && Chained(t, session, fingerprint) && LinksForward(c, t, x, session, fingerprint)
    ensures Chained(Apply(c, t, x), session, fingerprint)
  {
    var t' := Apply(c, t, x);
    var snaps, tombs :| Chain(t, session, fingerprint, snaps, tombs);
    ApplyStepsTombs(c, t, x);
    if !Concerns(c, t, x, session, fingerprint) {
      ChainOther(c, t, t', x, session, fingerprint, snaps, tombs);
    } else if x.Win? {
      NoLiveMeansEntombed(t, session, fingerprint, snaps, tombs);
      UnforwardedIsLast(t, session, fingerprint, snaps, tombs);
      ChainWin(c, t, t', x, session, fingerprint, snaps, tombs);
    } else {
      ChainDelete(c, t, t', x, session, fingerprint, snaps, tombs);
    }
  }

  // Two snapshots of the fingerprint behind one tombstone.
  ghost predicate Forked(t: Tables, session: nat, fingerprint: Digest, a: nat, b: nat) {
    && Same(t, session, fingerprint, a) && Same(t, session, fingerprint, b) && a != b
    && t.snapshots[a].rearchivedFrom.Some? && t.snapshots[b].rearchivedFrom == t.snapshots[a].rearchivedFrom
  }

  // Snapshot id stands right behind its back link.
  lemma PlacedBehind(t: Tables, session: nat, fingerprint: Digest, snaps: seq<nat>, tombs: seq<nat>, id: nat)
    returns (i: nat)
    requires Chain(t, session, fingerprint, snaps, tombs) && Same(t, session, fingerprint, id)
    requires t.snapshots[id].rearchivedFrom.Some?
    ensures 0 < i <= |tombs| && i < |snaps| && snaps[i] == id && t.snapshots[id].rearchivedFrom == Some(tombs[i - 1])
  {
    assert id in snaps;
    i :| 0 <= i < |snaps| && snaps[i] == id;
    assert ChainSnapshot(t, tombs, i, id);
  }

  lemma ForkedIsNoChain(t: Tables, session: nat, fingerprint: Digest, a: nat, b: nat)
    requires Forked(t, session, fingerprint, a, b)
    ensures !Chained(t, session, fingerprint)
  {
    if snaps, tombs :| Chain(t, session, fingerprint, snaps, tombs) {
      var i := PlacedBehind(t, session, fingerprint, snaps, tombs, a);
      var j := PlacedBehind(t, session, fingerprint, snaps, tombs, b);
      assert false;
    }
  }

  lemma BackwardLinkForks(c: Setup, t: Tables, x: Transaction, session: nat, fingerprint: Digest) returns (a: nat)
    requires Allowed(c, t, x) && LinksSound(t) && !LinksForward(c, t, x, session, fingerprint)
    ensures Forked(Apply(c, t, x), session, fingerprint, a, x.snapshot)
  {
    var k := PriorTombstone(t, session, fingerprint).value;
    assert TombSound(t, k);
    a := t.tombstones[k].rearchivedAs.value;
    ApplyStepsTombs(c, t, x);
    WinLists(c, t, Apply(c, t, x), x, session, fingerprint);
  }

  // ---- whole runs ----

  lemma ForkStays(c: Setup, states: seq<State>, steps: seq<Step>, j: nat, k: nat, session: nat, fingerprint: Digest,
                  a: nat, b: nat)
    requires CollisionFree(c) && Run(c, states, steps) && j <= k < |states|
    requires Forked(states[j].tables, session, fingerprint, a, b)
    ensures Forked(states[k].tables, session, fingerprint, a, b)
  {
    SnapshotsPersist(c, states, steps, j, k, a);
    SnapshotsPersist(c, states, steps, j, k, b);
  }

  ghost predicate ForwardUntil(c: Setup, states: seq<State>, steps: seq<Step>, k: nat, session: nat,
                               fingerprint: Digest)
    requires k < |states| == |steps| + 1
  {
    forall m :: 0 <= m < k ==> ForwardAt(c, states, steps, m, session, fingerprint)
  }

  ghost predicate ForwardAt(c: Setup, states: seq<State>, steps: seq<Step>, m: nat, session: nat, fingerprint: Digest)
    requires m < |steps| && |states| == |steps| + 1
  {
    LinksForward(c, states[m].tables, Committed(c, states, steps, m), session, fingerprint)
  }

  lemma {:induction false} ForwardRunIsChained(c: Setup, states: seq<State>, steps: seq<Step>, k: nat, session: nat,
                                               fingerprint: Digest)
    requires CollisionFree(c) && Run(c, states, steps) && k < |states|
    requires ForwardUntil(c, states, steps, k, session, fingerprint)
    ensures Chained(states[k].tables, session, fingerprint)
  {
    if k == 0 {
      EmptyChain(states[0].tables, session, fingerprint);
    } else {
      ForwardRunIsChained(c, states, steps, k - 1, session, fingerprint);
      CommittedStep(c, states, steps, k - 1);
      assert ForwardAt(c, states, steps, k - 1, session, fingerprint);
      StepStaysChained(c, states[k - 1].tables, Committed(c, states, steps, k - 1), session, fingerprint);
    }
  }

  lemma LinksSoundAt(c: Setup, states: seq<State>, steps: seq<Step>, m: nat)
    requires CollisionFree(c) && Run(c, states, steps) && m < |states|
    ensures LinksSound(states[m].tables)
  {
    ReachableInv(c, states, steps, m);
  }

  // A rearchive linked backward in step m makes a fork.
  lemma ForksAt(c: Setup, states: seq<State>, steps: seq<Step>, m: nat, session: nat, fingerprint: Digest)
    returns (a: nat, b: nat)
    requires CollisionFree(c) && Run(c, states, steps) && m < |steps|
    requires !ForwardAt(c, states, steps, m, session, fingerprint)
    ensures Forked(states[m + 1].tables, session, fingerprint, a, b)
  {
    LinksSoundAt(c, states, steps, m);
    CommittedStep(c, states, steps, m);
    b := Committed(c, states, steps, m).snapshot;
    a := BackwardLinkForks(c, states[m].tables, Committed(c, states, steps, m), session, fingerprint);
  }

  // For good.
  lemma ForksForGood(c: Setup, states: seq<State>, steps: seq<Step>, m: nat, k: nat, session: nat, fingerprint: Digest)
    requires CollisionFree(c) && Run(c, states, steps) && m < k < |states|
    requires !ForwardAt(c, states, steps, m, session, fingerprint)
    ensures !Chained(states[k].tables, session, fingerprint)
  {
    var a, b := ForksAt(c, states, steps, m, session, fingerprint);
    ForkStays(c, states, steps, m + 1, k, session, fingerprint, a, b);
    ForkedIsNoChain(states[k].tables, session, fingerprint, a, b);
  }

  /** Over every run, whatever its clocks read: the history of a fingerprint is one chain exactly when no rearchive of
      it so far was linked behind a tombstone that had already been rearchived. Once it forks it stays forked. */
  lemma HistoryIsOneChainIff(c: Setup, states: seq<State>, steps: seq<Step>, k: nat, session: nat, fingerprint: Digest)
    requires CollisionFree(c) && Run(c, states, steps) && k < |states|
    ensures Chained(states[k].tables, session, fingerprint) <==> ForwardUntil(c, states, steps, k, session, fingerprint)
  {
    if ForwardUntil(c, states, steps, k, session, fingerprint) {
      ForwardRunIsChained(c, states, steps, k, session, fingerprint);
    } else {
      var m :| 0 <= m < k && !ForwardAt(c, states, steps, m, session, fingerprint);
      ForksForGood(c, states, steps, m, k, session, fingerprint);
    }
  }
}
