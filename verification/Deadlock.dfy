/** Lock order: upload, then semantic snapshot, then blob, and ascending stripes
    within the blob family. A waiting process holds only locks below the one it
    waits for, so no set of processes can wait in a circle. */
module Deadlock {
  import opened Basics
  import opened Catalog
  import opened Protocol
  import opened ProtocolSafety
  import opened Runs

  function Family(lock: Lock): nat {
    match lock case UploadLock(_) => 0 case SnapshotLock(_) => 1 case BlobLock(_) => 2
  }

  predicate Below(a: Lock, b: Lock) {
    Family(a) < Family(b) || (Family(a) == Family(b) && a.stripe < b.stripe)
  }

  // The stripe vector of a deletion is duplicate free and ascending; that of a completion is
  // already part of its job.
  ghost predicate Ordered(q: Process) {
    q.AwaitDeletionBlobs? ==> StrictlyAscending(q.stripes)
  }

  ghost predicate AllOrdered(s: State) {
    forall p :: 0 <= p < |s.procs| ==> Ordered(s.procs[p])
  }

  lemma StepOrdered(c: Setup, s: State, q: Process, e: Event)
    requires Takes(c, s, q, e) && Ordered(q)
    ensures Ordered(ProcAfter(c, s, q, e))
  {
  }

  lemma {:induction false} ReachableOrdered(c: Setup, states: seq<State>, steps: seq<Step>, k: nat)
    requires Run(c, states, steps) && k < |states|
    ensures AllOrdered(states[k])
  {
    if k > 0 {
      ReachableOrdered(c, states, steps, k - 1);
      assert Taken(c, states, steps, k - 1);
      var s, p, e := states[k - 1], steps[k - 1].actor, steps[k - 1].event;
      if !External(e) { StepOrdered(c, s, s.procs[p], e); }
    }
  }

  /** A process waits only for a lock above every lock it holds; in particular for none it holds. */
  lemma HoldsOnlyBelow(c: Setup, t: Tables, q: Process, held: Lock)
    requires Ordered(q) && JobsKnown(c, t, q)
    requires Wants(c, q).Some? && Holds(c, q, held)
    ensures Below(held, Wants(c, q).value)
  {
    if q.AwaitBlobs? { CompletionHoldsBelow(c, q, held); }
    else if q.AwaitDeletionBlobs? { DeletionHoldsBelow(c, q, held); }
    else { OthersHoldBelow(c, q, held); }
  }

  lemma CompletionHoldsBelow(c: Setup, q: Process, held: Lock)
    requires q.AwaitBlobs? && StrictlyAscending(q.job.stripes)
    requires Wants(c, q).Some? && Holds(c, q, held)
    ensures Below(held, Wants(c, q).value)
  {
    if held.BlobLock? {
      assert AmongFirst(q.job.stripes, q.n, held);
      var i :| 0 <= i < q.n && i < |q.job.stripes| && q.job.stripes[i] == held.stripe;
    }
  }

  lemma DeletionHoldsBelow(c: Setup, q: Process, held: Lock)
    requires q.AwaitDeletionBlobs? && StrictlyAscending(q.stripes)
    requires Wants(c, q).Some? && Holds(c, q, held)
    ensures Below(held, Wants(c, q).value)
  {
    if held.BlobLock? {
      assert AmongFirst(q.stripes, q.n, held);
      var i :| 0 <= i < q.n && i < |q.stripes| && q.stripes[i] == held.stripe;
    }
  }

  lemma OthersHoldBelow(c: Setup, q: Process, held: Lock)
    requires !q.AwaitBlobs? && !q.AwaitDeletionBlobs?
    requires Wants(c, q).Some? && Holds(c, q, held)
    ensures Below(held, Wants(c, q).value)
  {
  }

  ghost predicate WaitsFor(c: Setup, q: Process, other: Process) {
    Wants(c, q).Some? && Holds(c, other, Wants(c, q).value)
  }

  /** Along the waits-for relation of any reachable state the wanted lock strictly rises, so the relation
      has no cycle, and no process waits for a lock it holds itself. */
  lemma WaitingRises(c: Setup, states: seq<State>, steps: seq<Step>, k: nat, p: nat, q: nat)
    requires CollisionFree(c) && Run(c, states, steps) && k < |states|
    requires p < |states[k].procs| && q < |states[k].procs| && WaitsFor(c, states[k].procs[p], states[k].procs[q])
    ensures p != q
    ensures var other := states[k].procs[q];
      Wants(c, other).Some? ==> Below(Wants(c, states[k].procs[p]).value, Wants(c, other).value)
  {
    ReachableOrdered(c, states, steps, k);
    ReachableInv(c, states, steps, k);
    var s := states[k];
    assert Knows(c, s.tables, s.files, s.procs[q]);
    if Wants(c, s.procs[q]).Some? {
      HoldsOnlyBelow(c, s.tables, s.procs[q], Wants(c, s.procs[p]).value);
    }
  }

  // Of the processes waiting for a lock, one that waits for the highest.
  lemma {:induction false} HighestWaiting(c: Setup, procs: seq<Process>, n: nat) returns (best: nat)
    requires n <= |procs| && exists p :: 0 <= p < n && Wants(c, procs[p]).Some?
    ensures best < n && Wants(c, procs[best]).Some?
    ensures forall p :: 0 <= p < n && Wants(c, procs[p]).Some? ==>
      !Below(Wants(c, procs[best]).value, Wants(c, procs[p]).value)
  {
    if exists p :: 0 <= p < n - 1 && Wants(c, procs[p]).Some? {
      best := HighestWaiting(c, procs, n - 1);
      if Wants(c, procs[n - 1]).Some? && Below(Wants(c, procs[best]).value, Wants(c, procs[n - 1]).value) {
        best := n - 1;
      }
    } else {
      best := n - 1;
    }
  }

  lemma {:induction false} Unused(s: set<nat>) returns (n: nat)
    ensures forall x :: x in s ==> x < n
  {
    n := 0;
    if s != {} {
      var y :| y in s;
      var m := Unused(s - {y});
      n := m + y + 1;
      forall x | x in s ensures x < n {
        if x != y { assert x in s - {y}; }
      }
    }
  }

  // A process that is not blocked can always take a step: succeed, or report the missing chunks.
  lemma UnblockedCanStep(c: Setup, s: State, p: nat)
    requires s.mode.Serving? && p < |s.procs| && !s.procs[p].Idle? && Unblocked(c, s, s.procs[p])
    ensures exists e: Event :: (e.Go? || e.Fail?) && Can(c, s, p, e)
  {
    var q := s.procs[p];
    if q.Opened? {
      assert Can(c, s, p, Fail);
    } else if q.Burying? {
      var id := Unused(s.tables.tombstones.Keys);
      assert Can(c, s, p, Go(0, id));
    } else {
      var id := Unused(s.tables.snapshots.Keys);
      assert Can(c, s, p, Go(0, id));
    }
  }

  /** Deadlock freedom: in every reachable serving state in which some process holds or awaits a lock, or is
      otherwise under way, one of the processes under way can take a step. */
  lemma NoDeadlock(c: Setup, states: seq<State>, steps: seq<Step>, k: nat)
    requires CollisionFree(c) && Run(c, states, steps) && k < |states|
    requires states[k].mode.Serving? && exists p :: 0 <= p < |states[k].procs| && !states[k].procs[p].Idle?
    ensures exists p: nat, e: Event ::
      p < |states[k].procs| && !states[k].procs[p].Idle? && (e.Go? || e.Fail?) && Can(c, states[k], p, e)
  {
    var s := states[k];
    var p: nat :| p < |s.procs| && !s.procs[p].Idle?;
    if exists w :: 0 <= w < |s.procs| && Wants(c, s.procs[w]).Some? {
      var best := HighestWaiting(c, s.procs, |s.procs|);
      p := best;
      if !Unblocked(c, s, s.procs[best]) {
        var q: nat :| q < |s.procs| && Holds(c, s.procs[q], Wants(c, s.procs[best]).value);
        WaitingRises(c, states, steps, k, best, q);
        p := q;
      }
    }
    UnblockedCanStep(c, s, p);
  }

  // ---- computing the stripes ----

  predicate Nondescending(q: seq<nat>) {
    forall i, j :: 0 <= i < j < |q| ==> q[i] <= q[j]
  }

  // The library sort, as far as this model needs it: the same elements in ascending order.
  method SortUnstable(v: seq<nat>) returns (sorted: seq<nat>)
    ensures Nondescending(sorted) && forall x :: x in sorted <==> x in v
  {
    sorted := [];
    for n := 0 to |v|
      invariant Nondescending(sorted) && forall x :: x in sorted <==> x in v[..n]
    {
      var k := |sorted|;
      while k > 0 && sorted[k - 1] > v[n]
        invariant 0 <= k <= |sorted|
        invariant forall j :: k <= j < |sorted| ==> sorted[j] > v[n]
      {
        k := k - 1;
      }
      assert forall x :: x in sorted <==> x in sorted[..k] || x in sorted[k..];
      sorted := sorted[..k] + [v[n]] + sorted[k..];
    }
    assert v[..|v|] == v;
  }

  // Keeps the first of every run of equal elements.
  method Dedup(v: seq<nat>) returns (kept: seq<nat>)
    requires Nondescending(v)
    ensures StrictlyAscending(kept) && forall x :: x in kept <==> x in v
  {
    kept := [];
    for i := 0 to |v|
      invariant StrictlyAscending(kept) && forall x :: x in kept <==> x in v[..i]
      invariant forall j :: i <= j < |v| && kept != [] ==> kept[|kept| - 1] <= v[j]
    {
      if kept == [] || kept[|kept| - 1] != v[i] { kept := kept + [v[i]]; }
    }
    assert v[..|v|] == v;
  }

  /** The stripes of a digest list: exactly those needed, each once, in the one order every process uses. */
  method BlobLocksForDigests(c: Setup, digests: seq<Digest>) returns (stripes: seq<nat>)
    ensures stripes == BlobStripes(c, set d | d in digests)
    ensures StrictlyAscending(stripes)
    ensures forall d :: d in digests ==> c.blobStripe(d) in stripes
  {
    stripes := [];
    for i := 0 to |digests|
      invariant |stripes| == i && forall j :: 0 <= j < i ==> stripes[j] == c.blobStripe(digests[j])
    {
      stripes := stripes + [c.blobStripe(digests[i])];
    }
    ghost var collected := stripes;
    stripes := SortUnstable(stripes);
    stripes := Dedup(stripes);
    StripesAreThose(c, digests, collected, stripes);
  }

  lemma StripesAreThose(c: Setup, digests: seq<Digest>, collected: seq<nat>, stripes: seq<nat>)
    requires |collected| == |digests| && forall j :: 0 <= j < |digests| ==> collected[j] == c.blobStripe(digests[j])
    requires StrictlyAscending(stripes) && forall x :: x in stripes <==> x in collected
    ensures stripes == BlobStripes(c, set d | d in digests)
    ensures forall d :: d in digests ==> c.blobStripe(d) in stripes
  {
    var all := set d | d in digests;
    var needed := set d | d in all :: c.blobStripe(d);
    assert BlobStripes(c, all) == Ascending(needed);
    forall x ensures x in collected <==> x in needed {
      StripeNeeded(c, digests, all, collected, x);
    }
    AscendingUnique(stripes, Ascending(needed));
    forall d | d in digests ensures c.blobStripe(d) in stripes {
      var j :| 0 <= j < |digests| && digests[j] == d;
      assert collected[j] in collected;
    }
  }

  lemma StripeNeeded(c: Setup, digests: seq<Digest>, all: set<Digest>, collected: seq<nat>, x: nat)
    requires |collected| == |digests| && forall j :: 0 <= j < |digests| ==> collected[j] == c.blobStripe(digests[j])
    requires forall d :: d in all <==> d in digests
    ensures x in collected <==> x in (set d | d in all :: c.blobStripe(d))
  {
    if x in collected {
      var j :| 0 <= j < |collected| && collected[j] == x;
      assert digests[j] in all;
    }
    if d :| d in all && c.blobStripe(d) == x {
      var j :| 0 <= j < |digests| && digests[j] == d;
      assert collected[j] == x;
    }
  }
}
