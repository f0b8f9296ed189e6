/** Snapshot identity and capture provenance: which completions share a
    snapshot, and what every committed transaction keeps about them. */
module Provenance {
  import opened Basics
  import opened Catalog

  // The partial unique index on live (session, fingerprint).
  ghost predicate OneLivePerFingerprint(t: Tables) {
    forall id, other ::
      Live(t, other) && LiveMatch(t, t.snapshots[other].session, t.snapshots[other].fingerprint, id) ==>
      id == other
  }

  ghost predicate SnapshotsGenuine(c: Setup, t: Tables) {
    forall id :: id in t.snapshots ==>
      t.snapshots[id].session == t.snapshots[id].manifest.session &&
      t.snapshots[id].fingerprint == Fingerprint(c, t.snapshots[id].manifest)
  }

  // Exactly the completed uploads have a capture, and it names the upload's own snapshot.
  ghost predicate CaptureGenuine(c: Setup, t: Tables, u: nat)
    requires u in t.captures
  {
    && u in t.uploads && t.uploads[u].Completed?
    && var m := t.uploads[u].manifest;
    && var id := t.captures[u].snapshot;
    && t.uploads[u].snapshot == id && id in t.snapshots
    && t.captures[u].session == m.session && t.captures[u].context == m.context
    && t.snapshots[id].session == m.session && t.snapshots[id].fingerprint == Fingerprint(c, m)
  }

  ghost predicate Captured(t: Tables, id: nat) {
    exists u :: u in t.captures && t.captures[u].snapshot == id
  }

  ghost predicate ProvenanceSound(c: Setup, t: Tables) {
    && OneLivePerFingerprint(t)
    && SnapshotsGenuine(c, t)
    && (forall u :: u in t.captures ==> CaptureGenuine(c, t, u))
    && (forall u :: u in t.uploads && t.uploads[u].Completed? ==> u in t.captures)
    && (forall id :: id in t.snapshots ==> Captured(t, id))
  }

  // What a transaction does to the three tables that carry identity and provenance.
  ghost predicate IdentityStep(c: Setup, t: Tables, t': Tables, x: Transaction) {
    match x
    case Create(u, m) =>
      u !in t.uploads && t'.uploads == t.uploads[u := Active(m)] && t'.captures == t.captures &&
      t'.snapshots == t.snapshots
    case Terminate(u) =>
      && u in t.uploads && t.uploads[u].Active?
      && t'.uploads == t.uploads - {u} && t'.captures == t.captures && t'.snapshots == t.snapshots
    case Win(u, id, now, _) =>
      && u in t.uploads && t.uploads[u].Active? && id !in t.snapshots && id in t'.snapshots && u in t'.uploads
      && var m := t.uploads[u].manifest;
      && (forall other :: !LiveMatch(t, m.session, Fingerprint(c, m), other))
      && t'.uploads[u].Completed? && t'.uploads == t.uploads[u := Completed(m, id, t'.uploads[u].newlyPersisted)]
      && t'.captures == t.captures[u := Capture(id, m.session, m.context)]
      && t'.snapshots == t.snapshots[id :=
           Snapshot(m.session, Fingerprint(c, m), m, now, None, t'.snapshots[id].rearchivedFrom)]
    case Attach(u, id) =>
      && u in t.uploads && t.uploads[u].Active?
      && var m := t.uploads[u].manifest;
      && LiveMatch(t, m.session, Fingerprint(c, m), id)
      && t'.uploads == t.uploads[u := Completed(m, id, 0)]
      && t'.captures == t.captures[u := Capture(id, m.session, m.context)]
      && t'.snapshots == t.snapshots
    case Delete(id, _, now) =>
      && Live(t, id)
      && t'.snapshots == t.snapshots[id := t.snapshots[id].(deletedAt := Some(now))]
      && t'.uploads == t.uploads && t'.captures == t.captures
    case _ =>
      t'.uploads == t.uploads && t'.captures == t.captures && t'.snapshots == t.snapshots
  }

  lemma ApplyStepsIdentity(c: Setup, t: Tables, x: Transaction)
    requires Allowed(c, t, x)
    ensures IdentityStep(c, t, Apply(c, t, x), x)
  {
  }

  lemma StaysCaptured(t: Tables, t': Tables, id: nat)
    requires Captured(t, id)
    requires forall u :: u in t.captures ==> u in t'.captures && t'.captures[u] == t.captures[u]
    ensures Captured(t', id)
  {
    var u :| u in t.captures && t.captures[u].snapshot == id;
    assert u in t'.captures && t'.captures[u].snapshot == id;
  }

  ghost predicate Grows(t: Tables, t': Tables) {
    && (forall u :: u in t.captures ==> u in t'.captures && t'.captures[u] == t.captures[u])
    && (forall u :: u in t.uploads && t.uploads[u].Completed? ==> u in t'.uploads && t'.uploads[u] == t.uploads[u])
    && (forall id :: id in t.snapshots ==> SameOrTombstoned(t, t', id))
  }

  ghost predicate SameOrTombstoned(t: Tables, t': Tables, id: nat)
    requires id in t.snapshots
  {
    && id in t'.snapshots
    && (t'.snapshots[id] == t.snapshots[id] ||
        (t.snapshots[id].deletedAt.None? && t'.snapshots[id].(deletedAt := None) == t.snapshots[id]))
  }

  lemma StepGrows(c: Setup, t: Tables, t': Tables, x: Transaction)
    requires ProvenanceSound(c, t) && IdentityStep(c, t, t', x)
    ensures Grows(t, t')
    ensures forall u :: u in t'.captures && u !in t.captures ==> Live(t', t'.captures[u].snapshot)
  {
    CapturesStay(c, t, t', x);
    CompletionsStay(c, t, t', x);
    SnapshotsStay(c, t, t', x);
    CapturesLandLive(c, t, t', x);
  }

  lemma CompletionsStay(c: Setup, t: Tables, t': Tables, x: Transaction)
    requires IdentityStep(c, t, t', x)
    ensures forall u :: u in t.uploads && t.uploads[u].Completed? ==> u in t'.uploads && t'.uploads[u] == t.uploads[u]
  {
  }

  lemma SnapshotsStay(c: Setup, t: Tables, t': Tables, x: Transaction)
    requires IdentityStep(c, t, t', x)
    ensures forall id :: id in t.snapshots ==> SameOrTombstoned(t, t', id)
  {
  }

  lemma CapturesLandLive(c: Setup, t: Tables, t': Tables, x: Transaction)
    requires ProvenanceSound(c, t) && IdentityStep(c, t, t', x)
    ensures forall u :: u in t'.captures && u !in t.captures ==> Live(t', t'.captures[u].snapshot)
  {
  }

  lemma CapturesStay(c: Setup, t: Tables, t': Tables, x: Transaction)
    requires ProvenanceSound(c, t) && IdentityStep(c, t, t', x)
    ensures forall u :: u in t.captures ==> u in t'.captures && t'.captures[u] == t.captures[u]
  {
    forall u | u in t.captures ensures u in t'.captures && t'.captures[u] == t.captures[u] {
      assert CaptureGenuine(c, t, u);
      assert u in t.uploads && !t.uploads[u].Active?;
    }
  }

  lemma StepKeepsOneLive(c: Setup, t: Tables, t': Tables, x: Transaction)
    requires OneLivePerFingerprint(t) && SnapshotsGenuine(c, t) && IdentityStep(c, t, t', x)
    ensures OneLivePerFingerprint(t') && SnapshotsGenuine(c, t')
  {
    forall id, other | Live(t', other) &&
    LiveMatch(t', t'.snapshots[other].session, t'.snapshots[other].fingerprint, id)
      ensures id == other
    {
      if x.Win? && (id == x.snapshot || other == x.snapshot) {
        var m := t.uploads[x.upload].manifest;
        assert !LiveMatch(t, m.session, Fingerprint(c, m), id) && !LiveMatch(t, m.session, Fingerprint(c, m), other);
      } else {
        assert Live(t, other) && LiveMatch(t, t.snapshots[other].session, t.snapshots[other].fingerprint, id);
      }
    }
  }

  lemma StepKeepsCaptures(c: Setup, t: Tables, t': Tables, x: Transaction, u: nat)
    requires ProvenanceSound(c, t) && IdentityStep(c, t, t', x) && Grows(t, t') && u in t'.captures
    ensures CaptureGenuine(c, t', u)
  {
    if u in t.captures {
      assert CaptureGenuine(c, t, u);
      assert SameOrTombstoned(t, t', t.captures[u].snapshot);
    }
  }

  lemma StepKeepsCaptured(c: Setup, t: Tables, t': Tables, x: Transaction, id: nat)
    requires ProvenanceSound(c, t) && IdentityStep(c, t, t', x) && Grows(t, t') && id in t'.snapshots
    ensures Captured(t', id)
  {
    if x.Win? && id == x.snapshot {
      assert t'.captures[x.upload].snapshot == id;
    } else {
      StaysCaptured(t, t', id);
    }
  }

  lemma StepKeepsCompleted(c: Setup, t: Tables, t': Tables, x: Transaction, u: nat)
    requires ProvenanceSound(c, t) && IdentityStep(c, t, t', x) && Grows(t, t')
    requires u in t'.uploads && t'.uploads[u].Completed?
    ensures u in t'.captures
  {
    if u in t.uploads && t.uploads[u].Completed? { assert u in t.captures; }
  }

  lemma StepKeepsProvenance(c: Setup, t: Tables, t': Tables, x: Transaction)
    requires ProvenanceSound(c, t) && IdentityStep(c, t, t', x)
    ensures ProvenanceSound(c, t')
  {
    StepKeepsOneLive(c, t, t', x);
    StepGrows(c, t, t', x);
    forall u | u in t'.captures ensures CaptureGenuine(c, t', u) { StepKeepsCaptures(c, t, t', x, u); }
    forall id | id in t'.snapshots ensures Captured(t', id) { StepKeepsCaptured(c, t, t', x, id); }
    forall u | u in t'.uploads && t'.uploads[u].Completed?
      ensures u in t'.captures
    {
      StepKeepsCompleted(c, t, t', x, u);
    }
  }

  lemma KeepsProvenance(c: Setup, t: Tables, x: Transaction)
    requires ProvenanceSound(c, t) && Allowed(c, t, x)
    ensures ProvenanceSound(c, Apply(c, t, x))
  {
    ApplyStepsIdentity(c, t, x);
    StepKeepsProvenance(c, t, Apply(c, t, x), x);
  }

  /** History is append-only: captures, completed uploads and snapshot identities never change, and a
      tombstoned snapshot never returns. A capture is committed only on a snapshot that is live. */
  lemma HistoryOnlyGrows(c: Setup, t: Tables, x: Transaction)
    requires ProvenanceSound(c, t) && Allowed(c, t, x)
    ensures var t' := Apply(c, t, x);
      Grows(t, t') && forall u :: u in t'.captures && u !in t.captures ==> Live(t', t'.captures[u].snapshot)
  {
    ApplyStepsIdentity(c, t, x);
    StepGrows(c, t, Apply(c, t, x), x);
  }

  // ---- what coalesces ----

  // Artifact by artifact, the same path, original size and original digest. Stored representations may differ.
  ghost predicate SameContent(a: seq<Artifact>, b: seq<Artifact>) {
    |a| == |b| && forall i :: 0 <= i < |a| ==>
      a[i].path == b[i].path && a[i].originalSize == b[i].originalSize && a[i].original == b[i].original
  }

  lemma ContentIsOriginals(a: seq<Artifact>, b: seq<Artifact>)
    ensures SameContent(a, b) <==> Originals(a) == Originals(b)
  {
    if Originals(a) == Originals(b) {
      assert |Originals(a)| == |Originals(b)|;
      forall i | 0 <= i < |a|
        ensures a[i].path == b[i].path && a[i].originalSize == b[i].originalSize && a[i].original == b[i].original
      {
        assert Originals(a)[i] == Originals(b)[i];
      }
    }
  }

  /** Two manifests have one fingerprint exactly when they have the same session, context and content. */
  lemma FingerprintIsContent(c: Setup, m: Manifest, n: Manifest)
    requires Injective(c.fingerprint)
    ensures Fingerprint(c, m) == Fingerprint(c, n) <==>
      m.session == n.session && m.context == n.context && SameContent(m.artifacts, n.artifacts)
  {
    ContentIsOriginals(m.artifacts, n.artifacts);
    var x := FingerprintDocument(m.session, m.context, Originals(m.artifacts));
    var y := FingerprintDocument(n.session, n.context, Originals(n.artifacts));
    assert c.fingerprint(x) == c.fingerprint(y) ==> x == y;
  }

  /** Completions that coalesced on one snapshot agree on the context, and artifact by artifact on path, original size
      and original digest, with each other and with the snapshot. */
  lemma CoalescedAgree(c: Setup, t: Tables, u: nat, v: nat)
    requires Injective(c.fingerprint) && ProvenanceSound(c, t)
    requires u in t.captures && v in t.captures && t.captures[u].snapshot == t.captures[v].snapshot
    ensures t.captures[u].context == t.captures[v].context == t.snapshots[t.captures[u].snapshot].manifest.context
    ensures SameContent(t.uploads[u].manifest.artifacts, t.uploads[v].manifest.artifacts)
    ensures SameContent(t.uploads[u].manifest.artifacts, t.snapshots[t.captures[u].snapshot].manifest.artifacts)
  {
    assert CaptureGenuine(c, t, u) && CaptureGenuine(c, t, v);
    FingerprintIsContent(c, t.uploads[u].manifest, t.uploads[v].manifest);
    FingerprintIsContent(c, t.uploads[u].manifest, t.snapshots[t.captures[u].snapshot].manifest);
  }

  /** Conversely, two live captures of the same content in one session share their snapshot. */
  lemma EqualContentCoalesces(c: Setup, t: Tables, u: nat, v: nat)
    requires ProvenanceSound(c, t) && u in t.captures && v in t.captures
    requires Live(t, t.captures[u].snapshot) && Live(t, t.captures[v].snapshot)
    requires var a, b := t.uploads[u].manifest, t.uploads[v].manifest;
      a.session == b.session && a.context == b.context && SameContent(a.artifacts, b.artifacts)
    ensures t.captures[u].snapshot == t.captures[v].snapshot
  {
    assert CaptureGenuine(c, t, u) && CaptureGenuine(c, t, v);
    ContentIsOriginals(t.uploads[u].manifest.artifacts, t.uploads[v].manifest.artifacts);
    assert Fingerprint(c, t.uploads[u].manifest) == Fingerprint(c, t.uploads[v].manifest);
    var a, b := t.captures[u].snapshot, t.captures[v].snapshot;
    assert LiveMatch(t, t.snapshots[b].session, t.snapshots[b].fingerprint, a);
  }

  // A live snapshot of the manifest's session with its context and content.
  ghost predicate HasContent(t: Tables, m: Manifest, id: nat) {
    && Live(t, id) && t.snapshots[id].session == m.session
    && t.snapshots[id].manifest.context == m.context
    && SameContent(t.snapshots[id].manifest.artifacts, m.artifacts)
  }

  lemma MatchIsContent(c: Setup, t: Tables, m: Manifest, id: nat)
    requires Injective(c.fingerprint) && SnapshotsGenuine(c, t)
    ensures LiveMatch(t, m.session, Fingerprint(c, m), id) <==> HasContent(t, m, id)
  {
    if Live(t, id) { FingerprintIsContent(c, t.snapshots[id].manifest, m); }
  }
}
