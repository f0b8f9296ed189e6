/** File operations that outlive their request. Dropping a request releases its
    mutexes at once, but a link or a removal already handed to the file system
    still lands, at any later moment. */
module Detached {
  import opened Basics
  import opened Catalog
  import opened CatalogInvariants
  import opened Protocol
  import opened ProtocolSafety
  import opened ProtocolSteps
  import opened ProtocolKnowledge
  import opened Runs
  import opened ByteHistory
  import opened Scenarios
  import opened Counterexamples

  datatype Operation = Link(digest: Digest, bytes: Bytes) | Remove(digest: Digest)
  datatype World = World(s: State, detached: multiset<Operation>)
  datatype Move = Core(actor: nat, event: Event) | Detach(actor: nat) | Land(operation: Operation)

  // The file operation a process has under way where it stands.
  ghost function Underway(q: Process): Option<Operation> {
    match q
    case Promoting(job, promotions) =>
      if |promotions| < |job.order| && |job.staged| == |job.manifest.artifacts| &&
         job.order[|promotions|] in StoredDigests(job.manifest)
      then Some(Link(job.order[|promotions|], StagedFor(job, job.order[|promotions|]))) else None
    case Removing(_, promotions, k, _) => if k < |promotions| then Some(Remove(promotions[k].digest)) else None
    case Unlinking(_, blob, _) => Some(Remove(blob.digest))
    case _ => None
  }

  ghost predicate Can(c: Setup, w: World, x: Move) {
    match x
    case Core(p, e) => Protocol.Can(c, w.s, p, e)
    case Detach(p) => Protocol.Can(c, w.s, p, Cancel) && Underway(w.s.procs[p]).Some?
    case Land(operation) => operation in w.detached
  }

  ghost function Landed(files: map<Digest, Bytes>, operation: Operation): map<Digest, Bytes> {
    match operation
    case Link(d, bytes) => LinkIfAbsent(files, d, bytes)
    case Remove(d) => files - {d}
  }

  // A crash of the server ends what it had detached.
  ghost function After(c: Setup, w: World, x: Move): World {
    match x
    case Core(p, e) => World(Protocol.After(c, w.s, p, e), if e.Crash? then multiset{} else w.detached)
    case Detach(p) =>
      if p < |w.s.procs| && Underway(w.s.procs[p]).Some?
      then World(Protocol.After(c, w.s, p, Cancel), w.detached + multiset{Underway(w.s.procs[p]).value}) else w
    case Land(operation) => World(w.s.(files := Landed(w.s.files, operation)), w.detached - multiset{operation})
  }

  ghost predicate Taken(c: Setup, worlds: seq<World>, moves: seq<Move>, k: nat)
    requires k < |moves| && |worlds| == |moves| + 1
  {
    Can(c, worlds[k], moves[k]) && worlds[k + 1] == After(c, worlds[k], moves[k])
  }

  ghost predicate Path(c: Setup, worlds: seq<World>, moves: seq<Move>) {
    |worlds| == |moves| + 1 && forall k :: 0 <= k < |moves| ==> Taken(c, worlds, moves, k)
  }

  ghost predicate Run(c: Setup, worlds: seq<World>, moves: seq<Move>) {
    Path(c, worlds, moves) && Initial(worlds[0].s) && worlds[0].detached == multiset{}
  }

  // ---- what landing does ----

  ghost predicate Undeclared(t: Tables, d: Digest) {
    forall id, i :: !Declares(t, id, i, d)
  }

  // A completion counts on a file it has promoted and not yet recorded.
  ghost predicate CountsOn(q: Process, d: Digest) {
    Attempts(q) && exists i :: 0 <= i < |q.promotions| && i < |q.job.order| && q.job.order[i] == d
  }

  // Nobody needs the file of d: no live manifest declares it, no completion counts on it.
  ghost predicate Unneeded(s: State, d: Digest) {
    Undeclared(s.tables, d) && forall p :: 0 <= p < |s.procs| ==> !CountsOn(s.procs[p], d)
  }

  lemma PromotedWithout(files: map<Digest, Bytes>, job: Job, n: nat, d: Digest)
    requires Promoted(files, job, n)
    ensures Promoted(files - {d}, job, n) <==> !exists i :: 0 <= i < n && i < |job.order| && job.order[i] == d
  {
  }

  lemma LandingKeepsKnowledge(c: Setup, t: Tables, files: map<Digest, Bytes>, q: Process, d: Digest)
    requires Knows(c, t, files, q)
    ensures Knows(c, t, files - {d}, q) <==> !CountsOn(q, d)
  {
    if Attempts(q) { PromotedWithout(files, q.job, |q.promotions|, d); }
  }

  lemma LandingKeepsAllKnow(c: Setup, s: State, d: Digest)
    requires AllKnow(c, s)
    ensures AllKnow(c, s.(files := s.files - {d})) <==> forall p :: 0 <= p < |s.procs| ==> !CountsOn(s.procs[p], d)
  {
    forall p | 0 <= p < |s.procs| ensures Knows(c, s.tables, s.files - {d}, s.procs[p]) <==> !CountsOn(s.procs[p], d) {
      assert Knows(c, s.tables, s.files, s.procs[p]);
      LandingKeepsKnowledge(c, s.tables, s.files, s.procs[p], d);
    }
  }

  lemma LandingKeepsDurable(c: Setup, s: State, d: Digest)
    requires Durable(c, s)
    ensures Durable(c, s.(files := s.files - {d})) <==> (d in s.files ==> Undeclared(s.tables, d))
  {
    var s' := s.(files := s.files - {d});
    if Undeclared(s.tables, d) {
      forall id | Live(s'.tables, id) ensures AllHeld(c, s'.files, s'.tables.snapshots[id].manifest.artifacts) {
        StillHeld(c, s, id, d);
      }
    } else {
      var id, i :| Declares(s.tables, id, i, d);
      assert AllHeld(c, s.files, s.tables.snapshots[id].manifest.artifacts);
      assert Held(c, s.files, s.tables.snapshots[id].manifest.artifacts[i]);
      assert !Held(c, s'.files, s'.tables.snapshots[id].manifest.artifacts[i]);
    }
  }

  lemma StillHeld(c: Setup, s: State, id: nat, d: Digest)
    requires Durable(c, s) && Live(s.tables, id) && Undeclared(s.tables, d)
    ensures AllHeld(c, s.files - {d}, s.tables.snapshots[id].manifest.artifacts)
  {
    var artifacts := s.tables.snapshots[id].manifest.artifacts;
    assert AllHeld(c, s.files, artifacts);
    forall i | 0 <= i < |artifacts| ensures Held(c, s.files - {d}, artifacts[i]) {
      assert !Declares(s.tables, id, i, d);
      assert Held(c, s.files, artifacts[i]);
    }
  }

  /** Exactly when a removal that lands late does no harm: when the file is gone already, or nobody needs it. */
  lemma LateRemovalIsHarmlessIff(c: Setup, s: State, d: Digest)
    requires Inv(c, s)
    ensures Inv(c, s.(files := s.files - {d})) <==> (d in s.files ==> Unneeded(s, d))
  {
    if d in s.files {
      LandingKeepsDurable(c, s, d);
      LandingKeepsAllKnow(c, s, d);
      SameLocks(c, s, s.(files := s.files - {d}));
    } else {
      assert s.files - {d} == s.files;
      assert s.(files := s.files - {d}) == s;
    }
  }

  lemma SameLocks(c: Setup, s: State, s': State)
    requires s'.procs == s.procs && LocksExclude(c, s)
    ensures LocksExclude(c, s')
  {
    forall p, q, lock | 0 <= p < |s'.procs| && 0 <= q < |s'.procs| && Both(c, s'.procs[p], s'.procs[q], lock)
      ensures p == q
    {
      assert Both(c, s.procs[p], s.procs[q], lock);
    }
  }

  /** A link that lands late never does harm: its bytes were verified, and it replaces nothing. */
  lemma LateLinkIsHarmless(c: Setup, s: State, d: Digest, bytes: Bytes)
    requires Inv(c, s) && c.codec.sha256(bytes) == d
    ensures Inv(c, s.(files := LinkIfAbsent(s.files, d, bytes)))
  {
    var s' := s.(files := LinkIfAbsent(s.files, d, bytes));
    forall id | Live(s'.tables, id) ensures AllHeld(c, s'.files, s'.tables.snapshots[id].manifest.artifacts) {
      assert AllHeld(c, s.files, s.tables.snapshots[id].manifest.artifacts);
      forall i | 0 <= i < |s.tables.snapshots[id].manifest.artifacts|
        ensures Held(c, s'.files, s.tables.snapshots[id].manifest.artifacts[i])
      {
        assert Held(c, s.files, s.tables.snapshots[id].manifest.artifacts[i]);
      }
    }
    forall p | 0 <= p < |s'.procs| ensures Knows(c, s'.tables, s'.files, s'.procs[p]) {
      assert Knows(c, s.tables, s.files, s.procs[p]);
    }
    SameLocks(c, s, s');
  }

  // ---- runs in which every late removal is harmless ----

  ghost predicate Genuine(c: Setup, detached: multiset<Operation>) {
    forall d, bytes :: Link(d, bytes) in detached ==> c.codec.sha256(bytes) == d
  }

  ghost predicate Harmless(w: World, x: Move) {
    x.Land? && x.operation.Remove? && x.operation.digest in w.s.files ==> Unneeded(w.s, x.operation.digest)
  }

  lemma UnderwayGenuine(c: Setup, s: State, p: nat)
    requires AllKnow(c, s) && p < |s.procs| && Underway(s.procs[p]).Some? && Underway(s.procs[p]).value.Link?
    ensures c.codec.sha256(Underway(s.procs[p]).value.bytes) == Underway(s.procs[p]).value.digest
  {
    var q := s.procs[p];
    assert Knows(c, s.tables, s.files, q);
    var i := FirstWith(q.job.manifest.artifacts, q.job.order[|q.promotions|]);
    assert ArtifactVerified(c.codec, q.job.manifest.artifacts[i], q.job.staged[i]);
  }

  lemma DetachKeepsGenuine(c: Setup, w: World, p: nat)
    requires AllKnow(c, w.s) && Genuine(c, w.detached) && Can(c, w, Detach(p))
    ensures Genuine(c, After(c, w, Detach(p)).detached)
  {
    if Underway(w.s.procs[p]).value.Link? { UnderwayGenuine(c, w.s, p); }
  }

  lemma DetachKeepsInv(c: Setup, w: World, p: nat)
    requires CollisionFree(c) && Inv(c, w.s) && Can(c, w, Detach(p))
    ensures Inv(c, After(c, w, Detach(p)).s)
  {
    KeepsInv(c, w.s, p, Cancel);
  }

  lemma LandKeepsInv(c: Setup, w: World, operation: Operation)
    requires Inv(c, w.s) && Genuine(c, w.detached) && Can(c, w, Land(operation)) && Harmless(w, Land(operation))
    ensures Inv(c, After(c, w, Land(operation)).s) && Genuine(c, After(c, w, Land(operation)).detached)
  {
    if operation.Link? {
      LateLinkIsHarmless(c, w.s, operation.digest, operation.bytes);
    } else {
      LateRemovalIsHarmlessIff(c, w.s, operation.digest);
    }
  }

  lemma MoveKeepsInv(c: Setup, w: World, x: Move)
    requires CollisionFree(c) && Inv(c, w.s) && Genuine(c, w.detached) && Can(c, w, x) && Harmless(w, x)
    ensures Inv(c, After(c, w, x).s) && Genuine(c, After(c, w, x).detached)
  {
    match x
    case Core(p, e) => KeepsInv(c, w.s, p, e);
    case Detach(p) => DetachKeepsInv(c, w, p); DetachKeepsGenuine(c, w, p);
    case Land(operation) => LandKeepsInv(c, w, operation);
  }

  ghost predicate InvOf(c: Setup, worlds: seq<World>, m: nat) {
    m < |worlds| ==> Inv(c, worlds[m].s)
  }

  ghost predicate AllInv(c: Setup, worlds: seq<World>, k: nat) {
    forall m: nat :: m <= k ==> InvOf(c, worlds, m)
  }

  ghost predicate HarmlessUntil(worlds: seq<World>, moves: seq<Move>, k: nat)
    requires k < |worlds| == |moves| + 1
  {
    forall m :: 0 <= m < k ==> HarmlessAt(worlds, moves, m)
  }

  ghost predicate HarmlessAt(worlds: seq<World>, moves: seq<Move>, m: nat)
    requires m < |moves| && |worlds| == |moves| + 1
  {
    Harmless(worlds[m], moves[m])
  }

  lemma {:induction false} HarmlessInv(c: Setup, worlds: seq<World>, moves: seq<Move>, k: nat)
    requires CollisionFree(c) && Run(c, worlds, moves) && k < |worlds| && HarmlessUntil(worlds, moves, k)
    ensures Inv(c, worlds[k].s) && Genuine(c, worlds[k].detached)
  {
    if k == 0 {
      InitialInv(c, worlds[0].s);
    } else {
      HarmlessInv(c, worlds, moves, k - 1);
      assert Taken(c, worlds, moves, k - 1) && HarmlessAt(worlds, moves, k - 1);
      MoveKeepsInv(c, worlds[k - 1], moves[k - 1]);
    }
  }

  /** The exact condition over whole runs with detached operations: the protocol's invariant holds in every state up
      to k if and only if no removal landed on a file somebody needed. */
  lemma SafeIffHarmless(c: Setup, worlds: seq<World>, moves: seq<Move>, k: nat)
    requires CollisionFree(c) && Run(c, worlds, moves) && k < |worlds|
    ensures AllInv(c, worlds, k) <==> HarmlessUntil(worlds, moves, k)
  {
    if HarmlessUntil(worlds, moves, k) {
      forall m: nat | m <= k ensures InvOf(c, worlds, m) { HarmlessInv(c, worlds, moves, m); }
    }
    if AllInv(c, worlds, k) {
      forall m: nat | m < k ensures HarmlessAt(worlds, moves, m) { SafeStepIsHarmless(c, worlds, moves, m, k); }
    }
  }

  lemma RemovalLands(c: Setup, worlds: seq<World>, moves: seq<Move>, m: nat)
    requires Path(c, worlds, moves) && m < |moves| && moves[m].Land? && moves[m].operation.Remove?
    ensures worlds[m + 1].s == worlds[m].s.(files := worlds[m].s.files - {moves[m].operation.digest})
  {
    PathTaken(c, worlds, moves, m);
  }

  lemma LandedSafely(c: Setup, s: State, s': State, d: Digest)
    requires Inv(c, s) && Inv(c, s') && s' == s.(files := s.files - {d})
    ensures d in s.files ==> Unneeded(s, d)
  {
    LateRemovalIsHarmlessIff(c, s, d);
  }

  lemma SafeStepIsHarmless(c: Setup, worlds: seq<World>, moves: seq<Move>, m: nat, k: nat)
    requires Path(c, worlds, moves) && m < k < |worlds| && AllInv(c, worlds, k)
    ensures HarmlessAt(worlds, moves, m)
  {
    if moves[m].Land? && moves[m].operation.Remove? {
      InvAt(c, worlds, m, k);
      InvAt(c, worlds, m + 1, k);
      RemovalLands(c, worlds, moves, m);
      LandedSafely(c, worlds[m].s, worlds[m + 1].s, moves[m].operation.digest);
    }
  }

  /** Live artifacts stay durable in every such run. */
  lemma DurableWhileHarmless(c: Setup, worlds: seq<World>, moves: seq<Move>, k: nat, id: nat, i: nat)
    requires CollisionFree(c) && Run(c, worlds, moves) && k < |worlds| && HarmlessUntil(worlds, moves, k)
    requires Live(worlds[k].s.tables, id) && i < |worlds[k].s.tables.snapshots[id].manifest.artifacts|
    ensures Held(c, worlds[k].s.files, worlds[k].s.tables.snapshots[id].manifest.artifacts[i])
  {
    HarmlessInv(c, worlds, moves, k);
    assert AllHeld(c, worlds[k].s.files, worlds[k].s.tables.snapshots[id].manifest.artifacts);
  }

  // ---- removals that land before the digest's mutex is taken again ----

  // The removal that lands in move k was detached in move j, and nobody has held the digest's mutex since.
  ghost predicate BeforeNextHolder(c: Setup, worlds: seq<World>, moves: seq<Move>, j: nat, k: nat, d: Digest)
    requires |worlds| == |moves| + 1
  {
    && j < k < |moves| && moves[j].Detach? && moves[j].actor < |worlds[j].s.procs|
    && Underway(worlds[j].s.procs[moves[j].actor]) == Some(Remove(d))
    && forall m :: j < m <= k ==> FreeAt(c, worlds, m, d)
  }

  ghost predicate FreeAt(c: Setup, worlds: seq<World>, m: nat, d: Digest)
    requires m < |worlds|
  {
    Free(c, worlds[m].s, BlobOf(c, d))
  }

  ghost predicate Timely(c: Setup, worlds: seq<World>, moves: seq<Move>, k: nat)
    requires k < |moves| && |worlds| == |moves| + 1
  {
    moves[k].Land? && moves[k].operation.Remove? ==>
      exists j: nat :: BeforeNextHolder(c, worlds, moves, j, k, moves[k].operation.digest)
  }

  // What is about to be removed is declared by nobody.
  lemma VictimUndeclared(c: Setup, s: State, p: nat, d: Digest)
    requires Inv(c, s) && p < |s.procs| && Underway(s.procs[p]) == Some(Remove(d))
    ensures Undeclared(s.tables, d)
  {
    assert Knows(c, s.tables, s.files, s.procs[p]);
    if d in s.tables.blobs {
      ReferencedMeansDeclared(s.tables, d);
    } else {
      forall id, i | Declares(s.tables, id, i, d) ensures false { SnapshotDeclares(s.tables, id, i); }
    }
  }

  // A new live declaration of d comes from a transaction that touches its row.
  lemma NewDeclaration(c: Setup, t: Tables, x: Transaction, d: Digest, id: nat, i: int)
    requires Allowed(c, t, x) && Declares(Apply(c, t, x), id, i, d)
    ensures Declares(t, id, i, d) || ChangesRow(t, x, d)
  {
    if x.Win? && id == x.snapshot {
      assert t.uploads[x.upload].manifest.artifacts[i].stored == d;
    }
  }

  lemma StaysUndeclared(c: Setup, t: Tables, x: Transaction, d: Digest)
    requires Allowed(c, t, x) && Undeclared(t, d) && !ChangesRow(t, x, d)
    ensures Undeclared(Apply(c, t, x), d)
  {
    forall id, i ensures !Declares(Apply(c, t, x), id, i, d) {
      if Declares(Apply(c, t, x), id, i, d) { NewDeclaration(c, t, x, d, id, i); }
    }
  }

  lemma FreeMeansUntouched(c: Setup, s: State, p: nat, e: Event, d: Digest)
    requires Inv(c, s) && Protocol.Can(c, s, p, e) && Free(c, s, BlobOf(c, d))
    ensures !ChangesRow(s.tables, Commits(c, s, p, e), d)
  {
    if !External(e) && ChangesRow(s.tables, Commits(c, s, p, e), d) { RowsUnderLock(c, s, p, e, d); }
  }

  lemma StepStaysUndeclared(c: Setup, s: State, p: nat, e: Event, d: Digest)
    requires Inv(c, s) && Protocol.Can(c, s, p, e) && Free(c, s, BlobOf(c, d)) && Undeclared(s.tables, d)
    ensures Undeclared(Apply(c, s.tables, Commits(c, s, p, e)), d)
  {
    FreeMeansUntouched(c, s, p, e, d);
    CommitsAllowed(c, s, p, e);
    StaysUndeclared(c, s.tables, Commits(c, s, p, e), d);
  }

  lemma MoveStaysUndeclared(c: Setup, w: World, x: Move, d: Digest)
    requires Inv(c, w.s) && Can(c, w, x) && Undeclared(w.s.tables, d) && (x.Core? ==> Free(c, w.s, BlobOf(c, d)))
    ensures Undeclared(After(c, w, x).s.tables, d)
  {
    if x.Core? { StepStaysUndeclared(c, w.s, x.actor, x.event, d); }
  }

  lemma UndeclaredAtDetach(c: Setup, w: World, p: nat, d: Digest)
    requires Inv(c, w.s) && p < |w.s.procs| && Underway(w.s.procs[p]) == Some(Remove(d))
    ensures Undeclared(After(c, w, Detach(p)).s.tables, d)
  {
    VictimUndeclared(c, w.s, p, d);
  }

  lemma UndeclaredNext(c: Setup, worlds: seq<World>, moves: seq<Move>, m: nat, d: Digest)
    requires m < |moves| && |worlds| == |moves| + 1 && Taken(c, worlds, moves, m) && Inv(c, worlds[m].s)
    requires Free(c, worlds[m].s, BlobOf(c, d)) && Undeclared(worlds[m].s.tables, d)
    ensures Undeclared(worlds[m + 1].s.tables, d)
  {
    MoveStaysUndeclared(c, worlds[m], moves[m], d);
  }

  lemma UndeclaredFirst(c: Setup, worlds: seq<World>, moves: seq<Move>, j: nat, k: nat, d: Digest)
    requires k < |moves| && |worlds| == |moves| + 1 && BeforeNextHolder(c, worlds, moves, j, k, d)
    requires Taken(c, worlds, moves, j) && Inv(c, worlds[j].s)
    ensures Undeclared(worlds[j + 1].s.tables, d)
  {
    UndeclaredAtDetach(c, worlds[j], moves[j].actor, d);
  }

  lemma FreeSince(c: Setup, worlds: seq<World>, moves: seq<Move>, j: nat, m: nat, k: nat, d: Digest)
    requires |worlds| == |moves| + 1 && BeforeNextHolder(c, worlds, moves, j, k, d) && j < m <= k
    ensures Free(c, worlds[m].s, BlobOf(c, d))
  {
    assert FreeAt(c, worlds, m, d);
  }

  ghost predicate UndeclaredAt(worlds: seq<World>, m: nat, d: Digest) {
    m < |worlds| && Undeclared(worlds[m].s.tables, d)
  }

  lemma UndeclaredStart(c: Setup, worlds: seq<World>, moves: seq<Move>, j: nat, k: nat, d: Digest)
    requires Path(c, worlds, moves) && k < |moves| && BeforeNextHolder(c, worlds, moves, j, k, d) &&
      AllInv(c, worlds, k)
    ensures UndeclaredAt(worlds, j + 1, d)
  {
    PathTaken(c, worlds, moves, j);
    InvAt(c, worlds, j, k);
    UndeclaredFirst(c, worlds, moves, j, k, d);
  }

  lemma UndeclaredStep(c: Setup, worlds: seq<World>, moves: seq<Move>, j: nat, m: nat, k: nat, d: Digest)
    requires Path(c, worlds, moves) && k < |moves| && BeforeNextHolder(c, worlds, moves, j, k, d) &&
      AllInv(c, worlds, k)
    requires j < m < k && UndeclaredAt(worlds, m, d)
    ensures UndeclaredAt(worlds, m + 1, d)
  {
    PathTaken(c, worlds, moves, m);
    InvAt(c, worlds, m, k);
    FreeSince(c, worlds, moves, j, m, k, d);
    UndeclaredNext(c, worlds, moves, m, d);
  }

  ghost predicate StaysAt(worlds: seq<World>, m: nat, d: Digest) {
    UndeclaredAt(worlds, m, d) ==> UndeclaredAt(worlds, m + 1, d)
  }

  lemma {:induction false} StaysThroughout(worlds: seq<World>, j: nat, k: nat, d: Digest)
    requires j <= k && UndeclaredAt(worlds, j, d) && forall m: nat :: j <= m < k ==> StaysAt(worlds, m, d)
    ensures UndeclaredAt(worlds, k, d)
  {
    if j < k {
      StaysThroughout(worlds, j, k - 1, d);
      assert StaysAt(worlds, k - 1, d);
    }
  }

  lemma UndeclaredSince(c: Setup, worlds: seq<World>, moves: seq<Move>, j: nat, k: nat, d: Digest)
    requires Path(c, worlds, moves) && k < |moves| && BeforeNextHolder(c, worlds, moves, j, k, d) &&
      AllInv(c, worlds, k)
    ensures UndeclaredAt(worlds, k, d)
  {
    UndeclaredStart(c, worlds, moves, j, k, d);
    forall m: nat | j + 1 <= m < k ensures StaysAt(worlds, m, d) {
      if UndeclaredAt(worlds, m, d) { UndeclaredStep(c, worlds, moves, j, m, k, d); }
    }
    StaysThroughout(worlds, j + 1, k, d);
  }

  lemma PathTaken(c: Setup, worlds: seq<World>, moves: seq<Move>, m: nat)
    requires Path(c, worlds, moves) && m < |moves|
    ensures Taken(c, worlds, moves, m)
  {
  }

  lemma InvAt(c: Setup, worlds: seq<World>, m: nat, k: nat)
    requires AllInv(c, worlds, k) && m <= k < |worlds|
    ensures Inv(c, worlds[m].s)
  {
    assert InvOf(c, worlds, m);
  }

  lemma CountsOnHolds(c: Setup, t: Tables, files: map<Digest, Bytes>, q: Process, d: Digest)
    requires Knows(c, t, files, q) && CountsOn(q, d)
    ensures Holds(c, q, BlobOf(c, d))
  {
    var i :| 0 <= i < |q.promotions| && i < |q.job.order| && q.job.order[i] == d;
    OrderedDigest(c, q.job, i);
    JobBlobLock(c, q, d);
  }

  // With its mutex free, no completion counts on a file.
  lemma FreeMeansNobodyCounts(c: Setup, s: State, d: Digest)
    requires AllKnow(c, s) && Free(c, s, BlobOf(c, d))
    ensures forall p :: 0 <= p < |s.procs| ==> !CountsOn(s.procs[p], d)
  {
    forall p | 0 <= p < |s.procs| ensures !CountsOn(s.procs[p], d) {
      assert Knows(c, s.tables, s.files, s.procs[p]);
      if CountsOn(s.procs[p], d) { CountsOnHolds(c, s.tables, s.files, s.procs[p], d); }
    }
  }

  lemma TimelyIsHarmless(c: Setup, worlds: seq<World>, moves: seq<Move>, k: nat)
    requires Path(c, worlds, moves) && k < |moves| && Timely(c, worlds, moves, k) && AllInv(c, worlds, k)
    ensures HarmlessAt(worlds, moves, k)
  {
    if moves[k].Land? && moves[k].operation.Remove? {
      var d := moves[k].operation.digest;
      var j: nat :| BeforeNextHolder(c, worlds, moves, j, k, d);
      UndeclaredSince(c, worlds, moves, j, k, d);
      FreeSince(c, worlds, moves, j, k, k, d);
      InvAt(c, worlds, k, k);
      FreeMeansNobodyCounts(c, worlds[k].s, d);
    }
  }

  /** A rule under which detached operations are safe: if every detached removal lands before the mutex of its
      digest is next taken, as it would if the removal itself kept the mutex, the invariant holds in every state. */
  lemma {:induction false} SafeWhenTimely(c: Setup, worlds: seq<World>, moves: seq<Move>, k: nat)
    requires CollisionFree(c) && Run(c, worlds, moves) && k < |worlds|
    requires forall m :: 0 <= m < k ==> Timely(c, worlds, moves, m)
    ensures HarmlessUntil(worlds, moves, k) && AllInv(c, worlds, k)
  {
    if k > 0 {
      SafeWhenTimely(c, worlds, moves, k - 1);
      TimelyIsHarmless(c, worlds, moves, k - 1);
    }
    SafeIffHarmless(c, worlds, moves, k);
  }

  /** Taking the mutex and repeating the reference check before removing would do as well: in any state of the
      invariant, with the mutex free and the digest undeclared, a removal is harmless. */
  lemma RecheckedIsHarmless(c: Setup, s: State, d: Digest)
    requires Inv(c, s) && Free(c, s, BlobOf(c, d)) && Undeclared(s.tables, d)
    ensures Inv(c, s.(files := s.files - {d}))
  {
    FreeMeansNobodyCounts(c, s, d);
    LateRemovalIsHarmlessIff(c, s, d);
  }

  // ---- a run in which durability fails ----

  // A run without a crash and without a plain drop of a request.
  ghost predicate Calm(c: Setup, worlds: seq<World>, moves: seq<Move>) {
    Run(c, worlds, moves) && forall k :: 0 <= k < |moves| && moves[k].Core? ==>
      !moves[k].event.Crash? && !moves[k].event.Cancel?
  }

  ghost predicate Reaches(c: Setup, w: World) {
    exists worlds, moves :: Calm(c, worlds, moves) && worlds[|moves|] == w
  }

  lemma CalmAppends(c: Setup, worlds: seq<World>, moves: seq<Move>, x: Move)
    requires Calm(c, worlds, moves) && Can(c, worlds[|moves|], x) && (x.Core? ==> !x.event.Crash? && !x.event.Cancel?)
    ensures Calm(c, worlds + [After(c, worlds[|moves|], x)], moves + [x])
  {
    var worlds', moves' := worlds + [After(c, worlds[|moves|], x)], moves + [x];
    forall k | 0 <= k < |moves'| ensures Taken(c, worlds', moves', k) {
      if k < |moves| {
        assert Taken(c, worlds, moves, k);
        assert worlds'[k] == worlds[k] && worlds'[k + 1] == worlds[k + 1] && moves'[k] == moves[k];
      }
    }
  }

  lemma ReachesNext(c: Setup, w: World, x: Move)
    requires Reaches(c, w) && Can(c, w, x) && (x.Core? ==> !x.event.Crash? && !x.event.Cancel?)
    ensures Reaches(c, After(c, w, x))
  {
    var worlds, moves :| Calm(c, worlds, moves) && worlds[|moves|] == w;
    CalmAppends(c, worlds, moves, x);
    assert (worlds + [After(c, w, x)])[|moves + [x]|] == After(c, w, x);
  }

  // An undisturbed path of the protocol, while detached operations wait.
  lemma {:induction false} ReachesAlong(c: Setup, states: seq<State>, steps: seq<Step>, k: nat,
                                        detached: multiset<Operation>)
    requires Undisturbed(c, states, steps) && k <= |steps| && Reaches(c, World(states[0], detached))
    ensures Reaches(c, World(states[k], detached))
  {
    if k > 0 {
      ReachesAlong(c, states, steps, k - 1, detached);
      assert Runs.Taken(c, states, steps, k - 1);
      ReachesNext(c, World(states[k - 1], detached), Core(steps[k - 1].actor, steps[k - 1].event));
    }
  }

  lemma ReachesLed(c: Setup, s: State, s': State, detached: multiset<Operation>)
    requires Reaches(c, World(s, detached)) && Leads(c, s, s')
    ensures Reaches(c, World(s', detached))
  {
    var states, steps :| Undisturbed(c, states, steps) && states[0] == s && states[|steps|] == s';
    ReachesAlong(c, states, steps, |steps|, detached);
  }

  lemma ReachesStart(c: Setup)
    ensures Reaches(c, World(Start(), multiset{}))
  {
    var worlds, moves: seq<Move> := [World(Start(), multiset{})], [];
    assert Initial(Start());
    assert Calm(c, worlds, moves) && worlds[|moves|] == World(Start(), multiset{});
  }

  lemma ReachesUnlinking(c: Setup)
    ensures Reaches(c, World(At(Deleted(c), ContentFile(c), Unlinking(10 + c.grace, ContentRow(c, Deleted(c)), [])),
                             multiset{}))
  {
    ReachesStart(c);
    DeleteOnce(c);
    Picks(c, Start(), Deleted(c), ContentFile(c), 10 + c.grace);
    Authorises(c, Start(), Deleted(c), ContentFile(c), 10 + c.grace);
    ReachesLed(c, Start(), At(Deleted(c), ContentFile(c), Unlinking(10 + c.grace, ContentRow(c, Deleted(c)), [])),
               multiset{});
  }

  lemma DetachesRemoval(c: Setup, t: Tables, files: map<Digest, Bytes>, now: int, blob: BlobId)
    ensures var w := World(At(t, files, Unlinking(now, blob, [])), multiset{});
      && Can(c, w, Detach(0)) && After(c, w, Detach(0)) == World(At(t, files, Idle), multiset{Remove(blob.digest)})
  {
    var q := Unlinking(now, blob, []);
    assert [q][0 := Idle] == [Idle];
  }

  lemma ReachesDetached(c: Setup)
    ensures Reaches(c, World(At(Deleted(c), ContentFile(c), Idle), multiset{Remove(ContentDigest(c))}))
  {
    var blob := ContentRow(c, Deleted(c));
    ReachesUnlinking(c);
    DetachesRemoval(c, Deleted(c), ContentFile(c), 10 + c.grace, blob);
    ReachesNext(c, World(At(Deleted(c), ContentFile(c), Unlinking(10 + c.grace, blob, [])), multiset{}), Detach(0));
  }

  // The content comes back while the removal waits: its file verifies, and a new snapshot is recorded on it.
  lemma ReachesReturned(c: Setup)
    ensures Reaches(c, World(At(Twice(c), ContentFile(c), Idle), multiset{Remove(ContentDigest(c))}))
    ensures Holding(c, Twice(c), 2)
  {
    var s := At(Deleted(c), ContentFile(c), Idle);
    ReachesDetached(c);
    DeleteOnce(c);
    DeletedKeys(c);
    StaysPut(c, s);
    Archives(c, s, Deleted(c), ContentFile(c), 2, 2, 11);
    assert ContentFile(c)[ContentDigest(c) := CONTENT] == ContentFile(c);
    ReachesLed(c, s, At(Twice(c), ContentFile(c), Idle), multiset{Remove(ContentDigest(c))});
  }

  lemma TwiceDeclares(c: Setup)
    ensures Live(Twice(c), 2) && |Twice(c).snapshots[2].manifest.artifacts| == 1
    ensures Twice(c).snapshots[2].manifest.artifacts[0].stored == ContentDigest(c)
  {
  }

  /** Without any such rule durability fails, in every deployment: a collection is dropped while its removal is
      under way, the same content is archived again on the file still in place, and the removal then lands. A live
      snapshot is left without its bytes. */
  lemma LateRemovalLosesBytes(c: Setup) returns (worlds: seq<World>, moves: seq<Move>)
    ensures Calm(c, worlds, moves) && worlds[|moves|].detached == multiset{}
    ensures Live(worlds[|moves|].s.tables, 2) && |worlds[|moves|].s.tables.snapshots[2].manifest.artifacts| == 1
    ensures worlds[|moves|].s.tables.snapshots[2].manifest.artifacts[0].stored !in worlds[|moves|].s.files
    ensures !Durable(c, worlds[|moves|].s)
  {
    var w := World(At(Twice(c), ContentFile(c), Idle), multiset{Remove(ContentDigest(c))});
    ReachesReturned(c);
    ReachesNext(c, w, Land(Remove(ContentDigest(c))));
    TwiceDeclares(c);
    var w' := After(c, w, Land(Remove(ContentDigest(c))));
    assert w'.s.tables == Twice(c) && ContentDigest(c) !in w'.s.files && w'.detached == multiset{};
    worlds, moves :| Calm(c, worlds, moves) && worlds[|moves|] == w';
    assert !Held(c, w'.s.files, Twice(c).snapshots[2].manifest.artifacts[0]);
  }
}
