/** Completion, deletion, garbage collection and recovery as a transition
    system. A process takes one step at a time: one query, one transaction, one
    lock acquisition or one file operation. Any step may fail, a process may be
    dropped between any two of its steps, and the server may crash at any time.

    A mutex is free when no process stands at a point where it holds it; dropping
    a process or crashing the server releases its mutexes and rolls its open
    transaction back. */
module Protocol {
  import opened Basics
  import opened Catalog

  datatype Lock = UploadLock(stripe: nat) | SnapshotLock(stripe: nat) | BlobLock(stripe: nat)

  // An upload being completed: the verified bytes assembled for each artifact, its unique stored
  // digests in promotion order, and the blob-lock stripes they need in acquisition order.
  datatype Job = Job(upload: nat, manifest: Manifest, staged: seq<Bytes>, order: seq<Digest>, stripes: seq<nat>)
  datatype Promotion = Promotion(digest: Digest, created: bool)

  datatype Process =
    | Idle
    // completion
    | AwaitUpload(upload: nat)
    | Opened(upload: nat)
    | Checking(job: Job)
    | Seeking(job: Job)
    | AwaitSnapshot(job: Job)
    | Rechecking(job: Job)
    | AttachingFast(job: Job, id: nat)
    | AwaitBlobs(job: Job, n: nat)
    | CheckingAgain(job: Job)
    | SeekingAgain(job: Job)
    | AttachingSlow(job: Job, id: nat)
    | Promoting(job: Job, promotions: seq<Promotion>)
    | Recording(job: Job, promotions: seq<Promotion>)
    | Lost(job: Job, promotions: seq<Promotion>)
    | Cleaning(job: Job, promotions: seq<Promotion>, k: nat, winner: Option<nat>)
    | Removing(job: Job, promotions: seq<Promotion>, k: nat, winner: Option<nat>)
    | AttachingWinner(job: Job, promotions: seq<Promotion>, id: nat)
    // deletion of one snapshot
    | AwaitDeletion(id: nat, session: nat, fingerprint: Digest)
    | Deleting(id: nat, session: nat, fingerprint: Digest)
    | AwaitDeletionBlobs(id: nat, session: nat, fingerprint: Digest, stripes: seq<nat>, n: nat)
    | Burying(id: nat, session: nat, fingerprint: Digest, stripes: seq<nat>)
    // one garbage-collection pass
    | Picking(now: int, queue: seq<BlobId>)
    | Authorising(now: int, blob: BlobId, queue: seq<BlobId>)
    | Unlinking(now: int, blob: BlobId, queue: seq<BlobId>)
    | Dropping(now: int, blob: BlobId, queue: seq<BlobId>)
    // chunk writes, expiry, status reads and integrity scans: one lock at a time
    | AwaitOne(lock: Lock)
    | HoldingOne(lock: Lock)

  datatype Mode = Serving | Rebuilding | Scheduling | Sweeping(known: set<Digest>)

  datatype State = State(tables: Tables, files: map<Digest, Bytes>, procs: seq<Process>, mode: Mode)

  datatype Event =
    | Go(now: int, id: nat)           // the step succeeds; clock reading and fresh identifier if it needs them
    | Staged(staged: seq<Bytes>)      // the chunks were assembled and verified
    | Fail                            // the step reports an error
    | FailLinked                      // the blob was linked but not made durable
    | Cancel                          // the process is dropped
    | Expire(upload: nat)
    | StartComplete(upload: nat)
    | StartDelete(snapshot: nat)
    | StartCollect(now: int, queue: seq<BlobId>)
    | StartOne(lock: Lock)
    // not steps of a process
    | Submit(upload: nat, manifest: Manifest)
    | Crash
    | Recover(now: int)
    | Sweep(digest: Digest)

  predicate External(e: Event) {
    e.Submit? || e.Crash? || e.Recover? || e.Sweep?
  }

  // ---- locks ----

  ghost function UploadOf(c: Setup, u: nat): Lock { UploadLock(c.uploadStripe(u)) }

  ghost function SnapshotOf(c: Setup, session: nat, fingerprint: Digest): Lock {
    SnapshotLock(c.snapshotStripe(session, fingerprint))
  }

  ghost function BlobOf(c: Setup, d: Digest): Lock { BlobLock(c.blobStripe(d)) }

  // Each stripe a digest set needs, once, in ascending order.
  ghost function BlobStripes(c: Setup, digests: set<Digest>): seq<nat> {
    Ascending(set d | d in digests :: c.blobStripe(d))
  }

  ghost function MakeJob(c: Setup, u: nat, m: Manifest, staged: seq<Bytes>): Job {
    Job(u, m, staged, Ascending(StoredDigests(m)), BlobStripes(c, StoredDigests(m)))
  }

  ghost function JobFingerprint(c: Setup, job: Job): Digest { Fingerprint(c, job.manifest) }

  ghost function SnapshotOfJob(c: Setup, job: Job): Lock {
    SnapshotOf(c, job.manifest.session, JobFingerprint(c, job))
  }

  // Of an ordered stripe vector, the first n locks.
  predicate AmongFirst(stripes: seq<nat>, n: nat, lock: Lock) {
    lock.BlobLock? && exists i :: 0 <= i < n && i < |stripes| && stripes[i] == lock.stripe
  }

  // Points at which a completion holds the blob locks of all its digests.
  predicate HasBlobLocks(q: Process) {
    q.CheckingAgain? || q.SeekingAgain? || q.AttachingSlow? || q.Promoting? || q.Recording? || q.Lost? ||
    q.Cleaning? || q.Removing? || q.AttachingWinner?
  }

  predicate HasJob(q: Process) {
    HasBlobLocks(q) || q.Checking? || q.Seeking? || q.AwaitSnapshot? || q.Rechecking? || q.AttachingFast? ||
    q.AwaitBlobs?
  }

  ghost predicate HoldsUpload(c: Setup, q: Process, lock: Lock) {
    (q.Opened? && lock == UploadOf(c, q.upload)) || (HasJob(q) && lock == UploadOf(c, q.job.upload)) ||
    q == HoldingOne(lock)
  }

  ghost predicate HoldsSnapshot(c: Setup, q: Process, lock: Lock) {
    ((q.Rechecking? || q.AttachingFast?) && lock == SnapshotOfJob(c, q.job)) ||
    ((q.Deleting? || q.AwaitDeletionBlobs? || q.Burying?) && lock == SnapshotOf(c, q.session, q.fingerprint)) ||
    q == HoldingOne(lock)
  }

  ghost predicate HoldsBlob(c: Setup, q: Process, lock: Lock) {
    || (q.AwaitBlobs? && AmongFirst(q.job.stripes, q.n, lock))
    || (HasBlobLocks(q) && AmongFirst(q.job.stripes, |q.job.stripes|, lock))
    || (q.AwaitDeletionBlobs? && AmongFirst(q.stripes, q.n, lock))
    || (q.Burying? && AmongFirst(q.stripes, |q.stripes|, lock))
    || ((q.Authorising? || q.Unlinking? || q.Dropping?) && lock == BlobOf(c, q.blob.digest))
    || q == HoldingOne(lock)
  }

  ghost predicate Holds(c: Setup, q: Process, lock: Lock) {
    match lock
    case UploadLock(_) => HoldsUpload(c, q, lock)
    case SnapshotLock(_) => HoldsSnapshot(c, q, lock)
    case BlobLock(_) => HoldsBlob(c, q, lock)
  }

  // The mutex a process waits for, if it stands at a lock acquisition.
  ghost function Wants(c: Setup, q: Process): Option<Lock> {
    match q
    case AwaitUpload(u) => Some(UploadOf(c, u))
    case AwaitSnapshot(job) => Some(SnapshotOfJob(c, job))
    case AwaitBlobs(job, n) => if n < |job.stripes| then Some(BlobLock(job.stripes[n])) else None
    case AwaitDeletion(_, session, fingerprint) => Some(SnapshotOf(c, session, fingerprint))
    case AwaitDeletionBlobs(_, _, _, stripes, n) => if n < |stripes| then Some(BlobLock(stripes[n])) else None
    case Picking(_, queue) => if queue == [] then None else Some(BlobOf(c, queue[0].digest))
    case AwaitOne(lock) => Some(lock)
    case _ => None
  }

  ghost predicate Free(c: Setup, s: State, lock: Lock) {
    forall q :: 0 <= q < |s.procs| ==> !Holds(c, s.procs[q], lock)
  }

  ghost predicate Unblocked(c: Setup, s: State, q: Process) {
    Wants(c, q).Some? ==> Free(c, s, Wants(c, q).value)
  }

  // ---- what a completion has verified ----

  // Stored size and digest, and the original size and digest after decoding.
  ghost predicate ArtifactVerified(codec: Codec, a: Artifact, stored: Bytes) {
    && |stored| == a.storedSize && codec.sha256(stored) == a.stored
    && var original := Decode(codec, a.compression, stored);
    && original.Some? && |original.value| == a.originalSize && codec.sha256(original.value) == a.original
  }

  ghost predicate Verified(c: Setup, job: Job) {
    |job.staged| == |job.manifest.artifacts| &&
    forall i :: 0 <= i < |job.staged| ==> ArtifactVerified(c.codec, job.manifest.artifacts[i], job.staged[i])
  }

  ghost predicate UploadActive(t: Tables, job: Job) {
    job.upload in t.uploads && t.uploads[job.upload] == Active(job.manifest)
  }

  // The bytes promoted for a digest: those assembled for the first artifact that declares it.
  ghost function StagedFor(job: Job, d: Digest): Bytes
    requires |job.staged| == |job.manifest.artifacts| && d in StoredDigests(job.manifest)
  {
    job.staged[FirstWith(job.manifest.artifacts, d)]
  }

  ghost function LinkIfAbsent(files: map<Digest, Bytes>, d: Digest, bytes: Bytes): map<Digest, Bytes> {
    if d in files then files else files[d := bytes]
  }

  ghost predicate ExistingFileVerifies(c: Setup, files: map<Digest, Bytes>, job: Job, d: Digest)
    requires d in files
  {
    |files[d]| == DeclaredSize(job.manifest, d) && c.codec.sha256(files[d]) == d
  }

  ghost function CreatedBy(promotions: seq<Promotion>): set<Digest> {
    set i | 0 <= i < |promotions| && promotions[i].created :: promotions[i].digest
  }

  ghost function LiveSnapshot(t: Tables, session: nat, fingerprint: Digest): (r: Option<nat>)
    ensures r.Some? ==> LiveMatch(t, session, fingerprint, r.value)
    ensures r.None? ==> forall id :: !LiveMatch(t, session, fingerprint, id)
  {
    if id :| LiveMatch(t, session, fingerprint, id) then Some(id) else None
  }

  ghost function LiveFor(c: Setup, t: Tables, job: Job): Option<nat> {
    LiveSnapshot(t, job.manifest.session, JobFingerprint(c, job))
  }

  ghost predicate CanAttach(t: Tables, job: Job, id: nat) {
    Live(t, id) && UploadActive(t, job)
  }

  // ---- steps ----

  // Which events a process can take where it stands.
  ghost predicate Can(c: Setup, s: State, p: nat, e: Event) {
    match e
    case Submit(u, m) => s.mode.Serving? && u !in s.tables.uploads && Consistent(m)
    case Crash => true
    case Recover(_) => s.mode.Rebuilding? || s.mode.Scheduling? || (s.mode.Sweeping? && s.files.Keys <= s.mode.known)
    case Sweep(d) => s.mode.Sweeping? && d in s.files && d !in s.mode.known
    case _ => s.mode.Serving? && p < |s.procs| && Takes(c, s, s.procs[p], e)
  }

  ghost predicate Takes(c: Setup, s: State, q: Process, e: Event) {
    match e
    case Go(now, id) =>
      && Unblocked(c, s, q)
      && (match q
          case Idle => false
          case Opened(u) => !(u in s.tables.uploads && s.tables.uploads[u].Active?)
          case Recording(_, _) => id !in s.tables.snapshots
          case Burying(_, _, _, _) => id !in s.tables.tombstones
          case _ => true)
    case Staged(staged) =>
      && q.Opened? && q.upload in s.tables.uploads && s.tables.uploads[q.upload].Active?
      && Verified(c, MakeJob(c, q.upload, s.tables.uploads[q.upload].manifest, staged))
    case Fail => !q.Idle? && Wants(c, q).None?
    case FailLinked => q.Promoting? && |q.promotions| < |q.job.order|
    case Cancel => !q.Idle?
    case Expire(u) =>
      && u in s.tables.uploads && s.tables.uploads[u].Active?
      && (q == Opened(u) || q == HoldingOne(UploadOf(c, u)))
    case StartComplete(_) => q.Idle?
    case StartDelete(id) => q.Idle? && Live(s.tables, id)
    case StartCollect(now, queue) =>
      q.Idle? && forall i :: 0 <= i < |queue| ==> Collectable(s.tables, queue[i], now)
    case StartOne(_) => q.Idle?
    case _ => false
  }

  // The transaction a step commits.
  ghost function Commits(c: Setup, s: State, p: nat, e: Event): Transaction {
    match e
    case Submit(u, m) => Create(u, m)
    case Recover(now) =>
      if s.mode.Rebuilding? then Rebuild else if s.mode.Scheduling? then Schedule(now) else Nothing
    case Expire(u) => Terminate(u)
    case Go(now, id) => if p < |s.procs| then CommitsOnGo(c, s.tables, s.procs[p], now, id) else Nothing
    case _ => Nothing
  }

  ghost function CommitsOnGo(c: Setup, t: Tables, q: Process, now: int, id: nat): Transaction {
    match q
    case AttachingFast(job, w) => if CanAttach(t, job, w) then Attach(job.upload, w) else Nothing
    case AttachingSlow(job, w) => if CanAttach(t, job, w) then Attach(job.upload, w) else Nothing
    case AttachingWinner(job, _, w) => if CanAttach(t, job, w) then Attach(job.upload, w) else Nothing
    case Recording(job, promotions) =>
      if Compatible(t, job.manifest) && UploadActive(t, job) && LiveFor(c, t, job).None?
      then Win(job.upload, id, now, CreatedBy(promotions)) else Nothing
    case Burying(snapshot, _, _, _) => if Live(t, snapshot) then Delete(snapshot, id, now) else Nothing
    case Authorising(clock, blob, _) =>
      if Collectable(t, blob, clock) && Referenced(t, blob) then Unschedule(blob.digest) else Nothing
    case Dropping(clock, blob, _) => Collect(blob, clock)
    case _ => Nothing
  }

  // Canonical blob files after a step. Removing an absent file succeeds.
  ghost function FilesAfter(c: Setup, s: State, p: nat, e: Event): map<Digest, Bytes> {
    match e
    case Sweep(d) => s.files - {d}
    case Go(_, _) =>
      if p >= |s.procs| then s.files else
      (match s.procs[p]
       case Promoting(job, promotions) =>
         if |promotions| < |job.order| then Linked(s.files, job, |promotions|) else s.files
       case Removing(job, promotions, k, _) => if k < |promotions| then s.files - {promotions[k].digest} else s.files
       case Unlinking(_, blob, _) => s.files - {blob.digest}
       case _ => s.files)
    case FailLinked =>
      if p < |s.procs| && s.procs[p].Promoting? && |s.procs[p].promotions| < |s.procs[p].job.order|
      then Linked(s.files, s.procs[p].job, |s.procs[p].promotions|) else s.files
    case _ => s.files
  }

  ghost function Linked(files: map<Digest, Bytes>, job: Job, n: nat): map<Digest, Bytes>
    requires n < |job.order|
  {
    var d := job.order[n];
    if |job.staged| == |job.manifest.artifacts| &&
    d in StoredDigests(job.manifest) then LinkIfAbsent(files, d, StagedFor(job, d)) else files
  }

  // An error on the way: cleanup that was serving a lost race starts over with no winner to attach to.
  ghost function AfterCleanupError(job: Job, promotions: seq<Promotion>, winner: Option<nat>): Process {
    if winner.Some? then Cleaning(job, promotions, 0, None) else Idle
  }

  ghost function AfterFail(c: Setup, s: State, q: Process): Process {
    match q
    case Promoting(job, promotions) =>
      // The failed promotion may have linked its file, so cleanup considers it too.
      if |promotions| < |job.order|
      then Cleaning(job, promotions + [Promotion(job.order[|promotions|], true)], 0, None)
      else Cleaning(job, promotions, 0, None)
    case Recording(job, promotions) => Cleaning(job, promotions, 0, None)
    case Lost(job, promotions) => Cleaning(job, promotions, 0, None)
    case Cleaning(job, promotions, _, winner) => AfterCleanupError(job, promotions, winner)
    case Removing(job, promotions, _, winner) => AfterCleanupError(job, promotions, winner)
    case AttachingWinner(job, promotions, _) => Cleaning(job, promotions, 0, None)
    case _ => Idle
  }

  ghost function AfterGo(c: Setup, s: State, q: Process): Process {
    match q
    case Idle => Idle
    case AwaitUpload(u) => Opened(u)
    case Opened(_) => Idle
    case Checking(job) => if Compatible(s.tables, job.manifest) then Seeking(job) else Idle
    case Seeking(job) => if LiveFor(c, s.tables, job).Some? then AwaitSnapshot(job) else AwaitBlobs(job, 0)
    case AwaitSnapshot(job) => Rechecking(job)
    case Rechecking(job) =>
      (match LiveFor(c, s.tables, job)
       case Some(id) => AttachingFast(job, id)
       case None => AwaitBlobs(job, 0))
    case AttachingFast(_, _) => Idle
    case AwaitBlobs(job, n) => if n < |job.stripes| then AwaitBlobs(job, n + 1) else CheckingAgain(job)
    case CheckingAgain(job) => if Compatible(s.tables, job.manifest) then SeekingAgain(job) else Idle
    case SeekingAgain(job) =>
      (match LiveFor(c, s.tables, job)
       case Some(id) => AttachingSlow(job, id)
       case None => Promoting(job, []))
    case AttachingSlow(_, _) => Idle
    case Promoting(job, promotions) =>
      if |promotions| == |job.order| then Recording(job, promotions)
      else if |promotions| > |job.order| then Idle
      else
        var d := job.order[|promotions|];
        if d !in s.files then Promoting(job, promotions + [Promotion(d, true)])
        else if ExistingFileVerifies(c, s.files, job, d) then Promoting(job, promotions + [Promotion(d, false)])
        else AfterFail(c, s, q)
    case Recording(job, promotions) =>
      if !Compatible(s.tables, job.manifest) || !UploadActive(s.tables, job) then Cleaning(job, promotions, 0, None)
      else if LiveFor(c, s.tables, job).Some? then Lost(job, promotions)
      else Idle
    case Lost(job, promotions) => Cleaning(job, promotions, 0, LiveFor(c, s.tables, job))
    case Cleaning(job, promotions, k, winner) =>
      if k < |promotions| then
        if promotions[k].created && promotions[k].digest !in s.tables.blobs then Removing(job, promotions, k, winner)
        else Cleaning(job, promotions, k + 1, winner)
      else
        (match winner
         case Some(id) => AttachingWinner(job, promotions, id)
         case None => Idle)
    case Removing(job, promotions, k, winner) => Cleaning(job, promotions, k + 1, winner)
    case AttachingWinner(job, promotions, id) =>
      if CanAttach(s.tables, job, id) then Idle else Cleaning(job, promotions, 0, None)
    case AwaitDeletion(id, session, fingerprint) => Deleting(id, session, fingerprint)
    case Deleting(id, session, fingerprint) =>
      if Live(s.tables, id) then
        var rows := RowsOf(s.tables, id);
        AwaitDeletionBlobs(id, session, fingerprint, BlobStripes(c, set i | 0 <= i < |rows| :: rows[i].blob.digest), 0)
      else Idle
    case AwaitDeletionBlobs(id, session, fingerprint, stripes, n) =>
      if n < |stripes| then AwaitDeletionBlobs(id, session, fingerprint, stripes, n + 1)
      else Burying(id, session, fingerprint, stripes)
    case Burying(_, _, _, _) => Idle
    case Picking(now, queue) => if queue == [] then Idle else Authorising(now, queue[0], queue[1..])
    case Authorising(now, blob, queue) =>
      if Collectable(s.tables, blob, now) && !Referenced(s.tables, blob) then Unlinking(now, blob, queue)
      else Picking(now, queue)
    case Unlinking(now, blob, queue) => Dropping(now, blob, queue)
    case Dropping(now, blob, queue) => Picking(now, queue)
    case AwaitOne(lock) => HoldingOne(lock)
    case HoldingOne(_) => Idle
  }

  ghost function ProcAfter(c: Setup, s: State, q: Process, e: Event): Process {
    match e
    case Go(_, _) => AfterGo(c, s, q)
    case Staged(staged) =>
      if q.Opened? && q.upload in s.tables.uploads
      then Checking(MakeJob(c, q.upload, s.tables.uploads[q.upload].manifest, staged)) else q
    case Fail => AfterFail(c, s, q)
    case FailLinked => AfterFail(c, s, q)
    case Cancel => Idle
    case Expire(_) => if q.Opened? then Idle else q
    case StartComplete(u) => AwaitUpload(u)
    case StartDelete(id) =>
      if id in s.tables.snapshots
      then AwaitDeletion(id, s.tables.snapshots[id].session, s.tables.snapshots[id].fingerprint) else q
    case StartCollect(now, queue) => Picking(now, queue)
    case StartOne(lock) => AwaitOne(lock)
    case _ => q
  }

  ghost function ProcsAfter(c: Setup, s: State, p: nat, e: Event): seq<Process> {
    if e.Crash? then seq(|s.procs|, _ => Idle)
    else if External(e) || p >= |s.procs| then s.procs
    else s.procs[p := ProcAfter(c, s, s.procs[p], e)]
  }

  ghost function ModeAfter(s: State, e: Event): Mode {
    if e.Crash? then Rebuilding
    else if !e.Recover? then s.mode
    else
      match s.mode
      case Serving => Serving
      case Rebuilding => Scheduling
      case Scheduling => Sweeping(s.tables.blobs.Keys)
      case Sweeping(_) => Serving
  }

  ghost function After(c: Setup, s: State, p: nat, e: Event): State {
    State(Apply(c, s.tables, Commits(c, s, p, e)), FilesAfter(c, s, p, e), ProcsAfter(c, s, p, e), ModeAfter(s, e))
  }

  ghost predicate Initial(s: State) {
    s.tables == EmptyTables() && s.files == map[] && s.mode == Serving &&
    forall p :: 0 <= p < |s.procs| ==> s.procs[p] == Idle
  }
}
