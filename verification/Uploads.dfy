/** The life of an upload: creation under a capture identifier, resumable chunks,
    completion or a terminal audit, and what recovery makes of a crash between
    any two of these steps. Chunk files precede their records; detail rows are
    deleted before bytes. */
module Uploads {
  import opened Basics
  import C = Chunks

  datatype Status = Created | ArtifactUploaded | Completed

  datatype Upload = Upload(capture: nat, manifestSha256: Digest, status: Status, sizes: seq<nat>, chunkSize: nat)
  datatype Audit = Audit(capture: nat, manifestSha256: Digest)
  datatype ChunkKey = ChunkKey(upload: nat, artifact: nat, index: nat)
  datatype ChunkRecord = ChunkRecord(length: nat, sha256: Digest)

  datatype Process =
    | Idle
    | Storing(key: ChunkKey, record: ChunkRecord)
    | Linked(key: ChunkKey, record: ChunkRecord)
    | Refreshing(id: nat)
    | Clearing(id: nat)

  // Rows, chunk files and upload directories.
  datatype Store = Store(uploads: map<nat, Upload>, audits: map<nat, Audit>, chunks: map<ChunkKey, ChunkRecord>,
                         files: map<ChunkKey, Bytes>, dirs: set<nat>)
  datatype State = State(store: Store, procs: seq<Process>, serving: bool)

  datatype Setup = Setup(sha256: Bytes -> Digest, uploadStripe: nat -> nat)

  predicate Active(s: Store, id: nat) {
    id in s.uploads && s.uploads[id].status != Completed
  }

  predicate Verifies(c: Setup, files: map<ChunkKey, Bytes>, key: ChunkKey, record: ChunkRecord) {
    key in files && |files[key]| == record.length && c.sha256(files[key]) == record.sha256
  }

  function CountOf(u: Upload, artifact: nat): Option<nat> {
    if artifact < |u.sizes| then C.ChunkCount(u.sizes[artifact], u.chunkSize) else None
  }

  function ExpectedOf(u: Upload, key: ChunkKey): Option<nat> {
    match CountOf(u, key.artifact)
    case None => None
    case Some(count) => C.ExpectedLength(u.sizes[key.artifact], u.chunkSize, count, key.index)
  }

  // The length negotiated for a chunk, in numbers.
  predicate Negotiated(u: Upload, key: ChunkKey, length: nat) {
    key.artifact < |u.sizes| && C.Negotiated(u.sizes[key.artifact], u.chunkSize, key.index, length)
  }

  lemma ExpectedIsNegotiated(u: Upload, key: ChunkKey, length: nat)
    ensures ExpectedOf(u, key) == Some(length) ==> Negotiated(u, key, length)
    ensures Negotiated(u, key, length) && u.sizes[key.artifact] <= C.U64_MAX ==> ExpectedOf(u, key) == Some(length)
  {
    if key.artifact < |u.sizes| { C.NegotiatedIff(u.sizes[key.artifact], u.chunkSize, key.index, length); }
  }

  function IndexesOf(chunks: map<ChunkKey, ChunkRecord>, id: nat, artifact: nat): set<nat> {
    set k | k in chunks && k.upload == id && k.artifact == artifact :: k.index
  }

  // Every artifact has exactly the chunks 0 to n - 1.
  ghost predicate AllAccepted(chunks: map<ChunkKey, ChunkRecord>, u: Upload, id: nat) {
    forall a :: 0 <= a < |u.sizes| ==> CountOf(u, a).Some? && IndexesOf(chunks, id, a) == C.Range(CountOf(u, a).value)
  }

  ghost function StatusFor(chunks: map<ChunkKey, ChunkRecord>, u: Upload, id: nat): Status {
    if AllAccepted(chunks, u, id) then ArtifactUploaded else Created
  }

  // ---- locks ----

  predicate Holds(c: Setup, q: Process, stripe: nat) {
    match q
    case Idle => false
    case Storing(key, _) => c.uploadStripe(key.upload) == stripe
    case Linked(key, _) => c.uploadStripe(key.upload) == stripe
    case Refreshing(id) => c.uploadStripe(id) == stripe
    case Clearing(id) => c.uploadStripe(id) == stripe
  }

  ghost predicate Free(c: Setup, s: State, id: nat) {
    forall i :: 0 <= i < |s.procs| ==> !Holds(c, s.procs[i], c.uploadStripe(id))
  }

  // ---- steps ----

  datatype Event =
    | Create(id: nat, capture: nat, manifestSha256: Digest, sizes: seq<nat>, chunkSize: nat)
    | Put(key: ChunkKey, record: ChunkRecord)
    | Link(bytes: Bytes)
    | LinkFails(bytes: Bytes, left: bool)
    | Persist
    | Refresh
    | Terminate(id: nat)
    | Complete(id: nat)
    | Clear
    | Cancel
    | Crash
    | Damage(key: ChunkKey, content: Option<Bytes>)
    | Recover

  ghost predicate Can(c: Setup, s: State, p: nat, e: Event) {
    match e
    case Crash => true
    case Damage(_, _) => !s.serving
    case Recover => !s.serving
    case Create(id, _, _, _, _) => s.serving && id !in s.store.uploads && id !in s.store.audits
    case _ => s.serving && p < |s.procs| && Takes(c, s, s.procs[p], e)
  }

  ghost predicate Takes(c: Setup, s: State, q: Process, e: Event) {
    match e
    case Put(key, _) => q.Idle? && Free(c, s, key.upload) && Active(s.store, key.upload)
    case Link(bytes) => q.Storing? && |bytes| == q.record.length && c.sha256(bytes) == q.record.sha256
    case LinkFails(bytes, _) => q.Storing? && |bytes| == q.record.length && c.sha256(bytes) == q.record.sha256
    case Persist => q.Linked?
    case Refresh => q.Refreshing?
    case Terminate(id) => q.Idle? && Free(c, s, id) && Active(s.store, id)
    case Complete(id) => q.Idle? && Free(c, s, id) && Active(s.store, id) &&
    AllAccepted(s.store.chunks, s.store.uploads[id], id)
    case Clear => q.Clearing?
    case Cancel => !q.Idle?
    case _ => false
  }

  ghost predicate CaptureConflicts(s: Store, capture: nat, manifestSha256: Digest) {
    || (exists a :: a in s.audits && s.audits[a].capture == capture && s.audits[a].manifestSha256 != manifestSha256)
    || (exists u :: u in s.uploads && s.uploads[u].capture == capture)
  }

  // A new upload row, unless the capture identifier is taken or was used for another manifest.
  ghost function AfterCreate(s: Store, id: nat, capture: nat, manifestSha256: Digest, sizes: seq<nat>,
                             chunkSize: nat): Store {
    if CaptureConflicts(s, capture, manifestSha256) then s
    else
      var initial :=
        if forall i :: 0 <= i < |sizes| ==> C.ChunkCount(sizes[i], chunkSize) == Some(0)
        then ArtifactUploaded else Created;
      s.(uploads := s.uploads[id := Upload(capture, manifestSha256, initial, sizes, chunkSize)])
  }

  ghost function WithFile(s: Store, key: ChunkKey, bytes: Bytes): Store {
    s.(dirs := s.dirs + {key.upload}, files := if key in s.files then s.files else s.files[key := bytes])
  }

  ghost function AfterPersist(s: Store, key: ChunkKey, record: ChunkRecord): Store {
    if Active(s, key.upload) && key !in s.chunks then s.(chunks := s.chunks[key := record]) else s
  }

  ghost function AfterRefresh(s: Store, id: nat): Store {
    if Active(s, id)
    then s.(uploads := s.uploads[id := s.uploads[id].(status := StatusFor(s.chunks, s.uploads[id], id))])
    else s
  }

  ghost function AfterTerminate(s: Store, id: nat): Store {
    if id in s.uploads then
      s.(uploads := s.uploads - {id},
         audits := if id in s.audits then s.audits
                   else s.audits[id := Audit(s.uploads[id].capture, s.uploads[id].manifestSha256)],
         chunks := map k | k in s.chunks && k.upload != id :: s.chunks[k])
    else s
  }

  ghost function AfterComplete(s: Store, id: nat): Store {
    if id in s.uploads then s.(uploads := s.uploads[id := s.uploads[id].(status := Completed)]) else s
  }

  ghost function WithoutDir(s: Store, id: nat): Store {
    s.(dirs := s.dirs - {id}, files := map k | k in s.files && k.upload != id :: s.files[k])
  }

  // ---- recovery ----

  ghost function ValidChunks(c: Setup, s: Store): map<ChunkKey, ChunkRecord> {
    map k | k in s.chunks && (Active(s, k.upload) ==> Verifies(c, s.files, k, s.chunks[k])) :: s.chunks[k]
  }

  /** What recovery leaves: of active uploads the records whose file verifies, exactly those files, and an exact
      status; directories of active uploads only. */
  ghost function Recovered(c: Setup, s: Store): Store {
    var chunks := ValidChunks(c, s);
    Store(map id | id in s.uploads ::
            if Active(s, id) then s.uploads[id].(status := StatusFor(chunks, s.uploads[id], id)) else s.uploads[id],
          s.audits,
          chunks,
          map k | k in s.files && Active(s, k.upload) && k in chunks :: s.files[k],
          set id | id in s.dirs && Active(s, id))
  }

  ghost function StoreAfter(c: Setup, s: State, p: nat, e: Event): Store {
    match e
    case Create(id, capture, sha, sizes, chunkSize) => AfterCreate(s.store, id, capture, sha, sizes, chunkSize)
    case Terminate(id) => AfterTerminate(s.store, id)
    case Complete(id) => AfterComplete(s.store, id)
    case Damage(key, content) =>
      (match content
       case None => s.store.(files := s.store.files - {key})
       case Some(bytes) => if key.upload in s.store.dirs then s.store.(files := s.store.files[key := bytes])
                           else s.store)
    case Recover => Recovered(c, s.store)
    case _ => if p < |s.procs| then StoreOnStep(s.store, s.procs[p], e) else s.store
  }

  ghost function StoreOnStep(s: Store, q: Process, e: Event): Store {
    match e
    case Link(bytes) => if q.Storing? then WithFile(s, q.key, bytes) else s
    case LinkFails(bytes, left) => if q.Storing? && left then WithFile(s, q.key, bytes) else s
    case Persist => if q.Linked? then AfterPersist(s, q.key, q.record) else s
    case Refresh => if q.Refreshing? then AfterRefresh(s, q.id) else s
    case Clear => if q.Clearing? then WithoutDir(s, q.id) else s
    case _ => s
  }

  ghost function ProcAfter(c: Setup, s: State, q: Process, e: Event): Process {
    match e
    case Put(key, record) =>
      if key in s.store.chunks || key.upload !in s.store.uploads then Idle
      else if ExpectedOf(s.store.uploads[key.upload], key) == Some(record.length) then Storing(key, record)
      else Idle
    case Link(_) =>
      if !q.Storing? then q
      else if q.key !in s.store.files || Verifies(c, s.store.files, q.key, q.record) then Linked(q.key, q.record)
      else Idle
    case LinkFails(_, _) => Idle
    case Persist => if q.Linked? && Active(s.store, q.key.upload) then Refreshing(q.key.upload) else Idle
    case Refresh => Idle
    case Terminate(id) => Clearing(id)
    case Complete(id) => Clearing(id)
    case Clear => Idle
    case Cancel => Idle
    case _ => q
  }

  ghost function After(c: Setup, s: State, p: nat, e: Event): State {
    State(StoreAfter(c, s, p, e),
          if e.Crash? then seq(|s.procs|, _ => Idle)
          else if e.Create? || e.Damage? || e.Recover? || p >= |s.procs| then s.procs
          else s.procs[p := ProcAfter(c, s, s.procs[p], e)],
          if e.Crash? then false else if e.Recover? then true else s.serving)
  }

  ghost predicate Initial(s: State) {
    s.serving && s.store == Store(map[], map[], map[], map[], {}) &&
    forall i :: 0 <= i < |s.procs| ==> s.procs[i] == Idle
  }

  // ---- what recovery guarantees, from any state at all ----

  ghost predicate Quiescent(c: Setup, s: Store) {
    && (forall k :: k in s.chunks && Active(s, k.upload) ==> Verifies(c, s.files, k, s.chunks[k]))
    && (forall k :: k in s.files ==> Active(s, k.upload) && k in s.chunks)
    && (forall id :: id in s.dirs ==> Active(s, id))
    && (forall id :: Active(s, id) ==> s.uploads[id].status == StatusFor(s.chunks, s.uploads[id], id))
  }

  lemma StatusOfSameLayout(chunks: map<ChunkKey, ChunkRecord>, u: Upload, v: Upload, id: nat)
    requires u.sizes == v.sizes && u.chunkSize == v.chunkSize
    ensures StatusFor(chunks, u, id) == StatusFor(chunks, v, id)
  {
    assert forall a :: CountOf(u, a) == CountOf(v, a);
  }

  lemma RecoveryIsQuiescent(c: Setup, s: Store)
    ensures Quiescent(c, Recovered(c, s))
  {
    var r := Recovered(c, s);
    forall id | Active(r, id) ensures r.uploads[id].status == StatusFor(r.chunks, r.uploads[id], id) {
      StatusOfSameLayout(r.chunks, s.uploads[id], r.uploads[id], id);
    }
  }

  lemma QuiescentIsFixed(c: Setup, s: Store)
    requires Quiescent(c, s)
    ensures Recovered(c, s) == s
  {
    var r := Recovered(c, s);
    assert r.chunks == s.chunks;
    assert r.uploads == s.uploads;
    assert r.files == s.files;
    assert r.dirs == s.dirs;
  }

  /** Recovery from any store, however it was left, is quiescent: every accepted record of an active upload has
      its file, every chunk file has a record, no directory lacks an active upload, and each status says exactly
      whether all chunks are there. It keeps every record and file that still verified, changes no completed
      upload and no audit, and a second recovery changes nothing. */
  lemma RecoveryRestoresUploads(c: Setup, s: Store)
    ensures Quiescent(c, Recovered(c, s))
    ensures Recovered(c, Recovered(c, s)) == Recovered(c, s)
    ensures forall k :: k in s.chunks && Active(s, k.upload) && Verifies(c, s.files, k, s.chunks[k]) ==>
      k in Recovered(c, s).chunks && Recovered(c, s).chunks[k] == s.chunks[k] &&
      k in Recovered(c, s).files && Recovered(c, s).files[k] == s.files[k]
    ensures Recovered(c, s).audits == s.audits && Recovered(c, s).uploads.Keys == s.uploads.Keys
    ensures forall id :: id in s.uploads && s.uploads[id].status == Completed ==>
      Recovered(c, s).uploads[id] == s.uploads[id]
  {
    RecoveryIsQuiescent(c, s);
    QuiescentIsFixed(c, Recovered(c, s));
  }
}
