/** The integrity scan: a recorder that persists and counts findings, and the
    phases that page through tables and walk the blob directory, on an archive
    that does not change while it is read. */
module Scanner {
  import opened Basics
  import opened Catalog
  import opened Validation
  import opened Integrity
  import H = Healthy

  const PAGE_SIZE: nat := 64
  const REPORT_FINDING_LIMIT: nat := 256

  datatype Severity = Info | Warning | Error
  datatype Kind =
    | DatabaseIntegrityFailure | ArtifactBlobReferenceMissing | SnapshotProjectionDrift | TombstonedSnapshot
    | ManifestMissing | ManifestUnparseable | ManifestHashMismatch | ArtifactOriginalMismatch
    | BlobStaleCandidate | BlobGraceCandidate | BlobGcEligibleCandidate | BlobOrphan | BlobMetadataInvalid
    | BlobFileMissing | BlobFileNonRegular | BlobFileSizeMismatch | BlobFileHashMismatch | UnexpectedBlobFile

  datatype Finding = Finding(kind: Kind, severity: Severity, snapshot: Option<nat>, artifact: Option<nat>,
                             blob: Option<nat>)
  datatype Report = Report(healthy: bool, total: nat, findings: seq<Finding>, truncated: bool)

  // ---- the recorder ----

  ghost function Of(findings: seq<Finding>, severity: Severity): nat {
    if findings == [] then 0
    else Of(findings[..|findings| - 1], severity) + if findings[|findings| - 1].severity == severity then 1 else 0
  }

  ghost function OfKind(findings: seq<Finding>, kind: Kind): nat {
    if findings == [] then 0
    else OfKind(findings[..|findings| - 1], kind) + if findings[|findings| - 1].kind == kind then 1 else 0
  }

  lemma OfLast(findings: seq<Finding>, f: Finding)
    ensures forall severity ::
      Of(findings + [f], severity) == Of(findings, severity) + if f.severity == severity then 1 else 0
    ensures forall kind :: OfKind(findings + [f], kind) == OfKind(findings, kind) + if f.kind == kind then 1 else 0
  {
    assert (findings + [f])[..|findings|] == findings;
  }

  // The findings a report lists.
  function Reported(findings: seq<Finding>): seq<Finding> {
    if |findings| < REPORT_FINDING_LIMIT then findings else findings[..REPORT_FINDING_LIMIT]
  }

  lemma ReportedLast(findings: seq<Finding>, f: Finding)
    ensures Reported(findings + [f]) == Reported(findings) + if |Reported(findings)| < REPORT_FINDING_LIMIT then [f]
                                                             else []
  {
  }

  // Nothing but information.
  ghost predicate Actionless(findings: seq<Finding>) {
    forall i :: 0 <= i < |findings| ==> findings[i].severity.Info?
  }

  lemma ActionlessLast(findings: seq<Finding>, f: Finding)
    ensures Actionless(findings + [f]) <==> Actionless(findings) && f.severity.Info?
  {
    var more := findings + [f];
    assert more[|findings|] == f && forall i :: 0 <= i < |findings| ==> more[i] == findings[i];
  }

  lemma {:induction false} ActionlessCounts(findings: seq<Finding>)
    ensures Actionless(findings) <==> Of(findings, Warning) == 0 && Of(findings, Error) == 0
    ensures Of(findings, Info) + Of(findings, Warning) + Of(findings, Error) == |findings|
  {
    if findings != [] {
      var n := |findings| - 1;
      ActionlessCounts(findings[..n]);
      assert findings == findings[..n] + [findings[n]];
    }
  }

  class ScanRecorder {
    var persisted: seq<Finding>
    var total: nat
    var info: nat
    var warning: nat
    var error: nat
    var byKind: map<Kind, nat>
    var reportFindings: seq<Finding>

    ghost predicate Valid()
      reads this
    {
      && total == |persisted|
      && info == Of(persisted, Info) && warning == Of(persisted, Warning) && error == Of(persisted, Error)
      && (forall kind :: OfKind(persisted, kind) == if kind in byKind then byKind[kind] else 0)
      && reportFindings == Reported(persisted)
    }

    ghost predicate Quiet()
      reads this
    {
      Actionless(persisted)
    }

    constructor ()
      ensures Valid() && persisted == []
    {
      persisted, total, info, warning, error, byKind, reportFindings := [], 0, 0, 0, 0, map[], [];
    }

    method Record(f: Finding)
      requires Valid()
      modifies this
      ensures Valid() && persisted == old(persisted) + [f]
      ensures Quiet() <==> old(Quiet()) && f.severity.Info?
    {
      OfLast(persisted, f);
      ActionlessLast(persisted, f);
      persisted := persisted + [f];
      total := total + 1;
      match f.severity {
        case Info => info := info + 1;
        case Warning => warning := warning + 1;
        case Error => error := error + 1;
      }
      byKind := byKind[f.kind := (if f.kind in byKind then byKind[f.kind] else 0) + 1];
      ReportedLast(old(persisted), f);
      if |reportFindings| < REPORT_FINDING_LIMIT { reportFindings := reportFindings + [f]; }
    }

    /** The reported status and counts describe every persisted finding, also when the list is truncated. */
    method Complete() returns (report: Report)
      requires Valid()
      ensures report.healthy <==> Actionless(persisted)
      ensures report.total == |persisted| && (report.truncated <==> |report.findings| < |persisted|)
      ensures report.findings <= persisted && |report.findings| <= REPORT_FINDING_LIMIT
      ensures report.truncated ==> |report.findings| == REPORT_FINDING_LIMIT
    {
      ActionlessCounts(persisted);
      report := Report(!(warning != 0 || error != 0), total, reportFindings, |reportFindings| < total);
    }
  }

  // ---- paging ----

  // The least element above a bound.
  method LeastAbove(ids: set<nat>, after: int) returns (least: Option<nat>)
    ensures least.None? <==> forall id :: id in ids ==> id <= after
    ensures least.Some? ==> least.value in ids && least.value > after
    ensures least.Some? ==> forall id :: id in ids && id > after ==> least.value <= id
  {
    least := None;
    var remaining := ids;
    while remaining != {}
      invariant remaining <= ids
      invariant least.None? ==> forall id :: id in ids && id !in remaining ==> id <= after
      invariant least.Some? ==> least.value in ids && least.value > after
      invariant least.Some? ==> forall id :: id in ids && id !in remaining && id > after ==> least.value <= id
    {
      var id :| id in remaining;
      if id > after && (least.None? || id < least.value) { least := Some(id); }
      remaining := remaining - {id};
    }
  }

  ghost function Beyond(ids: set<nat>, after: int): set<nat> {
    set id | id in ids && id > after
  }

  // One page of a query ordered by identifier, after a bound.
  method Page(ids: set<nat>, after: int) returns (page: seq<nat>)
    ensures |page| <= PAGE_SIZE && (page == [] <==> Beyond(ids, after) == {})
    ensures forall i :: 0 <= i < |page| ==> page[i] in ids && after < page[i]
    ensures page != [] ==> forall id :: id in page <==> id in ids && after < id <= page[|page| - 1]
    ensures page != [] ==> Beyond(ids, page[|page| - 1]) < Beyond(ids, after)
  {
    page := [];
    var bound := after;
    while |page| < PAGE_SIZE
      invariant |page| <= PAGE_SIZE && bound == if page == [] then after else page[|page| - 1]
      invariant after <= bound
      invariant forall i :: 0 <= i < |page| ==> page[i] in ids && after < page[i] <= bound
      invariant forall id :: id in ids && after < id <= bound ==> id in page
    {
      var next := LeastAbove(ids, bound);
      if next.None? { break; }
      page := page + [next.value];
      bound := next.value;
    }
    if page != [] {
      assert page[|page| - 1] in Beyond(ids, after);
    } else {
      assert forall id :: id in ids ==> id <= after;
    }
  }

  // ---- database phase ----

  method ScanDatabaseIntegrity(r: ScanRecorder, db: Database)
    requires r.Valid()
    modifies r
    ensures r.Valid() && (r.Quiet() <==> old(r.Quiet()) && db.quickCheck && ForeignKeysHold(db))
  {
    if !db.quickCheck { r.Record(Finding(DatabaseIntegrityFailure, Error, None, None, None)); }
    if !ForeignKeysHold(db) { r.Record(Finding(DatabaseIntegrityFailure, Error, None, None, None)); }
  }

  // Reports every row of a query as an error.
  method ReportRows(r: ScanRecorder, db: Database, ids: set<nat>, kind: Kind)
    requires r.Valid() && ids <= db.artifacts.Keys
    modifies r
    ensures r.Valid() && (r.Quiet() <==> old(r.Quiet()) && ids == {})
  {
    var after: int := -1;
    while true
      invariant r.Valid() && (r.Quiet() <==> old(r.Quiet()) && forall id :: id in ids ==> id > after)
      decreases Beyond(ids, after)
    {
      var page := Page(ids, after);
      if page == [] {
        assert forall id :: id in ids ==> id !in Beyond(ids, after);
        break;
      }
      for k := 0 to |page|
        invariant r.Valid()
        invariant r.Quiet() <==> old(r.Quiet()) && (forall id :: id in ids ==> id > after) && k == 0
      {
        var row := db.artifacts[page[k]];
        r.Record(Finding(kind, Error, Some(row.snapshot), Some(page[k]), Some(row.blob)));
      }
      assert page[0] in ids && page[|page| - 1] in ids;
      after := page[|page| - 1];
    }
  }

  // ---- hashing ----

  datatype HashRead = Hashed(size: nat, digest: string) | TooLarge | Io

  // Reads a stream through a bounded buffer.
  method HashReader(w: World, stream: Stream, maximum: nat, bufferSize: nat) returns (r: HashRead)
    requires bufferSize > 0
    ensures r.TooLarge? <==> |stream.bytes| > maximum
    ensures r.Hashed? <==> |stream.bytes| <= maximum && !stream.failed
    ensures r.Hashed? ==> r.size == |stream.bytes| && r.digest == w.hex(stream.bytes)
  {
    var total := 0;
    var hashed: Bytes := [];
    while total < |stream.bytes|
      invariant total <= |stream.bytes| && total <= maximum && hashed == stream.bytes[..total]
    {
      var read := if |stream.bytes| - total < bufferSize then |stream.bytes| - total else bufferSize;
      var buffer := stream.bytes[total..total + read];
      if total + read > maximum { return TooLarge; }
      hashed := hashed + buffer;
      total := total + read;
    }
    assert stream.bytes[..total] == stream.bytes;
    r := if stream.failed then Io else Hashed(total, w.hex(hashed));
  }

  datatype StoredFileCheck = StoredFine | Missing | NonRegular | SizeMismatch | HashMismatch | CannotRead

  predicate RegularNode(root: Node, digest: string) {
    BlobNode(root, digest).Some? && BlobNode(root, digest).value.Regular?
  }

  method ScanStoredFile(w: World, root: Node, digest: string, size: nat, bufferSize: nat) returns (c: StoredFileCheck)
    requires bufferSize > 0
    ensures c.StoredFine? <==> StoredHealthy(w, root, digest, size)
    ensures c.Missing? <==> BlobNode(root, digest).None?
    ensures c.NonRegular? <==>
      BlobNode(root, digest).Some? && (BlobNode(root, digest).value.Special? || BlobNode(root, digest).value.Directory?)
    ensures c.SizeMismatch? <==> RegularNode(root, digest) && |BlobNode(root, digest).value.bytes| != size
    ensures c.HashMismatch? <==>
      RegularNode(root, digest) && |BlobNode(root, digest).value.bytes| == size &&
      w.hex(BlobNode(root, digest).value.bytes) != digest
  {
    var node := BlobNode(root, digest);
    if node.None? { return Missing; }
    match node.value {
      case Special => return NonRegular;
      case Directory(_) => return NonRegular;
      case Unreadable => return CannotRead;
      case Regular(bytes) =>
        if |bytes| != size { return SizeMismatch; }
        var read := HashReader(w, Stream(bytes, false), size, bufferSize);
        match read {
          case TooLarge => return SizeMismatch;
          case Io => return CannotRead;
          case Hashed(total, computed) =>
            if total != size { return SizeMismatch; }
            if computed != digest { return HashMismatch; }
            return StoredFine;
        }
    }
  }

  datatype OriginalFileCheck = OriginalFine | StoredInvalid | Mismatch

  method ScanArtifactOriginalFile(w: World, root: Node, job: ArtifactJob, bufferSize: nat)
    returns (c: OriginalFileCheck)
    requires bufferSize > 0
    ensures c.OriginalFine? <==> JobHealthy(w, root, job)
    ensures c.StoredInvalid? <==> !StoredHealthy(w, root, job.digest, job.size)
  {
    var stored := ScanStoredFile(w, root, job.digest, job.size, bufferSize);
    if !stored.StoredFine? { return StoredInvalid; }
    var stream := Decoded(w, job.compression, BlobNode(root, job.digest).value.bytes);
    var read := HashReader(w, stream, job.originalSize, bufferSize);
    if !read.Hashed? || read.size != job.originalSize || read.digest != job.original { return Mismatch; }
    c := OriginalFine;
  }

  // ---- snapshots ----

  // The rows of one snapshot that have a blob row, in the order of their artifact index.
  method RowsByIndex(db: Database, ids: set<nat>) returns (rows: seq<nat>)
    requires ids <= db.artifacts.Keys
    ensures |rows| == |ids| && forall a :: a in rows <==> a in ids
    ensures forall i, j :: 0 <= i < j < |rows| ==> db.artifacts[rows[i]].index <= db.artifacts[rows[j]].index
  {
    rows := [];
    var remaining := ids;
    while remaining != {}
      invariant remaining <= ids && |rows| + |remaining| == |ids|
      invariant forall a :: a in rows <==> a in ids && a !in remaining
      invariant forall i, j :: 0 <= i < j < |rows| ==> db.artifacts[rows[i]].index <= db.artifacts[rows[j]].index
      invariant forall a, b :: a in rows && b in remaining ==> db.artifacts[a].index <= db.artifacts[b].index
      decreases |remaining|
    {
      var first := FirstByIndex(db, remaining);
      rows := rows + [first];
      remaining := remaining - {first};
    }
  }

  method FirstByIndex(db: Database, ids: set<nat>) returns (first: nat)
    requires ids != {} && ids <= db.artifacts.Keys
    ensures first in ids && forall a :: a in ids ==> db.artifacts[first].index <= db.artifacts[a].index
  {
    first :| first in ids;
    var remaining := ids;
    while remaining != {}
      invariant remaining <= ids && first in ids
      invariant forall a :: a in ids && a !in remaining ==> db.artifacts[first].index <= db.artifacts[a].index
    {
      var a :| a in remaining;
      if db.artifacts[a].index < db.artifacts[first].index { first := a; }
      remaining := remaining - {a};
    }
  }

  ghost predicate RowsInOrder(db: Database, ids: set<nat>, rows: seq<nat>) {
    && (forall a :: a in rows <==> a in ids) && ids <= db.artifacts.Keys
    && forall i, j :: 0 <= i < j < |rows| ==> db.artifacts[rows[i]].index <= db.artifacts[rows[j]].index
  }

  lemma HasPosition(db: Database, ids: set<nat>, rows: seq<nat>, entries: seq<Entry>, i: nat) returns (p: nat)
    requires RowsInOrder(db, ids, rows) && Projects(db, ids, entries) && i < |entries|
    ensures p < |rows| && db.artifacts[rows[p]].index == i
  {
    assert CarriedBy(db, ids, i, entries[i]);
    var a :| a in ids && a in db.artifacts && RowCarries(db, a, i, entries[i]);
    p :| p < |rows| && rows[p] == a;
  }

  lemma {:induction false} PositionAtLeast(db: Database, ids: set<nat>, rows: seq<nat>, entries: seq<Entry>, i: nat,
                                           p: nat)
    requires RowsInOrder(db, ids, rows) && Projects(db, ids, entries)
    requires i < |entries| && p < |rows| && db.artifacts[rows[p]].index == i
    ensures p >= i
  {
    if i > 0 {
      var q := HasPosition(db, ids, rows, entries, i - 1);
      PositionAtLeast(db, ids, rows, entries, i - 1, q);
    }
  }

  lemma {:induction false} PositionAtMost(db: Database, ids: set<nat>, rows: seq<nat>, entries: seq<Entry>, i: nat,
                                          p: nat)
    requires RowsInOrder(db, ids, rows) && Projects(db, ids, entries) && |rows| == |entries|
    requires i < |entries| && p < |rows| && db.artifacts[rows[p]].index == i
    ensures p <= i
    decreases |entries| - i
  {
    if i < |entries| - 1 {
      var q := HasPosition(db, ids, rows, entries, i + 1);
      PositionAtMost(db, ids, rows, entries, i + 1, q);
    }
  }

  // Sorted by index, the rows of a projected manifest stand in the places of their entries.
  lemma RowsStandInPlace(db: Database, ids: set<nat>, rows: seq<nat>, entries: seq<Entry>, i: nat)
    requires RowsInOrder(db, ids, rows) && Projects(db, ids, entries) && |rows| == |entries| && i < |rows|
    ensures RowCarries(db, rows[i], i, entries[i])
  {
    assert rows[i] in ids;
    ProjectedRow(db, ids, entries, rows[i]);
    var k := db.artifacts[rows[i]].index;
    PositionAtLeast(db, ids, rows, entries, k, i);
    PositionAtMost(db, ids, rows, entries, k, i);
  }

  method ReconcileSnapshot(w: World, db: Database, id: nat) returns (ok: bool)
    requires id in db.snapshots && db.snapshots[id].manifest in db.manifests
    ensures ok <==> Reconciles(w, db, id)
  {
    var manifest := db.manifests[db.snapshots[id].manifest];
    if w.hex(manifest.json) != manifest.sha256 { return false; }
    var parsed := w.parse(manifest.json);
    if parsed.None? { return false; }
    var entries := parsed.value.entries;
    assert entries == StoredEntries(w, db, id);
    var rows := RowsByIndex(db, JoinedRows(db, id));
    if |rows| != |entries| || db.snapshots[id].artifactCount != |entries| { return false; }
    var totals := ManifestTotals(entries);
    if totals.None? { return false; }
    if db.snapshots[id].originalTotal != totals.value.0 || db.snapshots[id].storedTotal != totals.value.1 {
      return false;
    }
    ok := RowsMatch(db, JoinedRows(db, id), rows, entries);
  }

  method RowsMatch(db: Database, ghost ids: set<nat>, rows: seq<nat>, entries: seq<Entry>) returns (ok: bool)
    requires RowsInOrder(db, ids, rows) && |rows| == |entries| == |ids|
    ensures ok <==> Projects(db, ids, entries)
  {
    for i := 0 to |entries|
      invariant forall j :: 0 <= j < i ==> CarriedBy(db, ids, j, entries[j])
    {
      assert rows[i] in ids;
      if !RowCarries(db, rows[i], i, entries[i]) {
        if Projects(db, ids, entries) { RowsStandInPlace(db, ids, rows, entries, i); }
        return false;
      }
      assert CarriedBy(db, ids, i, entries[i]);
    }
    ok := true;
  }

  ghost predicate RowReadable(w: World, db: Database, id: nat, i: int, e: Entry) {
    RowsAt(db, id, i) != {} && Examines(db, Least(RowsAt(db, id, i))) ==> Readable(w, e)
  }

  ghost predicate Examines(db: Database, a: nat) {
    a in db.artifacts && db.artifacts[a].blob in db.blobs
  }

  // What the jobs check, besides what building them reports.
  ghost predicate RowJobQuiet(w: World, db: Database, root: Node, id: nat, i: int, e: Entry) {
    RowsAt(db, id, i) != {} && Readable(w, e) && Represented(db, Least(RowsAt(db, id, i)), e) &&
    EntryStored(w, root, e) ==>
      EntryHeld(w, root, e)
  }

  lemma ScannedParts(w: World, db: Database, root: Node, id: nat, i: int, e: Entry)
    ensures EntryScanned(w, db, root, id, i, e) <==> RowReadable(w, db, id, i, e) && RowJobQuiet(w, db, root, id, i, e)
  {
  }

  // A job whose stored file does not verify says nothing: the blob phase does.
  ghost predicate JobQuiet(w: World, root: Node, job: ArtifactJob) {
    StoredHealthy(w, root, job.digest, job.size) ==> JobHealthy(w, root, job)
  }

  ghost predicate AllQuiet(w: World, root: Node, jobs: seq<ArtifactJob>) {
    forall k :: 0 <= k < |jobs| ==> JobQuiet(w, root, jobs[k])
  }

  lemma ExtendQuiet(w: World, root: Node, jobs: seq<ArtifactJob>, job: ArtifactJob)
    ensures AllQuiet(w, root, jobs + [job]) <==> AllQuiet(w, root, jobs) && JobQuiet(w, root, job)
  {
    var more := jobs + [job];
    assert more[|jobs|] == job && forall k :: 0 <= k < |jobs| ==> more[k] == jobs[k];
  }

  // Builds the content jobs of one snapshot, passing over what other phases report.
  method ArtifactJobs(r: ScanRecorder, w: World, db: Database, ghost root: Node, id: nat, entries: seq<Entry>)
    returns (jobs: seq<ArtifactJob>)
    requires r.Valid()
    modifies r
    ensures r.Valid() &&
      (r.Quiet() <==> old(r.Quiet()) && forall i :: 0 <= i < |entries| ==> RowReadable(w, db, id, i, entries[i]))
    ensures AllQuiet(w, root, jobs) <==> forall i :: 0 <= i < |entries| ==> RowJobQuiet(w, db, root, id, i, entries[i])
  {
    jobs := [];
    for i := 0 to |entries|
      invariant r.Valid()
      invariant r.Quiet() <==> old(r.Quiet()) && forall j :: 0 <= j < i ==> RowReadable(w, db, id, j, entries[j])
      invariant AllQuiet(w, root, jobs) <==> forall j :: 0 <= j < i ==> RowJobQuiet(w, db, root, id, j, entries[j])
    {
      var job := ArtifactJobFor(r, w, db, root, id, i, entries[i]);
      if job.Some? {
        ExtendQuiet(w, root, jobs, job.value);
        jobs := jobs + [job.value];
      }
    }
  }

  method ArtifactJobFor(r: ScanRecorder, w: World, db: Database, ghost root: Node, id: nat, i: nat, e: Entry)
    returns (job: Option<ArtifactJob>)
    requires r.Valid()
    modifies r
    ensures r.Valid() && (r.Quiet() <==> old(r.Quiet()) && RowReadable(w, db, id, i, e))
    ensures (job.Some? ==> JobQuiet(w, root, job.value)) <==> RowJobQuiet(w, db, root, id, i, e)
  {
    job := None;
    var first := LeastAbove(RowsAt(db, id, i), -1);
    if first.None? { return; }
    var a := first.value;
    assert a == Least(RowsAt(db, id, i));
    var row := db.artifacts[a];
    if row.blob !in db.blobs { return; }
    if !DocumentDigest(e.stored) {
      r.Record(Finding(ManifestUnparseable, Error, Some(id), Some(a), Some(row.blob)));
      return;
    }
    if !DocumentDigest(e.original) {
      r.Record(Finding(ManifestUnparseable, Error, Some(id), Some(a), Some(row.blob)));
      return;
    }
    if e.storedSize > w.limits.artifactStored || e.originalSize > w.limits.artifactOriginal {
      r.Record(Finding(ArtifactOriginalMismatch, Error, Some(id), Some(a), Some(row.blob)));
      return;
    }
    if !Represented(db, a, e) { return; }
    job := Some(ArtifactJob(a, row.blob, StorageValue(e.stored), e.storedSize, StorageValue(e.original),
                            e.originalSize, e.compression));
  }

  method ScanArtifactJobs(r: ScanRecorder, w: World, root: Node, id: nat, jobs: seq<ArtifactJob>, bufferSize: nat)
    requires r.Valid() && bufferSize > 0
    modifies r
    ensures r.Valid() && (r.Quiet() <==> old(r.Quiet()) && AllQuiet(w, root, jobs))
  {
    for k := 0 to |jobs|
      invariant r.Valid() && (r.Quiet() <==> old(r.Quiet()) && AllQuiet(w, root, jobs[..k]))
    {
      var check := ScanArtifactOriginalFile(w, root, jobs[k], bufferSize);
      ExtendQuiet(w, root, jobs[..k], jobs[k]);
      assert jobs[..k + 1] == jobs[..k] + [jobs[k]];
      if check.Mismatch? {
        r.Record(Finding(ArtifactOriginalMismatch, Error, Some(id), Some(jobs[k].artifact), Some(jobs[k].blob)));
      }
    }
    assert jobs[..|jobs|] == jobs;
  }

  // Jobs for the normalised manifest, whichever method normalised it.
  lemma OneNormalForm(w: World, db: Database, root: Node, id: nat, normal: seq<Entry>)
    requires NormalForm(w.limits, StoredEntries(w, db, id), normal)
    ensures JobsClean(w, db, root, id) <==> EntriesScanned(w, db, root, id, normal)
    ensures EntriesScanned(w, db, root, id, normal) <==>
      && (forall i :: 0 <= i < |normal| ==> RowReadable(w, db, id, i, normal[i]))
      && (forall i :: 0 <= i < |normal| ==> RowJobQuiet(w, db, root, id, i, normal[i]))
  {
    forall other | NormalForm(w.limits, StoredEntries(w, db, id), other) ensures other == normal {
      SortedUnique(other, normal);
    }
    forall i | 0 <= i < |normal|
      ensures EntryScanned(w, db, root, id, i, normal[i]) <==>
        RowReadable(w, db, id, i, normal[i]) && RowJobQuiet(w, db, root, id, i, normal[i])
    {
      ScannedParts(w, db, root, id, i, normal[i]);
    }
  }

  // Hash, size and grammar of one stored manifest; None when it cannot be used further.
  method AnalyzeManifest(r: ScanRecorder, w: World, id: nat, manifest: ManifestRow) returns (normal: Option<seq<Entry>>)
    requires r.Valid()
    modifies r
    ensures r.Valid()
    ensures r.Quiet() <==>
      old(r.Quiet()) && ManifestReads(w, manifest) && Acceptable(w.limits, w.parse(manifest.json).value.entries)
    ensures normal.Some? ==>
      w.parse(manifest.json).Some? && NormalForm(w.limits, w.parse(manifest.json).value.entries, normal.value)
    ensures normal.None? ==> !r.Quiet()
  {
    normal := None;
    if |manifest.json| > w.maxManifestBytes {
      r.Record(Finding(ManifestUnparseable, Error, Some(id), None, None));
      return;
    }
    if w.hex(manifest.json) != manifest.sha256 {
      r.Record(Finding(ManifestHashMismatch, Error, Some(id), None, None));
    }
    var parsed := w.parse(manifest.json);
    if parsed.Some? && parsed.value.header { normal := NormalizeManifest(w.limits, parsed.value.entries); }
    if normal.None? { r.Record(Finding(ManifestUnparseable, Error, Some(id), None, None)); }
  }

  method ScanLiveSnapshot(r: ScanRecorder, w: World, db: Database, root: Node, id: nat, normal: seq<Entry>,
                          bufferSize: nat)
    requires r.Valid() && bufferSize > 0
    requires id in db.snapshots && db.snapshots[id].manifest in db.manifests
    requires NormalForm(w.limits, StoredEntries(w, db, id), normal)
    modifies r
    ensures r.Valid() && (r.Quiet() <==> old(r.Quiet()) && Reconciles(w, db, id) && JobsClean(w, db, root, id))
  {
    var reconciled := ReconcileSnapshot(w, db, id);
    if !reconciled { r.Record(Finding(SnapshotProjectionDrift, Error, Some(id), None, None)); }
    OneNormalForm(w, db, root, id, normal);
    var jobs := ArtifactJobs(r, w, db, root, id, normal);
    ScanArtifactJobs(r, w, root, id, jobs, bufferSize);
  }

  method ScanSnapshot(r: ScanRecorder, w: World, db: Database, root: Node, id: nat, bufferSize: nat)
    requires r.Valid() && bufferSize > 0 && id in db.snapshots
    modifies r
    ensures r.Valid() && (r.Quiet() <==> old(r.Quiet()) && SnapshotClean(w, db, root, id))
  {
    var row := db.snapshots[id];
    if row.deleted {
      r.Record(Finding(TombstonedSnapshot, if id in db.entombed then Info else Error, Some(id), None, None));
    }
    if row.manifest !in db.manifests {
      r.Record(Finding(ManifestMissing, Error, Some(id), None, None));
      return;
    }
    var normal := AnalyzeManifest(r, w, id, db.manifests[row.manifest]);
    if normal.None? || row.deleted { return; }
    ScanLiveSnapshot(r, w, db, root, id, normal.value, bufferSize);
  }

  ghost predicate IdClean(w: World, db: Database, root: Node, id: nat) {
    id in db.snapshots && SnapshotClean(w, db, root, id)
  }

  method ScanSnapshotPage(r: ScanRecorder, w: World, db: Database, root: Node, page: seq<nat>, bufferSize: nat)
    requires r.Valid() && bufferSize > 0 && forall k :: 0 <= k < |page| ==> page[k] in db.snapshots
    modifies r
    ensures r.Valid() && (r.Quiet() <==> old(r.Quiet()) && forall id :: id in page ==> IdClean(w, db, root, id))
  {
    for k := 0 to |page|
      invariant r.Valid() &&
        (r.Quiet() <==> old(r.Quiet()) && forall id :: id in page[..k] ==> IdClean(w, db, root, id))
    {
      ScanSnapshot(r, w, db, root, page[k], bufferSize);
      assert IdClean(w, db, root, page[k]) <==> SnapshotClean(w, db, root, page[k]);
      assert forall id :: id in page[..k + 1] <==> id in page[..k] || id == page[k];
      assert page[..k + 1] == page[..k] + [page[k]];
    }
    assert page[..|page|] == page;
  }

  method ScanSnapshots(r: ScanRecorder, w: World, db: Database, root: Node, bufferSize: nat)
    requires r.Valid() && bufferSize > 0
    modifies r
    ensures r.Valid() && (r.Quiet() <==> old(r.Quiet()) && forall id :: id in db.snapshots ==> IdClean(w, db, root, id))
  {
    var ids := db.snapshots.Keys;
    var after: int := -1;
    while true
      invariant r.Valid()
      invariant r.Quiet() <==> old(r.Quiet()) && forall id :: id in ids && id <= after ==> IdClean(w, db, root, id)
      decreases Beyond(ids, after)
    {
      var page := Page(ids, after);
      if page == [] { break; }
      ScanSnapshotPage(r, w, db, root, page, bufferSize);
      assert forall id :: id in ids && id <= page[|page| - 1] <==> (id in ids && id <= after) || id in page;
      after := page[|page| - 1];
    }
    assert forall id :: id in ids ==> id !in Beyond(ids, after);
  }

  // ---- blob rows ----

  method ClassifyBlobLiveness(r: ScanRecorder, db: Database, b: nat, now: int)
    requires r.Valid() && b in db.blobs
    modifies r
    ensures r.Valid() && (r.Quiet() <==> old(r.Quiet()) && CandidateSound(db, b, now))
  {
    var row := db.blobs[b];
    var hasCandidate := row.orphanedAt || row.eligibleAfter || row.eligibleSeq.Some?;
    if LiveReference(db, b) {
      if hasCandidate { r.Record(Finding(BlobStaleCandidate, Warning, None, None, Some(b))); }
      return;
    }
    if row.orphanedAt && row.eligibleAfter && row.eligibleSeq.Some? {
      if row.eligibleSeq.value > now { r.Record(Finding(BlobGraceCandidate, Info, None, None, Some(b))); }
      else { r.Record(Finding(BlobGcEligibleCandidate, Warning, None, None, Some(b))); }
    } else {
      r.Record(Finding(BlobOrphan, Error, None, None, Some(b)));
    }
  }

  predicate MetadataValid(w: World, row: BlobRow) {
    StorageDigest(row.digest) && 0 <= row.size <= w.limits.artifactStored && row.compression.Some?
  }

  // The first half of a page: liveness and metadata of each row, and jobs for the rows that pass.
  method BlobJobs(r: ScanRecorder, w: World, db: Database, page: seq<nat>, now: int) returns (jobs: seq<nat>)
    requires r.Valid() && forall k :: 0 <= k < |page| ==> page[k] in db.blobs
    modifies r
    ensures r.Valid()
    ensures r.Quiet() <==>
      old(r.Quiet()) && forall k :: 0 <= k < |page| ==>
        CandidateSound(db, page[k], now) && MetadataValid(w, db.blobs[page[k]])
    ensures forall b :: b in jobs <==> b in page && MetadataValid(w, db.blobs[b])
  {
    jobs := [];
    for k := 0 to |page|
      invariant r.Valid()
      invariant r.Quiet() <==>
        old(r.Quiet()) && forall j :: 0 <= j < k ==>
          CandidateSound(db, page[j], now) && MetadataValid(w, db.blobs[page[j]])
      invariant forall b :: b in jobs <==> b in page[..k] && MetadataValid(w, db.blobs[b])
    {
      var b := page[k];
      ClassifyBlobLiveness(r, db, b, now);
      if !MetadataValid(w, db.blobs[b]) {
        r.Record(Finding(BlobMetadataInvalid, Error, None, None, Some(b)));
      } else {
        jobs := jobs + [b];
      }
    }
    assert page[..|page|] == page;
  }

  function FindingKind(c: StoredFileCheck): Kind {
    match c
    case NonRegular => BlobFileNonRegular
    case SizeMismatch => BlobFileSizeMismatch
    case HashMismatch => BlobFileHashMismatch
    case _ => BlobFileMissing
  }

  method ScanBlobJobs(r: ScanRecorder, w: World, db: Database, root: Node, jobs: seq<nat>, bufferSize: nat)
    requires r.Valid() && bufferSize > 0 && forall b :: b in jobs ==> b in db.blobs && db.blobs[b].size >= 0
    modifies r
    ensures r.Valid()
    ensures r.Quiet() <==>
      old(r.Quiet()) && forall b :: b in jobs ==> StoredHealthy(w, root, db.blobs[b].digest, db.blobs[b].size)
  {
    for k := 0 to |jobs|
      invariant r.Valid()
      invariant r.Quiet() <==>
        old(r.Quiet()) && forall b :: b in jobs[..k] ==> StoredHealthy(w, root, db.blobs[b].digest, db.blobs[b].size)
    {
      var row := db.blobs[jobs[k]];
      var check := ScanStoredFile(w, root, row.digest, row.size, bufferSize);
      if !check.StoredFine? { r.Record(Finding(FindingKind(check), Error, None, None, Some(jobs[k]))); }
      assert jobs[..k + 1] == jobs[..k] + [jobs[k]];
    }
    assert jobs[..|jobs|] == jobs;
  }

  method ScanBlobRows(r: ScanRecorder, w: World, db: Database, root: Node, now: int, bufferSize: nat)
    requires r.Valid() && bufferSize > 0
    modifies r
    ensures r.Valid() && (r.Quiet() <==> old(r.Quiet()) && forall b :: b in db.blobs ==> BlobSound(w, db, root, b, now))
  {
    var ids := db.blobs.Keys;
    var after: int := -1;
    while true
      invariant r.Valid()
      invariant r.Quiet() <==> old(r.Quiet()) && forall b :: b in ids && b <= after ==> BlobSound(w, db, root, b, now)
      decreases Beyond(ids, after)
    {
      var page := Page(ids, after);
      if page == [] { break; }
      var jobs := BlobJobs(r, w, db, page, now);
      ScanBlobJobs(r, w, db, root, jobs, bufferSize);
      PageSound(w, db, root, page, jobs, now);
      assert forall b :: b in ids && b <= page[|page| - 1] <==> (b in ids && b <= after) || b in page;
      after := page[|page| - 1];
    }
    assert forall b :: b in ids ==> b !in Beyond(ids, after);
  }

  lemma PageSound(w: World, db: Database, root: Node, page: seq<nat>, jobs: seq<nat>, now: int)
    requires forall k :: 0 <= k < |page| ==> page[k] in db.blobs
    requires forall b :: b in jobs <==> b in page && MetadataValid(w, db.blobs[b])
    ensures (forall b :: b in page ==> BlobSound(w, db, root, b, now)) <==>
      && (forall k :: 0 <= k < |page| ==> CandidateSound(db, page[k], now) && MetadataValid(w, db.blobs[page[k]]))
      && (forall b :: b in jobs ==> StoredHealthy(w, root, db.blobs[b].digest, db.blobs[b].size))
  {
    if forall b :: b in page ==> BlobSound(w, db, root, b, now) {
      forall k | 0 <= k < |page| ensures CandidateSound(db, page[k], now) && MetadataValid(w, db.blobs[page[k]]) {
        assert BlobSound(w, db, root, page[k], now);
      }
      forall b | b in jobs ensures StoredHealthy(w, root, db.blobs[b].digest, db.blobs[b].size) {
        assert BlobSound(w, db, root, b, now);
      }
    }
  }

  // ---- the blob directory ----

  method Unexpected(r: ScanRecorder)
    requires r.Valid()
    modifies r
    ensures r.Valid() && !r.Quiet()
  {
    r.Record(Finding(UnexpectedBlobFile, Error, None, None, None));
  }

  method InventoryBlobShard(r: ScanRecorder, db: Database, shard: string, children: map<string, Node>)
    requires r.Valid()
    modifies r
    ensures r.Valid() && (r.Quiet() <==> old(r.Quiet()) && ShardFine(db, shard, children))
  {
    var names := children.Keys;
    while names != {}
      invariant r.Valid() && names <= children.Keys
      invariant r.Quiet() <==>
        old(r.Quiet()) && forall name :: name in children && name !in names ==> ShardEntryFine(db, shard, name)
    {
      var name :| name in names;
      names := names - {name};
      if TemporaryName(name) {
      } else if StorageDigest(name) && name[..2] == shard {
        if !RowFor(db, name) { Unexpected(r); }
      } else {
        Unexpected(r);
      }
    }
  }

  method InventorySha256Directory(r: ScanRecorder, db: Database, children: map<string, Node>)
    requires r.Valid()
    modifies r
    ensures r.Valid() && (r.Quiet() <==> old(r.Quiet()) && DigestDirectoryFine(db, children))
  {
    var names := children.Keys;
    while names != {}
      invariant r.Valid() && names <= children.Keys
      invariant r.Quiet() <==>
        old(r.Quiet()) && forall name ::
          name in children && name !in names ==> DigestEntryFine(db, name, children[name])
    {
      var name :| name in names;
      names := names - {name};
      if TemporaryName(name) {
      } else if children[name].Directory? && ShardName(name) {
        InventoryBlobShard(r, db, name, children[name].children);
      } else {
        Unexpected(r);
      }
    }
  }

  method InventoryBlobFiles(r: ScanRecorder, db: Database, root: Node)
    requires r.Valid()
    modifies r
    ensures r.Valid() && (r.Quiet() <==> old(r.Quiet()) && RootFine(db, root))
  {
    if !root.Directory? {
      Unexpected(r);
      return;
    }
    var names := root.children.Keys;
    while names != {}
      invariant r.Valid() && names <= root.children.Keys
      invariant r.Quiet() <==>
        old(r.Quiet()) && forall name ::
          name in root.children && name !in names ==> RootEntryFine(db, name, root.children[name])
    {
      var name :| name in names;
      names := names - {name};
      if name == "sha256" {
        if root.children[name].Directory? {
          InventorySha256Directory(r, db, root.children[name].children);
        } else {
          Unexpected(r);
        }
      } else if !TemporaryName(name) {
        Unexpected(r);
      }
    }
  }

  // ---- the whole scan ----

  ghost predicate RowsClean(db: Database) {
    db.quickCheck && ForeignKeysHold(db) && Dangling(db) == {} && OfTombstoned(db) == {}
  }

  method ScanReferences(r: ScanRecorder, db: Database)
    requires r.Valid()
    modifies r
    ensures r.Valid() && (r.Quiet() <==> old(r.Quiet()) && RowsClean(db))
  {
    ScanDatabaseIntegrity(r, db);
    ReportRows(r, db, Dangling(db), ArtifactBlobReferenceMissing);
    ReportRows(r, db, OfTombstoned(db), SnapshotProjectionDrift);
  }

  ghost predicate ContentClean(w: World, db: Database, root: Node, now: int) {
    && (forall id :: id in db.snapshots ==> IdClean(w, db, root, id))
    && (forall b :: b in db.blobs ==> BlobSound(w, db, root, b, now))
  }

  method ScanContent(r: ScanRecorder, w: World, db: Database, root: Node, now: int, bufferSize: nat)
    requires r.Valid() && bufferSize > 0
    modifies r
    ensures r.Valid() && (r.Quiet() <==> old(r.Quiet()) && ContentClean(w, db, root, now))
  {
    ScanSnapshots(r, w, db, root, bufferSize);
    ScanBlobRows(r, w, db, root, now, bufferSize);
  }

  lemma CleanParts(w: World, db: Database, root: Node, now: int)
    ensures ScanClean(w, db, root, now) <==> RowsClean(db) && ContentClean(w, db, root, now) && RootFine(db, root)
  {
    if ScanClean(w, db, root, now) {
      forall id | id in db.snapshots ensures IdClean(w, db, root, id) {}
    }
    if ContentClean(w, db, root, now) {
      forall id | id in db.snapshots ensures SnapshotClean(w, db, root, id) { assert IdClean(w, db, root, id); }
    }
  }

  method ScanAll(r: ScanRecorder, w: World, db: Database, root: Node, now: int, bufferSize: nat)
    requires r.Valid() && bufferSize > 0
    modifies r
    ensures r.Valid() && (r.Quiet() <==> old(r.Quiet()) && ScanClean(w, db, root, now))
  {
    ScanReferences(r, db);
    ScanContent(r, w, db, root, now, bufferSize);
    InventoryBlobFiles(r, db, root);
    CleanParts(w, db, root, now);
  }

  /** A scan reports Healthy exactly when no phase has anything to act on. A sound archive always scans as healthy; the
      converse holds when the stored manifests are aligned with their normal forms, in particular when they list their
      artifacts in path order. */
  method ScanArchive(w: World, db: Database, root: Node, now: int, bufferSize: nat) returns (report: Report)
    requires bufferSize > 0
    ensures report.healthy <==> ScanClean(w, db, root, now)
    ensures SoundArchive(w, db, root, now) <==> report.healthy && UnexaminedHeld(w, db, root)
    ensures Aligned(w, db) ==> (report.healthy <==> SoundArchive(w, db, root, now))
    ensures StoredInOrder(w, db) ==> Aligned(w, db)
    ensures report.healthy && StoredInOrder(w, db) ==> H.ArchiveReads(w, db, root, now)
  {
    var r := new ScanRecorder();
    ScanAll(r, w, db, root, now, bufferSize);
    report := r.Complete();
    SoundIffCleanAndSkippedHeld(w, db, root, now);
    if Aligned(w, db) { CleanIffSound(w, db, root, now); }
    if StoredInOrder(w, db) {
      OrderedIsAligned(w, db);
      if SoundArchive(w, db, root, now) { H.SoundSpelled(w, db, root, now); }
    }
  }
}
