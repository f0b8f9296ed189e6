/** Chunk arithmetic: the negotiated layout of an artifact, completeness of the
    accepted chunks, the status bitmap, and assembly. */
module Chunks {
  import opened Basics

  const MAX_CHUNK_COUNT: nat := 65536
  const MAX_SNAPSHOT_CHUNK_COUNT: nat := 262144
  const U64_MAX: nat := 0xffff_ffff_ffff_ffff

  // ---- configuration bounds ----

  const MIN_REQUEST_BODY_BYTES: nat := 1024
  const MAX_REQUEST_BODY_BYTES: nat := 64 * 1024 * 1024
  const MIN_CHUNK_SIZE_BYTES: nat := 1024
  const MAX_CHUNK_SIZE_BYTES: nat := 32 * 1024 * 1024
  const MAX_ARTIFACT_BYTES: nat := 8 * 1024 * 1024 * 1024
  const MAX_ARTIFACT_COUNT: nat := 1024
  const MAX_SNAPSHOT_BYTES: nat := 64 * 1024 * 1024 * 1024

  datatype Config = Config(maxRequestBody: nat, chunkSize: nat, maxArtifactStored: nat, maxArtifactOriginal: nat,
                           maxArtifactCount: nat, maxSnapshotStored: nat, maxSnapshotOriginal: nat)
  datatype ConfigError =
    | InvalidRequestBodyLimit | InvalidChunkSize | ChunkExceedsRequestBody | InvalidStoredArtifactLimit
    | InvalidOriginalArtifactLimit | InvalidArtifactCountLimit | InvalidStoredSnapshotLimit
    | InvalidOriginalSnapshotLimit | TooManyChunks

  function MaxStoredBytes(chunkSize: nat): Option<nat> {
    if chunkSize * MAX_CHUNK_COUNT <= U64_MAX then Some(chunkSize * MAX_CHUNK_COUNT) else None
  }

  function Validate(c: Config): Option<ConfigError> {
    if !(MIN_REQUEST_BODY_BYTES <= c.maxRequestBody <= MAX_REQUEST_BODY_BYTES) then Some(InvalidRequestBodyLimit)
    else if !(MIN_CHUNK_SIZE_BYTES <= c.chunkSize <= MAX_CHUNK_SIZE_BYTES) then Some(InvalidChunkSize)
    else if c.chunkSize > c.maxRequestBody then Some(ChunkExceedsRequestBody)
    else if c.maxArtifactStored == 0 || c.maxArtifactStored > MAX_ARTIFACT_BYTES then Some(InvalidStoredArtifactLimit)
    else if c.maxArtifactOriginal == 0 || c.maxArtifactOriginal > MAX_ARTIFACT_BYTES
    then Some(InvalidOriginalArtifactLimit)
    else if !(1 <= c.maxArtifactCount <= MAX_ARTIFACT_COUNT) then Some(InvalidArtifactCountLimit)
    else if c.maxSnapshotStored == 0 || c.maxSnapshotStored > MAX_SNAPSHOT_BYTES then Some(InvalidStoredSnapshotLimit)
    else if c.maxSnapshotOriginal == 0 || c.maxSnapshotOriginal > MAX_SNAPSHOT_BYTES
    then Some(InvalidOriginalSnapshotLimit)
    else if MaxStoredBytes(c.chunkSize).None? || c.maxArtifactStored > MaxStoredBytes(c.chunkSize).value
    then Some(TooManyChunks)
    else None
  }

  // ---- layout ----

  function ChunkCount(stored: nat, chunkSize: nat): Option<nat> {
    if chunkSize == 0 then None
    else
      var count := if stored == 0 then 0 else (stored - 1) / chunkSize + 1;
      if count > MAX_CHUNK_COUNT then None else Some(count)
  }

  function ExpectedLength(stored: nat, chunkSize: nat, count: nat, index: nat): Option<nat> {
    if index >= count then None
    else if index * chunkSize > U64_MAX then None
    else if index + 1 == count then
      if index * chunkSize <= stored then Some(stored - index * chunkSize) else None
    else Some(chunkSize)
  }

  lemma DivBounds(a: nat, b: nat)
    requires b > 0
    ensures a / b * b <= a < (a / b + 1) * b
  {
  }

  lemma MulMonotone(a: nat, b: nat, c: nat)
    requires a <= b
    ensures a * c <= b * c
  {
  }

  lemma Successor(a: nat, c: nat)
    ensures (a + 1) * c == a * c + c
  {
  }

  lemma QuotientAbove(a: nat, b: nat, q: nat)
    requires b > 0 && a >= q * b
    ensures a / b >= q
  {
    if a / b < q {
      DivBounds(a, b);
      MulMonotone(a / b + 1, q, b);
    }
  }

  lemma QuotientBelow(a: nat, b: nat, q: nat)
    requires b > 0 && a < q * b
    ensures a / b < q
  {
    if a / b >= q {
      DivBounds(a, b);
      MulMonotone(q, a / b, b);
    }
  }

  /** An artifact is refused for its chunk count exactly when it is larger than 65,536 chunks can hold. */
  lemma CountedIffBounded(stored: nat, chunkSize: nat)
    requires chunkSize > 0
    ensures ChunkCount(stored, chunkSize).Some? <==> stored <= MAX_CHUNK_COUNT * chunkSize
  {
    if stored > 0 {
      if stored <= MAX_CHUNK_COUNT * chunkSize { QuotientBelow(stored - 1, chunkSize, MAX_CHUNK_COUNT); }
      else { QuotientAbove(stored - 1, chunkSize, MAX_CHUNK_COUNT); }
    }
  }

  /** Exactly which configurations are accepted: request bodies of 1 KiB to 64 MiB, chunks of 1 KiB to 32 MiB that
      fit a body, artifacts of 1 byte to 8 GiB, 1 to 1024 of them, snapshots of 1 byte to 64 GiB, and no stored
      artifact of more than 65,536 chunks. */
  lemma AcceptedConfigurations(c: Config)
    ensures Validate(c).None? <==>
      && 1024 <= c.maxRequestBody <= 67108864 && 1024 <= c.chunkSize <= 33554432 && c.chunkSize <= c.maxRequestBody
      && 1 <= c.maxArtifactStored <= 8589934592 && 1 <= c.maxArtifactOriginal <= 8589934592
      && 1 <= c.maxArtifactCount <= 1024
      && 1 <= c.maxSnapshotStored <= 68719476736 && 1 <= c.maxSnapshotOriginal <= 68719476736
      && c.maxArtifactStored <= c.chunkSize * 65536
  {
  }

  /** No validated configuration admits an artifact that needs more than 65,536 chunks. */
  lemma ConfigurationBoundsChunks(c: Config, stored: nat)
    requires Validate(c).None? && stored <= c.maxArtifactStored
    ensures ChunkCount(stored, c.chunkSize).Some?
  {
    CountedIffBounded(stored, c.chunkSize);
  }

  // The negotiated offsets: chunk i starts at i * chunkSize, and the last chunk ends the artifact.
  lemma CountBounds(stored: nat, chunkSize: nat, count: nat)
    requires ChunkCount(stored, chunkSize) == Some(count)
    ensures chunkSize > 0 && (count == 0 <==> stored == 0)
    ensures count > 0 ==> (count - 1) * chunkSize < stored <= count * chunkSize
  {
    if stored > 0 { DivBounds(stored - 1, chunkSize); }
  }

  /** Every chunk of a layout has a length between 1 and the chunk size, computed without underflow, and ends
      where the next one starts. */
  lemma LengthsFit(stored: nat, chunkSize: nat, count: nat, i: nat)
    requires ChunkCount(stored, chunkSize) == Some(count) && stored <= U64_MAX && i < count
    ensures ExpectedLength(stored, chunkSize, count, i).Some?
    ensures var length := ExpectedLength(stored, chunkSize, count, i).value;
      && 1 <= length <= chunkSize && i * chunkSize + length <= stored
      && (if i + 1 < count then i * chunkSize + length == (i + 1) * chunkSize else i * chunkSize + length == stored)
  {
    CountBounds(stored, chunkSize, count);
    MulMonotone(i, count - 1, chunkSize);
    Successor(i, chunkSize);
    if i + 1 < count { MulMonotone(i + 1, count - 1, chunkSize); }
  }

  // The length of chunk number index: a full chunk, or what is left of the artifact, which 65,536 chunks must hold.
  predicate Negotiated(stored: nat, chunkSize: nat, index: nat, length: nat) {
    && 0 < stored <= 0x1_0000 * chunkSize && index * chunkSize < stored
    && length == if stored - index * chunkSize < chunkSize then stored - index * chunkSize else chunkSize
  }

  /** The layout gives a chunk exactly this length, for every size a 64-bit integer can hold. */
  lemma NegotiatedIff(stored: nat, chunkSize: nat, index: nat, length: nat)
    ensures GivesLength(stored, chunkSize, index, length) ==> Negotiated(stored, chunkSize, index, length)
    ensures Negotiated(stored, chunkSize, index, length) && stored <= U64_MAX ==>
      GivesLength(stored, chunkSize, index, length)
  {
    if GivesLength(stored, chunkSize, index, length) {
      CountFits(stored, chunkSize, index);
    } else if Negotiated(stored, chunkSize, index, length) && stored <= U64_MAX {
      IndexInCount(stored, chunkSize, index);
      LengthsFit(stored, chunkSize, ChunkCount(stored, chunkSize).value, index);
    }
  }

  predicate GivesLength(stored: nat, chunkSize: nat, index: nat, length: nat) {
    var count := ChunkCount(stored, chunkSize);
    count.Some? && ExpectedLength(stored, chunkSize, count.value, index) == Some(length)
  }

  lemma CountFits(stored: nat, chunkSize: nat, index: nat)
    requires var count := ChunkCount(stored, chunkSize); count.Some? && index < count.value
    ensures stored <= 0x1_0000 * chunkSize && index * chunkSize < stored
    ensures if index + 1 < ChunkCount(stored, chunkSize).value then index * chunkSize + chunkSize < stored
            else stored <= index * chunkSize + chunkSize
  {
    var count := ChunkCount(stored, chunkSize).value;
    CountBounds(stored, chunkSize, count);
    MulMonotone(index, count - 1, chunkSize);
    MulMonotone(count, 0x1_0000, chunkSize);
    Successor(index, chunkSize);
    if index + 1 < count { MulMonotone(index + 1, count - 1, chunkSize); }
  }

  lemma IndexInCount(stored: nat, chunkSize: nat, index: nat)
    requires 0 < stored <= 0x1_0000 * chunkSize && index * chunkSize < stored
    ensures ChunkCount(stored, chunkSize).Some? && index < ChunkCount(stored, chunkSize).value
  {
    var count := (stored - 1) / chunkSize + 1;
    DivBounds(stored - 1, chunkSize);
    if count > 0x1_0000 { MulMonotone(0x1_0000, count - 1, chunkSize); }
    if count <= index { MulMonotone(count, index, chunkSize); }
  }

  function Lengths(stored: nat, chunkSize: nat, count: nat, n: nat): nat
    requires ChunkCount(stored, chunkSize) == Some(count) && stored <= U64_MAX && n <= count
  {
    if n == 0 then 0
    else
      LengthsFit(stored, chunkSize, count, n - 1);
      Lengths(stored, chunkSize, count, n - 1) + ExpectedLength(stored, chunkSize, count, n - 1).value
  }

  lemma {:induction false} LengthsToHere(stored: nat, chunkSize: nat, count: nat, n: nat)
    requires ChunkCount(stored, chunkSize) == Some(count) && stored <= U64_MAX && n <= count
    ensures Lengths(stored, chunkSize, count, n) == if n < count then n * chunkSize else stored
  {
    CountBounds(stored, chunkSize, count);
    if n > 0 {
      LengthsToHere(stored, chunkSize, count, n - 1);
      LengthsFit(stored, chunkSize, count, n - 1);
    }
  }

  /** The expected lengths of all chunks add up to the stored size. */
  lemma LengthsSumToSize(stored: nat, chunkSize: nat, count: nat)
    requires ChunkCount(stored, chunkSize) == Some(count) && stored <= U64_MAX
    ensures Lengths(stored, chunkSize, count, count) == stored
  {
    LengthsToHere(stored, chunkSize, count, count);
  }

  function TotalChunks(sizes: seq<nat>, chunkSize: nat): nat {
    if sizes == [] then 0
    else TotalChunks(sizes[..|sizes| - 1], chunkSize) + match ChunkCount(sizes[|sizes| - 1],
                                                                         chunkSize) case Some(n) => n case None => 0
  }

  ghost predicate Countable(sizes: seq<nat>, chunkSize: nat) {
    forall i :: 0 <= i < |sizes| ==> ChunkCount(sizes[i], chunkSize).Some?
  }

  lemma {:induction false} TotalGrows(sizes: seq<nat>, chunkSize: nat, n: nat)
    requires n <= |sizes|
    ensures TotalChunks(sizes[..n], chunkSize) <= TotalChunks(sizes, chunkSize)
    decreases |sizes| - n
  {
    if n < |sizes| {
      TotalGrows(sizes, chunkSize, n + 1);
      assert sizes[..n + 1][..n] == sizes[..n];
    } else {
      assert sizes[..n] == sizes;
    }
  }

  /** Chunk counts for every artifact, refused exactly when one artifact or the snapshot needs too many. */
  method UploadLayout(sizes: seq<nat>, chunkSize: nat) returns (counts: Option<seq<nat>>)
    ensures counts.Some? <==> Countable(sizes, chunkSize) && TotalChunks(sizes, chunkSize) <= MAX_SNAPSHOT_CHUNK_COUNT
    ensures counts.Some? ==>
      |counts.value| == |sizes| && forall i :: 0 <= i < |sizes| ==> ChunkCount(sizes[i],
                                                                               chunkSize) == Some(counts.value[i])
  {
    var chunkCounts: seq<nat> := [];
    var total := 0;
    for k := 0 to |sizes|
      invariant |chunkCounts| == k && total == TotalChunks(sizes[..k], chunkSize) <= MAX_SNAPSHOT_CHUNK_COUNT
      invariant forall i :: 0 <= i < k ==> ChunkCount(sizes[i], chunkSize) == Some(chunkCounts[i])
    {
      var count := ChunkCount(sizes[k], chunkSize);
      if count.None? { return None; }
      assert sizes[..k + 1][..k] == sizes[..k];
      total := total + count.value;
      if total > MAX_SNAPSHOT_CHUNK_COUNT {
        TotalGrows(sizes, chunkSize, k + 1);
        return None;
      }
      chunkCounts := chunkCounts + [count.value];
    }
    assert sizes[..|sizes|] == sizes;
    counts := Some(chunkCounts);
  }

  // ---- completeness by COUNT, MIN and MAX ----

  // The accepted indexes of one artifact; the table's key makes them a set.
  datatype Accepted = Accepted(indexes: set<nat>, count: nat)

  ghost predicate IsLeast(s: set<nat>, m: nat) {
    m in s && forall x: nat :: x in s ==> m <= x
  }

  ghost predicate IsGreatest(s: set<nat>, m: nat) {
    m in s && forall x: nat :: x in s ==> x <= m
  }

  ghost function MinOf(s: set<nat>): Option<nat> {
    if exists m: nat :: IsLeast(s, m) then var m: nat :| IsLeast(s, m); Some(m) else None
  }

  ghost function MaxOf(s: set<nat>): Option<nat> {
    if exists m: nat :: IsGreatest(s, m) then var m: nat :| IsGreatest(s, m); Some(m) else None
  }

  function Range(n: nat): (r: set<nat>)
    ensures forall i: nat :: i in r <==> i < n
  {
    if n == 0 then {} else Range(n - 1) + {n - 1}
  }

  lemma {:induction false} RangeSize(n: nat)
    ensures |Range(n)| == n
  {
    if n > 0 {
      RangeSize(n - 1);
      assert n - 1 !in Range(n - 1);
    }
  }

  lemma {:induction false} SubsetSize(a: set<nat>, b: set<nat>)
    requires a <= b
    ensures |a| <= |b|
    ensures |a| == |b| ==> a == b
  {
    if a != {} {
      var x :| x in a;
      SubsetSize(a - {x}, b - {x});
      assert b == (b - {x}) + {x};
      assert a == (a - {x}) + {x};
    }
  }

  // The query's three aggregates, tested as the server tests them.
  ghost predicate CountsComplete(indexes: set<nat>, count: nat) {
    && |indexes| == count
    && !(count == 0 && (MinOf(indexes).Some? || MaxOf(indexes).Some?))
    && !(count > 0 && (MinOf(indexes) != Some(0) || MaxOf(indexes) != Some(count - 1)))
  }

  /** COUNT, MIN and MAX decide completeness exactly: the accepted indexes are 0 to n - 1. */
  lemma CountMinMaxIsExact(indexes: set<nat>, count: nat)
    ensures CountsComplete(indexes, count) <==> indexes == Range(count)
  {
    RangeSize(count);
    if CountsComplete(indexes, count) { WithinRange(indexes, count); }
    if indexes == Range(count) {
      if count > 0 {
        assert IsLeast(indexes, 0) && IsGreatest(indexes, count - 1);
      } else {
        assert forall m: nat :: !IsLeast(indexes, m) && !IsGreatest(indexes, m);
      }
    }
  }

  lemma WithinRange(indexes: set<nat>, count: nat)
    requires CountsComplete(indexes, count)
    ensures indexes == Range(count)
  {
    RangeSize(count);
    if count > 0 {
      assert IsGreatest(indexes, count - 1);
      forall x: nat | x in indexes ensures x in Range(count) {}
      SubsetSize(indexes, Range(count));
    }
  }

  // One pass over the rows of an artifact, as the aggregate query makes.
  method Aggregates(indexes: set<nat>) returns (count: nat, least: Option<nat>, greatest: Option<nat>)
    ensures count == |indexes| && least == MinOf(indexes) && greatest == MaxOf(indexes)
  {
    count, least, greatest := 0, None, None;
    var remaining := indexes;
    while remaining != {}
      invariant remaining <= indexes && count + |remaining| == |indexes|
      invariant least.None? <==> remaining == indexes
      invariant greatest.None? <==> remaining == indexes
      invariant least.Some? ==>
        least.value in indexes && forall x: nat :: x in indexes && x !in remaining ==> least.value <= x
      invariant greatest.Some? ==>
        greatest.value in indexes && forall x: nat :: x in indexes && x !in remaining ==> x <= greatest.value
      decreases |remaining|
    {
      var x :| x in remaining;
      if least.None? || x < least.value { least := Some(x); }
      if greatest.None? || x > greatest.value { greatest := Some(x); }
      count := count + 1;
      remaining := remaining - {x};
    }
    if indexes != {} {
      assert IsLeast(indexes, least.value) && IsGreatest(indexes, greatest.value);
    } else {
      assert forall m: nat :: !IsLeast(indexes, m) && !IsGreatest(indexes, m);
    }
  }

  /** An upload is complete when every artifact has exactly the chunks 0 to n - 1; an upload without
      artifacts is an error. */
  method UploadIsComplete(artifacts: seq<Accepted>) returns (complete: Option<bool>)
    ensures complete.None? <==> artifacts == []
    ensures complete.Some? ==>
      (complete.value <==> forall k :: 0 <= k < |artifacts| ==> artifacts[k].indexes == Range(artifacts[k].count))
  {
    if artifacts == [] { return None; }
    for k := 0 to |artifacts|
      invariant forall j :: 0 <= j < k ==> artifacts[j].indexes == Range(artifacts[j].count)
    {
      var a := artifacts[k];
      var count, least, greatest := Aggregates(a.indexes);
      CountMinMaxIsExact(a.indexes, a.count);
      if count != a.count || (a.count == 0 && (least.Some? || greatest.Some?)) ||
         (a.count > 0 && (least != Some(0) || greatest != Some(a.count - 1)))
      {
        return Some(false);
      }
    }
    complete := Some(true);
  }

  // ---- the status bitmap ----

  // 1 shifted left by k.
  function Mask(k: nat): bv8
    requires k < 8
  {
    if k == 0 then 1 else if k == 1 then 2 else if k == 2 then 4 else if k == 3 then 8
    else if k == 4 then 16 else if k == 5 then 32 else if k == 6 then 64 else 128
  }

  predicate BitSet(b: bv8, k: nat)
    requires k < 8
  {
    b & Mask(k) != 0
  }

  predicate Marked(bitmap: seq<bv8>, i: nat)
    requires i / 8 < |bitmap|
  {
    BitSet(bitmap[i / 8], i % 8)
  }

  lemma SetsOneBit(b: bv8, k: nat, j: nat)
    requires k < 8 && j < 8
    ensures BitSet(b | Mask(k), j) <==> BitSet(b, j) || j == k
  {
  }

  lemma MarksOne(bitmap: seq<bv8>, i: nat, j: nat)
    requires i / 8 < |bitmap| && j / 8 < |bitmap|
    ensures Marked(bitmap[i / 8 := bitmap[i / 8] | Mask(i % 8)], j) <==> Marked(bitmap, j) || i == j
  {
    SetsOneBit(bitmap[i / 8], i % 8, j % 8);
  }

  function BitmapBytes(count: nat): nat {
    (count + 7) / 8
  }

  // The byte whose eight bits are these, the first the least significant.
  function ByteOf(b0: bool, b1: bool, b2: bool, b3: bool, b4: bool, b5: bool, b6: bool, b7: bool): bv8 {
    (if b0 then 1 else 0) + (if b1 then 2 else 0) + (if b2 then 4 else 0) + (if b3 then 8 else 0) +
    (if b4 then 16 else 0) + (if b5 then 32 else 0) + (if b6 then 64 else 0) + (if b7 then 128 else 0)
  }

  lemma BitsMakeByte(b: bv8)
    ensures b == ByteOf(BitSet(b, 0), BitSet(b, 1), BitSet(b, 2), BitSet(b, 3),
                        BitSet(b, 4), BitSet(b, 5), BitSet(b, 6), BitSet(b, 7))
  {
  }

  // Byte j of the bitmap of these chunk indexes.
  function ByteAt(rows: seq<nat>, j: nat): bv8 {
    ByteOf(8 * j in rows, 8 * j + 1 in rows, 8 * j + 2 in rows, 8 * j + 3 in rows,
           8 * j + 4 in rows, 8 * j + 5 in rows, 8 * j + 6 in rows, 8 * j + 7 in rows)
  }

  lemma BytesAreSums(bitmap: seq<bv8>, rows: seq<nat>, j: nat)
    requires j < |bitmap| && forall i :: 0 <= i < 8 * |bitmap| ==> (Marked(bitmap, i) <==> i in rows)
    ensures bitmap[j] == ByteAt(rows, j)
  {
    BitsMakeByte(bitmap[j]);
    forall k: nat | k < 8 ensures BitSet(bitmap[j], k) <==> 8 * j + k in rows {
      assert Marked(bitmap, 8 * j + k) <==> BitSet(bitmap[j], k);
    }
  }

  /** The bitmap has bit i % 8 of byte i / 8 set exactly for the accepted chunks i, and the missing list is the
      ascending complement; a chunk outside the layout is an error. */
  method UploadArtifactStatus(count: nat, rows: seq<nat>) returns (status: Option<(seq<bv8>, seq<nat>)>)
    ensures status.None? <==> exists k :: 0 <= k < |rows| && rows[k] >= count
    ensures status.Some? ==> |status.value.0| == BitmapBytes(count)
    ensures status.Some? ==> forall i :: 0 <= i < 8 * BitmapBytes(count) ==> (Marked(status.value.0, i) <==> i in rows)
    ensures status.Some? ==> forall j: nat :: j < BitmapBytes(count) ==> status.value.0[j] == ByteAt(rows, j)
    ensures status.Some? ==> StrictlyAscending(status.value.1)
    ensures status.Some? ==> forall i: nat :: i in status.value.1 <==> i < count && i !in rows
  {
    var bitmap := seq(BitmapBytes(count), _ => 0 as bv8);
    for k := 0 to |rows|
      invariant |bitmap| == BitmapBytes(count)
      invariant forall j :: 0 <= j < k ==> rows[j] < count
      invariant forall i :: 0 <= i < 8 * |bitmap| ==> (Marked(bitmap, i) <==> i in rows[..k])
    {
      var index := rows[k];
      if index >= count { return None; }
      ghost var before := bitmap;
      bitmap := bitmap[index / 8 := bitmap[index / 8] | Mask(index % 8)];
      forall i | 0 <= i < 8 * |bitmap| ensures Marked(bitmap, i) <==> i in rows[..k + 1] {
        MarksOne(before, index, i);
        assert rows[..k + 1] == rows[..k] + [rows[k]];
      }
    }
    assert rows[..|rows|] == rows;
    var missing: seq<nat> := [];
    for i := 0 to count
      invariant StrictlyAscending(missing) && forall k :: 0 <= k < |missing| ==> missing[k] < i
      invariant forall j: nat :: j in missing <==> j < i && j !in rows
    {
      if bitmap[i / 8] & Mask(i % 8) == 0 { missing := missing + [i]; }
    }
    forall j: nat | j < |bitmap| ensures bitmap[j] == ByteAt(rows, j) { BytesAreSums(bitmap, rows, j); }
    status := Some((bitmap, missing));
  }

  // ---- assembly ----

  datatype ChunkRow = ChunkRow(index: nat, length: nat, sha256: Digest)

  function Concat(parts: seq<Bytes>): Bytes {
    if parts == [] then [] else Concat(parts[..|parts| - 1]) + parts[|parts| - 1]
  }

  // The accepted rows are chunks 0 to n - 1 with their negotiated lengths.
  predicate LayoutAccepted(rows: seq<ChunkRow>, stored: nat, chunkSize: nat, count: nat) {
    |rows| == count &&
    forall i :: 0 <= i < |rows| ==>
      rows[i].index == i && ExpectedLength(stored, chunkSize, count, i) == Some(rows[i].length)
  }

  method AcceptedChunkLayout(rows: seq<ChunkRow>, stored: nat, chunkSize: nat, count: nat) returns (ok: bool)
    ensures ok <==> LayoutAccepted(rows, stored, chunkSize, count)
  {
    if |rows| != count { return false; }
    for i := 0 to |rows|
      invariant forall j :: 0 <= j < i ==>
        rows[j].index == j && ExpectedLength(stored, chunkSize, count, j) == Some(rows[j].length)
    {
      if rows[i].index != i { return false; }
      if ExpectedLength(stored, chunkSize, count, i) != Some(rows[i].length) { return false; }
    }
    ok := true;
  }

  // The file of each row is there and holds the recorded length and digest.
  ghost predicate ChunkHeld(sha256: Bytes -> Digest, files: map<nat, Bytes>, row: ChunkRow) {
    row.index in files && |files[row.index]| == row.length && sha256(files[row.index]) == row.sha256
  }

  ghost function Parts(files: map<nat, Bytes>, n: nat): seq<Bytes>
    requires forall i: nat :: i < n ==> i in files
  {
    seq(n, i requires 0 <= i < n => files[i])
  }

  ghost predicate Assembles(sha256: Bytes -> Digest, files: map<nat, Bytes>, rows: seq<ChunkRow>, stored: nat,
                            digest: Digest) {
    && (forall i :: 0 <= i < |rows| ==> rows[i].index == i && ChunkHeld(sha256, files, rows[i]))
    && (forall i: nat :: i < |rows| ==> i in files)
    && |Concat(Parts(files, |rows|))| == stored && sha256(Concat(Parts(files, |rows|))) == digest
  }

  datatype Copied = Copied(output: Bytes, hashed: Bytes)

  // Copies one chunk through a buffer, stopping as soon as it or the artifact grows too long.
  method CopyChunk(file: Bytes, expected: nat, output: Bytes, stored: nat, bufferSize: nat) returns (r: Option<Bytes>)
    requires bufferSize > 0 && |output| <= stored
    ensures r.Some? <==> |file| <= expected && |output| + |file| <= stored
    ensures r.Some? ==> r.value == output + file
  {
    var copied := 0;
    var writer := output;
    while copied < |file|
      invariant copied <= |file| && copied <= expected && |output| + copied <= stored
      invariant writer == output + file[..copied]
    {
      var read := if |file| - copied < bufferSize then |file| - copied else bufferSize;
      if copied + read > expected { return None; }
      if |output| + copied + read > stored { return None; }
      writer := writer + file[copied..copied + read];
      copied := copied + read;
      assert file[..copied] == file[..copied - read] + file[copied - read..copied];
    }
    assert file[..copied] == file;
    r := Some(writer);
  }

  lemma {:induction false} ConcatPrefix(files: map<nat, Bytes>, n: nat, m: nat)
    requires n <= m && forall i: nat :: i < m ==> i in files
    ensures |Concat(Parts(files, n))| <= |Concat(Parts(files, m))|
    ensures n < m ==> Concat(Parts(files, n + 1)) == Concat(Parts(files, n)) + files[n]
  {
    if n < m {
      assert Parts(files, n + 1)[..n] == Parts(files, n);
      assert Parts(files, m)[..m - 1] == Parts(files, m - 1);
      ConcatPrefix(files, n, m - 1);
    }
  }

  /** Assembly succeeds exactly when every recorded chunk is on disk with its length and digest and their
      concatenation in index order has the declared size and digest; the assembled file is that
      concatenation. */
  method AssembleArtifact(sha256: Bytes -> Digest, files: map<nat, Bytes>, rows: seq<ChunkRow>, stored: nat,
                          digest: Digest, bufferSize: nat)
    returns (r: Option<Bytes>)
    requires bufferSize > 0 && forall i :: 0 <= i < |rows| ==> rows[i].index == i
    ensures r.Some? <==> Assembles(sha256, files, rows, stored, digest)
    ensures r.Some? ==> r.value == Concat(Parts(files, |rows|))
  {
    var output: Bytes := [];
    for k := 0 to |rows|
      invariant forall i: nat :: i < k ==> i in files && ChunkHeld(sha256, files, rows[i])
      invariant output == Concat(Parts(files, k)) && |output| <= stored
    {
      var row := rows[k];
      if row.index !in files { return None; }
      var next := CopyChunk(files[row.index], row.length, output, stored, bufferSize);
      ConcatPrefix(files, k, k + 1);
      if next.None? {
        if Assembles(sha256, files, rows, stored, digest) { ConcatPrefix(files, k + 1, |rows|); }
        return None;
      }
      if |files[row.index]| != row.length || sha256(files[row.index]) != row.sha256 { return None; }
      output := next.value;
    }
    if |output| != stored || sha256(output) != digest { return None; }
    r := Some(output);
  }

  // Chunk i of some bytes under a layout.
  ghost function Slice(bytes: Bytes, chunkSize: nat, count: nat, i: nat): Bytes
    requires ChunkCount(|bytes|, chunkSize) == Some(count) && |bytes| <= U64_MAX && i < count
  {
    LengthsFit(|bytes|, chunkSize, count, i);
    bytes[i * chunkSize..i * chunkSize + ExpectedLength(|bytes|, chunkSize, count, i).value]
  }

  // Where chunk n starts, or the end of the artifact.
  function Boundary(stored: nat, chunkSize: nat, count: nat, n: nat): nat {
    if n < count then n * chunkSize else stored
  }

  lemma SliceSpans(bytes: Bytes, chunkSize: nat, count: nat, i: nat)
    requires ChunkCount(|bytes|, chunkSize) == Some(count) && |bytes| <= U64_MAX && i < count
    ensures Boundary(|bytes|, chunkSize, count, i) <= Boundary(|bytes|, chunkSize, count, i + 1) <= |bytes|
    ensures Slice(bytes, chunkSize, count, i) ==
      bytes[Boundary(|bytes|, chunkSize, count, i)..Boundary(|bytes|, chunkSize, count, i + 1)]
  {
    LengthsFit(|bytes|, chunkSize, count, i);
  }

  lemma {:induction false} SlicesJoin(bytes: Bytes, chunkSize: nat, count: nat, files: map<nat, Bytes>, n: nat)
    requires ChunkCount(|bytes|, chunkSize) == Some(count) && |bytes| <= U64_MAX && n <= count
    requires forall i: nat :: i < count ==> i in files && files[i] == Slice(bytes, chunkSize, count, i)
    ensures Boundary(|bytes|, chunkSize, count, n) <= |bytes|
    ensures Concat(Parts(files, n)) == bytes[..Boundary(|bytes|, chunkSize, count, n)]
  {
    if n == 0 {
      CountBounds(|bytes|, chunkSize, count);
    } else {
      SlicesJoin(bytes, chunkSize, count, files, n - 1);
      SliceSpans(bytes, chunkSize, count, n - 1);
      ConcatPrefix(files, n - 1, n);
    }
  }

  /** Slicing any bytes by the layout and assembling the chunks gives the bytes back: the rows a client
      uploads for its slices are accepted as the layout, and assembly succeeds with the original bytes. */
  lemma SlicingAndAssembling(sha256: Bytes -> Digest, bytes: Bytes, chunkSize: nat, count: nat, files: map<nat, Bytes>,
                             rows: seq<ChunkRow>)
    requires ChunkCount(|bytes|, chunkSize) == Some(count) && |bytes| <= U64_MAX && |rows| == count
    requires forall i: nat :: i < count ==> i in files && files[i] == Slice(bytes, chunkSize, count, i)
    requires forall i: nat :: i < count ==> rows[i] == ChunkRow(i, |files[i]|, sha256(files[i]))
    ensures LayoutAccepted(rows, |bytes|, chunkSize, count)
    ensures Assembles(sha256, files, rows, |bytes|, sha256(bytes)) && Concat(Parts(files, count)) == bytes
  {
    SlicesJoin(bytes, chunkSize, count, files, count);
    assert bytes[..|bytes|] == bytes;
    RowsAccepted(sha256, bytes, chunkSize, count, files, rows);
  }

  lemma RowsAccepted(sha256: Bytes -> Digest, bytes: Bytes, chunkSize: nat, count: nat, files: map<nat, Bytes>,
                     rows: seq<ChunkRow>)
    requires ChunkCount(|bytes|, chunkSize) == Some(count) && |bytes| <= U64_MAX && |rows| == count
    requires forall i: nat :: i < count ==> i in files && files[i] == Slice(bytes, chunkSize, count, i)
    requires forall i: nat :: i < count ==> rows[i] == ChunkRow(i, |files[i]|, sha256(files[i]))
    ensures LayoutAccepted(rows, |bytes|, chunkSize, count)
  {
    forall i: nat | i < count ensures ExpectedLength(|bytes|, chunkSize, count, i) == Some(rows[i].length) {
      LengthsFit(|bytes|, chunkSize, count, i);
    }
  }
}
