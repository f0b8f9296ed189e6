/** Manifest normalisation: the checks that admit a list of declared artifacts,
    and the path-sorted form in which an admitted list is stored and hashed. */
module Validation {
  import opened Basics
  import opened Catalog

  const MAX_LOGICAL_PATH_BYTES := 1024
  const I64_MAX: nat := 0x7fff_ffff_ffff_ffff
  const U64_MAX: nat := 0xffff_ffff_ffff_ffff
  const WINDOWS_RESERVED_NAMES := [
    "CON", "PRN", "AUX", "NUL", "COM1", "COM2", "COM3", "COM4", "COM5", "COM6", "COM7", "COM8",
    "COM9", "LPT1", "LPT2", "LPT3", "LPT4", "LPT5", "LPT6", "LPT7", "LPT8", "LPT9"
  ]

  type U64 = n: nat | n <= 0xffff_ffff_ffff_ffff

  // One artifact as a manifest document declares it: digests are still text.
  datatype Entry = Entry(path: string, mediaType: Option<string>, originalSize: U64, original: string,
                         storedSize: U64, stored: string, compression: Compression)

  // Configured bounds, and the media-type grammar, which is any predicate here.
  datatype Limits = Limits(artifactCount: nat, artifactStored: U64, artifactOriginal: U64,
                           snapshotStored: U64, snapshotOriginal: U64, mediaType: string -> bool)

  // ---- text ----

  function Lower(s: string): string {
    seq(|s|, i requires 0 <= i < |s| => if 'A' <= s[i] <= 'Z' then s[i] - 'A' + 'a' else s[i])
  }

  function Upper(s: string): string {
    seq(|s|, i requires 0 <= i < |s| => if 'a' <= s[i] <= 'z' then s[i] - 'a' + 'A' else s[i])
  }

  function Split(s: string, separator: char): (parts: seq<string>)
    ensures |parts| > 0
  {
    if s == "" then [""]
    else
      var rest := Split(s[1..], separator);
      if s[0] == separator then [""] + rest else [[s[0]] + rest[0]] + rest[1..]
  }

  predicate PathCharacter(c: char) {
    'a' <= c <= 'z' || 'A' <= c <= 'Z' || '0' <= c <= '9' || c == '.' || c == '_' || c == '-'
  }

  predicate ValidComponent(part: string) {
    && part != "" && part != "." && part != ".."
    && part[|part| - 1] != '.' && part[|part| - 1] != ' '
    && Upper(Split(part, '.')[0]) !in WINDOWS_RESERVED_NAMES
    && forall i :: 0 <= i < |part| ==> PathCharacter(part[i])
  }

  predicate ValidPath(path: string) {
    && 0 < |path| <= MAX_LOGICAL_PATH_BYTES && path[0] != '/'
    && var parts := Split(path, '/');
    forall i :: 0 <= i < |parts| ==> ValidComponent(parts[i])
  }

  predicate LowerHex(c: char) {
    '0' <= c <= '9' || 'a' <= c <= 'f'
  }

  predicate ValidDigest(text: string) {
    |text| == 71 && text[..7] == "sha256:" && forall i :: 7 <= i < 71 ==> LowerHex(text[i])
  }

  // ---- what is admitted ----

  predicate ValidSize(size: U64, maximum: U64) {
    size <= maximum && size <= I64_MAX
  }

  predicate Fits(limits: Limits, a: Entry) {
    && ValidPath(a.path)
    && (a.mediaType.Some? ==> limits.mediaType(a.mediaType.value))
    && ValidDigest(a.original) && ValidDigest(a.stored)
    && ValidSize(a.originalSize, limits.artifactOriginal) && ValidSize(a.storedSize, limits.artifactStored)
  }

  function OriginalTotal(entries: seq<Entry>): nat {
    if entries == [] then 0 else OriginalTotal(entries[..|entries| - 1]) + entries[|entries| - 1].originalSize
  }

  function StoredTotal(entries: seq<Entry>): nat {
    if entries == [] then 0 else StoredTotal(entries[..|entries| - 1]) + entries[|entries| - 1].storedSize
  }

  ghost predicate DistinctPaths(entries: seq<Entry>) {
    forall i, j :: 0 <= i < j < |entries| ==> Lower(entries[i].path) != Lower(entries[j].path)
  }

  ghost predicate SameBlob(a: Entry, b: Entry) {
    a.stored == b.stored ==> a.storedSize == b.storedSize && a.compression == b.compression
  }

  ghost predicate OneRepresentation(entries: seq<Entry>) {
    forall a, b :: a in entries && b in entries ==> SameBlob(a, b)
  }

  // Everything checked artifact by artifact.
  ghost predicate Admissible(limits: Limits, entries: seq<Entry>) {
    && (forall a :: a in entries ==> Fits(limits, a))
    && DistinctPaths(entries)
    && OriginalTotal(entries) <= limits.snapshotOriginal
    && StoredTotal(entries) <= limits.snapshotStored
    && OneRepresentation(entries)
  }

  // One portable path is a directory above another.
  predicate Above(ancestor: string, path: string) {
    |ancestor| < |path| && path[|ancestor|] == '/' && path[..|ancestor|] == ancestor
  }

  ghost predicate NoConflicts(entries: seq<Entry>) {
    forall a, b :: a in entries && b in entries ==> !Above(Lower(a.path), Lower(b.path))
  }

  ghost predicate Acceptable(limits: Limits, entries: seq<Entry>) {
    0 < |entries| <= limits.artifactCount && Admissible(limits, entries) && NoConflicts(entries)
  }

  // ---- path order: bytewise, as the paths are ASCII ----

  predicate Less(a: string, b: string) {
    b != "" && (a == "" || a[0] < b[0] || (a[0] == b[0] && Less(a[1..], b[1..])))
  }

  lemma {:induction false} LessTotal(a: string, b: string)
    ensures Less(a, b) || a == b || Less(b, a)
    ensures !(Less(a, b) && Less(b, a)) && !Less(a, a)
  {
    if a != "" && b != "" {
      LessTotal(a[1..], b[1..]);
      if a[1..] == b[1..] && a[0] == b[0] { assert a == [a[0]] + a[1..] == b; }
      LessTotal(a[1..], a[1..]);
    } else if a != "" {
      LessTotal(a[1..], a[1..]);
    }
  }

  lemma {:induction false} LessTransitive(a: string, b: string, c: string)
    requires Less(a, b) && Less(b, c)
    ensures Less(a, c)
  {
    if a != "" && a[0] == b[0] == c[0] { LessTransitive(a[1..], b[1..], c[1..]); }
  }

  ghost predicate ByPath(entries: seq<Entry>) {
    forall i, j :: 0 <= i < j < |entries| ==> Less(entries[i].path, entries[j].path)
  }

  /** The normal form of an accepted list: the same entries, strictly ascending by path. */
  ghost predicate NormalForm(limits: Limits, entries: seq<Entry>, normal: seq<Entry>) {
    Acceptable(limits, entries) && multiset(normal) == multiset(entries) && ByPath(normal)
  }

  // ---- order of the input does not matter ----

  lemma MemberOf(a: seq<Entry>, b: seq<Entry>, x: Entry)
    requires multiset(a) == multiset(b)
    ensures x in a <==> x in b
  {
    assert x in a <==> x in multiset(a);
    assert x in b <==> x in multiset(b);
  }

  // A permutation of list + [x], with one occurrence of x taken out.
  ghost function Without(s: seq<Entry>, k: nat): seq<Entry>
    requires k < |s|
  {
    s[..k] + s[k + 1..]
  }

  lemma WithoutMultiset(s: seq<Entry>, k: nat)
    requires k < |s|
    ensures multiset(Without(s, k)) == multiset(s) - multiset{s[k]}
  {
    assert s == s[..k] + [s[k]] + s[k + 1..];
  }

  lemma {:induction false} TotalsWithout(s: seq<Entry>, k: nat)
    requires k < |s|
    ensures OriginalTotal(s) == OriginalTotal(Without(s, k)) + s[k].originalSize
    ensures StoredTotal(s) == StoredTotal(Without(s, k)) + s[k].storedSize
  {
    var n := |s| - 1;
    if k < n {
      TotalsWithout(s[..n], k);
      assert Without(s, k)[..n - 1] == Without(s[..n], k);
    } else {
      assert Without(s, k) == s[..n];
    }
  }

  lemma {:induction false} TotalsOfPermutation(a: seq<Entry>, b: seq<Entry>)
    requires multiset(a) == multiset(b)
    ensures OriginalTotal(a) == OriginalTotal(b) && StoredTotal(a) == StoredTotal(b)
    decreases |a|
  {
    if a == [] {
      assert |b| == |multiset(b)| == 0;
    } else {
      var n := |a| - 1;
      MemberOf(a, b, a[n]);
      var k :| 0 <= k < |b| && b[k] == a[n];
      assert Without(a, n) == a[..n];
      WithoutMultiset(a, n);
      WithoutMultiset(b, k);
      TotalsOfPermutation(a[..n], Without(b, k));
      TotalsWithout(b, k);
    }
  }

  // Path distinctness, told by multiplicity instead of position.
  ghost predicate DistinctByCount(entries: seq<Entry>) {
    && (forall a :: multiset(entries)[a] <= 1)
    && forall a, b :: a in entries && b in entries && Lower(a.path) == Lower(b.path) ==> a == b
  }

  lemma {:induction false} NoRepeats(entries: seq<Entry>, a: Entry)
    requires forall i, j :: 0 <= i < j < |entries| ==> entries[i] != entries[j]
    ensures multiset(entries)[a] <= 1
  {
    if entries != [] {
      var n := |entries| - 1;
      NoRepeats(entries[..n], a);
      assert entries == entries[..n] + [entries[n]];
      if a == entries[n] { assert a !in entries[..n]; assert a !in multiset(entries[..n]); }
    }
  }

  lemma DistinctIffByCount(entries: seq<Entry>)
    ensures DistinctPaths(entries) <==> DistinctByCount(entries)
  {
    if DistinctPaths(entries) {
      forall i, j | 0 <= i < j < |entries| ensures entries[i] != entries[j] {}
      forall a ensures multiset(entries)[a] <= 1 { NoRepeats(entries, a); }
    }
    if DistinctByCount(entries) {
      forall i, j | 0 <= i < j < |entries| ensures Lower(entries[i].path) != Lower(entries[j].path) {
        if Lower(entries[i].path) == Lower(entries[j].path) {
          assert entries[i] in entries && entries[j] in entries;
          TwiceCounted(entries, i, j);
        }
      }
    }
  }

  lemma TwiceCounted(entries: seq<Entry>, i: nat, j: nat)
    requires i < j < |entries| && entries[i] == entries[j]
    ensures multiset(entries)[entries[i]] >= 2
  {
    assert entries == entries[..j] + entries[j..];
    assert entries[i] in entries[..j] && entries[j] in entries[j..];
    assert entries[i] in multiset(entries[..j]) && entries[j] in multiset(entries[j..]);
  }

  ghost predicate SameEntries(a: seq<Entry>, b: seq<Entry>) {
    forall x :: x in a <==> x in b
  }

  lemma DistinctInAnyOrder(a: seq<Entry>, b: seq<Entry>)
    requires multiset(a) == multiset(b) && SameEntries(a, b) && DistinctByCount(a)
    ensures DistinctByCount(b)
  {
  }

  lemma AdmissibleInAnyOrder(limits: Limits, a: seq<Entry>, b: seq<Entry>)
    requires multiset(a) == multiset(b) && SameEntries(a, b) && Admissible(limits, a)
    ensures Admissible(limits, b)
  {
    TotalsOfPermutation(a, b);
    DistinctIffByCount(a);
    DistinctInAnyOrder(a, b);
    DistinctIffByCount(b);
    forall x, y | x in b && y in b ensures SameBlob(x, y) { assert x in a && y in a; }
    forall x | x in b ensures Fits(limits, x) { assert x in a; }
  }

  lemma AcceptableInOtherOrder(limits: Limits, a: seq<Entry>, b: seq<Entry>)
    requires multiset(a) == multiset(b) && Acceptable(limits, a)
    ensures Acceptable(limits, b)
  {
    forall x ensures x in a <==> x in b { MemberOf(a, b, x); }
    assert |a| == |multiset(a)| == |multiset(b)| == |b|;
    AdmissibleInAnyOrder(limits, a, b);
    forall x, y | x in b && y in b ensures !Above(Lower(x.path), Lower(y.path)) { assert x in a && y in a; }
  }

  lemma AcceptedInAnyOrder(limits: Limits, a: seq<Entry>, b: seq<Entry>)
    requires multiset(a) == multiset(b)
    ensures Acceptable(limits, a) <==> Acceptable(limits, b)
  {
    if Acceptable(limits, a) { AcceptableInOtherOrder(limits, a, b); }
    if Acceptable(limits, b) { AcceptableInOtherOrder(limits, b, a); }
  }

  lemma SameFirst(a: seq<Entry>, b: seq<Entry>)
    requires multiset(a) == multiset(b) && ByPath(a) && ByPath(b) && a != [] && b != []
    ensures a[0] == b[0]
  {
    MemberOf(a, b, a[0]);
    MemberOf(a, b, b[0]);
    var i :| 0 <= i < |a| && a[i] == b[0];
    var j :| 0 <= j < |b| && b[j] == a[0];
    LessTotal(a[0].path, b[0].path);
  }

  lemma RestMultiset(a: seq<Entry>)
    requires a != []
    ensures multiset(a[1..]) == multiset(a) - multiset{a[0]}
  {
    assert a == [a[0]] + a[1..];
  }

  lemma {:induction false} SortedUnique(a: seq<Entry>, b: seq<Entry>)
    requires multiset(a) == multiset(b) && ByPath(a) && ByPath(b)
    ensures a == b
    decreases |a|
  {
    assert |a| == |multiset(a)| == |multiset(b)| == |b|;
    if a != [] {
      SameFirst(a, b);
      RestMultiset(a);
      RestMultiset(b);
      SortedUnique(a[1..], b[1..]);
      assert a == [a[0]] + a[1..] && b == [b[0]] + b[1..];
    }
  }

  /** Any reordering of the artifacts is accepted or rejected alike, and normalises to the same list. */
  lemma NormalisationIgnoresOrder(limits: Limits, a: seq<Entry>, b: seq<Entry>, x: seq<Entry>, y: seq<Entry>)
    requires multiset(a) == multiset(b)
    ensures Acceptable(limits, a) <==> Acceptable(limits, b)
    ensures NormalForm(limits, a, x) && NormalForm(limits, b, y) ==> x == y
  {
    AcceptedInAnyOrder(limits, a, b);
    if NormalForm(limits, a, x) && NormalForm(limits, b, y) { SortedUnique(x, y); }
  }

  /** Normalising a normal form again accepts it and changes nothing: the only normal form of x is x. */
  lemma NormalisationIdempotent(limits: Limits, entries: seq<Entry>, x: seq<Entry>, y: seq<Entry>)
    requires NormalForm(limits, entries, x)
    ensures NormalForm(limits, x, y) <==> y == x
  {
    AcceptedInAnyOrder(limits, entries, x);
    if NormalForm(limits, x, y) { SortedUnique(x, y); }
  }

  // ---- what acceptance gives its users ----

  function ManifestTotals(entries: seq<Entry>): Option<(U64, U64)> {
    if entries == [] then Some((0, 0))
    else
      var last := entries[|entries| - 1];
      match ManifestTotals(entries[..|entries| - 1])
      case None => None
      case Some((original, stored)) =>
        if original + last.originalSize > U64_MAX || stored + last.storedSize > U64_MAX then None
        else Some((original + last.originalSize, stored + last.storedSize))
  }

  lemma {:induction false} TotalsNeverOverflow(entries: seq<Entry>)
    requires OriginalTotal(entries) <= U64_MAX && StoredTotal(entries) <= U64_MAX
    ensures ManifestTotals(entries) == Some((OriginalTotal(entries), StoredTotal(entries)))
  {
    if entries != [] { TotalsNeverOverflow(entries[..|entries| - 1]); }
  }

  /** The totals recorded for an accepted manifest never overflow, are those of the input, and respect the
      snapshot limits. */
  lemma AcceptedTotals(limits: Limits, entries: seq<Entry>, normal: seq<Entry>)
    requires NormalForm(limits, entries, normal)
    ensures ManifestTotals(normal) == Some((OriginalTotal(entries), StoredTotal(entries)))
    ensures OriginalTotal(entries) <= limits.snapshotOriginal && StoredTotal(entries) <= limits.snapshotStored
  {
    TotalsOfPermutation(normal, entries);
    TotalsNeverOverflow(normal);
  }

  // The manifest the metadata store works with, its digests read as numbers by any one-to-one reading.
  ghost function Declares(e: Entry, read: string -> Digest): Artifact {
    Artifact(e.path, read(e.original), e.originalSize, read(e.stored), e.storedSize, e.compression)
  }

  /** An accepted manifest declares one size and compression per stored digest, as every transaction on the
      metadata store relies on. */
  lemma AcceptedIsConsistent(limits: Limits, entries: seq<Entry>, normal: seq<Entry>, session: nat, context: Context,
                             read: string -> Digest)
    requires NormalForm(limits, entries, normal)
    requires forall x, y :: ValidDigest(x) && ValidDigest(y) && read(x) == read(y) ==> x == y
    ensures Consistent(Manifest(session, context,
              seq(|normal|, i requires 0 <= i < |normal| => Declares(normal[i], read))))
  {
    forall a ensures a in normal <==> a in entries { MemberOf(normal, entries, a); }
    var m := Manifest(session, context, seq(|normal|, i requires 0 <= i < |normal| => Declares(normal[i], read)));
    forall i, j | 0 <= i < |m.artifacts| && 0 <= j < |m.artifacts| && m.artifacts[i].stored == m.artifacts[j].stored
      ensures m.artifacts[i].storedSize == m.artifacts[j].storedSize &&
        m.artifacts[i].compression == m.artifacts[j].compression
    {
      assert normal[i] in entries && normal[j] in entries;
      assert SameBlob(normal[i], normal[j]);
    }
  }

  // ---- the algorithm ----

  ghost function PortablePaths(entries: seq<Entry>): set<string> {
    set i | 0 <= i < |entries| :: Lower(entries[i].path)
  }

  // The digest text without its prefix keys the representations.
  ghost predicate Represents(representations: map<string, (U64, Compression)>, a: Entry) {
    |a.stored| >= 7 && a.stored[7..] in representations &&
    representations[a.stored[7..]] == (a.storedSize, a.compression)
  }

  ghost predicate RepresentationsOf(entries: seq<Entry>, representations: map<string, (U64, Compression)>) {
    && (forall a :: a in entries ==> Represents(representations, a))
    && (forall key :: key in representations ==> exists a :: a in entries && |a.stored| >= 7 && a.stored[7..] == key)
  }

  // The accumulators after some artifacts have been taken.
  ghost predicate Taken(limits: Limits, entries: seq<Entry>, originalTotal: nat, storedTotal: nat,
                        portablePaths: set<string>, representations: map<string, (U64, Compression)>) {
    && Admissible(limits, entries)
    && originalTotal == OriginalTotal(entries) && storedTotal == StoredTotal(entries)
    && portablePaths == PortablePaths(entries)
    && RepresentationsOf(entries, representations)
  }

  class Normalizer {
    const limits: Limits
    var originalTotal: U64
    var storedTotal: U64
    var portablePaths: set<string>
    var representations: map<string, (U64, Compression)>
    var normalized: seq<Entry>

    ghost predicate Valid()
      reads this
    {
      Taken(limits, normalized, originalTotal, storedTotal, portablePaths, representations)
    }

    constructor (limits: Limits)
      ensures Valid() && normalized == [] && this.limits == limits
    {
      this.limits := limits;
      originalTotal, storedTotal := 0, 0;
      portablePaths, representations, normalized := {}, map[], [];
    }

    // Takes one more artifact, exactly when the list with it is still admissible.
    method NormalizeArtifact(a: Entry) returns (ok: bool)
      requires Valid()
      modifies this
      ensures ok <==> Admissible(limits, old(normalized) + [a])
      ensures ok ==> Valid() && normalized == old(normalized) + [a]
    {
      TakesIff(limits, normalized, originalTotal, storedTotal, portablePaths, representations, a);
      if !ValidPath(a.path) { return false; }
      var portable := Lower(a.path);
      if portable in portablePaths { return false; }
      portablePaths := portablePaths + {portable};
      if a.mediaType.Some? && !limits.mediaType(a.mediaType.value) { return false; }
      if !ValidDigest(a.original) || !ValidDigest(a.stored) { return false; }
      if !ValidSize(a.originalSize, limits.artifactOriginal) { return false; }
      if !ValidSize(a.storedSize, limits.artifactStored) { return false; }
      if originalTotal + a.originalSize > U64_MAX { return false; }
      originalTotal := originalTotal + a.originalSize;
      if originalTotal > limits.snapshotOriginal { return false; }
      if storedTotal + a.storedSize > U64_MAX { return false; }
      storedTotal := storedTotal + a.storedSize;
      if storedTotal > limits.snapshotStored { return false; }
      var key := a.stored[7..];
      if key in representations {
        if representations[key] != (a.storedSize, a.compression) { return false; }
      } else {
        representations := representations[key := (a.storedSize, a.compression)];
      }
      normalized := normalized + [a];
      ok := true;
    }
  }

  ghost predicate Takes(limits: Limits, originalTotal: nat, storedTotal: nat, portablePaths: set<string>,
                        representations: map<string, (U64, Compression)>, a: Entry) {
    && Fits(limits, a) && Lower(a.path) !in portablePaths
    && originalTotal + a.originalSize <= limits.snapshotOriginal
    && storedTotal + a.storedSize <= limits.snapshotStored
    && (a.stored[7..] in representations ==> representations[a.stored[7..]] == (a.storedSize, a.compression))
  }

  // What the accumulators decide, and what they become.
  lemma TakesIff(limits: Limits, entries: seq<Entry>, originalTotal: nat, storedTotal: nat,
                 portablePaths: set<string>, representations: map<string, (U64, Compression)>, a: Entry)
    requires Taken(limits, entries, originalTotal, storedTotal, portablePaths, representations)
    ensures Admissible(limits, entries + [a]) <==>
      Takes(limits, originalTotal, storedTotal, portablePaths, representations, a)
    ensures Admissible(limits, entries + [a]) ==>
      var key := a.stored[7..];
      Taken(limits, entries + [a], originalTotal + a.originalSize, storedTotal + a.storedSize, portablePaths +
            {Lower(a.path)},
            if key in representations then representations else representations[key := (a.storedSize, a.compression)])
  {
    AdmitOne(limits, entries, a);
    PortableOne(entries, a);
    if ValidDigest(a.stored) {
      RepresentationAdmits(limits, entries, representations, a);
      var key := a.stored[7..];
      if key in representations ==> representations[key] == (a.storedSize, a.compression) {
        RepresentOne(entries, representations, a,
          if key in representations then representations else representations[key := (a.storedSize, a.compression)]);
      }
    }
  }

  lemma LastTotals(entries: seq<Entry>, a: Entry)
    ensures OriginalTotal(entries + [a]) == OriginalTotal(entries) + a.originalSize
    ensures StoredTotal(entries + [a]) == StoredTotal(entries) + a.storedSize
  {
    assert (entries + [a])[..|entries|] == entries;
  }

  lemma PortableOne(entries: seq<Entry>, a: Entry)
    ensures PortablePaths(entries + [a]) == PortablePaths(entries) + {Lower(a.path)}
  {
    var extended := entries + [a];
    forall p ensures p in PortablePaths(extended) <==> p in PortablePaths(entries) + {Lower(a.path)} {
      if p in PortablePaths(entries) {
        var i :| 0 <= i < |entries| && Lower(entries[i].path) == p;
        assert extended[i] == entries[i];
      }
      assert extended[|entries|] == a;
    }
  }

  lemma AdmitOne(limits: Limits, entries: seq<Entry>, a: Entry)
    requires Admissible(limits, entries)
    ensures Admissible(limits, entries + [a]) <==>
      && Fits(limits, a) && Lower(a.path) !in PortablePaths(entries)
      && OriginalTotal(entries) + a.originalSize <= limits.snapshotOriginal
      && StoredTotal(entries) + a.storedSize <= limits.snapshotStored
      && (forall b :: b in entries ==> SameBlob(a, b))
    ensures OriginalTotal(entries + [a]) == OriginalTotal(entries) + a.originalSize
    ensures StoredTotal(entries + [a]) == StoredTotal(entries) + a.storedSize
  {
    LastTotals(entries, a);
    var extended := entries + [a];
    forall x ensures x in extended <==> x in entries || x == a {}
    DistinctOne(entries, a);
  }

  lemma DistinctOne(entries: seq<Entry>, a: Entry)
    requires DistinctPaths(entries)
    ensures DistinctPaths(entries + [a]) <==> Lower(a.path) !in PortablePaths(entries)
  {
    var extended := entries + [a];
    if DistinctPaths(extended) {
      forall i | 0 <= i < |entries| ensures Lower(entries[i].path) != Lower(a.path) {
        assert extended[i] == entries[i] && extended[|entries|] == a;
      }
    }
  }

  // Two valid digest texts are equal when they agree behind the prefix.
  lemma SameDigest(x: string, y: string)
    requires ValidDigest(x) && ValidDigest(y) && x[7..] == y[7..]
    ensures x == y
  {
    assert x == x[..7] + x[7..] && y == y[..7] + y[7..];
  }

  lemma RepresentationAdmits(limits: Limits, entries: seq<Entry>, representations: map<string, (U64, Compression)>,
                             a: Entry)
    requires Admissible(limits, entries) && RepresentationsOf(entries, representations) && ValidDigest(a.stored)
    ensures (forall b :: b in entries ==> SameBlob(a, b)) <==>
      (a.stored[7..] in representations ==> representations[a.stored[7..]] == (a.storedSize, a.compression))
  {
    var key := a.stored[7..];
    if key in representations {
      var b :| b in entries && |b.stored| >= 7 && b.stored[7..] == key;
      assert Fits(limits, b);
      SameDigest(a.stored, b.stored);
      assert SameBlob(a, b) <==> representations[key] == (a.storedSize, a.compression);
    }
  }

  lemma RepresentOne(entries: seq<Entry>, before: map<string, (U64, Compression)>, a: Entry, after: map<string,
                     (U64, Compression)>)
    requires RepresentationsOf(entries, before) && |a.stored| >= 7
    requires var key := a.stored[7..];
      if key in before then before[key] == (a.storedSize, a.compression) && after == before
      else after == before[key := (a.storedSize, a.compression)]
    ensures RepresentationsOf(entries + [a], after)
  {
    var extended := entries + [a];
    forall x ensures x in extended <==> x in entries || x == a {}
    forall key | key in after ensures exists b :: b in extended && |b.stored| >= 7 && b.stored[7..] == key {
      if key in before {
        var b :| b in entries && |b.stored| >= 7 && b.stored[7..] == key;
        assert b in extended;
      } else {
        assert a in extended;
      }
    }
  }

  // Walks up the directories of a path, longest first, looking for one that is itself declared.
  method HasDeclaredParent(path: string, paths: set<string>) returns (found: bool)
    ensures found <==> exists ancestor :: ancestor in paths && Above(ancestor, path)
  {
    var parent := path;
    while true
      invariant |parent| <= |path| && parent == path[..|parent|]
      invariant forall ancestor :: ancestor in paths && Above(ancestor, path) ==> |ancestor| < |parent|
      decreases |parent|
    {
      var k := |parent|;
      while k > 0 && parent[k - 1] != '/'
        invariant 0 <= k <= |parent|
        invariant forall j :: k <= j < |parent| ==> parent[j] != '/'
      {
        k := k - 1;
      }
      if k == 0 { return false; }
      var prefix := parent[..k - 1];
      assert Above(prefix, path);
      if prefix in paths { return true; }
      forall ancestor | ancestor in paths && Above(ancestor, path) ensures |ancestor| < k - 1 {
        assert parent[|ancestor|] == path[|ancestor|] == '/';
        assert |ancestor| == k - 1 ==> ancestor == prefix;
      }
      parent := prefix;
    }
  }

  method SortByPath(entries: seq<Entry>) returns (sorted: seq<Entry>)
    requires DistinctPaths(entries)
    ensures multiset(sorted) == multiset(entries) && ByPath(sorted)
  {
    sorted := [];
    for n := 0 to |entries|
      invariant multiset(sorted) == multiset(entries[..n]) && ByPath(sorted)
    {
      var a := entries[n];
      var k := |sorted|;
      while k > 0 && Less(a.path, sorted[k - 1].path)
        invariant 0 <= k <= |sorted|
        invariant forall j :: k <= j < |sorted| ==> Less(a.path, sorted[j].path)
      {
        k := k - 1;
      }
      PlacedAfter(entries, n, sorted, k);
      PlacedByPath(sorted, k, a);
      assert entries[..n + 1] == entries[..n] + [a];
      sorted := Placed(sorted, k, a);
    }
    assert entries[..|entries|] == entries;
  }

  function Placed(sorted: seq<Entry>, k: nat, a: Entry): seq<Entry>
    requires k <= |sorted|
  {
    sorted[..k] + [a] + sorted[k..]
  }

  lemma PlacedByPath(sorted: seq<Entry>, k: nat, a: Entry)
    requires k <= |sorted| && ByPath(sorted)
    requires forall j :: 0 <= j < k ==> Less(sorted[j].path, a.path)
    requires forall j :: k <= j < |sorted| ==> Less(a.path, sorted[j].path)
    ensures ByPath(Placed(sorted, k, a)) && multiset(Placed(sorted, k, a)) == multiset(sorted) + multiset{a}
  {
    assert sorted == sorted[..k] + sorted[k..];
  }

  lemma PlacedAfter(entries: seq<Entry>, n: nat, sorted: seq<Entry>, k: nat)
    requires DistinctPaths(entries) && n < |entries| && k <= |sorted|
    requires multiset(sorted) == multiset(entries[..n]) && ByPath(sorted)
    requires k > 0 ==> !Less(entries[n].path, sorted[k - 1].path)
    ensures forall j :: 0 <= j < k ==> Less(sorted[j].path, entries[n].path)
  {
    if k > 0 {
      var last := sorted[k - 1];
      MemberOf(sorted, entries[..n], last);
      var i :| 0 <= i < n && entries[..n][i] == last;
      assert Lower(entries[i].path) != Lower(entries[n].path);
      LessTotal(last.path, entries[n].path);
      forall j | 0 <= j < k ensures Less(sorted[j].path, entries[n].path) {
        if j < k - 1 { LessTransitive(sorted[j].path, last.path, entries[n].path); }
      }
    }
  }

  // Where path goes in a sorted list.
  lemma {:induction false} SplitPoint(sorted: seq<Entry>, path: string) returns (k: nat)
    requires ByPath(sorted)
    ensures k <= |sorted| && (k > 0 ==> !Less(path, sorted[k - 1].path))
    ensures forall j :: k <= j < |sorted| ==> Less(path, sorted[j].path)
  {
    k := |sorted|;
    if sorted != [] && Less(path, sorted[|sorted| - 1].path) {
      k := SplitPoint(sorted[..|sorted| - 1], path);
    }
  }

  lemma {:induction false} SortedExists(entries: seq<Entry>, n: nat) returns (sorted: seq<Entry>)
    requires DistinctPaths(entries) && n <= |entries|
    ensures multiset(sorted) == multiset(entries[..n]) && ByPath(sorted)
  {
    sorted := [];
    if n > 0 {
      var rest := SortedExists(entries, n - 1);
      var k := SplitPoint(rest, entries[n - 1].path);
      PlacedAfter(entries, n - 1, rest, k);
      PlacedByPath(rest, k, entries[n - 1]);
      sorted := Placed(rest, k, entries[n - 1]);
      assert entries[..n] == entries[..n - 1] + [entries[n - 1]];
    }
  }

  /** Every acceptable list has a normal form, and only one. */
  lemma NormalFormExists(limits: Limits, entries: seq<Entry>) returns (normal: seq<Entry>)
    requires Acceptable(limits, entries)
    ensures NormalForm(limits, entries, normal)
    ensures forall other :: NormalForm(limits, entries, other) ==> other == normal
  {
    normal := SortedExists(entries, |entries|);
    assert entries[..|entries|] == entries;
    forall other | NormalForm(limits, entries, other) ensures other == normal { SortedUnique(other, normal); }
  }

  // Looks for a declared path that is also a directory of another.
  method HasConflict(paths: set<string>) returns (conflict: bool)
    ensures conflict <==> exists above, path :: above in paths && path in paths && Above(above, path)
  {
    var remaining := paths;
    while remaining != {}
      invariant remaining <= paths
      invariant forall above, path :: above in paths && path in paths && path !in remaining ==> !Above(above, path)
    {
      var path :| path in remaining;
      conflict := HasDeclaredParent(path, paths);
      if conflict { return; }
      remaining := remaining - {path};
    }
    conflict := false;
  }

  // The loop over the artifacts, stopping at the first one refused.
  method NormalizeArtifacts(limits: Limits, entries: seq<Entry>) returns (ok: bool, paths: set<string>)
    ensures ok <==> Admissible(limits, entries)
    ensures ok ==> paths == PortablePaths(entries)
  {
    var state := new Normalizer(limits);
    for i := 0 to |entries|
      invariant fresh(state) && state.Valid() && state.limits == limits && state.normalized == entries[..i]
    {
      assert entries[..i + 1] == entries[..i] + [entries[i]];
      ok := state.NormalizeArtifact(entries[i]);
      if !ok {
        PrefixAdmissible(limits, entries, i + 1);
        return false, {};
      }
    }
    assert entries[..|entries|] == entries;
    return true, state.portablePaths;
  }

  /** The artifact part of manifest normalisation: succeeds exactly on acceptable lists, with their normal
      form. */
  method NormalizeManifest(limits: Limits, entries: seq<Entry>) returns (r: Option<seq<Entry>>)
    ensures r.Some? <==> Acceptable(limits, entries)
    ensures r.Some? ==> NormalForm(limits, entries, r.value)
  {
    if entries == [] || |entries| > limits.artifactCount { return None; }
    var ok, paths := NormalizeArtifacts(limits, entries);
    if !ok { return None; }
    var conflict := HasConflict(paths);
    ConflictIff(entries);
    if conflict { return None; }
    var sorted := SortByPath(entries);
    r := Some(sorted);
  }

  lemma ConflictIff(entries: seq<Entry>)
    ensures NoConflicts(entries) <==>
      !exists above, path :: above in PortablePaths(entries) && path in PortablePaths(entries) && Above(above, path)
  {
    if above, path :| above in PortablePaths(entries) && path in PortablePaths(entries) && Above(above, path) {
      ConflictFound(entries, above, path);
    } else {
      forall a, b | a in entries && b in entries ensures !Above(Lower(a.path), Lower(b.path)) {
        assert Lower(a.path) in PortablePaths(entries) && Lower(b.path) in PortablePaths(entries);
      }
    }
  }

  lemma ConflictFound(entries: seq<Entry>, above: string, path: string)
    requires above in PortablePaths(entries) && path in PortablePaths(entries) && Above(above, path)
    ensures !NoConflicts(entries)
  {
    var i :| 0 <= i < |entries| && Lower(entries[i].path) == above;
    var j :| 0 <= j < |entries| && Lower(entries[j].path) == path;
    assert entries[i] in entries && entries[j] in entries;
  }

  lemma {:induction false} PrefixTotals(entries: seq<Entry>, n: nat)
    requires n <= |entries|
    ensures OriginalTotal(entries[..n]) <= OriginalTotal(entries) && StoredTotal(entries[..n]) <= StoredTotal(entries)
    decreases |entries| - n
  {
    if n < |entries| {
      PrefixTotals(entries, n + 1);
      assert entries[..n + 1][..n] == entries[..n];
    } else {
      assert entries[..n] == entries;
    }
  }

  // A list with an inadmissible prefix is inadmissible.
  lemma PrefixAdmissible(limits: Limits, entries: seq<Entry>, n: nat)
    requires n <= |entries|
    ensures Admissible(limits, entries) ==> Admissible(limits, entries[..n])
  {
    PrefixTotals(entries, n);
    forall a | a in entries[..n] ensures a in entries {}
  }
}
