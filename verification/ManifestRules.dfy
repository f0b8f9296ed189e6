/** The rules an accepted manifest keeps, spelled out character by character. */
module ManifestRules {
  import opened Basics
  import opened Catalog
  import opened Validation

  // ---- text up to case ----

  predicate SameLetter(c: char, d: char) {
    c == d || ('A' <= c <= 'Z' && d as int == c as int + 32) || ('A' <= d <= 'Z' && c as int == d as int + 32)
  }

  predicate SameUpToCase(s: string, t: string) {
    |s| == |t| && forall i :: 0 <= i < |s| ==> SameLetter(s[i], t[i])
  }

  lemma LowerLetter(c: char, d: char)
    ensures Lower([c]) == Lower([d]) <==> SameLetter(c, d)
  {
    assert Lower([c])[0] == if 'A' <= c <= 'Z' then c - 'A' + 'a' else c;
    assert Lower([d])[0] == if 'A' <= d <= 'Z' then d - 'A' + 'a' else d;
    if SameLetter(c, d) { assert Lower([c])[0] == Lower([d])[0]; }
  }

  lemma LowerIsCaseless(s: string, t: string)
    ensures Lower(s) == Lower(t) <==> SameUpToCase(s, t)
  {
    if Lower(s) == Lower(t) {
      assert |s| == |Lower(s)| == |Lower(t)| == |t|;
      forall i | 0 <= i < |s| ensures SameLetter(s[i], t[i]) {
        assert Lower(s)[i] == Lower(t)[i];
        LowerLetter(s[i], t[i]);
        assert Lower([s[i]]) == [Lower(s)[i]] && Lower([t[i]]) == [Lower(t)[i]];
      }
    }
    if SameUpToCase(s, t) {
      forall i | 0 <= i < |s| ensures Lower(s)[i] == Lower(t)[i] {
        LowerLetter(s[i], t[i]);
        assert Lower([s[i]]) == [Lower(s)[i]] && Lower([t[i]]) == [Lower(t)[i]];
      }
    }
  }

  lemma UpperIsCaseless(s: string, name: string)
    requires forall i :: 0 <= i < |name| ==> 'A' <= name[i] <= 'Z' || '0' <= name[i] <= '9'
    ensures Upper(s) == name <==> SameUpToCase(s, name)
  {
    if Upper(s) == name {
      forall i | 0 <= i < |s| ensures SameLetter(s[i], name[i]) { assert Upper(s)[i] == name[i]; }
    }
    if SameUpToCase(s, name) {
      forall i | 0 <= i < |s| ensures Upper(s)[i] == name[i] { assert SameLetter(s[i], name[i]); }
    }
  }

  // ---- components ----

  // s[i..j] is a maximal stretch without the separator.
  predicate Stretch(s: string, separator: char, i: nat, j: nat) {
    && i <= j <= |s| && (i == 0 || s[i - 1] == separator) && (j == |s| || s[j] == separator)
    && separator !in s[i..j]
  }

  lemma {:induction false} StretchIsPart(s: string, separator: char, i: nat, j: nat) returns (k: nat)
    requires Stretch(s, separator, i, j)
    ensures k < |Split(s, separator)| && Split(s, separator)[k] == s[i..j] && (k == 0 <==> i == 0)
    decreases |s|
  {
    k := 0;
    if s != "" {
      var t := s[1..];
      if i > 0 {
        assert t[i - 1..j - 1] == s[i..j];
        k := StretchIsPart(t, separator, i - 1, j - 1);
        if s[0] == separator { k := k + 1; }
      } else if j > 0 {
        assert s[i..j] == [s[0]] + t[..j - 1] && s[i..j][0] == s[0];
        k := StretchIsPart(t, separator, 0, j - 1);
      }
    }
  }

  lemma {:induction false} PartIsStretch(s: string, separator: char, k: nat) returns (i: nat, j: nat)
    requires k < |Split(s, separator)|
    ensures Stretch(s, separator, i, j) && s[i..j] == Split(s, separator)[k] && (k == 0 <==> i == 0)
    decreases |s|
  {
    i, j := 0, 0;
    if s != "" {
      var t := s[1..];
      if s[0] == separator {
        if k > 0 {
          i, j := PartIsStretch(t, separator, k - 1);
          assert t[i..j] == s[i + 1..j + 1];
          i, j := i + 1, j + 1;
        }
      } else {
        i, j := PartIsStretch(t, separator, k);
        if k > 0 {
          assert t[i..j] == s[i + 1..j + 1];
          i, j := i + 1, j + 1;
        } else {
          assert s[0..j + 1] == [s[0]] + t[0..j];
          j := j + 1;
        }
      }
    }
  }

  // ---- paths ----

  // A device name of Windows, in any case: CON, PRN, AUX, NUL, COM1 to COM9, LPT1 to LPT9.
  predicate DeviceName(s: string) {
    || SameUpToCase(s, "CON") || SameUpToCase(s, "PRN") || SameUpToCase(s, "AUX") || SameUpToCase(s, "NUL")
    || (|s| == 4 && '1' <= s[3] <= '9' && (SameUpToCase(s[..3], "COM") || SameUpToCase(s[..3], "LPT")))
  }

  // What a component may be: letters, digits, dots, underscores and hyphens, not ending in a dot, so neither empty nor
  // "." nor "..", and whatever stands before its first dot no device name.
  predicate ComponentRule(part: string) {
    && |part| > 0 && part[|part| - 1] != '.'
    && (forall i :: 0 <= i < |part| ==>
          'a' <= part[i] <= 'z' || 'A' <= part[i] <= 'Z' || '0' <= part[i] <= '9' || part[i] in "._-")
    && (forall j :: 0 <= j <= |part| && '.' !in part[..j] && (j == |part| || part[j] == '.') ==> !DeviceName(part[..j]))
  }

  // Every stretch between slashes, from the start to the end, is such a component.
  ghost predicate PathRule(path: string) {
    1 <= |path| <= 1024 && forall i: nat, j: nat :: Stretch(path, '/', i, j) ==> ComponentRule(path[i..j])
  }

  lemma ReservedIsDevice(stem: string)
    ensures Upper(stem) in WINDOWS_RESERVED_NAMES <==> DeviceName(stem)
  {
    DevicesListed(Upper(stem));
    UpperIsCaseless(stem, "CON");
    UpperIsCaseless(stem, "PRN");
    UpperIsCaseless(stem, "AUX");
    UpperIsCaseless(stem, "NUL");
    if |stem| == 4 {
      UpperIsCaseless(stem[..3], "COM");
      UpperIsCaseless(stem[..3], "LPT");
      assert Upper(stem[..3]) == Upper(stem)[..3];
      assert '1' <= Upper(stem)[3] <= '9' <==> '1' <= stem[3] <= '9';
    }
  }

  lemma DevicesListed(name: string)
    ensures name in WINDOWS_RESERVED_NAMES <==>
      || name == "CON" || name == "PRN" || name == "AUX" || name == "NUL"
      || (|name| == 4 && '1' <= name[3] <= '9' && (name[..3] == "COM" || name[..3] == "LPT"))
  {
    if name in WINDOWS_RESERVED_NAMES {
      var k :| 0 <= k < 22 && WINDOWS_RESERVED_NAMES[k] == name;
      NumberedDevice(k);
    }
    if |name| == 4 && '1' <= name[3] <= '9' && (name[..3] == "COM" || name[..3] == "LPT") {
      assert name == name[..3] + [name[3]];
      var n := name[3] as int - '1' as int;
      DeviceNumbered(n, name[..3] == "COM");
      assert name[3] == ("123456789")[n];
    }
  }

  lemma NumberedDevice(k: nat)
    requires k < 22
    ensures var name := WINDOWS_RESERVED_NAMES[k];
      || name == "CON" || name == "PRN" || name == "AUX" || name == "NUL"
      || (|name| == 4 && '1' <= name[3] <= '9' && (name[..3] == "COM" || name[..3] == "LPT"))
  {
    if k >= 4 {
      var n := if k < 13 then k - 4 else k - 13;
      DeviceNumbered(n, k < 13);
    }
  }

  lemma DeviceNumbered(n: nat, com: bool)
    requires n < 9
    ensures WINDOWS_RESERVED_NAMES[if com then 4 + n else 13 + n] ==
            (if com then "COM" else "LPT") + [("123456789")[n]]
  {
    if n == 0 {} else if n == 1 {} else if n == 2 {} else if n == 3 {} else if n == 4 {}
    else if n == 5 {} else if n == 6 {} else if n == 7 {} else {}
  }

  lemma ComponentSpelled(part: string)
    ensures ValidComponent(part) <==> ComponentRule(part)
  {
    var stem := Split(part, '.')[0];
    ReservedIsDevice(stem);
    var i, n := PartIsStretch(part, '.', 0);
    assert part[i..n] == part[..n];
    forall j | 0 <= j <= |part| && '.' !in part[..j] && (j == |part| || part[j] == '.') ensures part[..j] == stem {
      assert part[0..j] == part[..j];
      var k := StretchIsPart(part, '.', 0, j);
    }
    assert part == "." || part == ".." ==> part[|part| - 1] == '.';
  }

  lemma NotAbsolute(path: string)
    requires PathRule(path)
    ensures path[0] != '/'
  {
    assert Stretch(path, '/', 0, 0) <==> path[0] == '/';
    assert !ComponentRule(path[0..0]);
  }

  lemma PathSpelled(path: string)
    ensures ValidPath(path) <==> PathRule(path)
  {
    var parts := Split(path, '/');
    if ValidPath(path) {
      forall i: nat, j: nat | Stretch(path, '/', i, j) ensures ComponentRule(path[i..j]) {
        var k := StretchIsPart(path, '/', i, j);
        ComponentSpelled(parts[k]);
      }
    }
    if PathRule(path) {
      forall k | 0 <= k < |parts| ensures ValidComponent(parts[k]) {
        var i, j := PartIsStretch(path, '/', k);
        assert ComponentRule(path[i..j]);
        ComponentSpelled(parts[k]);
      }
      NotAbsolute(path);
    }
  }

  // ---- the whole list ----

  // One path is a directory of the other, up to case.
  predicate IsDirectoryOf(a: string, b: string) {
    |a| < |b| && b[|a|] == '/' && SameUpToCase(a, b[..|a|])
  }

  predicate DigestRule(text: string) {
    |text| == 71 && text[..7] == "sha256:" &&
    forall i :: 7 <= i < 71 ==> '0' <= text[i] <= '9' || 'a' <= text[i] <= 'f'
  }

  ghost predicate EntryRule(limits: Limits, e: Entry) {
    && PathRule(e.path) && (e.mediaType.Some? ==> limits.mediaType(e.mediaType.value))
    && DigestRule(e.original) && DigestRule(e.stored)
    && e.originalSize <= limits.artifactOriginal && e.storedSize <= limits.artifactStored
    && e.originalSize <= 0x7fff_ffff_ffff_ffff && e.storedSize <= 0x7fff_ffff_ffff_ffff
  }

  ghost predicate PairRule(a: Entry, b: Entry) {
    && !IsDirectoryOf(a.path, b.path)
    && (a.stored == b.stored ==> a.storedSize == b.storedSize && a.compression == b.compression)
  }

  ghost predicate ListRule(limits: Limits, entries: seq<Entry>) {
    && 1 <= |entries| <= limits.artifactCount
    && (forall e :: e in entries ==> EntryRule(limits, e))
    && (forall i, j :: 0 <= i < j < |entries| ==> !SameUpToCase(entries[i].path, entries[j].path))
    && (forall a, b :: a in entries && b in entries ==> PairRule(a, b))
    && OriginalTotal(entries) <= limits.snapshotOriginal && StoredTotal(entries) <= limits.snapshotStored
  }

  lemma AboveSpelled(a: string, b: string)
    ensures Above(Lower(a), Lower(b)) <==> IsDirectoryOf(a, b)
  {
    if |a| < |b| {
      assert Lower(b)[|a|] == '/' <==> b[|a|] == '/';
      assert Lower(b)[..|a|] == Lower(b[..|a|]);
      LowerIsCaseless(a, b[..|a|]);
    }
  }

  /** A manifest is accepted exactly when it keeps these rules: so "A" and "a" are not both accepted, nor "a" and
      "A/b", nor any path that is absolute, climbs, has an empty component or a device name. */
  lemma AcceptedIffRules(limits: Limits, entries: seq<Entry>)
    ensures Acceptable(limits, entries) <==> ListRule(limits, entries)
  {
    forall e | e in entries ensures Fits(limits, e) <==> EntryRule(limits, e) { PathSpelled(e.path); }
    forall i, j | 0 <= i < j < |entries|
      ensures Lower(entries[i].path) != Lower(entries[j].path) <==> !SameUpToCase(entries[i].path, entries[j].path)
    {
      LowerIsCaseless(entries[i].path, entries[j].path);
    }
    forall a, b | a in entries && b in entries
      ensures !Above(Lower(a.path), Lower(b.path)) && SameBlob(a, b) <==> PairRule(a, b)
    {
      AboveSpelled(a.path, b.path);
    }
    PairsSpelled(limits, entries);
  }

  lemma PairsSpelled(limits: Limits, entries: seq<Entry>)
    requires forall e :: e in entries ==> (Fits(limits, e) <==> EntryRule(limits, e))
    requires forall i, j :: 0 <= i < j < |entries| ==>
      (Lower(entries[i].path) != Lower(entries[j].path) <==> !SameUpToCase(entries[i].path, entries[j].path))
    requires forall a, b :: a in entries && b in entries ==>
      (!Above(Lower(a.path), Lower(b.path)) && SameBlob(a, b) <==> PairRule(a, b))
    ensures Acceptable(limits, entries) <==> ListRule(limits, entries)
  {
  }
}
