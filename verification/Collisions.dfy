/** Hash functions without collisions exist, so the theorems that ask for them
    speak of some deployment: contents and fingerprint documents are numbered. */
module Collisions {
  import opened Basics
  import opened Catalog
  import opened ProtocolSafety

  function Pair(a: nat, b: nat): (n: nat)
    ensures n > 0
  {
    if a == 0 then 2 * b + 1 else 2 * Pair(a - 1, b)
  }

  lemma {:induction false} PairInjective(a: nat, b: nat, x: nat, y: nat)
    requires Pair(a, b) == Pair(x, y)
    ensures a == x && b == y
  {
    if a > 0 && x > 0 { PairInjective(a - 1, b, x - 1, y); }
  }

  function Number(q: seq<nat>): nat {
    if q == [] then 0 else Pair(q[0], Number(q[1..]))
  }

  lemma {:induction false} NumberInjective(q: seq<nat>, r: seq<nat>)
    requires Number(q) == Number(r)
    ensures q == r
  {
    if q != [] && r != [] {
      PairInjective(q[0], Number(q[1..]), r[0], Number(r[1..]));
      NumberInjective(q[1..], r[1..]);
      assert q == [q[0]] + q[1..] && r == [r[0]] + r[1..];
    }
  }

  function Values(bytes: Bytes): seq<nat> {
    seq(|bytes|, i requires 0 <= i < |bytes| => bytes[i] as nat)
  }

  function Codes(text: string): seq<nat> {
    seq(|text|, i requires 0 <= i < |text| => text[i] as nat)
  }

  lemma ValuesInjective(a: Bytes, b: Bytes)
    requires Values(a) == Values(b)
    ensures a == b
  {
    forall i | 0 <= i < |a| ensures a[i] == b[i] { assert Values(a)[i] == Values(b)[i]; }
    assert |Values(a)| == |Values(b)|;
  }

  lemma CodesInjective(a: string, b: string)
    requires Codes(a) == Codes(b)
    ensures a == b
  {
    assert |Codes(a)| == |Codes(b)|;
    forall i | 0 <= i < |a| ensures a[i] == b[i] { assert Codes(a)[i] == Codes(b)[i]; }
  }

  function BytesNumber(bytes: Bytes): nat { Number(Values(bytes)) }

  function TextNumber(text: Option<string>): nat {
    match text
    case None => 0
    case Some(value) => 1 + Number(Codes(value))
  }

  function ContextNumber(x: Context): nat {
    Number([TextNumber(x.project), TextNumber(x.repository), TextNumber(x.branch), TextNumber(x.agentVersion),
            x.artifactSetVersion])
  }

  function OriginalNumber(o: Original): nat {
    Number([TextNumber(Some(o.path)), o.size, o.digest])
  }

  function OriginalNumbers(q: seq<Original>): seq<nat> {
    seq(|q|, i requires 0 <= i < |q| => OriginalNumber(q[i]))
  }

  function DocumentNumber(x: FingerprintDocument): nat {
    Number([x.session, ContextNumber(x.context), Number(OriginalNumbers(x.originals))])
  }

  lemma TextInjective(a: Option<string>, b: Option<string>)
    requires TextNumber(a) == TextNumber(b)
    ensures a == b
  {
    if a.Some? && b.Some? {
      NumberInjective(Codes(a.value), Codes(b.value));
      CodesInjective(a.value, b.value);
    }
  }

  lemma ContextInjective(a: Context, b: Context)
    requires ContextNumber(a) == ContextNumber(b)
    ensures a == b
  {
    var p := [TextNumber(a.project), TextNumber(a.repository), TextNumber(a.branch), TextNumber(a.agentVersion),
              a.artifactSetVersion];
    var q := [TextNumber(b.project), TextNumber(b.repository), TextNumber(b.branch), TextNumber(b.agentVersion),
              b.artifactSetVersion];
    NumberInjective(p, q);
    assert p[0] == q[0] && p[1] == q[1] && p[2] == q[2] && p[3] == q[3] && p[4] == q[4];
    TextInjective(a.project, b.project);
    TextInjective(a.repository, b.repository);
    TextInjective(a.branch, b.branch);
    TextInjective(a.agentVersion, b.agentVersion);
  }

  lemma OriginalInjective(a: Original, b: Original)
    requires OriginalNumber(a) == OriginalNumber(b)
    ensures a == b
  {
    var p, q := [TextNumber(Some(a.path)), a.size, a.digest], [TextNumber(Some(b.path)), b.size, b.digest];
    NumberInjective(p, q);
    assert p[0] == q[0] && p[1] == q[1] && p[2] == q[2];
    TextInjective(Some(a.path), Some(b.path));
  }

  lemma OriginalsInjective(a: seq<Original>, b: seq<Original>)
    requires OriginalNumbers(a) == OriginalNumbers(b)
    ensures a == b
  {
    assert |OriginalNumbers(a)| == |OriginalNumbers(b)|;
    forall i | 0 <= i < |a| ensures a[i] == b[i] {
      assert OriginalNumbers(a)[i] == OriginalNumbers(b)[i];
      OriginalInjective(a[i], b[i]);
    }
  }

  lemma DocumentInjective(a: FingerprintDocument, b: FingerprintDocument)
    requires DocumentNumber(a) == DocumentNumber(b)
    ensures a == b
  {
    var p := [a.session, ContextNumber(a.context), Number(OriginalNumbers(a.originals))];
    var q := [b.session, ContextNumber(b.context), Number(OriginalNumbers(b.originals))];
    NumberInjective(p, q);
    assert p[0] == q[0] && p[1] == q[1] && p[2] == q[2];
    ContextInjective(a.context, b.context);
    NumberInjective(OriginalNumbers(a.originals), OriginalNumbers(b.originals));
    OriginalsInjective(a.originals, b.originals);
  }

  /** A collision-free deployment exists for any decompression, any lock striping and any grace period. */
  lemma CollisionFreeDeployment(inflate: Bytes -> Option<Bytes>, uploadStripe: nat -> nat,
                                snapshotStripe: (nat, Digest) -> nat,
                                blobStripe: Digest -> nat, grace: nat) returns (c: Setup)
    ensures CollisionFree(c) && c.codec.inflate == inflate && c.grace == grace
    ensures c.uploadStripe == uploadStripe && c.snapshotStripe == snapshotStripe && c.blobStripe == blobStripe
  {
    c := Setup(Codec(bytes => BytesNumber(bytes), inflate), document => DocumentNumber(document),
               uploadStripe, snapshotStripe, blobStripe, grace);
    forall a, b | c.codec.sha256(a) == c.codec.sha256(b) ensures a == b {
      NumberInjective(Values(a), Values(b));
      ValuesInjective(a, b);
    }
    forall a, b | c.fingerprint(a) == c.fingerprint(b) ensures a == b { DocumentInjective(a, b); }
  }
}
