/** Vocabulary shared by every component: optional values, ordered sets of
    identifiers and sums over them. */
module Basics {
  datatype Option<+T> = None | Some(value: T)

  newtype Byte = b: int | 0 <= b < 256
  type Bytes = seq<Byte>

  // A SHA-256 digest. Digests are ordered, because promotion and blob inventories walk them in order.
  type Digest = nat

  ghost predicate Injective<A(!new), B>(f: A -> B) {
    forall x, y {:trigger f(x), f(y)} :: f(x) == f(y) ==> x == y
  }

  predicate StrictlyAscending(q: seq<nat>) {
    forall i, j :: 0 <= i < j < |q| ==> q[i] < q[j]
  }

  ghost function Least(s: set<nat>): (m: nat)
    requires s != {}
    ensures m in s && forall x :: x in s ==> m <= x
  {
    assert exists m :: m in s && forall x :: x in s ==> m <= x by { var _ := LeastExists(s); }
    var m :| m in s && forall x :: x in s ==> m <= x;
    m
  }

  lemma {:induction false} LeastExists(s: set<nat>) returns (m: nat)
    requires s != {}
    ensures m in s && forall x :: x in s ==> m <= x
  {
    m :| m in s;
    var rest := s - {m};
    assert forall x :: x in s ==> x == m || x in rest;
    if rest != {} {
      var n := LeastExists(rest);
      if n < m { m := n; }
    }
  }

  /** The elements of s in ascending order, each once. */
  ghost function Ascending(s: set<nat>): (q: seq<nat>)
    ensures |q| == |s|
    ensures StrictlyAscending(q)
    ensures forall x :: x in q <==> x in s
  {
    if s == {} then []
    else
      var m := Least(s);
      var rest := Ascending(s - {m});
      assert forall i :: 0 <= i < |rest| ==> rest[i] in s - {m};
      [m] + rest
  }

  lemma {:induction false} AscendingUnique(a: seq<nat>, b: seq<nat>)
    requires StrictlyAscending(a) && StrictlyAscending(b)
    requires forall x :: x in a <==> x in b
    ensures a == b
  {
    if a == [] {
      assert forall i :: 0 <= i < |b| ==> b[i] in b;
    } else {
      assert a[0] in b;
      assert b[0] in a;
      assert a[0] == b[0];
      var i := a[0];
      forall x ensures x in a[1..] <==> x in b[1..] {
        if x in a[1..] { assert x in b; assert x != i; }
        if x in b[1..] { assert x in a; assert x != i; }
      }
      AscendingUnique(a[1..], b[1..]);
      assert a == [a[0]] + a[1..];
      assert b == [b[0]] + b[1..];
    }
  }

  ghost function SumOver(s: set<nat>, f: nat -> nat): nat {
    if s == {} then 0 else var x := Least(s); f(x) + SumOver(s - {x}, f)
  }

  lemma {:induction false} SumRemove(s: set<nat>, f: nat -> nat, x: nat)
    requires x in s
    ensures SumOver(s, f) == f(x) + SumOver(s - {x}, f)
  {
    var y := Least(s);
    if x != y {
      var rest := s - {y};
      SumRemove(rest, f, x);
      assert y in s - {x} && Least(s - {x}) in s;
      assert s - {x} - {y} == rest - {x};
    }
  }

  lemma {:induction false} SumUnion(a: set<nat>, b: set<nat>, f: nat -> nat)
    requires a !! b
    ensures SumOver(a + b, f) == SumOver(a, f) + SumOver(b, f)
  {
    if a == {} {
      assert a + b == b;
    } else {
      var x := Least(a);
      SumRemove(a + b, f, x);
      assert a + b - {x} == (a - {x}) + b;
      SumUnion(a - {x}, b, f);
    }
  }

  lemma {:induction false} SumAgree(s: set<nat>, f: nat -> nat, g: nat -> nat)
    requires forall x :: x in s ==> f(x) == g(x)
    ensures SumOver(s, f) == SumOver(s, g)
  {
    if s != {} {
      SumAgree(s - {Least(s)}, f, g);
    }
  }

  // ---- paths ----

  // From s, taking these events in turn, each when it can be taken, leads to s'.
  ghost predicate Path<S(!new), E>(can: (S, E) -> bool, next: (S, E) -> S, s: S, events: seq<E>, s': S) {
    if events == [] then s == s' else can(s, events[0]) && Path(can, next, next(s, events[0]), events[1..], s')
  }

  lemma {:induction false} PathJoins<S(!new), E>(can: (S, E) -> bool, next: (S, E) -> S, s: S, a: seq<E>, s1: S,
                                                 b: seq<E>, s2: S)
    requires Path(can, next, s, a, s1) && Path(can, next, s1, b, s2)
    ensures Path(can, next, s, a + b, s2)
  {
    if a == [] {
      assert a + b == b;
    } else {
      PathJoins(can, next, next(s, a[0]), a[1..], s1, b, s2);
      assert (a + b)[1..] == a[1..] + b;
    }
  }
}
