/** Sequence helpers shared by the models: a flat map whose definition follows loops that
    append, and unique splitting of a string at a separator. */
module Seqs {

  datatype Option<+T> = None | Some(value: T)

  /** The concatenation of f over s, in order. */
  function FlatMap<T, U>(s: seq<T>, f: T -> seq<U>): seq<U>
  {
    if s == [] then [] else FlatMap(s[..|s| - 1], f) + f(s[|s| - 1])
  }

  /** One more iteration of a loop over s appends f(s[i]). */
  lemma FlatMapStep<T, U>(s: seq<T>, i: nat, f: T -> seq<U>)
    requires i < |s|
    ensures FlatMap(s[..i + 1], f) == FlatMap(s[..i], f) + f(s[i])
  {
    assert s[..i + 1][..i] == s[..i];
  }

  lemma {:induction false} FlatMapMember<T, U>(s: seq<T>, f: T -> seq<U>, y: U)
    ensures y in FlatMap(s, f) <==> exists x :: x in s && y in f(x)
  {
    if s == [] {
    } else {
      var front, last := s[..|s| - 1], s[|s| - 1];
      FlatMapMember(front, f, y);
      assert s == front + [last];
    }
  }

  /** The last element of s satisfying p: what a JavaScript Map built from s returns for a key. */
  function FindLast<T>(s: seq<T>, p: T -> bool): (r: Option<T>)
    ensures r.Some? ==> r.value in s && p(r.value)
    ensures r.None? ==> forall x :: x in s ==> !p(x)
  {
    if s == [] then None
    else if p(s[|s| - 1]) then Some(s[|s| - 1])
    else
      var r := FindLast(s[..|s| - 1], p);
      assert s == s[..|s| - 1] + [s[|s| - 1]];
      r
  }

  /** The first element of s satisfying p: Array.prototype.find. */
  function FindFirst<T>(s: seq<T>, p: T -> bool): (r: Option<T>)
    ensures r.Some? ==> r.value in s && p(r.value)
    ensures r.None? ==> forall x :: x in s ==> !p(x)
  {
    if s == [] then None
    else if p(s[0]) then Some(s[0])
    else
      var r := FindFirst(s[1..], p);
      assert s == [s[0]] + s[1..];
      r
  }

  /** No two positions of s hold the same key. */
  ghost predicate UniqueBy<T, K>(s: seq<T>, key: T -> K)
  {
    forall i, j :: 0 <= i < j < |s| ==> key(s[i]) != key(s[j])
  }

  /** Equal keys, equal elements. */
  lemma UniqueRow<T, K>(s: seq<T>, key: T -> K, a: T, b: T)
    requires UniqueBy(s, key) && a in s && b in s && key(a) == key(b)
    ensures a == b
  {
  }

  ghost function KeySet<T, K>(s: seq<T>, key: T -> K): set<K>
  {
    set x | x in s :: key(x)
  }

  lemma {:induction false} KeySetSize<T, K>(s: seq<T>, key: T -> K)
    requires UniqueBy(s, key)
    ensures |KeySet(s, key)| == |s|
  {
    if s == [] {
    } else {
      var front, last := s[..|s| - 1], s[|s| - 1];
      KeySetSize(front, key);
      assert s == front + [last];
      assert KeySet(s, key) == KeySet(front, key) + {key(last)};
      assert key(last) !in KeySet(front, key);
    }
  }

  /** Text before and after the first separator is determined by the whole. */
  lemma SplitAtFirst(sep: char, u: string, a: string, v: string, b: string)
    requires sep !in u && sep !in v
    requires u + [sep] + a == v + [sep] + b
    ensures u == v && a == b
  {
    var w := u + [sep] + a;
    assert w[|u|] == sep && w[|v|] == sep;
    assert u == w[..|u|] && v == w[..|v|];
    assert a == w[|u| + 1..] && b == w[|v| + 1..];
  }

  /** Text before and after the last separator is determined by the whole. */
  lemma SplitAtLast(sep: char, u: string, a: string, v: string, b: string)
    requires sep !in a && sep !in b
    requires u + [sep] + a == v + [sep] + b
    ensures u == v && a == b
  {
    var w := u + [sep] + a;
    assert w[|u|] == sep && w[|v|] == sep;
    assert forall i :: |u| < i < |w| ==> w[i] == a[i - |u| - 1];
    assert forall i :: |v| < i < |w| ==> w[i] == b[i - |v| - 1];
    assert u == w[..|u|] && v == w[..|v|];
    assert a == w[|u| + 1..] && b == w[|v| + 1..];
  }

  lemma {:induction false} HasMax(s: set<nat>)
    requires s != {}
    ensures exists m :: m in s && forall x :: x in s ==> x <= m
  {
    var x :| x in s;
    if s != {x} {
      HasMax(s - {x});
      var m :| m in s - {x} && forall y :: y in s - {x} ==> y <= m;
      assert forall y :: y in s ==> y == x || y in s - {x};
      assert forall y :: y in s ==> y <= if x > m then x else m;
    }
  }

  function MaxOf(s: set<nat>): (m: nat)
    requires s != {}
    ensures m in s && forall x :: x in s ==> x <= m
  {
    HasMax(s);
    var m :| m in s && forall x :: x in s ==> x <= m;
    m
  }

  lemma SubsetSize<T>(a: set<T>, b: set<T>)
    requires a <= b
    ensures |a| <= |b|
  {
    assert b == a + (b - a);
  }

  /** The elements in decreasing order: rows newest first. */
  function Descending(s: set<nat>): (r: seq<nat>)
    ensures |r| == |s| && (forall x :: x in s <==> x in r)
    ensures forall i, j :: 0 <= i < j < |r| ==> r[i] > r[j]
  {
    if s == {} then []
    else
      var rest := Descending(s - {MaxOf(s)});
      Before(MaxOf(s), s, rest);
      [MaxOf(s)] + rest
  }

  lemma Before(m: nat, s: set<nat>, rest: seq<nat>)
    requires m in s && (forall x :: x in s ==> x <= m) && (forall x :: x in s - {m} <==> x in rest)
    ensures forall i :: 0 <= i < |rest| ==> rest[i] < m
    ensures forall x :: x in s <==> x in [m] + rest
  {
    forall i | 0 <= i < |rest| ensures rest[i] < m { assert rest[i] in rest; }
  }

  function Elements<T>(xs: seq<T>): set<T> { set x | x in xs }

  lemma {:induction false} ElementsSize<T>(xs: seq<T>)
    ensures |Elements(xs)| <= |xs|
  {
    if xs != [] {
      var front := xs[..|xs| - 1];
      ElementsSize(front);
      assert xs == front + [xs[|xs| - 1]];
      assert Elements(xs) == Elements(front) + {xs[|xs| - 1]};
    }
  }
}
