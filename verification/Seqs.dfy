/** Sequences as collections: distinctness, element sets, reversal, counting. */
module Seqs {
  ghost predicate Distinct<T>(s: seq<T>) {
    forall i, j :: 0 <= i < j < |s| ==> s[i] != s[j]
  }

  ghost function ToSet<T>(s: seq<T>): set<T> { set x | x in s }

  lemma {:induction false} DistinctSize<T>(s: seq<T>)
    requires Distinct(s)
    ensures |ToSet(s)| == |s|
  {
    if s != [] {
      var rest := s[1..];
      assert Distinct(rest);
      DistinctSize(rest);
      assert s[0] !in rest;
      assert s == [s[0]] + rest;
      assert ToSet(s) == {s[0]} + ToSet(rest);
    }
  }

  lemma SetSize<T>(s: seq<T>, all: set<T>)
    requires Distinct(s) && forall x :: x in s <==> x in all
    ensures |all| == |s|
  {
    DistinctSize(s);
    assert ToSet(s) == all;
  }

  function RemoveAt<T>(s: seq<T>, i: nat): (r: seq<T>)
    requires i < |s|
    ensures |r| == |s| - 1
    ensures forall j {:trigger r[j]} :: 0 <= j < |r| ==> r[j] == s[if j < i then j else j + 1]
  {
    s[..i] + s[i + 1..]
  }

  /** The values of `f` over a sequence, with multiplicity. */
  function Bag<T, U(==)>(s: seq<T>, f: T -> U): multiset<U> {
    if s == [] then multiset{} else multiset{f(s[0])} + Bag(s[1..], f)
  }

  lemma {:induction false} BagConcat<T, U>(a: seq<T>, b: seq<T>, f: T -> U)
    ensures Bag(a + b, f) == Bag(a, f) + Bag(b, f)
  {
    if a == [] {
      assert a + b == b;
    } else {
      assert (a + b)[1..] == a[1..] + b;
      BagConcat(a[1..], b, f);
    }
  }

  lemma BagRemove<T, U>(s: seq<T>, i: nat, f: T -> U)
    requires i < |s|
    ensures Bag(s, f) == Bag(RemoveAt(s, i), f) + multiset{f(s[i])}
  {
    assert s == s[..i] + s[i..];
    BagConcat(s[..i], s[i..], f);
    BagConcat(s[..i], s[i + 1..], f);
    assert s[i..][1..] == s[i + 1..];
  }

  lemma BagAdd<T, U>(s: seq<T>, x: T, f: T -> U)
    ensures Bag(s + [x], f) == Bag(s, f) + multiset{f(x)}
  {
    BagConcat(s, [x], f);
    assert [x][1..] == [];
  }

  /** The sum of `w` over a sequence. */
  function Total<T>(s: seq<T>, w: T -> nat): nat {
    if s == [] then 0 else w(s[0]) + Total(s[1..], w)
  }

  lemma {:induction false} TotalConcat<T>(a: seq<T>, b: seq<T>, w: T -> nat)
    ensures Total(a + b, w) == Total(a, w) + Total(b, w)
  {
    if a == [] {
      assert a + b == b;
    } else {
      assert (a + b)[1..] == a[1..] + b;
      TotalConcat(a[1..], b, w);
    }
  }

  lemma TotalRemove<T>(s: seq<T>, i: nat, w: T -> nat)
    requires i < |s|
    ensures Total(s, w) == Total(RemoveAt(s, i), w) + w(s[i])
  {
    assert s == s[..i] + s[i..];
    TotalConcat(s[..i], s[i..], w);
    TotalConcat(s[..i], s[i + 1..], w);
    assert s[i..][1..] == s[i + 1..];
  }

  lemma TotalAdd<T>(s: seq<T>, x: T, w: T -> nat)
    ensures Total(s + [x], w) == Total(s, w) + w(x)
  {
    TotalConcat(s, [x], w);
    assert [x][1..] == [];
  }
}
