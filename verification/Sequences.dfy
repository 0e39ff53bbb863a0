/** Duplicate-free sequences, counting, and ring buffers that mirror a window of an unbounded log. */
module Sequences {

  ghost predicate NoDup<T>(s: seq<T>) {
    forall i, j :: 0 <= i < j < |s| ==> s[i] != s[j]
  }

  predicate Below(s: seq<int>, n: int) {
    forall i :: 0 <= i < |s| ==> 0 <= s[i] < n
  }

  ghost predicate Apart<T>(s: seq<T>, t: seq<T>) {
    forall x :: x in s ==> x !in t
  }

  function Elements<T>(s: seq<T>): set<T> {
    set x | x in s
  }

  lemma HasElements<T>(s: seq<T>)
    requires s != []
    ensures Elements(s) != {}
  {
    assert s[0] in Elements(s);
  }

  lemma NoDupCons<T>(x: T, s: seq<T>)
    requires NoDup(s) && x !in s
    ensures NoDup([x] + s)
  {
  }

  lemma PrefixTwice<T>(a: seq<T>, b: seq<T>, c: seq<T>)
    requires a <= b <= c
    ensures a <= c
  {
  }

  function Upto(n: nat): (r: set<int>)
    ensures |r| == n
    ensures forall i :: i in r <==> 0 <= i < n
  {
    if n == 0 then {} else Upto(n - 1) + {n - 1}
  }

  lemma {:induction false} NoDupSize<T>(s: seq<T>)
    requires NoDup(s)
    ensures |Elements(s)| == |s|
  {
    if s == [] {
      assert Elements(s) == {};
    } else {
      var rest, x := s[..|s| - 1], s[|s| - 1];
      NoDupSize(rest);
      assert s == rest + [x];
      assert Elements(s) == Elements(rest) + {x};
      assert x !in rest;
    }
  }

  lemma SubsetSize<T>(a: set<T>, b: set<T>)
    requires a <= b
    ensures |a| <= |b|
  {
    assert b == a + (b - a);
  }

  /** A duplicate-free sequence of indices below `n` has at most `n` elements. */
  lemma Pigeonhole(s: seq<int>, n: nat)
    requires NoDup(s) && Below(s, n)
    ensures |s| <= n
  {
    NoDupSize(s);
    SubsetSize(Elements(s), Upto(n));
  }

  /** Slot `k % |ring|` of the ring holds entry `k` of the log, for every position in [lo, |log|). */
  ghost predicate Mirrors<T>(ring: seq<T>, log: seq<T>, lo: nat) {
    && 0 < |ring|
    && forall k :: lo <= k < |log| ==> ring[k % |ring|] == log[k]
  }
}
