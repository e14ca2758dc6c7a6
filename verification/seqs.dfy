/**
 * The array operations the mock API composes: `Array.prototype.filter` and
 * `slice(0, n)`, together with the positions a filter keeps, which is how
 * "the result is an order-preserving subsequence" is stated.
 */
module Seqs {

  /** `s.filter(keep)`: the elements that satisfy `keep`, in their original order. */
  function Filter<T>(s: seq<T>, keep: T -> bool): (r: seq<T>)
    ensures |r| <= |s|
    ensures forall k :: 0 <= k < |r| ==> keep(r[k])
  {
    if s == [] then [] else (if keep(s[0]) then [s[0]] else []) + Filter(s[1..], keep)
  }

  /** `s.slice(0, n)`: the first `n` elements, or all of them when there are fewer. */
  function Take<T>(s: seq<T>, n: nat): (r: seq<T>)
    ensures |r| == if n <= |s| then n else |s|
    ensures forall k :: 0 <= k < |r| ==> r[k] == s[k]
  {
    if n <= |s| then s[..n] else s
  }

  /** Positions are strictly increasing. */
  predicate Increasing(pos: seq<nat>) {
    forall j, j' :: 0 <= j < j' < |pos| ==> pos[j] < pos[j']
  }

  /**
   * The positions at or after `from` whose elements satisfy `keep`, in
   * increasing order: an independent, index-based account of `Filter`.
   */
  function Kept<T>(s: seq<T>, keep: T -> bool, from: nat): (pos: seq<nat>)
    requires from <= |s|
    ensures Increasing(pos)
    ensures forall j :: 0 <= j < |pos| ==> from <= pos[j] < |s| && keep(s[pos[j]])
    ensures forall m :: from <= m < |s| && keep(s[m]) ==> m in pos
    decreases |s| - from
  {
    if from == |s| then []
    else (if keep(s[from]) then [from] else []) + Kept(s, keep, from + 1)
  }

  /** The elements of `s` at positions `pos`, in that order. */
  function Gather<T>(s: seq<T>, pos: seq<nat>): (r: seq<T>)
    requires forall j :: 0 <= j < |pos| ==> pos[j] < |s|
    ensures |r| == |pos|
  {
    seq(|pos|, j requires 0 <= j < |pos| => s[pos[j]])
  }

  /** Gathering distributes over concatenated position lists. */
  lemma GatherAppend<T>(s: seq<T>, a: seq<nat>, b: seq<nat>)
    requires forall j :: 0 <= j < |a| ==> a[j] < |s|
    requires forall j :: 0 <= j < |b| ==> b[j] < |s|
    ensures Gather(s, a + b) == Gather(s, a) + Gather(s, b)
  {
    var ab := a + b;
    assert forall j :: 0 <= j < |ab| ==> ab[j] < |s|;
    forall j | 0 <= j < |ab|
      ensures Gather(s, ab)[j] == (Gather(s, a) + Gather(s, b))[j]
    {
      if j >= |a| {
        assert ab[j] == b[j - |a|];
      }
    }
  }

  /** Filtering a suffix picks exactly the kept positions of that suffix. */
  lemma {:induction false} FilterSuffixIsGather<T>(s: seq<T>, keep: T -> bool, from: nat)
    requires from <= |s|
    ensures Filter(s[from..], keep) == Gather(s, Kept(s, keep, from))
    decreases |s| - from
  {
    if from < |s| {
      var head := if keep(s[from]) then [from] else [];
      var rest := Kept(s, keep, from + 1);
      FilterSuffixIsGather(s, keep, from + 1);
      assert s[from..][1..] == s[from + 1..];
      assert s[from..][0] == s[from];
      assert Filter(s[from..], keep) == Gather(s, head) + Filter(s[from + 1..], keep);
      assert Kept(s, keep, from) == head + rest;
      GatherAppend(s, head, rest);
    }
  }

  /**
   * `Filter` is an order-preserving subsequence of its input that misses no
   * element satisfying `keep`: the j-th result sits at the j-th kept position.
   */
  lemma {:induction false} FilterPositions<T>(s: seq<T>, keep: T -> bool)
    ensures var pos := Kept(s, keep, 0);
      |Filter(s, keep)| == |pos| &&
      forall j :: 0 <= j < |pos| ==> Filter(s, keep)[j] == s[pos[j]]
  {
    FilterSuffixIsGather(s, keep, 0);
    assert s[0..] == s;
  }

  /** A filter whose predicate holds everywhere removes nothing. */
  lemma {:induction false} FilterKeepsAll<T>(s: seq<T>, keep: T -> bool)
    requires forall k :: 0 <= k < |s| ==> keep(s[k])
    ensures Filter(s, keep) == s
  {
    if s != [] {
      FilterKeepsAll(s[1..], keep);
      assert [s[0]] + s[1..] == s;
    }
  }

  /** Two filters in a row keep what their conjunction keeps. */
  lemma {:induction false} FilterTwice<T>(s: seq<T>, p: T -> bool, q: T -> bool, both: T -> bool)
    requires forall x :: both(x) == (p(x) && q(x))
    ensures Filter(Filter(s, p), q) == Filter(s, both)
  {
    if s != [] {
      FilterTwice(s[1..], p, q, both);
      var head := if p(s[0]) then [s[0]] else [];
      FilterAppend(head, Filter(s[1..], p), q);
    }
  }

  /** Filtering distributes over concatenation. */
  lemma {:induction false} FilterAppend<T>(a: seq<T>, b: seq<T>, keep: T -> bool)
    ensures Filter(a + b, keep) == Filter(a, keep) + Filter(b, keep)
  {
    if a != [] {
      FilterAppend(a[1..], b, keep);
      assert (a + b)[1..] == a[1..] + b;
    } else {
      assert a + b == b;
    }
  }

  /**
   * The first `n` filtered elements sit at the first `n` kept positions, in
   * increasing order.
   */
  lemma {:induction false} TakeFilterPositions<T>(s: seq<T>, keep: T -> bool, n: nat, r: seq<T>, o: seq<nat>)
    requires r == Take(Filter(s, keep), n)
    requires o == Take(Kept(s, keep, 0), n)
    ensures |o| == |r|
    ensures Increasing(o)
    ensures forall j :: 0 <= j < |o| ==> o[j] < |s| && r[j] == s[o[j]]
  {
    var pos := Kept(s, keep, 0);
    FilterPositions(s, keep);
    forall j | 0 <= j < |o|
      ensures o[j] < |s| && r[j] == s[o[j]]
    {
      assert o[j] == pos[j];
      assert r[j] == Filter(s, keep)[j];
    }
    forall j, j' | 0 <= j < j' < |o|
      ensures o[j] < o[j']
    {
      assert o[j] == pos[j] && o[j'] == pos[j'];
    }
  }

  /**
   * A position that satisfies `keep` but is not among the first `n` kept
   * positions comes after all of them, and then `n` of them were taken.
   */
  lemma {:induction false} TakeMissesOnlyLater<T>(s: seq<T>, keep: T -> bool, n: nat, o: seq<nat>)
    requires o == Take(Kept(s, keep, 0), n)
    ensures forall m :: 0 <= m < |s| && keep(s[m]) && m !in o ==>
      |o| == n && forall j :: 0 <= j < |o| ==> o[j] < m
  {
    var pos := Kept(s, keep, 0);
    forall m | 0 <= m < |s| && keep(s[m]) && m !in o
      ensures |o| == n && forall j :: 0 <= j < |o| ==> o[j] < m
    {
      var i :| 0 <= i < |pos| && pos[i] == m;
      assert i >= n;
      forall j | 0 <= j < |o|
        ensures o[j] < m
      {
        assert o[j] == pos[j];
      }
    }
  }
}
