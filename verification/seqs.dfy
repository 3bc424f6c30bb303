/** `Array.prototype.filter` and the counts the pages derive from it. */
module Seqs {
  import opened Types

  /** `s.find(p)`: the first element satisfying p, or None when there is none. */
  function Find<T(==)>(s: seq<T>, p: T -> bool): (r: Option<T>)
    ensures r.None? <==> forall i :: 0 <= i < |s| ==> !p(s[i])
    ensures r.Some? ==> exists i :: 0 <= i < |s| && s[i] == r.value && p(s[i]) &&
                                    forall j :: 0 <= j < i ==> !p(s[j])
  {
    if s == [] then None
    else if p(s[0]) then Some(s[0])
    else
      var r := Find(s[1..], p);
      assert r.Some? ==> exists i :: 0 <= i < |s[1..]| && s[1..][i] == r.value && p(s[1..][i]) &&
                                     forall j :: 0 <= j < i ==> !p(s[1..][j]);
      if r.Some? then
        var i :| 0 <= i < |s[1..]| && s[1..][i] == r.value && p(s[1..][i]) && forall j :: 0 <= j < i ==> !p(s[1..][j]);
        assert s[i + 1] == r.value && forall j :: 0 <= j < i + 1 ==> !p(s[j]);
        r
      else r
  }

  /** `s.filter(p)`. */
  function Filter<T(==,!new)>(s: seq<T>, p: T -> bool): (r: seq<T>)
    ensures |r| <= |s|
    ensures forall x :: x in r <==> x in s && p(x)
  {
    if s == [] then []
    else if p(s[0]) then [s[0]] + Filter(s[1..], p)
    else Filter(s[1..], p)
  }

  /** `a` is obtained from `b` by deleting elements, keeping the order. */
  predicate IsSubsequence<T(==)>(a: seq<T>, b: seq<T>)
    decreases |b|
  {
    a == [] || (b != [] && (if a[0] == b[0] then IsSubsequence(a[1..], b[1..]) else IsSubsequence(a, b[1..])))
  }

  /** A filtered sequence keeps the relative order of what it keeps. */
  lemma {:induction false} FilterIsSubsequence<T(!new)>(s: seq<T>, p: T -> bool)
    ensures IsSubsequence(Filter(s, p), s)
  {
    if s != [] {
      FilterIsSubsequence(s[1..], p);
      if p(s[0]) {
        assert Filter(s, p)[1..] == Filter(s[1..], p);
      }
    }
  }

  /** Filtering again with the same predicate changes nothing. */
  lemma {:induction false} FilterIdempotent<T(!new)>(s: seq<T>, p: T -> bool)
    ensures Filter(Filter(s, p), p) == Filter(s, p)
  {
    if s != [] {
      FilterIdempotent(s[1..], p);
    }
  }

  /** A predicate that holds of every element keeps the whole sequence. */
  lemma {:induction false} FilterAll<T(!new)>(s: seq<T>, p: T -> bool)
    requires forall x :: x in s ==> p(x)
    ensures Filter(s, p) == s
  {
    if s != [] {
      FilterAll(s[1..], p);
    }
  }

  /** A predicate that holds of no element keeps nothing. */
  lemma {:induction false} FilterNone<T(!new)>(s: seq<T>, p: T -> bool)
    requires forall x :: x in s ==> !p(x)
    ensures Filter(s, p) == []
  {
    if s != [] {
      FilterNone(s[1..], p);
    }
  }

  /** The positions of s whose element satisfies p. */
  function Positions<T>(s: seq<T>, p: T -> bool): set<nat> {
    set i: nat | i < |s| && p(s[i])
  }

  /** `s.filter(p).length`: the number of positions whose element satisfies
      p; in particular 0 exactly when nothing satisfies p and the length
      exactly when everything does. */
  function Count<T(==,!new)>(s: seq<T>, p: T -> bool): (r: nat)
    ensures r == |Positions(s, p)|
    ensures r <= |s|
    ensures r == 0 <==> forall x :: x in s ==> !p(x)
    ensures r == |s| <==> forall x :: x in s ==> p(x)
  {
    var f := Filter(s, p);
    FilterCountsPositions(s, p, 0);
    assert s[0..] == s;
    assert Positions(s, p) == set i: nat | 0 <= i < |s| && p(s[i]);
    assert f != [] ==> f[0] in f;
    assert (exists x :: x in s && !p(x)) ==> |f| < |s| by {
      if exists x :: x in s && !p(x) {
        var x :| x in s && !p(x);
        FilterDropsFailing(s, p, x);
      }
    }
    assert (forall x :: x in s ==> p(x)) ==> f == s by {
      if forall x :: x in s ==> p(x) {
        FilterAll(s, p);
      }
    }
    |f|
  }

  /** The filtered suffix from position k has one element per satisfying
      position from k on. */
  lemma {:induction false} FilterCountsPositions<T(!new)>(s: seq<T>, p: T -> bool, k: nat)
    requires k <= |s|
    ensures |Filter(s[k..], p)| == |set i: nat | k <= i < |s| && p(s[i])|
    decreases |s| - k
  {
    if k < |s| {
      FilterCountsPositions(s, p, k + 1);
      assert s[k..][0] == s[k] && s[k..][1..] == s[k + 1..];
      var later := set i: nat | k + 1 <= i < |s| && p(s[i]);
      if p(s[k]) {
        assert (set i: nat | k <= i < |s| && p(s[i])) == later + {k};
      } else {
        assert (set i: nat | k <= i < |s| && p(s[i])) == later;
      }
    }
  }

  /** An element that fails p makes the filtered sequence strictly shorter. */
  lemma {:induction false} FilterDropsFailing<T(!new)>(s: seq<T>, p: T -> bool, x: T)
    requires x in s && !p(x)
    ensures |Filter(s, p)| < |s|
  {
    if s[0] != x {
      FilterDropsFailing(s[1..], p, x);
    }
  }

  /** What a predicate keeps and what its negation q keeps add up to the
      whole. */
  lemma {:induction false} CountSplits<T(!new)>(s: seq<T>, p: T -> bool, q: T -> bool)
    requires forall x :: q(x) == !p(x)
    ensures Count(s, p) + Count(s, q) == |s|
  {
    if s != [] {
      CountSplits(s[1..], p, q);
    }
  }

  /** Concatenation is associative. */
  lemma AppendAssoc<T>(a: seq<T>, b: seq<T>, c: seq<T>)
    ensures a + (b + c) == (a + b) + c
  {
  }

  /** `values.reduce((sum, v) => sum + v, 0)`: no value exceeds the sum. */
  function Sum(values: seq<nat>): (r: nat)
    ensures forall i :: 0 <= i < |values| ==> values[i] <= r
  {
    if values == [] then 0
    else
      var rest := Sum(values[1..]);
      assert forall i :: 1 <= i < |values| ==> values[i] == values[1..][i - 1];
      values[0] + rest
  }

  /** The smallest of a non-empty list of values. */
  function MinOf(values: seq<nat>): (r: nat)
    requires values != []
    ensures r in values
    ensures forall i :: 0 <= i < |values| ==> r <= values[i]
  {
    if |values| == 1 then values[0]
    else
      var m := MinOf(values[1..]);
      assert forall i :: 1 <= i < |values| ==> values[i] == values[1..][i - 1];
      if values[0] <= m then values[0] else m
  }

  /** `Math.max(...values)` for a non-empty list. */
  function MaxOf(values: seq<nat>): (r: nat)
    requires values != []
    ensures r in values
    ensures forall i :: 0 <= i < |values| ==> values[i] <= r
  {
    if |values| == 1 then values[0]
    else
      var m := MaxOf(values[1..]);
      assert forall i :: 1 <= i < |values| ==> values[i] == values[1..][i - 1];
      if values[0] >= m then values[0] else m
  }

  /** A sum of values that all lie in [lo, hi] lies between count*lo and
      count*hi. */
  lemma {:induction false} SumBetween(values: seq<nat>, lo: nat, hi: nat)
    requires forall i :: 0 <= i < |values| ==> lo <= values[i] <= hi
    ensures |values| * lo <= Sum(values) <= |values| * hi
  {
    if values != [] {
      var rest := values[1..];
      assert forall i :: 0 <= i < |rest| ==> rest[i] == values[i + 1];
      SumBetween(rest, lo, hi);
      MulStep(|rest|, lo);
      MulStep(|rest|, hi);
      assert lo <= values[0] <= hi;
    }
  }

  /** One more copy of k adds k. */
  lemma MulStep(n: nat, k: nat)
    ensures (n + 1) * k == n * k + k
  {
  }
}
