/** The order-preserving filter behind Python's list comprehensions and
    pandas' `select_dtypes`. */
module Sequences {

  /** `a` can be obtained from `b` by deleting elements, keeping the rest in order. */
  ghost predicate IsSubsequence<T>(a: seq<T>, b: seq<T>)
    decreases |b|
  {
    if a == [] then true
    else if b == [] then false
    else (a[0] == b[0] && IsSubsequence(a[1..], b[1..])) || IsSubsequence(a, b[1..])
  }

  /** The elements of `s` that satisfy `keep`, in their original order. */
  function Filter<T(!new)>(s: seq<T>, keep: T -> bool): (r: seq<T>)
    ensures |r| <= |s|
    ensures forall x :: x in r <==> x in s && keep(x)
    ensures forall x :: multiset(r)[x] == if keep(x) then multiset(s)[x] else 0
    ensures IsSubsequence(r, s)
  {
    if s == [] then []
    else
      var rest := Filter(s[1..], keep);
      assert s == [s[0]] + s[1..];
      if keep(s[0]) then [s[0]] + rest else rest
  }

  /** `[f(x) for x in s]`. */
  function Apply<T, U>(s: seq<T>, f: T -> U): (r: seq<U>)
    ensures |r| == |s| && forall i :: 0 <= i < |s| ==> r[i] == f(s[i])
  {
    seq(|s|, i requires 0 <= i < |s| => f(s[i]))
  }

  /** The indices of the elements of `s` that satisfy `keep`, ascending. */
  function Positions<T(!new)>(s: seq<T>, keep: T -> bool): (p: seq<nat>)
    ensures forall k :: 0 <= k < |p| ==> p[k] < |s| && keep(s[p[k]])
    ensures forall k, l :: 0 <= k < l < |p| ==> p[k] < p[l]
    ensures forall i :: 0 <= i < |s| && keep(s[i]) ==> i in p
  {
    if s == [] then []
    else
      var n := |s| - 1;
      var init := Positions(s[..n], keep);
      assert forall i :: 0 <= i < n ==> s[..n][i] == s[i];
      if keep(s[n]) then init + [n] else init
  }

  /** Filtering distributes over appending one element. */
  lemma {:induction false} FilterSnoc<T(!new)>(s: seq<T>, x: T, keep: T -> bool)
    ensures Filter(s + [x], keep) == Filter(s, keep) + (if keep(x) then [x] else [])
  {
    if s != [] {
      assert (s + [x])[1..] == s[1..] + [x];
      FilterSnoc(s[1..], x, keep);
    } else {
      assert [x][1..] == [];
    }
  }

  /** The filter returns exactly the elements at Positions, in that order. */
  lemma {:induction false} FilterAtPositions<T(!new)>(s: seq<T>, keep: T -> bool)
    ensures |Filter(s, keep)| == |Positions(s, keep)|
    ensures forall k :: 0 <= k < |Positions(s, keep)| ==>
              Filter(s, keep)[k] == s[Positions(s, keep)[k]]
  {
    if s != [] {
      var n := |s| - 1;
      assert s == s[..n] + [s[n]];
      FilterSnoc(s[..n], s[n], keep);
      FilterAtPositions(s[..n], keep);
    }
  }

  /** Projecting both sides through the same function keeps a subsequence one. */
  lemma {:induction false} SubsequenceApply<T, U>(a: seq<T>, b: seq<T>, f: T -> U)
    requires IsSubsequence(a, b)
    ensures IsSubsequence(Apply(a, f), Apply(b, f))
    decreases |b|
  {
    if a != [] {
      assert Apply(b, f)[1..] == Apply(b[1..], f);
      if a[0] == b[0] && IsSubsequence(a[1..], b[1..]) {
        SubsequenceApply(a[1..], b[1..], f);
        assert Apply(a, f)[1..] == Apply(a[1..], f);
      } else {
        SubsequenceApply(a, b[1..], f);
      }
    }
  }

  /** A filter that keeps every element returns its input unchanged. */
  lemma {:induction false} FilterKeepsAll<T(!new)>(s: seq<T>, keep: T -> bool)
    requires forall i :: 0 <= i < |s| ==> keep(s[i])
    ensures Filter(s, keep) == s
  {
    if s != [] {
      FilterKeepsAll(s[1..], keep);
    }
  }
}
