/** Array filtering as JavaScript's `Array.prototype.filter` does it, and the order it keeps. */
module Seqs {

  /** `s.filter(p)`: the elements satisfying `p`, in their original order. */
  function Filter<T>(s: seq<T>, p: T -> bool): (r: seq<T>)
    ensures |r| <= |s|
    ensures forall i :: 0 <= i < |r| ==> r[i] in s && p(r[i])
    ensures forall i :: 0 <= i < |s| && p(s[i]) ==> s[i] in r
    decreases |s|
  {
    if s == [] then []
    else if p(s[0]) then [s[0]] + Filter(s[1..], p)
    else Filter(s[1..], p)
  }

  /** `a` is `b` with some elements left out, the rest in the same order. */
  predicate IsSubsequence<T(==)>(a: seq<T>, b: seq<T>)
    decreases |b|
  {
    if a == [] then true
    else if b == [] then false
    else (a[0] == b[0] && IsSubsequence(a[1..], b[1..])) || IsSubsequence(a, b[1..])
  }

  predicate NoDuplicates<T(==)>(s: seq<T>)
  {
    forall i, j :: 0 <= i < j < |s| ==> s[i] != s[j]
  }

  lemma {:induction false} SubsequenceReflexive<T>(s: seq<T>)
    ensures IsSubsequence(s, s)
    decreases |s|
  {
    if s != [] {
      SubsequenceReflexive(s[1..]);
    }
  }

  /** Filtering keeps the order of what it keeps. */
  lemma {:induction false} FilterIsSubsequence<T>(s: seq<T>, p: T -> bool)
    ensures IsSubsequence(Filter(s, p), s)
    decreases |s|
  {
    if s != [] {
      FilterIsSubsequence(s[1..], p);
      var r := Filter(s, p);
      if p(s[0]) {
        assert r[0] == s[0] && r[1..] == Filter(s[1..], p);
      }
    }
  }

  /** A stricter predicate keeps a subsequence of what a looser one keeps. */
  lemma {:induction false} FilterMonotone<T>(s: seq<T>, strict: T -> bool, loose: T -> bool)
    requires forall x :: strict(x) ==> loose(x)
    ensures IsSubsequence(Filter(s, strict), Filter(s, loose))
    decreases |s|
  {
    if s != [] {
      FilterMonotone(s[1..], strict, loose);
      var a, b := Filter(s, strict), Filter(s, loose);
      if strict(s[0]) {
        assert a[0] == b[0] && a[1..] == Filter(s[1..], strict) && b[1..] == Filter(s[1..], loose);
      } else if loose(s[0]) {
        assert b[1..] == Filter(s[1..], loose);
        assert a == Filter(s[1..], strict);
      }
    }
  }

  /** Filtering twice is filtering once by both predicates. */
  lemma {:induction false} FilterFilter<T>(s: seq<T>, p: T -> bool, q: T -> bool)
    ensures Filter(Filter(s, p), q) == Filter(s, x => p(x) && q(x))
    decreases |s|
  {
    if s != [] {
      FilterFilter(s[1..], p, q);
      if p(s[0]) {
        assert Filter(s, p)[1..] == Filter(s[1..], p);
      }
    }
  }

  /** A predicate every element satisfies filters nothing out. */
  lemma {:induction false} FilterKeepsAll<T>(s: seq<T>, p: T -> bool)
    requires forall x :: x in s ==> p(x)
    ensures Filter(s, p) == s
    decreases |s|
  {
    if s != [] {
      FilterKeepsAll(s[1..], p);
    }
  }

  /** Two predicates that agree everywhere filter alike. */
  lemma {:induction false} FilterExtensional<T>(s: seq<T>, p: T -> bool, q: T -> bool)
    requires forall x :: p(x) == q(x)
    ensures Filter(s, p) == Filter(s, q)
    decreases |s|
  {
    if s != [] {
      FilterExtensional(s[1..], p, q);
    }
  }

  /** An index argument of `Array.prototype.slice`: negative counts from the end, then clamped to `[0, len]`. */
  function SliceIndex(i: int, len: nat): (r: nat)
    ensures r <= len
    ensures 0 <= i <= len ==> r == i
  {
    if i < 0 then (if len + i < 0 then 0 else len + i)
    else if i > len then len
    else i
  }

  /** `s.slice(start, end)`: never fails, empty when the clamped end is not after the clamped start. */
  function Slice<T>(s: seq<T>, start: int, end: int): (r: seq<T>)
    ensures |r| <= |s|
    ensures 0 <= start <= end <= |s| ==> r == s[start..end]
  {
    var b, e := SliceIndex(start, |s|), SliceIndex(end, |s|);
    if b < e then s[b..e] else []
  }

  /** `removeElement` of a Doctrine collection: the first occurrence (by identity) goes, the order of the rest stays. */
  function RemoveElement<T(==)>(s: seq<T>, x: T): (r: seq<T>)
    ensures x !in s ==> r == s
    ensures x in s ==> |r| == |s| - 1 && multiset(r) == multiset(s) - multiset{x}
    ensures forall y :: y in r ==> y in s
    ensures forall y :: y in s && y != x ==> y in r
    decreases |s|
  {
    if s == [] then []
    else if s[0] == x then
      assert s == [s[0]] + s[1..];
      s[1..]
    else
      assert s == [s[0]] + s[1..];
      [s[0]] + RemoveElement(s[1..], x)
  }

  /** In a collection without repeats, removing an element removes it entirely and keeps the rest without repeats. */
  lemma {:induction false} RemoveElementNoDuplicates<T>(s: seq<T>, x: T)
    requires NoDuplicates(s)
    ensures x !in RemoveElement(s, x) && NoDuplicates(RemoveElement(s, x))
    decreases |s|
  {
    if s != [] && s[0] != x {
      RemoveElementNoDuplicates(s[1..], x);
      var r := RemoveElement(s[1..], x);
      assert s[0] !in s[1..];
      assert s[0] !in r;
    }
  }

  /** Appending an element that is absent keeps a collection without repeats. */
  lemma AppendNoDuplicates<T>(s: seq<T>, x: T)
    requires NoDuplicates(s) && x !in s
    ensures NoDuplicates(s + [x])
  {
  }

  /** The elements of `s` without repeats, each where it first occurs. */
  function Distinct<T(==)>(s: seq<T>): (r: seq<T>)
    ensures NoDuplicates(r)
    ensures forall k :: 0 <= k < |r| ==> r[k] in s
    decreases |s|
  {
    if s == [] then []
    else
      var d := Distinct(s[..|s| - 1]);
      if s[|s| - 1] in d then d else d + [s[|s| - 1]]
  }

  /** Nothing of `s` is lost by `Distinct`. */
  lemma {:induction false} DistinctKeepsAll<T>(s: seq<T>)
    ensures forall k :: 0 <= k < |s| ==> s[k] in Distinct(s)
    decreases |s|
  {
    if s != [] {
      var init := s[..|s| - 1];
      DistinctKeepsAll(init);
      assert forall k :: 0 <= k < |init| ==> s[k] == init[k];
    }
  }

  lemma AppendAssociative<T>(a: seq<T>, b: seq<T>, c: seq<T>)
    ensures a + (b + c) == (a + b) + c
  {
  }
}
