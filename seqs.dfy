/**
 * The array operations the storefront's code is written with: `filter`, the
 * insertion-ordered de-duplication of a `Set`, `slice`, and flattening a list
 * of pages. Each is stated with the property callers rely on.
 */
module Seqs {

  /** `a` is `b` with some elements dropped and the rest kept in order. */
  predicate Subsequence<T(==)>(a: seq<T>, b: seq<T>)
    decreases |b|
  {
    if a == [] then true
    else if b == [] then false
    else if a[0] == b[0] then Subsequence(a[1..], b[1..])
    else Subsequence(a, b[1..])
  }

  /** `xs.filter(keep)`. */
  function Filter<T(==)>(xs: seq<T>, keep: T -> bool): (r: seq<T>)
    ensures |r| <= |xs|
    ensures forall i :: 0 <= i < |r| ==> r[i] in xs && keep(r[i])
    ensures forall i :: 0 <= i < |xs| && keep(xs[i]) ==> xs[i] in r
    ensures Subsequence(r, xs)
  {
    if xs == [] then []
    else if keep(xs[0]) then [xs[0]] + Filter(xs[1..], keep)
    else Filter(xs[1..], keep)
  }

  /** A filter keeps every copy of a kept element and no copy of a dropped one. */
  lemma {:induction false} FilterCounts<T>(xs: seq<T>, keep: T -> bool)
    ensures forall x | x in xs :: multiset(Filter(xs, keep))[x] == if keep(x) then multiset(xs)[x] else 0
  {
    if xs != [] {
      FilterCounts(xs[1..], keep);
      assert xs == [xs[0]] + xs[1..];
      forall x | x in xs
        ensures multiset(Filter(xs, keep))[x] == if keep(x) then multiset(xs)[x] else 0
      {
        if x !in xs[1..] {
          assert x !in Filter(xs[1..], keep);
        }
      }
    }
  }

  /** Filtering by `keep` and then by `also` is filtering once by both. */
  lemma {:induction false} FilterFusion<T>(xs: seq<T>, keep: T -> bool, also: T -> bool, both: T -> bool)
    requires forall x :: x in xs ==> (both(x) <==> keep(x) && also(x))
    ensures Filter(Filter(xs, keep), also) == Filter(xs, both)
  {
    if xs != [] {
      FilterFusion(xs[1..], keep, also, both);
    }
  }

  /** A filter that every element passes returns the sequence itself. */
  lemma {:induction false} FilterKeepsAll<T>(xs: seq<T>, keep: T -> bool)
    requires forall x :: x in xs ==> keep(x)
    ensures Filter(xs, keep) == xs
  {
    if xs != [] {
      FilterKeepsAll(xs[1..], keep);
    }
  }

  /** Two predicates that agree on every element select the same subsequence. */
  lemma {:induction false} FilterAgreeing<T>(xs: seq<T>, keep: T -> bool, same: T -> bool)
    requires forall x :: x in xs ==> (keep(x) <==> same(x))
    ensures Filter(xs, keep) == Filter(xs, same)
  {
    if xs != [] {
      FilterAgreeing(xs[1..], keep, same);
    }
  }

  predicate NoDuplicates<T(==)>(xs: seq<T>) {
    forall i, j :: 0 <= i < j < |xs| ==> xs[i] != xs[j]
  }

  /** Position of the first occurrence of `x` in `xs`. */
  function FirstIndex<T(==)>(xs: seq<T>, x: T): (k: nat)
    requires x in xs
    ensures k < |xs| && xs[k] == x
    ensures forall j :: 0 <= j < k ==> xs[j] != x
  {
    if xs[0] == x then 0 else 1 + FirstIndex(xs[1..], x)
  }

  /**
   * `Array.from(new Set(xs))`: a `Set` remembers insertion order and ignores
   * an element it already holds, so each distinct element appears once, at
   * the place of its first occurrence.
   */
  function Distinct<T(==)>(xs: seq<T>): (r: seq<T>)
    ensures forall i :: 0 <= i < |r| ==> r[i] in xs
    ensures forall i :: 0 <= i < |xs| ==> xs[i] in r
    ensures NoDuplicates(r)
  {
    if xs == [] then []
    else
      var d := Distinct(xs[..|xs| - 1]);
      if xs[|xs| - 1] in d then d else d + [xs[|xs| - 1]]
  }

  /** A first occurrence inside a prefix is the first occurrence in the whole sequence. */
  lemma {:induction false} FirstIndexInPrefix<T>(xs: seq<T>, n: nat, x: T)
    requires n <= |xs| && x in xs[..n]
    ensures x in xs && FirstIndex(xs, x) == FirstIndex(xs[..n], x)
  {
    if xs[0] != x {
      assert xs[1..][..n - 1] == xs[..n][1..];
      FirstIndexInPrefix(xs[1..], n - 1, x);
    }
  }

  /** `Distinct` lists the elements in the order of their first occurrence. */
  lemma {:induction false} DistinctFirstAppearanceOrder<T>(xs: seq<T>)
    ensures forall i, j :: 0 <= i < j < |Distinct(xs)| ==>
      FirstIndex(xs, Distinct(xs)[i]) < FirstIndex(xs, Distinct(xs)[j])
  {
    if xs != [] {
      var n := |xs| - 1;
      var p := xs[..n];
      var d := Distinct(p);
      DistinctFirstAppearanceOrder(p);
      assert xs[..n] == p;
      forall y | y in d
        ensures FirstIndex(xs, y) == FirstIndex(p, y) < n
      {
        FirstIndexInPrefix(xs, n, y);
      }
      if xs[n] !in d {
        assert xs[n] !in p;
        assert FirstIndex(xs, xs[n]) == n by {
          forall j | 0 <= j < n ensures xs[j] != xs[n] { assert xs[j] == p[j]; }
        }
      }
    }
  }

  function Min(a: int, b: int): int { if a <= b then a else b }

  /** JavaScript's normalisation of a `slice` bound against a length `n`. */
  function SliceBound(i: int, n: nat): (k: nat)
    ensures k <= n
    ensures 0 <= i <= n ==> k == i
    ensures i < 0 ==> k == if n + i < 0 then 0 else n + i
  {
    if i < 0 then (if n + i < 0 then 0 else n + i)
    else if i > n then n
    else i
  }

  /** `xs.slice(start, end)`: out-of-range bounds are clamped, negative ones count from the end. */
  function Slice<T>(xs: seq<T>, start: int, end: int): (r: seq<T>)
    ensures |r| <= |xs|
    ensures 0 <= start <= end ==> |r| <= end - start
    ensures 0 <= start <= end <= |xs| ==> r == xs[start..end]
    ensures forall i :: 0 <= i < |r| ==> r[i] in xs
  {
    var s := SliceBound(start, |xs|);
    var e := SliceBound(end, |xs|);
    if s < e then
      assert forall i :: 0 <= i < e - s ==> xs[s..e][i] == xs[s + i];
      xs[s..e]
    else []
  }

  /** The concatenation of a list of sequences, in order. */
  function Flatten<T>(ss: seq<seq<T>>): seq<T> {
    if ss == [] then [] else Flatten(ss[..|ss| - 1]) + ss[|ss| - 1]
  }
}
