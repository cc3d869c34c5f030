/** List operations the application uses on column and row lists: list
    comprehensions with a condition, the "first element such that" loops,
    `list.index(x)` and the subsequence relation that row filters keep. */
module Seqs {
  import opened Optional

  /** `[x for x in xs if p(x)]` */
  function Filter<T(!new)>(xs: seq<T>, p: T -> bool): (r: seq<T>)
    ensures |r| <= |xs|
    ensures forall i :: 0 <= i < |r| ==> p(r[i])
    decreases |xs|
  {
    if |xs| == 0 then []
    else (if p(xs[0]) then [xs[0]] else []) + Filter(xs[1..], p)
  }

  /** The filter keeps exactly the elements that pass. */
  lemma {:induction false} FilterMembers<T(!new)>(xs: seq<T>, p: T -> bool)
    ensures forall x :: x in Filter(xs, p) <==> x in xs && p(x)
    decreases |xs|
  {
    if |xs| > 0 {
      FilterMembers(xs[1..], p);
      FilterCons(xs, p);
      assert forall x :: x in xs <==> x == xs[0] || x in xs[1..];
    }
  }

  /** The filter of a non-empty list: its head, if it passes, then the
      filter of its tail. */
  lemma FilterCons<T(!new)>(xs: seq<T>, p: T -> bool)
    requires |xs| > 0
    ensures Filter(xs, p) == (if p(xs[0]) then [xs[0]] else []) + Filter(xs[1..], p)
  {
  }

  /** A filter that keeps every element changes nothing. */
  lemma {:induction false} FilterKeepsAll<T(!new)>(xs: seq<T>, p: T -> bool)
    requires forall i :: 0 <= i < |xs| ==> p(xs[i])
    ensures Filter(xs, p) == xs
    decreases |xs|
  {
    if |xs| > 0 {
      FilterKeepsAll(xs[1..], p);
      FilterCons(xs, p);
      assert xs == [xs[0]] + xs[1..];
    }
  }

  /** Two predicates that agree on the elements give the same filter. */
  lemma {:induction false} FilterCongruent<T(!new)>(xs: seq<T>, p: T -> bool, q: T -> bool)
    requires forall i :: 0 <= i < |xs| ==> p(xs[i]) == q(xs[i])
    ensures Filter(xs, p) == Filter(xs, q)
    decreases |xs|
  {
    if |xs| > 0 {
      FilterCongruent(xs[1..], p, q);
    }
  }

  /** Splitting a list by a predicate and its complement loses and adds nothing. */
  lemma {:induction false} FilterSplits<T(!new)>(xs: seq<T>, p: T -> bool, q: T -> bool)
    requires forall i :: 0 <= i < |xs| ==> q(xs[i]) == !p(xs[i])
    ensures multiset(Filter(xs, p)) + multiset(Filter(xs, q)) == multiset(xs)
    decreases |xs|
  {
    if |xs| > 0 {
      FilterSplits(xs[1..], p, q);
      FilterSplitHead(xs, p, q);
      assert multiset(xs) == multiset{xs[0]} + multiset(xs[1..]) by {
        assert xs == [xs[0]] + xs[1..];
      }
    }
  }

  /** The head of the list goes to exactly one of the two filters. */
  lemma FilterSplitHead<T(!new)>(xs: seq<T>, p: T -> bool, q: T -> bool)
    requires |xs| > 0 && q(xs[0]) == !p(xs[0])
    ensures multiset(Filter(xs, p)) + multiset(Filter(xs, q))
      == multiset{xs[0]} + multiset(Filter(xs[1..], p)) + multiset(Filter(xs[1..], q))
  {
    FilterCons(xs, p);
    FilterCons(xs, q);
  }

  /** Filters by predicates no element satisfies together fit in the list. */
  lemma {:induction false} DisjointFiltersFit<T(!new)>(xs: seq<T>, p: T -> bool, q: T -> bool)
    requires forall i :: 0 <= i < |xs| ==> !(p(xs[i]) && q(xs[i]))
    ensures |Filter(xs, p)| + |Filter(xs, q)| <= |xs|
    decreases |xs|
  {
    if |xs| > 0 {
      DisjointFiltersFit(xs[1..], p, q);
    }
  }

  /* ---------------------------------------------------------------------
     Subsequences
     --------------------------------------------------------------------- */

  /** `xs` is `ys` with some elements removed, the rest kept in order. */
  ghost predicate SubseqOf<T>(xs: seq<T>, ys: seq<T>)
    decreases |ys|
  {
    || |xs| == 0
    || (|ys| > 0 && ((xs[0] == ys[0] && SubseqOf(xs[1..], ys[1..])) || SubseqOf(xs, ys[1..])))
  }

  lemma {:induction false} SubseqRefl<T>(xs: seq<T>)
    ensures SubseqOf(xs, xs)
    decreases |xs|
  {
    if |xs| > 0 {
      SubseqRefl(xs[1..]);
    }
  }

  lemma {:induction false} SubseqTrans<T>(xs: seq<T>, ys: seq<T>, zs: seq<T>)
    requires SubseqOf(xs, ys) && SubseqOf(ys, zs)
    ensures SubseqOf(xs, zs)
    decreases |zs|
  {
    if |xs| > 0 {
      if SubseqOf(ys, zs[1..]) {
        SubseqTrans(xs, ys, zs[1..]);
      } else if xs[0] == ys[0] && SubseqOf(xs[1..], ys[1..]) {
        SubseqTrans(xs[1..], ys[1..], zs[1..]);
      } else {
        SubseqTrans(xs, ys[1..], zs[1..]);
      }
    }
  }

  /** A subsequence is no longer and holds only elements of the original. */
  lemma {:induction false} SubseqMembers<T(!new)>(xs: seq<T>, ys: seq<T>)
    requires SubseqOf(xs, ys)
    ensures |xs| <= |ys|
    ensures forall x :: x in xs ==> x in ys
    decreases |ys|
  {
    if |xs| > 0 {
      if xs[0] == ys[0] && SubseqOf(xs[1..], ys[1..]) {
        SubseqMembers(xs[1..], ys[1..]);
        assert forall x :: x in xs ==> x == xs[0] || x in xs[1..];
      } else {
        SubseqMembers(xs, ys[1..]);
      }
    }
  }

  /** A filter keeps the surviving elements in their original order. */
  lemma {:induction false} FilterIsSubseq<T(!new)>(xs: seq<T>, p: T -> bool)
    ensures SubseqOf(Filter(xs, p), xs)
    decreases |xs|
  {
    if |xs| > 0 {
      FilterIsSubseq(xs[1..], p);
      var r := Filter(xs, p);
      if p(xs[0]) {
        assert r[0] == xs[0] && r[1..] == Filter(xs[1..], p);
      } else {
        assert r == Filter(xs[1..], p);
      }
    }
  }

  /** A filter keeps every copy of an element it keeps: each element occurs
      as often in the result as in the input, or not at all. */
  lemma {:induction false} FilterCounts<T(!new)>(xs: seq<T>, p: T -> bool)
    ensures forall x :: multiset(Filter(xs, p))[x] == if p(x) then multiset(xs)[x] else 0
    decreases |xs|
  {
    if |xs| > 0 {
      FilterCounts(xs[1..], p);
      FilterCons(xs, p);
      assert xs == [xs[0]] + xs[1..];
    }
  }

  /** A filter that keeps no element leaves nothing. */
  lemma {:induction false} FilterNone<T(!new)>(xs: seq<T>, p: T -> bool)
    requires forall i :: 0 <= i < |xs| ==> !p(xs[i])
    ensures Filter(xs, p) == []
    decreases |xs|
  {
    if |xs| > 0 {
      FilterNone(xs[1..], p);
    }
  }

  /** Filtering by a narrower test after a wider one is filtering by the
      narrower test alone. */
  lemma {:induction false} FilterOfFilter<T(!new)>(xs: seq<T>, p: T -> bool, q: T -> bool)
    requires forall x :: q(x) ==> p(x)
    ensures Filter(Filter(xs, p), q) == Filter(xs, q)
    decreases |xs|
  {
    if |xs| > 0 {
      FilterOfFilter(xs[1..], p, q);
      FilterCons(xs, p);
      FilterCons(xs, q);
      var fp := Filter(xs, p);
      if p(xs[0]) {
        assert fp[0] == xs[0] && fp[1..] == Filter(xs[1..], p);
        FilterCons(fp, q);
      } else {
        assert fp == Filter(xs[1..], p);
      }
    }
  }

  /** No element occurs twice. */
  predicate NoDuplicates<T(==)>(xs: seq<T>)
  {
    forall i, j :: 0 <= i < j < |xs| ==> xs[i] != xs[j]
  }

  /** A list without duplicates holds each element at most once. */
  lemma {:induction false} NoDuplicatesCounts<T>(xs: seq<T>)
    requires NoDuplicates(xs)
    ensures forall x :: multiset(xs)[x] <= 1
    decreases |xs|
  {
    if |xs| > 0 {
      NoDuplicatesCounts(xs[1..]);
      assert xs == [xs[0]] + xs[1..];
      forall k | 0 <= k < |xs[1..]|
        ensures xs[1..][k] != xs[0]
      {
        assert xs[1..][k] == xs[k + 1];
      }
    }
  }

  /** Each element at most once means no duplicates. */
  lemma CountsNoDuplicates<T>(xs: seq<T>)
    requires forall x :: multiset(xs)[x] <= 1
    ensures NoDuplicates(xs)
  {
    forall i, j | 0 <= i < j < |xs|
      ensures xs[i] != xs[j]
    {
      RepeatCounts(xs, i, j);
    }
  }

  /** An element at two positions occurs at least twice. */
  lemma RepeatCounts<T>(xs: seq<T>, i: nat, j: nat)
    requires i < j < |xs|
    ensures xs[i] == xs[j] ==> multiset(xs)[xs[i]] >= 2
  {
    assert xs == xs[..j] + xs[j..];
    assert xs[i] in xs[..j];
    assert xs[j] in xs[j..];
  }

  /* ---------------------------------------------------------------------
     Searching
     --------------------------------------------------------------------- */

  /** The index reached by `for x in xs: if p(x): ...; break`. */
  function FirstIndex<T>(xs: seq<T>, p: T -> bool): (r: Option<nat>)
    ensures r.Some? ==> r.value < |xs| && p(xs[r.value])
    ensures r.Some? ==> forall k :: 0 <= k < r.value ==> !p(xs[k])
    ensures r.None? ==> forall k :: 0 <= k < |xs| ==> !p(xs[k])
    decreases |xs|
  {
    if |xs| == 0 then None
    else if p(xs[0]) then Some(0)
    else
      match FirstIndex(xs[1..], p)
      case None => None
      case Some(i) => Some(i + 1)
  }

  /** The element found by `for x in xs: if p(x): found = x; break`. */
  function FirstWhere<T>(xs: seq<T>, p: T -> bool): (r: Option<T>)
    ensures r.Some? <==> FirstIndex(xs, p).Some?
    ensures r.Some? ==> r.value == xs[FirstIndex(xs, p).value]
  {
    match FirstIndex(xs, p)
    case Some(i) => Some(xs[i])
    case None => None
  }

  /** `xs.index(x)`, or `fallback` where Python raises `ValueError`. */
  function IndexOr<T(==)>(xs: seq<T>, x: T, fallback: nat): (r: nat)
    ensures x in xs ==> r < |xs| && xs[r] == x && x !in xs[..r]
    ensures x !in xs ==> r == fallback
  {
    match FirstIndex(xs, y => y == x)
    case Some(i) => i
    case None => fallback
  }

  /** The elements of `xs` up to `n` of them: Python's `xs[:n]`. */
  function Take<T>(xs: seq<T>, n: nat): (r: seq<T>)
    ensures |r| == if |xs| < n then |xs| else n
    ensures r == xs[..|r|]
  {
    if |xs| < n then xs else xs[..n]
  }

  /** The rows of a grid laid out one after another. */
  function Flatten<T>(rows: seq<seq<T>>): seq<T>
    decreases |rows|
  {
    if |rows| == 0 then [] else Flatten(rows[..|rows| - 1]) + rows[|rows| - 1]
  }

  /** `list(range(lo, hi))` */
  function Range(lo: nat, hi: nat): (r: seq<nat>)
    ensures |r| == if lo <= hi then hi - lo else 0
    ensures forall i :: 0 <= i < |r| ==> r[i] == lo + i
  {
    if lo <= hi then seq(hi - lo, i requires 0 <= i < hi - lo => lo + i) else []
  }
}
