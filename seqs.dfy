/**
 * Order-preserving sequence operations. They stand for the Rust iterator
 * pipelines the configuration queries are written with: `iter().filter(..)
 * .collect()` and `iter().map(..).collect()`.
 */
module Seqs {
  /** `xs` is obtained from `ys` by deleting elements: an order-preserving subsequence. */
  predicate IsSubseq<T(==)>(xs: seq<T>, ys: seq<T>)
    decreases |ys|
  {
    || xs == []
    || (ys != [] && ((xs[0] == ys[0] && IsSubseq(xs[1..], ys[1..])) || IsSubseq(xs, ys[1..])))
  }

  lemma {:induction false} SubseqLength<T>(xs: seq<T>, ys: seq<T>)
    requires IsSubseq(xs, ys)
    ensures |xs| <= |ys|
    decreases |ys|
  {
    if xs != [] {
      if xs[0] == ys[0] && IsSubseq(xs[1..], ys[1..]) {
        SubseqLength(xs[1..], ys[1..]);
      } else {
        SubseqLength(xs, ys[1..]);
      }
    }
  }

  /** A subsequence holds no element more often than the sequence it is taken from. */
  lemma {:induction false} SubseqMultiset<T>(xs: seq<T>, ys: seq<T>)
    requires IsSubseq(xs, ys)
    ensures multiset(xs) <= multiset(ys)
    decreases |ys|
  {
    if xs != [] {
      assert ys == [ys[0]] + ys[1..];
      if xs[0] == ys[0] && IsSubseq(xs[1..], ys[1..]) {
        SubseqMultiset(xs[1..], ys[1..]);
        assert xs == [xs[0]] + xs[1..];
      } else {
        SubseqMultiset(xs, ys[1..]);
      }
    }
  }

  /** The elements of `s` that satisfy `p`, in their original order (`iter().filter(p).collect()`). */
  function Filter<T(==)>(s: seq<T>, p: T -> bool): (r: seq<T>)
    ensures |r| <= |s|
    ensures forall i :: 0 <= i < |r| ==> p(r[i])
    ensures IsSubseq(r, s)
  {
    if s == [] then []
    else
      var rest := Filter(s[1..], p);
      if p(s[0]) then
        assert ([s[0]] + rest)[1..] == rest;
        [s[0]] + rest
      else rest
  }

  /** Filter keeps every element that passes as often as `s` holds it, and no other. */
  lemma {:induction false} FilterMultiset<T(!new)>(s: seq<T>, p: T -> bool)
    ensures forall x :: p(x) ==> multiset(Filter(s, p))[x] == multiset(s)[x]
    ensures forall x :: !p(x) ==> multiset(Filter(s, p))[x] == 0
  {
    if s != [] {
      FilterMultiset(s[1..], p);
      assert s == [s[0]] + s[1..];
      if p(s[0]) {
        assert Filter(s, p) == [s[0]] + Filter(s[1..], p);
      }
    }
  }

  /** An element is in Filter's result exactly when it is in `s` and passes. */
  lemma FilterMembers<T(!new)>(s: seq<T>, p: T -> bool)
    ensures forall x :: x in Filter(s, p) <==> x in s && p(x)
  {
    FilterMultiset(s, p);
    forall x ensures x in Filter(s, p) <==> x in s && p(x) {
      assert x in Filter(s, p) <==> x in multiset(Filter(s, p));
      assert x in s <==> x in multiset(s);
    }
  }

  /**
   * The three properties Filter promises determine its result: any
   * subsequence of `s` whose elements all satisfy `p`, and that keeps every
   * element satisfying `p` as often as `s` holds it, is `Filter(s, p)`.
   */
  lemma {:induction false} FilterUnique<T(!new)>(s: seq<T>, p: T -> bool, r: seq<T>)
    requires IsSubseq(r, s)
    requires forall i :: 0 <= i < |r| ==> p(r[i])
    requires forall x :: p(x) ==> multiset(r)[x] == multiset(s)[x]
    ensures r == Filter(s, p)
    decreases |s|
  {
    if s == [] {
    } else {
      var x0, tail := s[0], s[1..];
      assert s == [x0] + tail;
      if r != [] && r[0] == x0 && IsSubseq(r[1..], tail) {
        assert r == [x0] + r[1..];
        forall x | p(x) ensures multiset(r[1..])[x] == multiset(tail)[x] {
          assert multiset(r)[x] == multiset(r[1..])[x] + (if x == x0 then 1 else 0);
        }
        FilterUnique(tail, p, r[1..]);
      } else {
        assert IsSubseq(r, tail);
        if p(x0) {
          SubseqMultiset(r, tail);
          assert false;
        }
        FilterUnique(tail, p, r);
      }
    }
  }

  /** Filtering a sequence whose elements all pass leaves it unchanged. */
  lemma {:induction false} FilterAllPass<T(!new)>(s: seq<T>, p: T -> bool)
    requires forall i :: 0 <= i < |s| ==> p(s[i])
    ensures Filter(s, p) == s
  {
    if s != [] {
      FilterAllPass(s[1..], p);
    }
  }

  /** Filtering twice by the same predicate is filtering once. */
  lemma FilterIdempotent<T(!new)>(s: seq<T>, p: T -> bool)
    ensures Filter(Filter(s, p), p) == Filter(s, p)
  {
    FilterAllPass(Filter(s, p), p);
  }

  /** Two successive filters are one filter by the conjunction. */
  lemma {:induction false} FilterFilter<T(!new)>(s: seq<T>, p: T -> bool, q: T -> bool, both: T -> bool)
    requires forall x :: both(x) == (p(x) && q(x))
    ensures Filter(Filter(s, p), q) == Filter(s, both)
  {
    if s != [] {
      FilterFilter(s[1..], p, q, both);
    }
  }

  /** `[f(s[0]), f(s[1]), ...]` (`iter().map(f).collect()`). */
  function Map<T, U>(s: seq<T>, f: T -> U): (r: seq<U>)
    ensures |r| == |s|
    ensures forall i :: 0 <= i < |s| ==> r[i] == f(s[i])
  {
    if s == [] then [] else [f(s[0])] + Map(s[1..], f)
  }

  /** Mapping keeps subsequences subsequences. */
  lemma {:induction false} MapSubseq<T, U>(xs: seq<T>, ys: seq<T>, f: T -> U)
    requires IsSubseq(xs, ys)
    ensures IsSubseq(Map(xs, f), Map(ys, f))
    decreases |ys|
  {
    if xs != [] {
      var mx, my := Map(xs, f), Map(ys, f);
      assert mx[1..] == Map(xs[1..], f);
      assert my[1..] == Map(ys[1..], f);
      if xs[0] == ys[0] && IsSubseq(xs[1..], ys[1..]) {
        MapSubseq(xs[1..], ys[1..], f);
      } else {
        MapSubseq(xs, ys[1..], f);
      }
    }
  }
}
