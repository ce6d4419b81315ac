/** Order-preserving filters over sequences: the shape shared by every sweep
    of the plugin (a `for` loop that appends the elements passing a test). */
module Sequences {

  /** The elements of `xs` that pass `keep`, in their original order. */
  function Filter<T>(xs: seq<T>, keep: T -> bool): (r: seq<T>)
    ensures |r| <= |xs|
    ensures forall x :: x in r ==> x in xs && keep(x)
  {
    if |xs| == 0 then []
    else
      var init := Filter(xs[..|xs| - 1], keep);
      if keep(xs[|xs| - 1]) then init + [xs[|xs| - 1]] else init
  }

  /** `f` applied to every element of `xs`, in order. */
  function MapSeq<T, U>(f: T -> U, xs: seq<T>): (r: seq<U>)
  {
    seq(|xs|, i requires 0 <= i < |xs| => f(xs[i]))
  }

  /** `a` can be obtained from `b` by deleting elements (order is kept). */
  predicate IsSubsequence<T(==)>(a: seq<T>, b: seq<T>)
  {
    if |a| == 0 then true
    else if |b| == 0 then false
    else (a[|a| - 1] == b[|b| - 1] && IsSubsequence(a[..|a| - 1], b[..|b| - 1]))
         || IsSubsequence(a, b[..|b| - 1])
  }

  /** One more loop iteration: the filter of a longer prefix. */
  lemma FilterExtend<T>(xs: seq<T>, i: nat, keep: T -> bool)
    requires i < |xs|
    ensures Filter(xs[..i + 1], keep)
            == Filter(xs[..i], keep) + (if keep(xs[i]) then [xs[i]] else [])
  {
    assert xs[..i + 1][..i] == xs[..i];
  }

  /** One more loop iteration for a mapped sequence. */
  lemma MapSeqExtend<T, U>(f: T -> U, xs: seq<T>, x: T)
    ensures MapSeq(f, xs + [x]) == MapSeq(f, xs) + [f(x)]
  {
  }

  /** Every element that passes `keep` is kept. */
  lemma {:induction false} FilterComplete<T>(xs: seq<T>, keep: T -> bool, x: T)
    requires x in xs && keep(x)
    ensures x in Filter(xs, keep)
  {
    var n := |xs| - 1;
    if xs[n] != x {
      assert x in xs[..n];
      FilterComplete(xs[..n], keep, x);
    }
  }

  /** A sequence whose elements all pass `keep` is its own filter. */
  lemma {:induction false} FilterAllKept<T>(xs: seq<T>, keep: T -> bool)
    requires forall x :: x in xs ==> keep(x)
    ensures Filter(xs, keep) == xs
  {
    if |xs| > 0 {
      var n := |xs| - 1;
      FilterAllKept(xs[..n], keep);
      assert xs[..n] + [xs[n]] == xs;
    }
  }

  /** Filtering twice with the same test changes nothing. */
  lemma FilterIdempotent<T>(xs: seq<T>, keep: T -> bool)
    ensures Filter(Filter(xs, keep), keep) == Filter(xs, keep)
  {
    FilterAllKept(Filter(xs, keep), keep);
  }

  /** The filter keeps the input order: it is a subsequence of the input. */
  lemma {:induction false} FilterIsSubsequence<T>(xs: seq<T>, keep: T -> bool)
    ensures IsSubsequence(Filter(xs, keep), xs)
  {
    if |xs| > 0 {
      var n := |xs| - 1;
      var init := Filter(xs[..n], keep);
      FilterIsSubsequence(xs[..n], keep);
      if keep(xs[n]) {
        assert (init + [xs[n]])[..|init|] == init;
      } else if |init| > 0 {
        assert xs[..n] == xs[..|xs| - 1];
      }
    }
  }

  /** Nothing passes, nothing is kept. */
  lemma {:induction false} FilterEmptyWhenNoneKept<T>(xs: seq<T>, keep: T -> bool)
    requires forall i :: 0 <= i < |xs| ==> !keep(xs[i])
    ensures Filter(xs, keep) == []
  {
    if |xs| > 0 {
      FilterEmptyWhenNoneKept(xs[..|xs| - 1], keep);
    }
  }

  /** Filtering distributes over concatenation. */
  lemma {:induction false} FilterAppend<T>(a: seq<T>, b: seq<T>, keep: T -> bool)
    ensures Filter(a + b, keep) == Filter(a, keep) + Filter(b, keep)
  {
    if |b| > 0 {
      var n := |b| - 1;
      FilterAppend(a, b[..n], keep);
      assert (a + b)[..|a + b| - 1] == a + b[..n];
    } else {
      assert a + b == a;
    }
  }
}
