/**
 * The list operations the dashboard pages use on their arrays: `filter`, and `reduce` with a
 * running sum. Both peel the LAST element, so `Sum` is the left fold
 * `((0 + f(s[0])) + f(s[1])) + ...` that `reduce((sum, x) => sum + f(x), 0)` computes.
 */
module Seqs {

  /** Keeps, in order, the elements of `s` that satisfy `p`. */
  function Filter<T(!new)>(s: seq<T>, p: T -> bool): (r: seq<T>)
    ensures |r| <= |s|
    ensures forall x :: x in r <==> x in s && p(x)
    decreases |s|
  {
    if |s| == 0 then []
    else
      var pre := Filter(s[..|s| - 1], p);
      assert s == s[..|s| - 1] + [s[|s| - 1]];
      if p(s[|s| - 1]) then pre + [s[|s| - 1]] else pre
  }

  /** The running sum of `f` over `s`, from the first element to the last. */
  function Sum<T(!new)>(s: seq<T>, f: T -> real): real
    decreases |s|
  {
    if |s| == 0 then 0.0 else Sum(s[..|s| - 1], f) + f(s[|s| - 1])
  }

  /** How many elements of `s` satisfy `p` (`s.filter(p).length`). */
  function Count<T(!new)>(s: seq<T>, p: T -> bool): nat
  {
    |Filter(s, p)|
  }

  /** `Sum / length`, and 0 for an empty list: the `(total / n) || 0` idiom of the asset pages. */
  function Average<T(!new)>(s: seq<T>, f: T -> real): (r: real)
    ensures |s| > 0 ==> r * (|s| as real) == Sum(s, f)
    ensures |s| == 0 ==> r == 0.0
  {
    if |s| == 0 then 0.0 else Sum(s, f) / (|s| as real)
  }

  /** Filtering distributes over concatenation: the result keeps the input's order. */
  lemma {:induction false} FilterConcat<T(!new)>(a: seq<T>, b: seq<T>, p: T -> bool)
    ensures Filter(a + b, p) == Filter(a, p) + Filter(b, p)
    decreases |b|
  {
    if |b| == 0 {
      assert a + b == a;
    } else {
      var b' := b[..|b| - 1];
      assert (a + b)[..|a + b| - 1] == a + b';
      assert (a + b)[|a + b| - 1] == b[|b| - 1];
      FilterConcat(a, b', p);
    }
  }

  /** A filter that every element passes keeps the whole list. */
  lemma {:induction false} FilterAll<T(!new)>(s: seq<T>, p: T -> bool)
    requires forall x :: x in s ==> p(x)
    ensures Filter(s, p) == s
    decreases |s|
  {
    if |s| > 0 {
      FilterAll(s[..|s| - 1], p);
      assert s == s[..|s| - 1] + [s[|s| - 1]];
    }
  }

  /** A filter that no element passes keeps nothing. */
  lemma {:induction false} FilterNone<T(!new)>(s: seq<T>, p: T -> bool)
    requires forall x :: x in s ==> !p(x)
    ensures Filter(s, p) == []
    decreases |s|
  {
    if |s| > 0 {
      FilterNone(s[..|s| - 1], p);
      assert s[|s| - 1] in s;
    }
  }

  /** A sum over a prefix one longer adds the next term. */
  lemma SumPrefixStep<T(!new)>(s: seq<T>, f: T -> real, k: nat)
    requires 0 < k <= |s|
    ensures Sum(s[..k], f) == Sum(s[..k - 1], f) + f(s[k - 1])
  {
    assert s[..k][..k - 1] == s[..k - 1];
  }

  /** The sum over a concatenation is the sum of the sums. */
  lemma {:induction false} SumConcat<T(!new)>(a: seq<T>, b: seq<T>, f: T -> real)
    ensures Sum(a + b, f) == Sum(a, f) + Sum(b, f)
    decreases |b|
  {
    if |b| == 0 {
      assert a + b == a;
    } else {
      var b' := b[..|b| - 1];
      assert (a + b)[..|a + b| - 1] == a + b';
      SumConcat(a, b', f);
    }
  }

  /**
   * Summing the elements that pass `p` and those that pass its negation `q` gives the sum of
   * the whole list.
   */
  lemma {:induction false} SumPartition<T(!new)>(s: seq<T>, p: T -> bool, q: T -> bool, f: T -> real)
    requires forall x :: q(x) == !p(x)
    ensures Sum(Filter(s, p), f) + Sum(Filter(s, q), f) == Sum(s, f)
    decreases |s|
  {
    if |s| > 0 {
      var pre, x := s[..|s| - 1], s[|s| - 1];
      SumPartition(pre, p, q, f);
      if p(x) {
        SumConcat(Filter(pre, p), [x], f);
      } else {
        SumConcat(Filter(pre, q), [x], f);
      }
    }
  }

  /** A pointwise smaller summand gives a smaller (or equal) sum. */
  lemma {:induction false} SumMono<T(!new)>(s: seq<T>, f: T -> real, g: T -> real)
    requires forall x :: x in s ==> f(x) <= g(x)
    ensures Sum(s, f) <= Sum(s, g)
    decreases |s|
  {
    if |s| > 0 {
      SumMono(s[..|s| - 1], f, g);
    }
  }

  /** A sum of non-negative terms is non-negative. */
  lemma {:induction false} SumNonneg<T(!new)>(s: seq<T>, f: T -> real)
    requires forall x :: x in s ==> 0.0 <= f(x)
    ensures 0.0 <= Sum(s, f)
    decreases |s|
  {
    if |s| > 0 {
      SumNonneg(s[..|s| - 1], f);
    }
  }

  /**
   * Two lists summed term by term: when each term of `r`, scaled by `k`, equals the matching
   * term of `s` scaled by `m`, the sums are related the same way.
   */
  lemma {:induction false} SumPairwiseScaled<T(!new), U(!new)>(r: seq<T>, s: seq<U>, g: T -> real, f: U -> real, k: real, m: real)
    requires |r| == |s|
    requires forall i :: 0 <= i < |s| ==> g(r[i]) * k == f(s[i]) * m
    ensures Sum(r, g) * k == Sum(s, f) * m
    decreases |r|
  {
    if |r| > 0 {
      var n := |r| - 1;
      assert forall i :: 0 <= i < n ==> r[..n][i] == r[i] && s[..n][i] == s[i];
      SumPairwiseScaled(r[..n], s[..n], g, f, k, m);
      ScaledStep(Sum(r[..n], g), g(r[n]), Sum(s[..n], f), f(s[n]), k, m);
    }
  }

  lemma ScaledStep(a: real, x: real, b: real, e: real, k: real, m: real)
    requires a * k == b * m && x * k == e * m
    ensures (a + x) * k == (b + e) * m
  {
    assert (a + x) * k == a * k + x * k;
    assert (b + e) * m == b * m + e * m;
  }

  /** The sum of a constant is the constant times the length. */
  lemma {:induction false} SumConst<T(!new)>(s: seq<T>, c: real)
    ensures Sum(s, _ => c) == (|s| as real) * c
    decreases |s|
  {
    if |s| > 0 {
      SumConst(s[..|s| - 1], c);
    }
  }

  /** The average of terms that all lie in [lo, hi] lies in [lo, hi]. */
  lemma AverageBounds<T(!new)>(s: seq<T>, f: T -> real, lo: real, hi: real)
    requires |s| > 0
    requires forall x :: x in s ==> lo <= f(x) <= hi
    ensures lo <= Average(s, f) <= hi
  {
    var lower, upper := _ => lo, _ => hi;
    SumMono(s, lower, f);
    SumMono(s, f, upper);
    SumConst(s, lo);
    SumConst(s, hi);
    ScaledBounds(Average(s, f), |s| as real, lo, hi, Sum(s, lower), Sum(s, f), Sum(s, upper));
  }

  /** `n * lo <= a * n <= n * hi` with `n` positive, stated through the three products. */
  lemma ScaledBounds(a: real, n: real, lo: real, hi: real, below: real, at: real, above: real)
    requires 0.0 < n && below == n * lo && at == a * n && above == n * hi
    requires below <= at <= above
    ensures lo <= a <= hi
  {
    assert 0.0 <= (a - lo) * n;
    assert 0.0 <= (hi - a) * n;
  }

  /** The elements that pass `p` and those that pass its negation `q` together make up the whole list. */
  lemma {:induction false} FilterSplitsLength<T(!new)>(s: seq<T>, p: T -> bool, q: T -> bool)
    requires forall x :: q(x) == !p(x)
    ensures |Filter(s, p)| + |Filter(s, q)| == |s|
    decreases |s|
  {
    if |s| > 0 {
      FilterSplitsLength(s[..|s| - 1], p, q);
    }
  }

  /** Dropping elements with non-negative terms never raises the sum. */
  lemma {:induction false} FilterSumAtMost<T(!new)>(s: seq<T>, p: T -> bool, f: T -> real)
    requires forall x :: x in s ==> 0.0 <= f(x)
    ensures Sum(Filter(s, p), f) <= Sum(s, f)
    decreases |s|
  {
    if |s| > 0 {
      FilterSumAtMost(s[..|s| - 1], p, f);
    }
  }
}
