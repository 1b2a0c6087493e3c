/**
 * The reductions the engine applies to series of reals: sum, mean,
 * population variance, minimum, maximum, ascending sort and the
 * linearly interpolated percentile over the sorted values.
 */
module Stats {

  lemma MulNonneg(a: real, b: real)
    requires 0.0 <= a && 0.0 <= b
    ensures 0.0 <= a * b
  {
  }

  lemma SquareNonneg(a: real)
    ensures 0.0 <= a * a
  {
    if a < 0.0 {
      MulNonneg(-a, -a);
      assert (-a) * (-a) == a * a;
    } else {
      MulNonneg(a, a);
    }
  }

  /** Multiplying both sides by a non-negative factor keeps the order. */
  lemma MulLeRight(a: real, b: real, c: real)
    requires a <= b && 0.0 <= c
    ensures a * c <= b * c
  {
    MulNonneg(b - a, c);
    assert (b - a) * c == b * c - a * c;
  }

  /** Multiplying both sides from the left by a non-negative factor keeps the order. */
  lemma MulLeLeft(a: real, b: real, c: real)
    requires a <= b && 0.0 <= c
    ensures c * a <= c * b
  {
    MulLeRight(a, b, c);
    assert c * a == a * c && c * b == b * c;
  }

  /** Dividing both sides by a positive divisor keeps the order. */
  lemma DivLe(x: real, y: real, n: real)
    requires x <= y && n > 0.0
    ensures x / n <= y / n
  {
    MulLeRight(x, y, 1.0 / n);
    assert x / n == x * (1.0 / n) && y / n == y * (1.0 / n);
  }

  function Sum(xs: seq<real>): real {
    if xs == [] then 0.0 else xs[0] + Sum(xs[1..])
  }

  lemma {:induction false} SumAppend(a: seq<real>, b: seq<real>)
    ensures Sum(a + b) == Sum(a) + Sum(b)
  {
    if a == [] {
      assert a + b == b;
    } else {
      assert (a + b)[1..] == a[1..] + b;
      SumAppend(a[1..], b);
    }
  }

  /** The arithmetic mean: n copies of it add up to the sum. */
  function Mean(xs: seq<real>): (m: real)
    requires |xs| > 0
    ensures m * |xs| as real == Sum(xs)
  {
    Sum(xs) / |xs| as real
  }

  /** Sum of squared deviations from m. */
  function SquaredDeviations(xs: seq<real>, m: real): (r: real)
    ensures r >= 0.0
  {
    if xs == [] then 0.0
    else
      SquareNonneg(xs[0] - m);
      (xs[0] - m) * (xs[0] - m) + SquaredDeviations(xs[1..], m)
  }

  /** Population variance (divides by the number of values); the standard deviation is its square root. */
  function Variance(xs: seq<real>): (v: real)
    requires |xs| > 0
    ensures v >= 0.0
  {
    DivLe(0.0, SquaredDeviations(xs, Mean(xs)), |xs| as real);
    SquaredDeviations(xs, Mean(xs)) / |xs| as real
  }

  function MinOf(xs: seq<real>): (m: real)
    requires |xs| > 0
    ensures m in xs
    ensures forall i :: 0 <= i < |xs| ==> m <= xs[i]
  {
    if |xs| == 1 then xs[0]
    else var rest := MinOf(xs[1..]); if xs[0] <= rest then xs[0] else rest
  }

  function MaxOf(xs: seq<real>): (m: real)
    requires |xs| > 0
    ensures m in xs
    ensures forall i :: 0 <= i < |xs| ==> xs[i] <= m
  {
    if |xs| == 1 then xs[0]
    else var rest := MaxOf(xs[1..]); if xs[0] >= rest then xs[0] else rest
  }

  /** n * lo <= s <= n * hi bounds the quotient s / n. */
  lemma DivRange(s: real, n: real, lo: real, hi: real)
    requires n > 0.0 && n * lo <= s <= n * hi
    ensures lo <= s / n <= hi
  {
    DivLe(n * lo, s, n);
    DivLe(s, n * hi, n);
  }

  lemma {:induction false} SumBounds(xs: seq<real>, lo: real, hi: real)
    requires forall i :: 0 <= i < |xs| ==> lo <= xs[i] <= hi
    ensures |xs| as real * lo <= Sum(xs) <= |xs| as real * hi
  {
    if xs != [] {
      SumBounds(xs[1..], lo, hi);
    }
  }

  /** Bounds on every value bound the mean. */
  lemma MeanWithin(xs: seq<real>, lo: real, hi: real)
    requires |xs| > 0
    requires forall i :: 0 <= i < |xs| ==> lo <= xs[i] <= hi
    ensures lo <= Mean(xs) <= hi
  {
    SumBounds(xs, lo, hi);
    DivRange(Sum(xs), |xs| as real, lo, hi);
  }

  /** The mean lies between the smallest and the largest value. */
  lemma MeanBetween(xs: seq<real>)
    requires |xs| > 0
    ensures MinOf(xs) <= Mean(xs) <= MaxOf(xs)
  {
    MeanWithin(xs, MinOf(xs), MaxOf(xs));
  }

  /** The mean of a series whose every value is c is c. */
  lemma MeanOfConstant(xs: seq<real>, c: real)
    requires |xs| > 0
    requires forall i :: 0 <= i < |xs| ==> xs[i] == c
    ensures Mean(xs) == c
  {
    MeanWithin(xs, c, c);
  }

  predicate SortedAsc(xs: seq<real>) {
    forall i, j :: 0 <= i < j < |xs| ==> xs[i] <= xs[j]
  }

  function InsertAsc(x: real, s: seq<real>): (r: seq<real>)
    requires SortedAsc(s)
    ensures SortedAsc(r)
    ensures multiset(r) == multiset(s) + multiset{x}
    ensures |r| == |s| + 1
    ensures r[0] == if s == [] || x <= s[0] then x else s[0]
  {
    if s == [] then [x]
    else if x <= s[0] then [x] + s
    else
      var tail := InsertAsc(x, s[1..]);
      assert s == [s[0]] + s[1..];
      assert multiset([s[0]] + tail) == multiset{s[0]} + multiset(tail);
      SortedCons(s[0], tail);
      [s[0]] + tail
  }

  lemma SortedCons(h: real, t: seq<real>)
    requires SortedAsc(t) && (t == [] || h <= t[0])
    ensures SortedAsc([h] + t)
  {
    var r := [h] + t;
    forall i, j | 0 <= i < j < |r|
      ensures r[i] <= r[j]
    {
      if i == 0 {
        assert h <= t[0] <= t[j - 1];
      } else {
        assert r[i] == t[i - 1] && r[j] == t[j - 1];
      }
    }
  }

  /** Ascending sort (a copy; the input is left as it is). */
  function SortAsc(s: seq<real>): (r: seq<real>)
    ensures SortedAsc(r)
    ensures multiset(r) == multiset(s)
    ensures |r| == |s|
  {
    if s == [] then []
    else
      assert s == [s[0]] + s[1..];
      InsertAsc(s[0], SortAsc(s[1..]))
  }

  /** The first and last of the sorted values are the minimum and the maximum. */
  lemma SortedEnds(s: seq<real>)
    requires |s| > 0
    ensures SortAsc(s)[0] == MinOf(s) && SortAsc(s)[|s| - 1] == MaxOf(s)
  {
    PermutationEnds(SortAsc(s), s);
  }

  /** A sorted permutation of s starts at the minimum of s and ends at its maximum. */
  lemma PermutationEnds(a: seq<real>, s: seq<real>)
    requires |s| > 0 && |a| == |s| && SortedAsc(a) && multiset(a) == multiset(s)
    ensures a[0] == MinOf(s) && a[|a| - 1] == MaxOf(s)
  {
    var lo, hi := MinOf(s), MaxOf(s);
    assert a[0] in s by {
      assert a[0] in multiset(a);
    }
    assert a[|a| - 1] in s by {
      assert a[|a| - 1] in multiset(a);
    }
    assert lo in a by {
      assert lo in multiset(s);
    }
    assert hi in a by {
      assert hi in multiset(s);
    }
  }

  /**
   * The p-th percentile (0 <= p <= 100) of sorted values, interpolating
   * linearly between the two values around the rank p/100 * (n - 1).
   */
  function Percentile(a: seq<real>, p: real): (r: real)
    requires |a| > 0 && 0.0 <= p <= 100.0
    ensures p == 0.0 ==> r == a[0]
    ensures p == 100.0 ==> r == a[|a| - 1]
  {
    assert p == 0.0 ==> Rank(|a|, p) == 0.0;
    assert p == 100.0 ==> Rank(|a|, p) == (|a| - 1) as real;
    Interpolate(a, Rank(|a|, p))
  }

  /** p percent of k. */
  function Scaled(p: real, k: real): real {
    p * k / 100.0
  }

  lemma ScaledMonotone(p: real, q: real, k: real)
    requires p <= q && 0.0 <= k
    ensures Scaled(p, k) <= Scaled(q, k)
  {
    MulLeRight(p, q, k);
  }

  lemma ScaledWithin(p: real, k: real)
    requires 0.0 <= p <= 100.0 && 0.0 <= k
    ensures 0.0 <= Scaled(p, k) <= k
  {
    MulLeRight(p, 100.0, k);
    MulNonneg(p, k);
  }

  /** The fractional position p/100 * (n - 1) in a sorted series of n values. */
  function Rank(n: nat, p: real): (rank: real)
    requires n > 0 && 0.0 <= p <= 100.0
    ensures 0.0 <= rank <= (n - 1) as real
  {
    ScaledWithin(p, (n - 1) as real);
    Scaled(p, (n - 1) as real)
  }

  /** The value at fractional position rank: a[lo] plus the fraction of the step to a[lo + 1]. */
  function Interpolate(a: seq<real>, rank: real): real
    requires 0.0 <= rank <= (|a| - 1) as real
  {
    var lo := rank.Floor;
    if lo + 1 < |a| then a[lo] + (a[lo + 1] - a[lo]) * (rank - lo as real) else a[lo]
  }

  lemma RankMonotone(n: nat, p: real, q: real)
    requires n > 0 && 0.0 <= p <= q <= 100.0
    ensures Rank(n, p) <= Rank(n, q)
  {
    ScaledMonotone(p, q, (n - 1) as real);
  }

  /** Interpolating at rank stays between a[lo] and a[lo + 1]. */
  lemma InterpolationBetween(a: seq<real>, rank: real)
    requires 0.0 <= rank <= (|a| - 1) as real && SortedAsc(a)
    ensures var lo := rank.Floor;
      0 <= lo < |a| && a[lo] <= Interpolate(a, rank) && (lo + 1 < |a| ==> Interpolate(a, rank) <= a[lo + 1])
  {
    var lo := rank.Floor;
    if lo + 1 < |a| {
      var d, f := a[lo + 1] - a[lo], rank - lo as real;
      assert Interpolate(a, rank) == a[lo] + d * f;
      assert 0.0 <= f <= 1.0;
      assert 0.0 <= d;
      MulNonneg(d, f);
      MulLeRight(f, 1.0, d);
      assert f * d == d * f;
    }
  }

  /** Interpolation over sorted values grows with the rank. */
  lemma InterpolateMonotone(a: seq<real>, r1: real, r2: real)
    requires 0.0 <= r1 <= r2 <= (|a| - 1) as real && SortedAsc(a)
    ensures Interpolate(a, r1) <= Interpolate(a, r2)
  {
    var l1, l2 := r1.Floor, r2.Floor;
    InterpolationBetween(a, r1);
    InterpolationBetween(a, r2);
    if l1 == l2 {
      if l1 + 1 < |a| {
        var d, f1, f2 := a[l1 + 1] - a[l1], r1 - l1 as real, r2 - l1 as real;
        assert 0.0 <= d && f1 <= f2;
        MulLeLeft(f1, f2, d);
        assert Interpolate(a, r1) == a[l1] + d * f1;
        assert Interpolate(a, r2) == a[l1] + d * f2;
      } else {
        assert Interpolate(a, r1) == a[l1] == Interpolate(a, r2);
      }
    } else {
      assert l1 < l2;
      assert a[l1 + 1] <= a[l2];
    }
  }

  /** Percentiles of sorted values grow with p. */
  lemma PercentileMonotone(a: seq<real>, p: real, q: real)
    requires |a| > 0 && 0.0 <= p <= q <= 100.0 && SortedAsc(a)
    ensures Percentile(a, p) <= Percentile(a, q)
  {
    RankMonotone(|a|, p, q);
    InterpolateMonotone(a, Rank(|a|, p), Rank(|a|, q));
  }

  /** Every percentile lies between the first and the last sorted value. */
  lemma PercentileBounds(a: seq<real>, p: real)
    requires |a| > 0 && 0.0 <= p <= 100.0 && SortedAsc(a)
    ensures a[0] <= Percentile(a, p) <= a[|a| - 1]
  {
    var rank := Rank(|a|, p);
    InterpolationBetween(a, rank);
    var lo := rank.Floor;
    assert a[0] <= a[lo];
    if lo + 1 < |a| {
      assert a[lo + 1] <= a[|a| - 1];
    }
  }
}
