/** print_process_stats of papiex/src/papiex.c: sum, truncated mean, minimum, maximum and variance over the
    threads of a process, for the counts of point 0. */
module Aggregate {

  function Sum(xs: seq<int>): int {
    if xs == [] then 0 else Sum(xs[..|xs| - 1]) + xs[|xs| - 1]
  }

  /** Division in C, toward zero. */
  function Truncated(a: int, b: int): int
    requires b > 0
  {
    if a >= 0 then a / b else -((-a) / b)
  }

  function Mean(xs: seq<int>): int
    requires xs != []
  {
    Truncated(Sum(xs), |xs|)
  }

  predicate IsMin(m: int, xs: seq<int>) { m in xs && forall i :: 0 <= i < |xs| ==> m <= xs[i] }

  predicate IsMax(m: int, xs: seq<int>) { m in xs && forall i :: 0 <= i < |xs| ==> xs[i] <= m }

  function Abs(x: int): (y: int)
    ensures y >= 0 && (y == x || y == -x)
  {
    if x < 0 then -x else x
  }

  lemma QuotientIs(a: int, b: int)
    requires a >= 0 && b > 0
    ensures 0 <= a / b && (a / b) * b <= a < (a / b + 1) * b
  {
  }

  lemma TruncatedIs(a: int, b: int)
    requires b > 0
    ensures Abs(Truncated(a, b)) * b <= Abs(a) < (Abs(Truncated(a, b)) + 1) * b
    ensures (a >= 0 ==> Truncated(a, b) >= 0) && (a <= 0 ==> Truncated(a, b) <= 0)
  {
    QuotientIs(Abs(a), b);
    assert Abs(Truncated(a, b)) == Abs(a) / b;
  }

  /** The mean is the sum over the number of threads, rounded toward zero, with the sign of the sum. */
  lemma MeanIs(xs: seq<int>)
    requires xs != []
    ensures Abs(Mean(xs)) * |xs| <= Abs(Sum(xs)) < (Abs(Mean(xs)) + 1) * |xs|
    ensures (Sum(xs) >= 0 ==> Mean(xs) >= 0) && (Sum(xs) <= 0 ==> Mean(xs) <= 0)
  {
    TruncatedIs(Sum(xs), |xs|);
  }

  lemma {:induction false} SumBounds(xs: seq<int>, lo: int, hi: int)
    requires forall i :: 0 <= i < |xs| ==> lo <= xs[i] <= hi
    ensures lo * |xs| <= Sum(xs) <= hi * |xs|
  {
    if xs != [] {
      SumBounds(xs[..|xs| - 1], lo, hi);
      Distributed(lo, |xs| - 1);
      Distributed(hi, |xs| - 1);
    }
  }

  lemma Distributed(x: int, n: int)
    ensures x * (n + 1) == x * n + x
  {
  }

  lemma TruncatedBetween(a: int, b: int, lo: int, hi: int)
    requires b > 0 && lo * b <= a <= hi * b
    ensures lo <= Truncated(a, b) <= hi
  {
    if a >= 0 {
      Quotient(a, b, lo, hi);
    } else {
      Quotient(-a, b, -hi, -lo);
    }
  }

  lemma Quotient(a: int, b: int, lo: int, hi: int)
    requires b > 0 && a >= 0 && lo * b <= a <= hi * b
    ensures lo <= a / b <= hi
  {
    var q := a / b;
    assert q * b <= a < (q + 1) * b;
    Cancel(lo, q + 1, b);
    Cancel(q, hi + 1, b);
  }

  lemma Cancel(x: int, y: int, b: int)
    requires b > 0 && x * b < y * b
    ensures x < y
  {
  }

  /** The truncated mean is between the minimum and the maximum, for counts of either sign. */
  lemma MeanBetween(xs: seq<int>, lo: int, hi: int)
    requires xs != [] && IsMin(lo, xs) && IsMax(hi, xs)
    ensures lo <= Mean(xs) <= hi
  {
    SumBounds(xs, lo, hi);
    TruncatedBetween(Sum(xs), |xs|, lo, hi);
  }

  // ----- variance -----------------------------------------------------------------------------

  /** The sum of the squared distances from a. */
  function Squares(xs: seq<int>, a: real): real {
    if xs == [] then 0.0
    else
      var d := a - xs[|xs| - 1] as real;
      Squares(xs[..|xs| - 1], a) + d * d
  }

  function Variance(xs: seq<int>, a: real): real
    requires xs != []
  {
    Squares(xs, a) / |xs| as real
  }

  function TrueMean(xs: seq<int>): real
    requires xs != []
  {
    Sum(xs) as real / |xs| as real
  }

  /** How the sum of n squared distances depends on the point, when the n numbers add up to s. */
  predicate Shifted(squaresA: real, squaresB: real, a: real, b: real, n: real, s: real) {
    squaresA == squaresB + (a - b) * ((a + b) * n - 2.0 * s)
  }

  lemma ShiftedNone(a: real, b: real)
    ensures Shifted(0.0, 0.0, a, b, 0.0, 0.0)
  {
  }

  lemma ShiftedNext(sa': real, sb': real, sa: real, sb: real, a: real, b: real, n: real, s: real, x: real)
    requires Shifted(sa, sb, a, b, n, s) && sa' == sa + (a - x) * (a - x) && sb' == sb + (b - x) * (b - x)
    ensures Shifted(sa', sb', a, b, n + 1.0, s + x)
  {
    DifferenceOfSquares(a - x, b - x);
    Distribute(a - b, (a + b) * n - 2.0 * s, (a - x) + (b - x));
    Regroup(a + b, n, s, x);
  }

  lemma DifferenceOfSquares(u: real, v: real)
    ensures u * u == v * v + (u - v) * (u + v)
  {
  }

  lemma Regroup(w: real, n: real, s: real, x: real)
    ensures w * n - 2.0 * s + (w - 2.0 * x) == w * (n + 1.0) - 2.0 * (s + x)
  {
  }

  lemma {:induction false} SquaresShifted(xs: seq<int>, a: real, b: real, n: real, s: real)
    requires n == |xs| as real && s == Sum(xs) as real
    ensures Shifted(Squares(xs, a), Squares(xs, b), a, b, n, s)
  {
    if xs == [] {
      ShiftedNone(a, b);
    } else {
      var front, x := xs[..|xs| - 1], xs[|xs| - 1] as real;
      SquaresShifted(front, a, b, n - 1.0, s - x);
      ShiftedNext(Squares(xs, a), Squares(xs, b), Squares(front, a), Squares(front, b), a, b, n - 1.0, s - x, x);
      assert n - 1.0 + 1.0 == n && s - x + x == s;
    }
  }

  lemma Distribute(d: real, u: real, v: real)
    ensures d * u + d * v == d * (u + v)
  {
  }

  /** In exact arithmetic the variance about the truncated mean is the true variance plus the square of the
      error of the mean, which is less than 1. */
  lemma VarianceError(xs: seq<int>)
    requires xs != []
    ensures var m, mu := Mean(xs) as real, TrueMean(xs);
      && Variance(xs, m) == Variance(xs, mu) + (m - mu) * (m - mu)
      && Variance(xs, mu) <= Variance(xs, m) < Variance(xs, mu) + 1.0
  {
    var m, mu := Mean(xs) as real, TrueMean(xs);
    VarianceAbout(xs, m);
    MeanError(Sum(xs), |xs|);
    SmallSquare(m - mu);
  }

  /** One variance exceeds another by the square of the distance of the points. */
  predicate Exceeds(v: real, w: real, a: real, b: real) { v == w + (a - b) * (a - b) }

  lemma VarianceAbout(xs: seq<int>, m: real)
    requires xs != []
    ensures Exceeds(Variance(xs, m), Variance(xs, TrueMean(xs)), m, TrueMean(xs))
  {
    var mu, n := TrueMean(xs), |xs| as real;
    SquaresShifted(xs, m, mu, n, Sum(xs) as real);
    Combine(Squares(xs, m), Squares(xs, mu), m, mu, n, Sum(xs) as real);
  }

  lemma Combine(sm: real, sn: real, m: real, mu: real, n: real, s: real)
    requires n > 0.0 && mu == s / n && Shifted(sm, sn, m, mu, n, s)
    ensures Exceeds(sm / n, sn / n, m, mu)
  {
    AboutMean(m, mu, n, s);
    Divide(sm, sn, m - mu, n);
  }

  lemma AboutMean(m: real, mu: real, n: real, s: real)
    requires n > 0.0 && mu == s / n
    ensures (m - mu) * ((m + mu) * n - 2.0 * s) == (m - mu) * ((m - mu) * n)
  {
    assert mu * n == s;
    assert (m + mu) * n - 2.0 * s == (m - mu) * n;
  }

  lemma Divide(s: real, t: real, d: real, n: real)
    requires n > 0.0 && s == t + d * (d * n)
    ensures s / n == t / n + d * d
  {
    assert d * (d * n) == (d * d) * n;
  }

  lemma SmallSquare(d: real)
    requires -1.0 < d < 1.0
    ensures 0.0 <= d * d < 1.0
  {
    if d >= 0.0 { assert d * d <= d * 1.0; } else { assert (-d) * (-d) <= (-d) * 1.0; }
  }

  lemma MeanError(s: int, n: int)
    requires n > 0
    ensures -1.0 < Truncated(s, n) as real - s as real / n as real < 1.0
  {
    var q := Truncated(s, n);
    assert -n < q * n - s < n;
    assert (q * n - s) as real == q as real * n as real - s as real;
    var e := q as real - s as real / n as real;
    assert e * n as real == q as real * n as real - s as real;
  }

  // ----- the loops ----------------------------------------------------------------------------

  /** The counts of `events` events in each thread. */
  predicate Rectangular(c: seq<seq<int>>, events: int) { forall i :: 0 <= i < |c| ==> |c[i]| == events }

  /** The counts of one event over the first n threads. */
  function Column(c: seq<seq<int>>, events: int, n: int, k: int): (col: seq<int>)
    requires Rectangular(c, events) && 0 <= n <= |c| && 0 <= k < events
    ensures |col| == n
  {
    seq(n, i requires 0 <= i < n => c[i][k])
  }

  lemma ColumnNext(c: seq<seq<int>>, events: int, n: int, k: int)
    requires Rectangular(c, events) && 0 <= n < |c| && 0 <= k < events
    ensures Column(c, events, n + 1, k) == Column(c, events, n, k) + [c[n][k]]
  {
  }

  predicate SumIs(v: int, c: seq<seq<int>>, events: int, n: int, k: int)
    requires Rectangular(c, events) && 0 <= n <= |c| && 0 <= k < events
  {
    v == Sum(Column(c, events, n, k))
  }

  lemma SumNext(v: int, c: seq<seq<int>>, events: int, n: int, k: int)
    requires Rectangular(c, events) && 0 <= n < |c| && 0 <= k < events && SumIs(v, c, events, n, k)
    ensures SumIs(v + c[n][k], c, events, n + 1, k)
  {
    ColumnNext(c, events, n, k);
    var xs := Column(c, events, n, k);
    assert (xs + [c[n][k]])[..|xs|] == xs;
  }

  /** The sums, and the means that are made of them; c[i][k] is the count of event k in thread i. */
  method SumsAndMeans(c: seq<seq<int>>, events: nat) returns (sum: array<int>, mean: array<int>)
    requires c != [] && Rectangular(c, events)
    ensures sum.Length == events && mean.Length == events
    ensures forall k :: 0 <= k < events ==>
      sum[k] == Sum(Column(c, events, |c|, k)) && mean[k] == Mean(Column(c, events, |c|, k))
  {
    sum := new int[events](_ => 0);
    for i := 0 to |c|
      invariant forall k :: 0 <= k < events ==> SumIs(sum[k], c, events, i, k)
    {
      for k := 0 to events
        invariant forall j :: 0 <= j < k ==> SumIs(sum[j], c, events, i + 1, j)
        invariant forall j :: k <= j < events ==> SumIs(sum[j], c, events, i, j)
      {
        SumNext(sum[k], c, events, i, k);
        sum[k] := sum[k] + c[i][k];
      }
    }
    mean := Means(c, events, sum);
  }

  method Means(c: seq<seq<int>>, events: nat, sum: array<int>) returns (mean: array<int>)
    requires c != [] && Rectangular(c, events) && sum.Length == events
    requires forall k :: 0 <= k < events ==> SumIs(sum[k], c, events, |c|, k)
    ensures mean.Length == events && fresh(mean)
    ensures forall k :: 0 <= k < events ==> mean[k] == Mean(Column(c, events, |c|, k))
  {
    mean := new int[events](_ => 0);
    for k := 0 to events
      invariant forall j :: 0 <= j < k ==> mean[j] == Mean(Column(c, events, |c|, j))
    {
      mean[k] := Truncated(sum[k], |c|);
    }
  }

  predicate Extrema(lo: int, hi: int, c: seq<seq<int>>, events: int, n: int, k: int)
    requires Rectangular(c, events) && 0 <= n <= |c| && 0 <= k < events
  {
    IsMin(lo, Column(c, events, n, k)) && IsMax(hi, Column(c, events, n, k))
  }

  lemma ExtremaNext(lo: int, hi: int, c: seq<seq<int>>, events: int, n: int, k: int)
    requires Rectangular(c, events) && 0 <= n < |c| && 0 <= k < events
    requires n == 0 ==> lo == hi == c[0][k]
    requires n > 0 ==> Extrema(lo, hi, c, events, n, k)
    ensures var x := c[n][k]; Extrema(if lo < x then lo else x, if hi > x then hi else x, c, events, n + 1, k)
  {
    ColumnNext(c, events, n, k);
    assert n == 0 ==> Column(c, events, 1, k) == [c[0][k]];
  }

  lemma ExtremaAre(lo: int, hi: int, c: seq<seq<int>>, events: int, k: int)
    requires Rectangular(c, events) && 0 <= k < events && Extrema(lo, hi, c, events, |c|, k)
    ensures forall i :: 0 <= i < |c| ==> lo <= c[i][k] <= hi
    ensures (exists i :: 0 <= i < |c| && c[i][k] == lo) && (exists i :: 0 <= i < |c| && c[i][k] == hi)
  {
    var col := Column(c, events, |c|, k);
    assert forall i :: 0 <= i < |c| ==> col[i] == c[i][k];
    var i :| 0 <= i < |col| && col[i] == lo;
    var j :| 0 <= j < |col| && col[j] == hi;
    assert c[i][k] == lo && c[j][k] == hi;
  }

  /** The minima and maxima, from thread 0 on. */
  method MinsAndMaxs(c: seq<seq<int>>, events: nat) returns (min: array<int>, max: array<int>)
    requires c != [] && Rectangular(c, events)
    ensures min.Length == events && max.Length == events
    ensures forall i, k :: 0 <= i < |c| && 0 <= k < events ==> min[k] <= c[i][k] <= max[k]
    ensures forall k :: 0 <= k < events ==> exists i :: 0 <= i < |c| && c[i][k] == min[k]
    ensures forall k :: 0 <= k < events ==> exists i :: 0 <= i < |c| && c[i][k] == max[k]
  {
    min, max := new int[events](_ => 0), new int[events](_ => 0);
    for k := 0 to events
      invariant forall j :: 0 <= j < k ==> Extrema(min[j], max[j], c, events, 1, j)
    {
      ExtremaNext(c[0][k], c[0][k], c, events, 0, k);
      min[k], max[k] := c[0][k], c[0][k];
    }
    for i := 1 to |c|
      invariant forall k :: 0 <= k < events ==> Extrema(min[k], max[k], c, events, i, k)
    {
      Widen(c, events, i, min, max);
    }
    forall k | 0 <= k < events
      ensures forall i :: 0 <= i < |c| ==> min[k] <= c[i][k] <= max[k]
      ensures exists i :: 0 <= i < |c| && c[i][k] == min[k]
      ensures exists i :: 0 <= i < |c| && c[i][k] == max[k]
    {
      ExtremaAre(min[k], max[k], c, events, k);
    }
  }

  method Widen(c: seq<seq<int>>, events: nat, i: int, min: array<int>, max: array<int>)
    requires Rectangular(c, events) && 0 < i < |c| && min.Length == events == max.Length && min != max
    requires forall k :: 0 <= k < events ==> Extrema(min[k], max[k], c, events, i, k)
    modifies min, max
    ensures forall k :: 0 <= k < events ==> Extrema(min[k], max[k], c, events, i + 1, k)
  {
    for k := 0 to events
      invariant forall j :: 0 <= j < k ==> Extrema(min[j], max[j], c, events, i + 1, j)
      invariant forall j :: k <= j < events ==> Extrema(min[j], max[j], c, events, i, j)
    {
      ExtremaNext(min[k], max[k], c, events, i, k);
      min[k] := if min[k] < c[i][k] then min[k] else c[i][k];
      max[k] := if max[k] > c[i][k] then max[k] else c[i][k];
    }
  }

  /** sqdiff_ll. */
  function SquaredDifference(a: int, b: int): real {
    var d := a as real - b as real;
    d * d
  }

  predicate SquaresAre(v: real, a: int, c: seq<seq<int>>, events: int, n: int, k: int)
    requires Rectangular(c, events) && 0 <= n <= |c| && 0 <= k < events
  {
    v == Squares(Column(c, events, n, k), a as real)
  }

  lemma SquaresNext(v: real, a: int, c: seq<seq<int>>, events: int, n: int, k: int)
    requires Rectangular(c, events) && 0 <= n < |c| && 0 <= k < events && SquaresAre(v, a, c, events, n, k)
    ensures SquaresAre(v + SquaredDifference(a, c[n][k]), a, c, events, n + 1, k)
  {
    ColumnNext(c, events, n, k);
    var xs := Column(c, events, n, k);
    assert (xs + [c[n][k]])[..|xs|] == xs;
  }

  /** The squared distances from the means, and the variances (stddev before its square root). */
  method Variances(c: seq<seq<int>>, events: nat, mean: array<int>) returns (variance: array<real>)
    requires c != [] && Rectangular(c, events) && mean.Length == events
    ensures variance.Length == events
    ensures forall k :: 0 <= k < events ==> variance[k] == Variance(Column(c, events, |c|, k), mean[k] as real)
  {
    var squares := new real[events](_ => 0.0);
    for i := 0 to |c|
      invariant forall k :: 0 <= k < events ==> SquaresAre(squares[k], mean[k], c, events, i, k)
    {
      for k := 0 to events
        invariant forall j :: 0 <= j < k ==> SquaresAre(squares[j], mean[j], c, events, i + 1, j)
        invariant forall j :: k <= j < events ==> SquaresAre(squares[j], mean[j], c, events, i, j)
      {
        SquaresNext(squares[k], mean[k], c, events, i, k);
        squares[k] := squares[k] + SquaredDifference(mean[k], c[i][k]);
      }
    }
    variance := Divided(c, events, mean, squares);
  }

  method Divided(c: seq<seq<int>>, events: nat, mean: array<int>, squares: array<real>) returns (variance: array<real>)
    requires c != [] && Rectangular(c, events) && mean.Length == events == squares.Length
    requires forall k :: 0 <= k < events ==> SquaresAre(squares[k], mean[k], c, events, |c|, k)
    ensures variance.Length == events
    ensures forall k :: 0 <= k < events ==> variance[k] == Variance(Column(c, events, |c|, k), mean[k] as real)
  {
    variance := new real[events](_ => 0.0);
    for k := 0 to events
      invariant forall j :: 0 <= j < k ==> variance[j] == Variance(Column(c, events, |c|, j), mean[j] as real)
    {
      variance[k] := squares[k] / |c| as real;
    }
  }
}
