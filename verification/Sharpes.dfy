/**
 What the referee's performance statistic is: the Sharpe ratio of the pooled returns. It is
 pinned down by its square and its sign, is defined exactly when the returns differ, does not
 depend on the scale of the returns, and rises with the mean.
 */
module Sharpes {
  import opened Prelude
  import opened Pbo
  import opened Embargo

  ghost predicate SquareRoot(root: real -> real) {
    forall x: real :: x > 0.0 ==> root(x) > 0.0 && root(x) * root(x) == x
  }

  lemma RootIsPositive(root: real -> real)
    requires SquareRoot(root)
    ensures PositiveRoot(root)
  {
  }

  // ---------- Arithmetic ----------

  lemma Cancel(a: real, b: real, c: real)
    requires c > 0.0 && a * c == b * c
    ensures a == b
  {
    assert (a - b) * c == 0.0;
  }

  lemma SignOfProduct(a: real, c: real)
    requires c > 0.0
    ensures a * c > 0.0 <==> a > 0.0
    ensures a * c == 0.0 <==> a == 0.0
    ensures a * c < 0.0 <==> a < 0.0
  {
  }

  lemma SquareNonNegative(a: real)
    ensures a * a >= 0.0
    ensures a * a == 0.0 <==> a == 0.0
  {
    if a > 0.0 {
      SignOfProduct(a, a);
    } else if a < 0.0 {
      SignOfProduct(-a, -a);
      assert -a * -a == a * a;
    }
  }

  lemma SquaresEqual(a: real, b: real)
    requires a > 0.0 && b > 0.0 && a * a == b * b
    ensures a == b
  {
    assert (a - b) * (a + b) == 0.0;
    Cancel(a - b, 0.0, a + b);
  }

  function MeanOf(sum: real, n: real): real
    requires n > 0.0
  {
    sum / n
  }

  /** The sum of squared deviations from the mean, from the two sums. */
  function SpreadOf(sum: real, squares: real, n: real): real
    requires n > 0.0
  {
    squares - sum / n * sum
  }

  function SampleVariance(sum: real, squares: real, n: real): real
    requires n > 1.0
  {
    SpreadOf(sum, squares, n) / (n - 1.0)
  }

  lemma MeanLaw(sum: real, n: real)
    requires n > 0.0
    ensures MeanOf(sum, n) * n == sum
  {
  }

  lemma SpreadLaw(sum: real, squares: real, n: real)
    requires n > 0.0
    ensures SpreadOf(sum, squares, n) * n == squares * n - sum * sum
    ensures SpreadOf(sum, squares, n) == squares - MeanOf(sum, n) * sum
  {
    var mean := sum / n;
    assert mean * n == sum;
    assert (squares - mean * sum) * n == squares * n - (mean * n) * sum;
  }

  lemma SpreadIs(sum: real, squares: real, n: real)
    requires n > 0.0
    ensures SpreadOf(sum, squares, n) == squares - sum * sum / n
  {
    var mean, q := sum / n, sum * sum / n;
    assert mean * n == sum && q * n == sum * sum;
    assert mean * sum * n == (mean * n) * sum;
    Cancel(q, mean * sum, n);
  }

  lemma VarianceLaw(sum: real, squares: real, n: real)
    requires n > 1.0
    ensures SampleVariance(sum, squares, n) * (n - 1.0) == SpreadOf(sum, squares, n)
    ensures SampleVariance(sum, squares, n) > 0.0 <==> SpreadOf(sum, squares, n) > 0.0
  {
    var spread := SpreadOf(sum, squares, n);
    hide SpreadOf;
    var q := spread / (n - 1.0);
    assert q * (n - 1.0) == spread;
    SignOfProduct(q, n - 1.0);
  }

  /** The variance that the statistic computes is the spread per bar. */
  lemma PooledVariance(sum: real, squares: real, n: real)
    requires n > 0.0
    ensures VarianceOf(sum, squares, n) * n == SpreadOf(sum, squares, n)
  {
    var mean, square := sum / n, squares / n;
    assert mean * n == sum && square * n == squares;
    assert (square - mean * mean) * n == square * n - mean * (mean * n);
  }

  /** What the statistic is: the mean over the root of the sample variance. */
  lemma PerformanceLaw(sum: real, squares: real, n: real, root: real -> real)
    requires SquareRoot(root)
    ensures PositiveRoot(root)
    ensures var p := Performance(sum, squares, n, root);
            && (p.Val? <==> n > 1.0 && SpreadOf(sum, squares, n) > 0.0)
            && (p.Val? ==> p.v * root(SampleVariance(sum, squares, n)) == MeanOf(sum, n))
  {
    RootIsPositive(root);
    if n > 1.0 {
      PooledVariance(sum, squares, n);
      SignOfProduct(VarianceOf(sum, squares, n), n);
      hide VarianceOf, SquareRoot, SpreadOf;
      if VarianceOf(sum, squares, n) > 0.0 {
        VarianceLaw(sum, squares, n);
        SampleIsPooled(sum, squares, n);
        RootOf(root, SampleVariance(sum, squares, n));
        ValueIs(sum, squares, n, root);
      } else {
        NoValue(sum, squares, n, root);
      }
    }
  }

  lemma SampleIsPooled(sum: real, squares: real, n: real)
    requires n > 1.0
    ensures VarianceOf(sum, squares, n) * n / (n - 1.0) == SampleVariance(sum, squares, n)
  {
    PooledVariance(sum, squares, n);
  }

  lemma ValueIs(sum: real, squares: real, n: real, root: real -> real)
    requires PositiveRoot(root) && n > 1.0 && VarianceOf(sum, squares, n) > 0.0
    requires VarianceOf(sum, squares, n) * n / (n - 1.0) == SampleVariance(sum, squares, n)
    requires root(SampleVariance(sum, squares, n)) > 0.0
    ensures Performance(sum, squares, n, root).Val?
    ensures Performance(sum, squares, n, root).v * root(SampleVariance(sum, squares, n)) == MeanOf(sum, n)
  {
    Unfolded(sum, squares, n, root);
    hide Performance, SampleVariance, VarianceOf, MeanOf;
    RootTimes(MeanOf(sum, n), root(SampleVariance(sum, squares, n)));
  }

  lemma Unfolded(sum: real, squares: real, n: real, root: real -> real)
    requires PositiveRoot(root) && n > 1.0 && VarianceOf(sum, squares, n) > 0.0
    requires root(VarianceOf(sum, squares, n) * n / (n - 1.0)) > 0.0
    ensures Performance(sum, squares, n, root) == Val(MeanOf(sum, n) / root(VarianceOf(sum, squares, n) * n / (n - 1.0)))
  {
    hide VarianceOf;
  }

  lemma NoValue(sum: real, squares: real, n: real, root: real -> real)
    requires PositiveRoot(root) && n > 1.0 && VarianceOf(sum, squares, n) <= 0.0
    ensures Performance(sum, squares, n, root).NegInf?
  {
  }

  lemma RootTimes(mean: real, r: real)
    requires r > 0.0
    ensures mean / r * r == mean
  {
  }

  lemma DefinedIff(sum: real, squares: real, n: real)
    requires n > 0.0
    ensures SpreadOf(sum, squares, n) > 0.0 <==> squares * n > sum * sum
  {
    SpreadLaw(sum, squares, n);
    SignOfProduct(SpreadOf(sum, squares, n), n);
  }

  /** The square of the quotient, cleared of it. */
  lemma SquareOfQuotient(v: real, r: real, x: real, mean: real, m: real, spread: real)
    requires v * r == mean && r * r == x && x * m == spread
    ensures v * v * spread == mean * mean * m
  {
    assert v * v * (r * r) == (v * r) * (v * r);
    assert v * v * (x * m) == v * v * x * m;
  }

  lemma TimesSquare(v: real, spread: real, mean: real, m: real, n: real, sum: real)
    requires v * v * spread == mean * mean * m && mean * n == sum
    ensures v * v * spread * n * n == sum * sum * m
  {
    assert mean * mean * m * n * n == (mean * n) * (mean * n) * m;
  }

  lemma RootOf(root: real -> real, x: real)
    requires SquareRoot(root) && x > 0.0
    ensures root(x) > 0.0 && root(x) * root(x) == x
  {
  }

  /** Square and sign of a defined statistic. */
  lemma SharpeSquare(sum: real, squares: real, n: real, root: real -> real)
    requires SquareRoot(root) && PositiveRoot(root) && n > 1.0 && Performance(sum, squares, n, root).Val?
    ensures var v := Performance(sum, squares, n, root).v;
            && v * v * SpreadOf(sum, squares, n) == MeanOf(sum, n) * MeanOf(sum, n) * (n - 1.0)
            && (v > 0.0 <==> sum > 0.0) && (v == 0.0 <==> sum == 0.0)
  {
    hide *;
    var x, mean, v := SampleVariance(sum, squares, n), MeanOf(sum, n), Performance(sum, squares, n, root).v;
    PerformanceLaw(sum, squares, n, root);
    VarianceLaw(sum, squares, n);
    MeanLaw(sum, n);
    RootOf(root, x);
    SquareOfQuotient(v, root(x), x, mean, n - 1.0, SpreadOf(sum, squares, n));
    SignOfProduct(v, root(x));
    SignOfProduct(mean, n);
  }

  /**
   The statistic is the Sharpe ratio of n bars with the given sums of returns and of squared
   returns: defined exactly when there is more than one bar and the variance is positive, and
   then the number with the sign of the total whose square times the sample variance is the
   square of the mean.
   */
  lemma SharpeRatio(sumR: real, sumR2: real, n: real, root: real -> real)
    requires SquareRoot(root)
    ensures PositiveRoot(root)
    ensures Performance(sumR, sumR2, n, root).Val? <==> n > 1.0 && sumR2 * n > sumR * sumR
    ensures Performance(sumR, sumR2, n, root).Val? ==>
              var v := Performance(sumR, sumR2, n, root).v;
              && v * v * (sumR2 - sumR * sumR / n) * n * n == sumR * sumR * (n - 1.0)
              && (v > 0.0 <==> sumR > 0.0) && (v == 0.0 <==> sumR == 0.0)
  {
    hide *;
    RootIsPositive(root);
    PerformanceLaw(sumR, sumR2, n, root);
    if n > 1.0 {
      DefinedIff(sumR, sumR2, n);
      if Performance(sumR, sumR2, n, root).Val? {
        SharpeSquare(sumR, sumR2, n, root);
        SpreadIs(sumR, sumR2, n);
        MeanLaw(sumR, n);
        TimesSquare(Performance(sumR, sumR2, n, root).v, SpreadOf(sumR, sumR2, n), MeanOf(sumR, n), n - 1.0, n, sumR);
      }
    }
  }

  lemma ScaledSquares(r: real, s: real, c: real, x: real, y: real)
    requires c > 0.0 && r > 0.0 && s > 0.0 && r * r == x && s * s == y && y == c * c * x
    ensures s == c * r
  {
    SignOfProduct(c, r);
    assert (c * r) * (c * r) == c * c * (r * r);
    SquaresEqual(s, c * r);
  }

  lemma SameQuotient(v: real, w: real, r: real, mean: real, c: real)
    requires c > 0.0 && r > 0.0 && v * r == mean && w * (c * r) == c * mean
    ensures v == w
  {
    assert w * (c * r) == w * r * c && v * r * c == mean * c;
    Cancel(w * r, v * r, c);
    Cancel(w, v, r);
  }

  lemma ScaledMean(sum: real, n: real, c: real)
    requires n > 0.0
    ensures MeanOf(c * sum, n) == c * MeanOf(sum, n)
  {
    var mean, q := sum / n, c * sum / n;
    assert mean * n == sum && q * n == c * sum;
    assert c * mean * n == c * (mean * n);
    Cancel(q, c * mean, n);
  }

  lemma ScaledSpread(sum: real, squares: real, n: real, c: real)
    requires n > 0.0
    ensures SpreadOf(c * sum, c * c * squares, n) == c * c * SpreadOf(sum, squares, n)
  {
    ScaledMean(sum, n, c);
    SpreadLaw(sum, squares, n);
    SpreadLaw(c * sum, c * c * squares, n);
    var mean := MeanOf(sum, n);
    hide MeanOf, SpreadOf;
    assert c * c * (squares - mean * sum) == c * c * squares - c * mean * (c * sum);
  }

  lemma ScaledVariance(sum: real, squares: real, n: real, c: real)
    requires n > 1.0
    ensures SampleVariance(c * sum, c * c * squares, n) == c * c * SampleVariance(sum, squares, n)
  {
    VarianceLaw(sum, squares, n);
    VarianceLaw(c * sum, c * c * squares, n);
    ScaledSpread(sum, squares, n, c);
    var x, y := SampleVariance(sum, squares, n), SampleVariance(c * sum, c * c * squares, n);
    hide SampleVariance, SpreadOf;
    assert c * c * x * (n - 1.0) == c * c * (x * (n - 1.0));
    Cancel(y, c * c * x, n - 1.0);
  }

  lemma ScaledPositive(a: real, c: real, b: real)
    requires c > 0.0 && b == c * c * a
    ensures b > 0.0 <==> a > 0.0
  {
    SignOfProduct(c, c);
    SignOfProduct(a, c * c);
    assert a * (c * c) == c * c * a;
  }

  lemma SpreadStaysPositive(sum: real, squares: real, n: real, c: real)
    requires n > 0.0 && c > 0.0
    ensures SpreadOf(c * sum, c * c * squares, n) > 0.0 <==> SpreadOf(sum, squares, n) > 0.0
  {
    hide SpreadOf;
    var before, after := SpreadOf(sum, squares, n), SpreadOf(c * sum, c * c * squares, n);
    ScaledSpread(sum, squares, n, c);
    ScaledPositive(before, c, after);
  }

  /** Scaling every return by the same positive factor leaves the statistic alone. */
  lemma ScaleFree(sumR: real, sumR2: real, n: real, c: real, root: real -> real)
    requires SquareRoot(root) && c > 0.0
    ensures PositiveRoot(root)
    ensures Performance(c * sumR, c * c * sumR2, n, root) == Performance(sumR, sumR2, n, root)
  {
    hide *;
    RootIsPositive(root);
    PerformanceLaw(sumR, sumR2, n, root);
    PerformanceLaw(c * sumR, c * c * sumR2, n, root);
    if n > 1.0 {
      ScaledSpread(sumR, sumR2, n, c);
      SpreadStaysPositive(sumR, sumR2, n, c);
      if Performance(sumR, sumR2, n, root).Val? {
        ScaledValue(sumR, sumR2, n, c, root);
      }
    }
  }

  lemma ScaledValue(sumR: real, sumR2: real, n: real, c: real, root: real -> real)
    requires SquareRoot(root) && PositiveRoot(root) && c > 0.0 && n > 1.0
    requires SpreadOf(sumR, sumR2, n) > 0.0 && SpreadOf(c * sumR, c * c * sumR2, n) > 0.0
    ensures Performance(c * sumR, c * c * sumR2, n, root) == Performance(sumR, sumR2, n, root)
  {
    hide *;
    var sumC, squaresC := c * sumR, c * c * sumR2;
    var x, y := SampleVariance(sumR, sumR2, n), SampleVariance(sumC, squaresC, n);
    PerformanceLaw(sumR, sumR2, n, root);
    PerformanceLaw(sumC, squaresC, n, root);
    VarianceLaw(sumR, sumR2, n);
    VarianceLaw(sumC, squaresC, n);
    ScaledVariance(sumR, sumR2, n, c);
    ScaledMean(sumR, n, c);
    RootOf(root, x);
    RootOf(root, y);
    ScaledSquares(root(x), root(y), c, x, y);
    SameQuotient(Performance(sumR, sumR2, n, root).v, Performance(sumC, squaresC, n, root).v, root(x), MeanOf(sumR, n), c);
  }

  lemma LessQuotient(v: real, w: real, r: real, a: real, b: real)
    requires r > 0.0 && v * r == a && w * r == b && a < b
    ensures v < w
  {
    assert (w - v) * r == b - a;
    SignOfProduct(w - v, r);
  }

  lemma SameVariance(low: real, lowSquares: real, high: real, highSquares: real, n: real)
    requires n > 1.0 && lowSquares * n - low * low == highSquares * n - high * high
    ensures SampleVariance(low, lowSquares, n) == SampleVariance(high, highSquares, n)
  {
    SpreadLaw(low, lowSquares, n);
    SpreadLaw(high, highSquares, n);
    hide SpreadOf;
    Cancel(SpreadOf(low, lowSquares, n), SpreadOf(high, highSquares, n), n);
  }

  lemma LessValues(a: Perf, b: Perf)
    requires a.Val? && b.Val?
    ensures Less(a, b) <==> a.v < b.v
  {
  }

  /** At the same number of bars and the same variance a higher total has the higher statistic. */
  lemma RisesWithMean(low: real, lowSquares: real, high: real, highSquares: real, n: real, root: real -> real)
    requires SquareRoot(root) && n > 1.0 && low < high
    requires lowSquares * n - low * low == highSquares * n - high * high > 0.0
    ensures PositiveRoot(root)
    ensures Less(Performance(low, lowSquares, n, root), Performance(high, highSquares, n, root))
  {
    hide *;
    RootIsPositive(root);
    DefinedIff(low, lowSquares, n);
    DefinedIff(high, highSquares, n);
    SameVariance(low, lowSquares, high, highSquares, n);
    RisesAtVariance(low, lowSquares, high, highSquares, n, root);
  }

  lemma RisesAtVariance(low: real, lowSquares: real, high: real, highSquares: real, n: real, root: real -> real)
    requires SquareRoot(root) && PositiveRoot(root) && n > 1.0 && low < high
    requires SpreadOf(low, lowSquares, n) > 0.0 && SpreadOf(high, highSquares, n) > 0.0
    requires SampleVariance(low, lowSquares, n) == SampleVariance(high, highSquares, n)
    ensures Less(Performance(low, lowSquares, n, root), Performance(high, highSquares, n, root))
  {
    hide *;
    var x := SampleVariance(low, lowSquares, n);
    PerformanceLaw(low, lowSquares, n, root);
    PerformanceLaw(high, highSquares, n, root);
    VarianceLaw(low, lowSquares, n);
    RootOf(root, x);
    MeanLaw(low, n);
    MeanLaw(high, n);
    LessQuotient(MeanOf(low, n), MeanOf(high, n), n, low, high);
    LessValues(Performance(low, lowSquares, n, root), Performance(high, highSquares, n, root));
    LessQuotient(Performance(low, lowSquares, n, root).v, Performance(high, highSquares, n, root).v, root(x),
                 MeanOf(low, n), MeanOf(high, n));
  }

  // ---------- From returns ----------

  function Square(): real -> real {
    (x: real) => x * x
  }

  function Deviation(mean: real): real -> real {
    (x: real) => (x - mean) * (x - mean)
  }

  lemma {:induction false} DeviationsTotal(xs: seq<real>, mean: real)
    ensures Sum(xs, Deviation(mean)) == Sum(xs, Square()) - 2.0 * mean * Sum(xs, Itself()) + |xs| as real * mean * mean
  {
    if xs == [] {
    } else {
      DeviationsTotal(xs[1..], mean);
      var x, n, rest := xs[0], |xs[1..]| as real, Sum(xs[1..], Itself());
      assert (x - mean) * (x - mean) == x * x - 2.0 * mean * x + mean * mean;
      assert 2.0 * mean * (x + rest) == 2.0 * mean * x + 2.0 * mean * rest;
      assert (1.0 + n) * mean * mean == mean * mean + n * mean * mean;
    }
  }

  lemma MeanSquared(sum: real, n: real, mean: real)
    requires mean * n == sum
    ensures n * mean * mean == mean * sum && 2.0 * mean * sum == mean * sum + mean * sum
  {
    assert n * mean * mean == mean * (mean * n);
  }

  /** The sum of squared deviations from the mean is the spread the statistic uses. */
  lemma SpreadOfReturns(xs: seq<real>)
    requires xs != []
    ensures var n, sum := |xs| as real, Sum(xs, Itself());
            Sum(xs, Deviation(MeanOf(sum, n))) == SpreadOf(sum, Sum(xs, Square()), n)
  {
    hide Sum, MeanOf, SpreadOf;
    var n, sum := |xs| as real, Sum(xs, Itself());
    var mean := MeanOf(sum, n);
    DeviationsTotal(xs, mean);
    SpreadLaw(sum, Sum(xs, Square()), n);
    MeanLaw(sum, n);
    MeanSquared(sum, n, mean);
  }

  /** Some element is not the given number. */
  predicate Differs(xs: seq<real>, x: real) {
    exists i :: 0 <= i < |xs| && xs[i] != x
  }

  lemma DiffersCons(xs: seq<real>, x: real)
    requires xs != []
    ensures Differs(xs, x) <==> xs[0] != x || Differs(xs[1..], x)
  {
    assert forall i :: 1 <= i < |xs| ==> xs[i] == xs[1..][i - 1];
    if Differs(xs, x) && xs[0] == x {
      var i :| 0 <= i < |xs| && xs[i] != x;
      assert xs[1..][i - 1] != x;
    }
  }

  lemma {:induction false} DeviationsPositive(xs: seq<real>, mean: real)
    ensures Sum(xs, Deviation(mean)) >= 0.0
    ensures Sum(xs, Deviation(mean)) > 0.0 <==> Differs(xs, mean)
  {
    if xs == [] {
    } else {
      DeviationsPositive(xs[1..], mean);
      SquareNonNegative(xs[0] - mean);
      DiffersCons(xs, mean);
    }
  }

  lemma {:induction false} ConstantSum(xs: seq<real>, x: real)
    requires forall i :: 0 <= i < |xs| ==> xs[i] == x
    ensures Sum(xs, Itself()) == x * |xs| as real
  {
    if xs == [] {
    } else {
      ConstantSum(xs[1..], x);
      var n := |xs[1..]| as real;
      assert x * (1.0 + n) == x + x * n;
    }
  }

  /** Some two of the numbers differ. */
  predicate Varies(xs: seq<real>) {
    exists i, j :: 0 <= i < j < |xs| && xs[i] != xs[j]
  }

  lemma SameMean(mean: real, x: real, n: real, sum: real)
    requires n > 0.0 && mean * n == sum && sum == x * n
    ensures mean == x
  {
    Cancel(mean, x, n);
  }

  lemma VariesIff(xs: seq<real>)
    requires xs != []
    ensures Varies(xs) <==> Differs(xs, MeanOf(Sum(xs, Itself()), |xs| as real))
  {
    hide Sum, MeanOf;
    var n, sum := |xs| as real, Sum(xs, Itself());
    var mean := MeanOf(sum, n);
    if Varies(xs) {
      var i, j :| 0 <= i < j < |xs| && xs[i] != xs[j];
      assert xs[i] != mean || xs[j] != mean;
    } else {
      forall i | 0 <= i < |xs| ensures xs[i] == xs[0] {
      }
      ConstantSum(xs, xs[0]);
      MeanLaw(sum, n);
      SameMean(mean, xs[0], n, sum);
    }
  }

  /**
   Of a list of returns the statistic is the Sharpe ratio: it is defined if and only if some
   two of the returns differ, and then it has the sign of their sum and its square times the
   sum of squared deviations from the mean is the squared mean times one less than their number.
   */
  lemma SharpeOfReturns(xs: seq<real>, root: real -> real)
    requires SquareRoot(root)
    ensures PositiveRoot(root)
    ensures var sum, p := Sum(xs, Itself()), Performance(Sum(xs, Itself()), Sum(xs, Square()), |xs| as real, root);
            && (p.Val? <==> Varies(xs))
            && (p.Val? ==>
                  var mean := sum / |xs| as real;
                  && p.v * p.v * Sum(xs, Deviation(mean)) == mean * mean * (|xs| - 1) as real
                  && (p.v > 0.0 <==> sum > 0.0) && (p.v == 0.0 <==> sum == 0.0))
  {
    hide *;
    var n, sum, squares := |xs| as real, Sum(xs, Itself()), Sum(xs, Square());
    RootIsPositive(root);
    PerformanceLaw(sum, squares, n, root);
    if |xs| <= 1 {
      NoPair(xs);
    } else {
      SpreadOfReturns(xs);
      VariesIff(xs);
      DeviationsPositive(xs, MeanOf(sum, n));
      MeanIs(sum, n);
      if Performance(sum, squares, n, root).Val? {
        SharpeSquare(sum, squares, n, root);
      }
    }
  }

  lemma MeanIs(sum: real, n: real)
    requires n > 0.0
    ensures MeanOf(sum, n) == sum / n
  {
  }

  lemma NoPair(xs: seq<real>)
    requires |xs| <= 1
    ensures !Varies(xs)
  {
  }

  // ---------- Pooled blocks ----------

  /** The returns of some of the blocks, one block after the other. */
  function Joined(earned: seq<seq<real>>, blocks: seq<int>): seq<real>
  {
    if blocks == [] then []
    else (if 0 <= blocks[0] < |earned| then earned[blocks[0]] else []) + Joined(earned, blocks[1..])
  }

  lemma {:induction false} PooledIsJoined(earned: seq<seq<real>>, row: seq<real>, blocks: seq<int>, weight: real -> real)
    requires |row| == |earned| && forall b :: 0 <= b < |row| ==> row[b] == Sum(earned[b], weight)
    ensures Pooled(row, blocks) == Sum(Joined(earned, blocks), weight)
  {
    if blocks == [] {
    } else {
      PooledIsJoined(earned, row, blocks[1..], weight);
      var first := if 0 <= blocks[0] < |earned| then earned[blocks[0]] else [];
      SumAppend(first, Joined(earned, blocks[1..]), weight);
    }
  }

  lemma {:induction false} OnesCount(xs: seq<real>)
    ensures Sum(xs, One<real>()) == |xs| as real
  {
    if xs == [] {
    } else {
      OnesCount(xs[1..]);
    }
  }

  /** The statistics hold, block by block, the sums, sums of squares and numbers of a configuration's returns. */
  predicate Summarize(stats: Stats, s: nat, c: nat, earned: seq<seq<real>>)
    requires WellShaped(stats, s) && c < |stats.sumR|
  {
    && |earned| == s
    && (forall b :: 0 <= b < s ==> stats.sumR[c][b] == Sum(earned[b], Itself()))
    && (forall b :: 0 <= b < s ==> stats.sumR2[c][b] == Sum(earned[b], Square()))
    && (forall b :: 0 <= b < s ==> stats.n[c][b] == Sum(earned[b], One<real>()))
  }

  /**
   What the referee ranks: over any choice of blocks a configuration's performance is the
   Sharpe ratio of all its returns in those blocks, one after the other.
   */
  lemma PerformanceIsSharpe(stats: Stats, s: nat, c: nat, earned: seq<seq<real>>, blocks: seq<int>, root: real -> real)
    requires WellShaped(stats, s) && c < |stats.sumR| && SquareRoot(root) && Summarize(stats, s, c, earned)
    ensures PositiveRoot(root)
    ensures var xs := Joined(earned, blocks);
            var sum, p := Sum(xs, Itself()), PerformanceOn(stats, s, c, blocks, root);
            && (p.Val? <==> Varies(xs))
            && (p.Val? ==>
                  var mean := sum / |xs| as real;
                  && p.v * p.v * Sum(xs, Deviation(mean)) == mean * mean * (|xs| - 1) as real
                  && (p.v > 0.0 <==> sum > 0.0) && (p.v == 0.0 <==> sum == 0.0))
  {
    hide Performance, Sum, Joined, Pooled, Varies;
    var xs := Joined(earned, blocks);
    PooledIsJoined(earned, stats.sumR[c], blocks, Itself());
    PooledIsJoined(earned, stats.sumR2[c], blocks, Square());
    PooledIsJoined(earned, stats.n[c], blocks, One<real>());
    OnesCount(xs);
    SharpeOfReturns(xs, root);
  }

  // ---------- Embargoed blocks ----------

  /** The elements of a series at some of its positions. */
  function Picked(series: seq<real>, positions: seq<nat>): seq<real> {
    if positions == [] then []
    else (if positions[0] < |series| then [series[positions[0]]] else [0.0]) + Picked(series, positions[1..])
  }

  lemma {:induction false} PickedTotals(series: seq<real>, positions: seq<nat>)
    ensures |Picked(series, positions)| == |positions|
    ensures Sum(positions, Return(series)) == Sum(Picked(series, positions), Itself())
    ensures Sum(positions, Squared(series)) == Sum(Picked(series, positions), Square())
    ensures Sum(positions, One<nat>()) == Sum(Picked(series, positions), One<real>())
  {
    if positions == [] {
    } else {
      PickedTotals(series, positions[1..]);
      var first := if positions[0] < |series| then series[positions[0]] else 0.0;
      assert Picked(series, positions) == [first] + Picked(series, positions[1..]);
      assert ([first] + Picked(series, positions[1..]))[1..] == Picked(series, positions[1..]);
    }
  }

  /** The returns that the embargo keeps, block by block. */
  function KeptReturns(series: seq<real>, labels: seq<int>, emb: int, blocks: nat): seq<seq<real>> {
    seq(blocks, b requires 0 <= b < blocks => Picked(series, BlockIndices(labels, emb, b)))
  }

  /**
   From a series to its ranking. Statistics accumulated per block over the bars that the
   embargo keeps summarize exactly those bars' returns, so that over any choice of blocks the
   configuration's performance is the Sharpe ratio of the kept returns in them.
   */
  lemma AccumulatedIsSharpe(stats: Stats, s: nat, c: nat, series: seq<real>, labels: seq<int>, emb: int, blocks: seq<int>,
                            root: real -> real)
    requires WellShaped(stats, s) && c < |stats.sumR| && SquareRoot(root)
    requires forall b :: 0 <= b < s ==> stats.sumR[c][b] == Sum(BlockIndices(labels, emb, b), Return(series))
    requires forall b :: 0 <= b < s ==> stats.sumR2[c][b] == Sum(BlockIndices(labels, emb, b), Squared(series))
    requires forall b :: 0 <= b < s ==> stats.n[c][b] == Sum(BlockIndices(labels, emb, b), One<nat>())
    ensures PositiveRoot(root)
    ensures var xs := Joined(KeptReturns(series, labels, emb, s), blocks);
            var sum, p := Sum(xs, Itself()), PerformanceOn(stats, s, c, blocks, root);
            && (p.Val? <==> Varies(xs))
            && (p.Val? ==>
                  var mean := sum / |xs| as real;
                  && p.v * p.v * Sum(xs, Deviation(mean)) == mean * mean * (|xs| - 1) as real
                  && (p.v > 0.0 <==> sum > 0.0) && (p.v == 0.0 <==> sum == 0.0))
  {
    hide Sum, BlockIndices, Picked, Varies, Joined, Performance, SquareRoot;
    var kept := KeptReturns(series, labels, emb, s);
    forall b | 0 <= b < s
      ensures stats.sumR[c][b] == Sum(kept[b], Itself()) && stats.sumR2[c][b] == Sum(kept[b], Square())
      ensures stats.n[c][b] == Sum(kept[b], One<real>())
    {
      PickedTotals(series, BlockIndices(labels, emb, b));
    }
    PerformanceIsSharpe(stats, s, c, kept, blocks, root);
  }
}
