/**
  Sharpe and Sortino ratios of a list of returns, over any square root.
 */
module RiskRatios {
  import opened Common

  /** What is used of the square root. */
  ghost predicate IsRoot(root: real -> real) {
    forall x :: x >= 0.0 ==> root(x) >= 0.0 && root(x) * root(x) == x
  }

  function MeanOf(v: seq<real>): real {
    if v == [] then 0.0 else Sum(v) / |v| as real
  }

  function Square(x: real): real {
    x * x
  }

  function SquaredFrom(mean: real): real -> real {
    x => Square(x - mean)
  }

  /** The population variance about a mean. */
  function Variance(v: seq<real>, mean: real): real {
    if v == [] then 0.0 else Total(v, SquaredFrom(mean)) / |v| as real
  }

  function StdDev(root: real -> real, v: seq<real>, mean: real): real {
    if |v| < 2 then 0.0 else root(Variance(v, mean))
  }

  /** Mean over deviation, scaled by the root of the number of returns; nothing without a deviation. */
  function RatioOver(root: real -> real, v: seq<real>, deviation: real): real {
    if deviation == 0.0 then 0.0 else (MeanOf(v) / deviation) * root(|v| as real)
  }

  function Sharpe(root: real -> real, v: seq<real>): real {
    if |v| < 2 then 0.0 else RatioOver(root, v, StdDev(root, v, MeanOf(v)))
  }

  predicate IsLoss(x: real) {
    x < 0.0
  }

  /** The deviation here is that of the losses about their own mean. */
  function Sortino(root: real -> real, v: seq<real>): real {
    var down := Filter(v, IsLoss);
    if |v| < 2 || down == [] then 0.0 else RatioOver(root, v, StdDev(root, down, MeanOf(down)))
  }

  // ----- The loops -----

  method ComputeMean(v: seq<real>) returns (m: real)
    ensures m == MeanOf(v)
  {
    if |v| == 0 {
      return 0.0;
    }
    var s, i := 0.0, 0;
    while i < |v|
      invariant 0 <= i <= |v| && s == Sum(v[..i])
    {
      assert v[..i + 1][..i] == v[..i];
      s := s + v[i];
      i := i + 1;
    }
    assert v[..i] == v;
    m := s / |v| as real;
  }

  method ComputeStdDev(root: real -> real, v: seq<real>, mean: real) returns (s: real)
    ensures s == StdDev(root, v, mean)
  {
    if |v| < 2 {
      return 0.0;
    }
    var sumSq, i := 0.0, 0;
    while i < |v|
      invariant 0 <= i <= |v| && sumSq == Total(v[..i], SquaredFrom(mean))
    {
      hide Square;
      assert v[..i + 1][..i] == v[..i];
      var d := v[i] - mean;
      sumSq := sumSq + Square(d);
      i := i + 1;
    }
    assert v[..i] == v;
    s := root(sumSq / |v| as real);
  }

  method ComputeSharpe(root: real -> real, v: seq<real>) returns (ratio: real)
    ensures ratio == Sharpe(root, v)
  {
    hide MeanOf, StdDev;
    if |v| < 2 {
      return 0.0;
    }
    var m := ComputeMean(v);
    var s := ComputeStdDev(root, v, m);
    if s == 0.0 {
      return 0.0;
    }
    ratio := (m / s) * root(|v| as real);
  }

  method ComputeSortino(root: real -> real, v: seq<real>) returns (ratio: real)
    ensures ratio == Sortino(root, v)
  {
    hide MeanOf, StdDev;
    if |v| < 2 {
      return 0.0;
    }
    var m := ComputeMean(v);
    var down, i := [], 0;
    while i < |v|
      invariant 0 <= i <= |v| && down == Filter(v[..i], IsLoss)
    {
      assert v[..i + 1][..i] == v[..i];
      if v[i] < 0.0 {
        down := down + [v[i]];
      }
      i := i + 1;
    }
    assert v[..i] == v;
    if |down| == 0 {
      return 0.0;
    }
    var dm := ComputeMean(down);
    var ds := ComputeStdDev(root, down, dm);
    if ds == 0.0 {
      return 0.0;
    }
    ratio := (m / ds) * root(|v| as real);
  }

  // ----- What the ratios say -----

  lemma SquareSign(x: real)
    ensures Square(x) >= 0.0 && (Square(x) == 0.0 <==> x == 0.0)
  {
    ZeroProduct(x, x);
  }

  lemma Positive(a: real, b: real)
    requires a > 0.0 && b > 0.0
    ensures a * b > 0.0
  {
  }

  lemma ZeroProduct(a: real, b: real)
    ensures a * b == 0.0 <==> a == 0.0 || b == 0.0
  {
    if a != 0.0 && b != 0.0 {
      Positive(if a > 0.0 then a else -a, if b > 0.0 then b else -b);
    }
  }

  lemma {:induction false} SpreadNothing(v: seq<real>, mean: real)
    ensures Total(v, SquaredFrom(mean)) >= 0.0
    ensures Total(v, SquaredFrom(mean)) == 0.0 <==> forall i :: 0 <= i < |v| ==> v[i] == mean
  {
    if v != [] {
      hide Square;
      var n := |v| - 1;
      SpreadNothing(v[..n], mean);
      SquareSign(v[n] - mean);
      assert forall i :: 0 <= i < n ==> v[..n][i] == v[i];
    }
  }

  /** All returns are the same. */
  ghost predicate Constant(v: seq<real>) {
    forall i :: 0 <= i < |v| ==> v[i] == v[0]
  }

  lemma {:induction false} ConstantSum(v: seq<real>, x: real)
    requires forall i :: 0 <= i < |v| ==> v[i] == x
    ensures Sum(v) == |v| as real * x
  {
    if v != [] {
      ConstantSum(v[..|v| - 1], x);
      assert (|v| - 1) as real * x + x == |v| as real * x;
    }
  }

  lemma DivideBack(n: real, x: real)
    requires n > 0.0
    ensures (n * x) / n == x
  {
  }

  lemma ConstantIsMean(v: seq<real>)
    requires v != []
    ensures Constant(v) <==> forall i :: 0 <= i < |v| ==> v[i] == MeanOf(v)
  {
    if Constant(v) {
      ConstantSum(v, v[0]);
      DivideBack(|v| as real, v[0]);
    }
  }

  lemma QuotientSign(a: real, b: real)
    requires b > 0.0
    ensures a / b > 0.0 <==> a > 0.0
    ensures a / b == 0.0 <==> a == 0.0
  {
    if a > 0.0 {
      assert a / b > 0.0;
    }
  }

  lemma ProductSign(a: real, b: real)
    requires b > 0.0
    ensures a * b > 0.0 <==> a > 0.0
    ensures a * b == 0.0 <==> a == 0.0
  {
  }

  lemma RootSign(root: real -> real, x: real)
    requires IsRoot(root) && x >= 0.0
    ensures root(x) >= 0.0 && (root(x) == 0.0 <==> x == 0.0)
  {
    assert root(x) * root(x) == x;
    ZeroProduct(root(x), root(x));
  }

  /** A deviation is nothing exactly for returns that are all the same. */
  lemma DeviationZero(root: real -> real, v: seq<real>)
    requires IsRoot(root) && |v| >= 2
    ensures StdDev(root, v, MeanOf(v)) >= 0.0
    ensures StdDev(root, v, MeanOf(v)) == 0.0 <==> Constant(v)
  {
    hide MeanOf, Constant, IsRoot, Total;
    var m := MeanOf(v);
    SpreadNothing(v, m);
    ConstantIsMean(v);
    var spread := Total(v, SquaredFrom(m));
    QuotientSign(spread, |v| as real);
    RootSign(root, spread / |v| as real);
  }

  lemma RatioSign(root: real -> real, v: seq<real>, deviation: real)
    requires IsRoot(root) && |v| >= 2 && deviation > 0.0
    ensures RatioOver(root, v, deviation) > 0.0 <==> Sum(v) > 0.0
    ensures RatioOver(root, v, deviation) == 0.0 <==> Sum(v) == 0.0
  {
    hide Sum, IsRoot;
    RootSign(root, |v| as real);
    QuotientSign(Sum(v), |v| as real);
    QuotientSign(MeanOf(v), deviation);
    ProductSign(MeanOf(v) / deviation, root(|v| as real));
  }

  /** The Sharpe ratio has the sign of the total return, and is nothing for returns that are all the same. */
  lemma SharpeSign(root: real -> real, v: seq<real>)
    requires IsRoot(root)
    ensures Sharpe(root, v) > 0.0 <==> |v| >= 2 && !Constant(v) && Sum(v) > 0.0
    ensures Sharpe(root, v) == 0.0 <==> |v| < 2 || Constant(v) || Sum(v) == 0.0
  {
    hide IsRoot, Constant, Sum, MeanOf, StdDev;
    if |v| >= 2 {
      DeviationZero(root, v);
      var s := StdDev(root, v, MeanOf(v));
      if s != 0.0 {
        RatioSign(root, v, s);
      }
    }
  }

  /**
    The Sortino ratio too, but it is also nothing when there are losses and all of them are the
    same, a single one included.
   */
  lemma SortinoSign(root: real -> real, v: seq<real>)
    requires IsRoot(root)
    ensures var down := Filter(v, IsLoss);
            && (Sortino(root, v) > 0.0 <==> |down| >= 2 && !Constant(down) && Sum(v) > 0.0)
            && (Sortino(root, v) == 0.0 <==> |down| < 2 || Constant(down) || Sum(v) == 0.0)
  {
    hide IsRoot, Constant, Sum, MeanOf;
    var down := Filter(v, IsLoss);
    if |down| >= 2 {
      DeviationZero(root, down);
      var s := StdDev(root, down, MeanOf(down));
      if s != 0.0 {
        RatioSign(root, v, s);
      }
    }
  }

  // ----- The ratios without roots -----

  /** The squared distances of some returns from a value, added up. */
  function Spread(v: seq<real>, m: real): real {
    if v == [] then 0.0 else Spread(v[..|v| - 1], m) + (v[|v| - 1] - m) * (v[|v| - 1] - m)
  }

  lemma {:induction false} SpreadIsTotal(v: seq<real>, m: real)
    ensures Total(v, SquaredFrom(m)) == Spread(v, m)
  {
    if v != [] {
      SpreadIsTotal(v[..|v| - 1], m);
      SquaredAt(m, v[|v| - 1]);
    }
  }

  lemma Cleared(n: real, x: real, y: real)
    requires n > 0.0
    ensures x / n == y <==> n * y == x
  {
  }

  /** The square of a ratio, cleared of its denominators. */
  lemma RatioSquared(mean: real, deviation: real, scale: real, total: real, n: real, spread: real, k: real)
    requires n > 0.0 && k > 0.0 && deviation > 0.0
    requires n * mean == total && k * (deviation * deviation) == spread && scale * scale == n
    ensures var r := (mean / deviation) * scale;
            r * r * spread * n == total * total * k
  {
    var q := mean / deviation;
    Cleared(deviation, mean, q);
    SquareTimes(q, scale);
    SquareTimes(deviation, q);
    SquareTimes(n, mean);
    Regroup(q * q, n, k, deviation * deviation, mean * mean);
  }

  lemma SquareTimes(a: real, b: real)
    ensures (a * b) * (a * b) == (a * a) * (b * b)
  {
  }

  lemma Regroup(qq: real, n: real, k: real, dd: real, mm: real)
    requires dd * qq == mm
    ensures qq * n * (k * dd) * n == n * n * mm * k
  {
    assert qq * n * (k * dd) * n == (n * n) * (dd * qq) * k;
  }

  /** The square of a ratio against the squared distances it is taken over. */
  ghost predicate SquareRule(r: real, spread: real, n: nat, total: real, k: nat) {
    r * r * spread * n as real == total * total * k as real
  }

  ghost predicate IsMean(mean: real, v: seq<real>) {
    mean * |v| as real == Sum(v)
  }

  lemma RatioIs(root: real -> real, v: seq<real>, part: seq<real>, r: real)
    requires IsRoot(root) && |v| >= 2 && |part| >= 2 && Spread(part, MeanOf(part)) > 0.0
    requires r == RatioOver(root, v, StdDev(root, part, MeanOf(part)))
    ensures SquareRule(r, Spread(part, MeanOf(part)), |v|, Sum(v), |part|)
  {
    var m, k, n := MeanOf(part), |part| as real, |v| as real;
    hide IsRoot, Spread, Sum, Total;
    SpreadIsTotal(part, m);
    var spread := Spread(part, m);
    QuotientSign(spread, k);
    RootSign(root, spread / k);
    var d := StdDev(root, part, m);
    assert d * d == spread / k && root(n) * root(n) == n by {
      RootSquares(root, spread / k);
      RootSquares(root, n);
    }
    Cleared(k, spread, d * d);
    Cleared(n, Sum(v), MeanOf(v));
    RatioSquared(MeanOf(v), d, root(n), Sum(v), n, spread, k);
  }

  lemma RootSquares(root: real -> real, x: real)
    requires IsRoot(root) && x >= 0.0
    ensures root(x) * root(x) == x
  {
  }

  /**
    Without roots: the square of the Sharpe ratio times the squared distances from the mean is the
    square of the total return; without a distance the ratio is nothing.
   */
  lemma SharpeSquared(root: real -> real, v: seq<real>, mean: real)
    requires IsRoot(root) && |v| >= 2 && IsMean(mean, v)
    ensures var r := Sharpe(root, v);
            && (Spread(v, mean) > 0.0 ==> r * r * Spread(v, mean) == Sum(v) * Sum(v))
            && (Spread(v, mean) == 0.0 ==> r == 0.0)
            && Spread(v, mean) >= 0.0
  {
    var n := |v| as real;
    Cleared(n, Sum(v), mean);
    assert mean == MeanOf(v);
    SpreadIsTotal(v, mean);
    SpreadNothing(v, mean);
    hide IsRoot, Spread, Sum, Total;
    if Spread(v, mean) > 0.0 {
      RatioIs(root, v, v, Sharpe(root, v));
      Cancelled(Sharpe(root, v) * Sharpe(root, v) * Spread(v, mean), Sum(v) * Sum(v), n);
    } else {
      DeviationNothing(root, v, mean);
    }
  }

  lemma Cancelled(x: real, y: real, n: real)
    requires n > 0.0 && x * n == y * n
    ensures x == y
  {
  }

  lemma DeviationNothing(root: real -> real, v: seq<real>, m: real)
    requires IsRoot(root) && |v| >= 2 && Spread(v, m) == 0.0
    ensures StdDev(root, v, m) == 0.0
  {
    SpreadIsTotal(v, m);
    RootSign(root, 0.0);
  }

  /**
    The Sortino ratio is taken over the losses about their own mean: its square times their squared
    distances and the number of returns is the squared total return times the number of losses.
   */
  lemma SortinoSquared(root: real -> real, v: seq<real>, down: seq<real>, mean: real)
    requires IsRoot(root) && down == Filter(v, (x: real) => x < 0.0)
    requires |down| >= 2 && IsMean(mean, down)
    ensures var r := Sortino(root, v);
            && (Spread(down, mean) > 0.0 ==> SquareRule(r, Spread(down, mean), |v|, Sum(v), |down|))
            && (Spread(down, mean) == 0.0 ==> r == 0.0)
  {
    hide IsRoot, Spread, Sum, Total, Sortino, RatioOver, StdDev, MeanOf, SquareRule, IsMean;
    SortinoIs(root, v, down);
    MeanIs(down, mean);
    SpreadIsTotal(down, mean);
    SpreadNothing(down, mean);
    if Spread(down, mean) > 0.0 {
      RatioIs(root, v, down, Sortino(root, v));
    } else {
      DeviationNothing(root, down, mean);
      NoRatio(root, v);
    }
  }

  lemma MeanIs(v: seq<real>, mean: real)
    requires v != [] && IsMean(mean, v)
    ensures mean == MeanOf(v)
  {
    hide Sum;
    Cleared(|v| as real, Sum(v), mean);
  }

  lemma NoRatio(root: real -> real, v: seq<real>)
    ensures RatioOver(root, v, 0.0) == 0.0
  {
  }

  lemma SortinoIs(root: real -> real, v: seq<real>, down: seq<real>)
    requires |down| >= 2 && down == Filter(v, (x: real) => x < 0.0)
    ensures |v| >= 2 && Sortino(root, v) == RatioOver(root, v, StdDev(root, down, MeanOf(down)))
  {
    hide RatioOver, StdDev, MeanOf;
    LossesAre(v);
  }

  lemma {:induction false} LossesAre(v: seq<real>)
    ensures Filter(v, IsLoss) == Filter(v, (x: real) => x < 0.0)
  {
    if v != [] {
      LossesAre(v[..|v| - 1]);
    }
  }

  // ----- Scaling -----

  function Times(k: real, x: real): real {
    k * x
  }

  function Scale(v: seq<real>, k: real): (r: seq<real>)
    ensures |r| == |v| && forall i :: 0 <= i < |r| ==> r[i] == Times(k, v[i])
  {
    seq(|v|, i requires 0 <= i < |v| => Times(k, v[i]))
  }

  lemma ScaleFront(v: seq<real>, k: real)
    requires v != []
    ensures Scale(v, k) == Scale(v[..|v| - 1], k) + [Times(k, v[|v| - 1])]
  {
    hide Times;
    var n := |v| - 1;
    forall i | 0 <= i < n
      ensures Scale(v, k)[i] == Scale(v[..n], k)[i]
    {
      assert v[..n][i] == v[i];
    }
  }

  lemma Distributes(k: real, a: real, b: real)
    ensures Times(k, a) + Times(k, b) == Times(k, a + b) && Times(k, 0.0) == 0.0
  {
  }

  lemma {:induction false} ScaledSum(v: seq<real>, k: real)
    ensures Sum(Scale(v, k)) == Times(k, Sum(v))
  {
    hide Times;
    Distributes(k, 0.0, 0.0);
    if v != [] {
      var n := |v| - 1;
      ScaledSum(v[..n], k);
      ScaleFront(v, k);
      assert (Scale(v[..n], k) + [Times(k, v[n])])[..n] == Scale(v[..n], k);
      Distributes(k, Sum(v[..n]), v[n]);
    }
  }

  lemma SquareScales(k: real, x: real, m: real)
    ensures SquaredFrom(Times(k, m))(Times(k, x)) == Times(Square(k), Square(x - m))
  {
    var d, a := Times(k, x) - Times(k, m), x - m;
    assert d == k * a;
    SquareOfTimes(k, a, d);
  }

  lemma SquareOfTimes(k: real, a: real, d: real)
    requires d == k * a
    ensures Square(d) == Times(Square(k), Square(a))
  {
    assert (k * a) * (k * a) == (k * k) * (a * a);
  }

  lemma TotalSnoc(v: seq<real>, x: real, f: real -> real)
    ensures Total(v + [x], f) == Total(v, f) + f(x)
  {
    assert (v + [x])[..|v|] == v;
  }

  lemma {:induction false} ScaledSpread(v: seq<real>, k: real, m: real)
    ensures Total(Scale(v, k), SquaredFrom(Times(k, m))) == Times(Square(k), Total(v, SquaredFrom(m)))
  {
    hide Square, Times, SquaredFrom, Total;
    var f, g := SquaredFrom(Times(k, m)), SquaredFrom(m);
    if v == [] {
      NothingTotals(f);
      NothingTotals(g);
      Distributes(Square(k), 0.0, 0.0);
    } else {
      var front, x := v[..|v| - 1], v[|v| - 1];
      assert v == front + [x];
      ScaledSpread(front, k, m);
      ScaleFront(v, k);
      TotalSnoc(Scale(front, k), Times(k, x), f);
      TotalSnoc(front, x, g);
      SquareScales(k, x, m);
      SquaredAt(m, x);
      Distributes(Square(k), Total(front, g), Square(x - m));
    }
  }

  lemma NothingTotals(f: real -> real)
    ensures Total([], f) == 0.0
  {
  }

  lemma SquaredAt(m: real, x: real)
    ensures SquaredFrom(m)(x) == Square(x - m)
  {
  }

  lemma DivideScaled(k: real, a: real, n: real)
    requires n > 0.0
    ensures Times(k, a) / n == Times(k, a / n)
  {
  }

  lemma ScaledMean(v: seq<real>, k: real)
    ensures MeanOf(Scale(v, k)) == Times(k, MeanOf(v))
  {
    hide Sum, Times;
    ScaledSum(v, k);
    Distributes(k, 0.0, 0.0);
    if v != [] {
      DivideScaled(k, Sum(v), |v| as real);
    }
  }

  lemma ScaledVariance(v: seq<real>, k: real, m: real)
    ensures Variance(Scale(v, k), Times(k, m)) == Times(Square(k), Variance(v, m))
  {
    hide Total, Square, Times, SquaredFrom;
    ScaledSpread(v, k, m);
    Distributes(Square(k), 0.0, 0.0);
    if v != [] {
      DivideScaled(Square(k), Total(v, SquaredFrom(m)), |v| as real);
    }
  }

  lemma SameSquares(a: real, b: real)
    requires a >= 0.0 && b >= 0.0 && a * a == b * b
    ensures a == b
  {
    assert (a - b) * (a + b) == 0.0;
    ZeroProduct(a - b, a + b);
  }

  lemma SquareOfProduct(k: real, y: real, x: real)
    requires k > 0.0 && y >= 0.0 && y * y == x
    ensures Times(k, y) >= 0.0 && Times(Square(k), x) >= 0.0
    ensures Times(k, y) * Times(k, y) == Times(Square(k), x)
  {
    assert (k * y) * (k * y) == (k * k) * (y * y);
  }

  lemma RootScales(root: real -> real, k: real, x: real)
    requires IsRoot(root) && k > 0.0 && x >= 0.0
    ensures root(Times(Square(k), x)) == Times(k, root(x))
  {
    hide Square, Times;
    assert root(x) >= 0.0 && root(x) * root(x) == x;
    SquareOfProduct(k, root(x), x);
    assert root(Times(Square(k), x)) * root(Times(Square(k), x)) == Times(Square(k), x);
    SameSquares(root(Times(Square(k), x)), Times(k, root(x)));
  }

  lemma VarianceNonNegative(v: seq<real>, m: real)
    ensures Variance(v, m) >= 0.0
  {
    hide Total;
    SpreadNothing(v, m);
    if v != [] {
      QuotientNonNegative(Total(v, SquaredFrom(m)), |v| as real);
    }
  }

  lemma QuotientNonNegative(a: real, n: real)
    requires a >= 0.0 && n > 0.0
    ensures a / n >= 0.0
  {
  }

  lemma ScaledDeviation(root: real -> real, v: seq<real>, k: real)
    requires IsRoot(root) && k > 0.0 && |v| >= 2
    ensures StdDev(root, Scale(v, k), MeanOf(Scale(v, k))) == Times(k, StdDev(root, v, MeanOf(v)))
  {
    hide MeanOf, Variance, IsRoot, Square, Times;
    ScaledMean(v, k);
    ScaledVariance(v, k, MeanOf(v));
    VarianceNonNegative(v, MeanOf(v));
    RootScales(root, k, Variance(v, MeanOf(v)));
  }

  lemma CancelScale(k: real, m: real, s: real)
    requires k > 0.0 && s != 0.0
    ensures Times(k, s) != 0.0 && Times(k, m) / Times(k, s) == m / s
  {
    var q := m / s;
    ZeroProduct(k, s);
    assert q * s == m;
    assert q * (k * s) == k * m;
  }

  /** The Sharpe ratio does not depend on the size of the positions. */
  lemma SharpeScales(root: real -> real, v: seq<real>, k: real)
    requires IsRoot(root) && k > 0.0
    ensures Sharpe(root, Scale(v, k)) == Sharpe(root, v)
  {
    hide MeanOf, StdDev, IsRoot, Times;
    if |v| >= 2 {
      ScaledMean(v, k);
      ScaledDeviation(root, v, k);
      Distributes(k, 0.0, 0.0);
      var s := StdDev(root, v, MeanOf(v));
      if s != 0.0 {
        CancelScale(k, MeanOf(v), s);
      }
    }
  }
}
