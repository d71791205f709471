/**
  Interpolated percentiles and the confidence interval of a Monte Carlo run.
 */
module Percentiles {
  import opened Common

  ghost predicate Ascending(s: seq<real>) {
    forall i, j :: 0 <= i <= j < |s| ==> s[i] <= s[j]
  }

  function Ceil(x: real): int {
    if x.Floor as real == x then x.Floor else x.Floor + 1
  }

  /** A position `p` of the way along a length `m`. */
  function Along(p: real, m: real): real {
    p * m
  }

  /** A fraction of a length stays within the length and grows with the fraction. */
  lemma Scaled(p: real, q: real, m: real)
    requires 0.0 <= p <= q <= 1.0 && m >= 0.0
    ensures 0.0 <= Along(p, m) <= Along(q, m) <= m
  {
  }

  /** The value at a fractional position: linear between the two neighbouring samples. */
  function At(s: seq<real>, pos: real): real
    requires s != [] && 0.0 <= pos <= (|s| - 1) as real
  {
    var lower, upper := pos.Floor, Ceil(pos);
    if lower == upper then s[lower]
    else
      var weight := pos - lower as real;
      s[lower] * (1.0 - weight) + s[upper] * weight
  }

  function Percentile(sorted: seq<real>, p: real): real {
    if sorted == [] then 0.0
    else if p <= 0.0 then sorted[0]
    else if p >= 1.0 then sorted[|sorted| - 1]
    else
      Scaled(p, p, (|sorted| - 1) as real);
      At(sorted, Along(p, (|sorted| - 1) as real))
  }

  lemma Between(a: real, b: real, w: real, v: real)
    requires a <= b && 0.0 <= w <= v <= 1.0
    ensures a <= a * (1.0 - w) + b * w <= a * (1.0 - v) + b * v <= b
  {
  }

  /** An interpolated value lies between the samples around it. */
  lemma AtBracket(s: seq<real>, pos: real)
    requires s != [] && Ascending(s) && 0.0 <= pos <= (|s| - 1) as real
    ensures s[pos.Floor] <= At(s, pos) <= s[Ceil(pos)]
  {
    if pos.Floor != Ceil(pos) {
      Between(s[pos.Floor], s[Ceil(pos)], pos - pos.Floor as real, pos - pos.Floor as real);
    }
  }

  /**
    Each neighbour's share: between samples `k` and `k + 1` a percentile runs in a straight line
    from the one to the other.
   */
  lemma PercentileShare(s: seq<real>, p: real, k: nat)
    requires 0.0 <= p <= 1.0 && k + 1 < |s|
    requires k as real <= p * (|s| - 1) as real <= (k + 1) as real
    ensures Percentile(s, p) == s[k] + (p * (|s| - 1) as real - k as real) * (s[k + 1] - s[k])
  {
    hide Percentile;
    var m := (|s| - 1) as real;
    var pos := Along(p, m);
    PercentilePlace(s, p);
    Scaled(p, p, m);
    AtShare(s, pos, k);
  }

  /** Between zero and one a percentile is the value at its fraction of the way. */
  lemma PercentilePlace(s: seq<real>, p: real)
    requires 0.0 <= p <= 1.0 && s != []
    ensures 0.0 <= Along(p, (|s| - 1) as real) <= (|s| - 1) as real
    ensures Percentile(s, p) == At(s, Along(p, (|s| - 1) as real))
  {
    Scaled(p, p, (|s| - 1) as real);
  }

  lemma AtShare(s: seq<real>, pos: real, k: nat)
    requires k + 1 < |s| && k as real <= pos <= (k + 1) as real
    ensures At(s, pos) == s[k] + (pos - k as real) * (s[k + 1] - s[k])
  {
    if pos == (k + 1) as real {
      assert pos.Floor == k + 1;
    } else {
      assert pos.Floor == k;
      Blend(s[k], s[k + 1], pos - k as real);
    }
  }

  lemma Blend(a: real, b: real, w: real)
    ensures a * (1.0 - w) + b * w == a + w * (b - a)
  {
  }

  lemma AtMonotone(s: seq<real>, x: real, y: real)
    requires s != [] && Ascending(s) && 0.0 <= x <= y <= (|s| - 1) as real
    ensures At(s, x) <= At(s, y)
  {
    AtBracket(s, x);
    AtBracket(s, y);
    if x.Floor == y.Floor {
      if Ceil(x) == Ceil(y) && x.Floor != Ceil(x) {
        Between(s[x.Floor], s[Ceil(x)], x - x.Floor as real, y - y.Floor as real);
      }
    } else {
      assert Ceil(x) <= y.Floor;
    }
  }

  /** No percentile leaves the range of the samples. */
  lemma PercentileRange(s: seq<real>, p: real)
    requires Ascending(s) && s != []
    ensures s[0] <= Percentile(s, p) <= s[|s| - 1]
  {
    if 0.0 < p < 1.0 {
      var m := (|s| - 1) as real;
      Scaled(p, p, m);
      var pos := Along(p, m);
      AtBracket(s, pos);
    }
  }

  /** A percentile is monotone in `p`, across every boundary between samples. */
  lemma PercentileMonotone(s: seq<real>, p: real, q: real)
    requires Ascending(s) && p <= q
    ensures Percentile(s, p) <= Percentile(s, q)
  {
    if s == [] {
    } else if p <= 0.0 {
      PercentileRange(s, q);
    } else if q >= 1.0 {
      PercentileRange(s, p);
    } else {
      MonotoneInside(s, p, q);
    }
  }

  lemma MonotoneInside(s: seq<real>, p: real, q: real)
    requires Ascending(s) && s != [] && 0.0 < p <= q < 1.0
    ensures Percentile(s, p) <= Percentile(s, q)
  {
    hide At, Along;
    var m := (|s| - 1) as real;
    Scaled(p, q, m);
    AtMonotone(s, Along(p, m), Along(q, m));
  }

  /** The sorted arrangement of the samples, as the standard library leaves it. */
  function SortFloats(s: seq<real>): (r: seq<real>)
    ensures |r| == |s|
  {
    if s == [] then [] else Insert(SortFloats(s[..|s| - 1]), s[|s| - 1])
  }

  function Insert(s: seq<real>, x: real): (r: seq<real>)
    ensures |r| == |s| + 1
  {
    if s == [] || s[|s| - 1] <= x then s + [x]
    else Insert(s[..|s| - 1], x) + [s[|s| - 1]]
  }

  lemma {:induction false} InsertKeeps(s: seq<real>, x: real)
    ensures multiset(Insert(s, x)) == multiset(s) + multiset{x}
  {
    if s != [] && s[|s| - 1] > x {
      var n := |s| - 1;
      InsertKeeps(s[..n], x);
      assert s == s[..n] + [s[n]];
    }
  }

  lemma {:induction false} InsertAscending(s: seq<real>, x: real)
    requires Ascending(s)
    ensures Ascending(Insert(s, x))
    ensures Insert(s, x)[|s|] == if s == [] then x else Max(s[|s| - 1], x)
  {
    if s != [] && s[|s| - 1] > x {
      InsertAscending(s[..|s| - 1], x);
    }
  }

  lemma {:induction false} SortFloatsSorts(s: seq<real>)
    ensures Ascending(SortFloats(s)) && multiset(SortFloats(s)) == multiset(s)
  {
    if s != [] {
      var n := |s| - 1;
      SortFloatsSorts(s[..n]);
      InsertAscending(SortFloats(s[..n]), s[n]);
      InsertKeeps(SortFloats(s[..n]), s[n]);
      assert s == s[..n] + [s[n]];
    }
  }

  /** The arithmetic mean of arranged samples, and where it lies. */
  lemma {:induction false} MeanBracket(s: seq<real>, lo: real, hi: real)
    requires forall i :: 0 <= i < |s| ==> lo <= s[i] <= hi
    ensures lo * |s| as real <= Sum(s) <= hi * |s| as real
  {
    if s != [] {
      MeanBracket(s[..|s| - 1], lo, hi);
    }
  }

  method Mean(values: seq<real>) returns (m: real)
    ensures m == if values == [] then 0.0 else Sum(values) / |values| as real
  {
    if |values| == 0 {
      return 0.0;
    }
    var sum, i := 0.0, 0;
    while i < |values|
      invariant 0 <= i <= |values| && sum == Sum(values[..i])
    {
      assert values[..i + 1][..i] == values[..i];
      sum := sum + values[i];
      i := i + 1;
    }
    assert values[..i] == values;
    return sum / |values| as real;
  }

  lemma MeanBetween(sum: real, n: real, lo: real, hi: real)
    requires n > 0.0 && lo * n <= sum <= hi * n
    ensures lo <= sum / n <= hi
  {
  }

  /** The mean of the samples lies between the smallest and the largest of them. */
  lemma MeanInRange(sorted: seq<real>)
    requires sorted != [] && Ascending(sorted)
    ensures sorted[0] <= Sum(sorted) / |sorted| as real <= sorted[|sorted| - 1]
  {
    hide Sum;
    var lo, hi := sorted[0], sorted[|sorted| - 1];
    MeanBracket(sorted, lo, hi);
    MeanBetween(Sum(sorted), |sorted| as real, lo, hi);
  }

  datatype Interval = Interval(level: real, lower: real, upper: real, mean: real, median: real)

  /**
    The interval is computed from the sorted samples. Its mean lies within the range of the
    samples, and for a level that is not negative the bounds enclose the median.
   */
  method ComputeConfidenceInterval(samples: seq<real>, level: real) returns (ci: Interval)
    ensures ci.level == level
    ensures samples == [] ==> ci == Interval(level, 0.0, 0.0, 0.0, 0.0)
    ensures var s := SortFloats(samples);
            && ci.lower == Percentile(s, (1.0 - level) / 2.0)
            && ci.upper == Percentile(s, 1.0 - (1.0 - level) / 2.0)
            && ci.median == Percentile(s, 0.5)
            && (s != [] ==> s[0] <= ci.mean <= s[|s| - 1])
    ensures samples != [] ==> ci.mean == Sum(samples) / |samples| as real
    ensures level >= 0.0 ==> ci.lower <= ci.median <= ci.upper
  {
    hide Percentile, Sum, Ascending;
    SortFloatsSorts(samples);
    if |samples| == 0 {
      EmptySamples();
      return Interval(level, 0.0, 0.0, 0.0, 0.0);
    }
    var sorted := SortFloats(samples);
    var mean := Mean(sorted);
    var median := Percentile(sorted, 0.5);
    var tail := (1.0 - level) / 2.0;
    var lower := Percentile(sorted, tail);
    var upper := Percentile(sorted, 1.0 - tail);
    MeanInRange(sorted);
    SumPermutation(samples, sorted);
    if level >= 0.0 {
      TailsEnclose(sorted, level);
    }
    return Interval(level, lower, upper, mean, median);
  }

  lemma EmptySamples()
    ensures forall p :: Percentile([], p) == 0.0
  {
  }

  /** A level that is not negative puts the median between the two tails. */
  lemma TailsEnclose(s: seq<real>, level: real)
    requires Ascending(s) && level >= 0.0
    ensures Percentile(s, (1.0 - level) / 2.0) <= Percentile(s, 0.5) <= Percentile(s, 1.0 - (1.0 - level) / 2.0)
  {
    hide Percentile, Ascending;
    PercentileMonotone(s, (1.0 - level) / 2.0, 0.5);
    PercentileMonotone(s, 0.5, 1.0 - (1.0 - level) / 2.0);
  }

  /** For a negative level the bounds change places. */
  lemma NegativeLevelReverses(s: seq<real>, level: real)
    requires Ascending(s) && level <= 0.0
    ensures Percentile(s, 1.0 - (1.0 - level) / 2.0) <= Percentile(s, 0.5) <= Percentile(s, (1.0 - level) / 2.0)
  {
    PercentileMonotone(s, 1.0 - (1.0 - level) / 2.0, 0.5);
    PercentileMonotone(s, 0.5, (1.0 - level) / 2.0);
  }

  /** The bounds of every list of samples are in order exactly for levels that are not negative. */
  lemma BoundsInOrderIff(level: real)
    ensures (forall s: seq<real> :: Ascending(s) ==>
               Percentile(s, (1.0 - level) / 2.0) <= Percentile(s, 1.0 - (1.0 - level) / 2.0))
            <==> level >= 0.0
  {
    hide Percentile, Ascending;
    if level >= 0.0 {
      forall s: seq<real> | Ascending(s)
        ensures Percentile(s, (1.0 - level) / 2.0) <= Percentile(s, 1.0 - (1.0 - level) / 2.0)
      {
        TailsEnclose(s, level);
      }
    } else {
      ReversedBounds(level);
    }
  }

  /** Two samples 0 and 1 under a negative level: the lower bound is above the upper one. */
  lemma ReversedBounds(level: real)
    requires level < 0.0
    ensures Ascending([0.0, 1.0])
    ensures Percentile([0.0, 1.0], (1.0 - level) / 2.0) > Percentile([0.0, 1.0], 1.0 - (1.0 - level) / 2.0)
  {
  }
}
