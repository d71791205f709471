/**
  Timeframes and the bucket an instant falls into.

  The location is a fixed offset from UTC, which is what the default zone has; it matters only
  to the daily timeframe, whose bars open at local midnight.
 */
module CandleTime {
  import opened Common

  datatype Timeframe = TF1m | TF3m | TF5m | TF15m | TF30m | TF1h | TF1d | Unsupported(name: string)

  const HOUR: int := 60 * MINUTE
  const DAY: int := 24 * HOUR

  predicate Supported(tf: Timeframe) {
    !tf.Unsupported?
  }

  function Width(tf: Timeframe): (w: int)
    requires Supported(tf)
    ensures w > 0 && w % MINUTE == 0
  {
    match tf
    case TF1m => MINUTE
    case TF3m => 3 * MINUTE
    case TF5m => 5 * MINUTE
    case TF15m => 15 * MINUTE
    case TF30m => 30 * MINUTE
    case TF1h => HOUR
    case TF1d => DAY
  }

  /** Go's `Truncate`: down to a multiple of `d` since the zero time. */
  function Truncate(t: Instant, d: int): Instant
    requires d > 0
  {
    t - (t - ZERO_TIME) % d
  }

  /** The largest multiple of `w` that does not exceed `t`. */
  function FloorTo(t: int, w: int): (f: int)
    requires w > 0
    ensures f <= t < f + w && f % w == 0
  {
    FloorAligned(t, w);
    t - t % w
  }

  lemma FloorAligned(t: int, w: int)
    requires w > 0
    ensures (t - t % w) % w == 0
  {
    assert t - t % w == (t / w) * w;
    MultipleMod(t / w, w);
  }

  lemma MultipleMod(k: int, w: int)
    requires w > 0
    ensures (k * w) % w == 0
  {
    UniqueMultiple(k * w, w, k);
  }

  lemma TimesMonotone(a: int, b: int, w: int)
    requires w > 0 && a <= b
    ensures a * w <= b * w
  {
  }

  lemma DivMod(a: int, w: int)
    requires w > 0
    ensures a == (a / w) * w + a % w && 0 <= a % w < w
  {
  }

  /** Multiples of `w` that are less than `w` apart are equal. */
  lemma SameMultiple(p: int, q: int, w: int)
    requires w > 0 && -w < p * w - q * w < w
    ensures p == q
  {
    assert (p + 1) * w == p * w + w && (q + 1) * w == q * w + w;
    if p < q {
      TimesMonotone(p + 1, q, w);
    } else if q < p {
      TimesMonotone(q + 1, p, w);
    }
  }

  /** Division and remainder are determined by the bracket. */
  lemma UniqueMultiple(a: int, w: int, k: int)
    requires w > 0 && k * w <= a < k * w + w
    ensures a / w == k && a % w == a - k * w
  {
    DivMod(a, w);
    SameMultiple(a / w, k, w);
  }

  lemma MinuteTruncates(t: Instant)
    ensures Truncate(t, MINUTE) == FloorTo(t, MINUTE)
  {
  }

  /** The inclusive open time of the bar containing `ts`. */
  function BucketStart(ts: Instant, tf: Timeframe, utcOffset: int): Option<Instant> {
    if tf.Unsupported? then None
    else if tf.TF1d? then Some(FloorTo(ts + utcOffset, DAY) - utcOffset)
    else Some(Quotient(Truncate(ts, MINUTE), Width(tf)) * Width(tf))
  }

  /** The bucket of a supported timeframe. */
  function Bucket(ts: Instant, tf: Timeframe, utcOffset: int): Instant
    requires Supported(tf)
  {
    BucketStart(ts, tf, utcOffset).value
  }

  lemma QuotMonotone(a: int, b: int, w: int)
    requires w > 0 && a <= b
    ensures Quotient(a, w) * w <= Quotient(b, w) * w
  {
    DivMonotone(a, b, w);
    DivMonotone(-b, -a, w);
    if a < 0 <= b {
      assert -a / w >= 0 && b / w >= 0;
    }
    TimesMonotone(Quotient(a, w), Quotient(b, w), w);
  }

  lemma DivMonotone(a: int, b: int, w: int)
    requires w > 0 && a <= b
    ensures a / w <= b / w
  {
    DivMod(a, w);
    DivMod(b, w);
    var p, q := a / w, b / w;
    assert (q + 1) * w == q * w + w;
    if p > q {
      TimesMonotone(q + 1, p, w);
    }
  }

  /** Later instants never fall into earlier buckets, before or after the epoch. */
  lemma BucketMonotone(s: Instant, t: Instant, tf: Timeframe, utcOffset: int)
    requires Supported(tf) && s <= t
    ensures Bucket(s, tf, utcOffset) <= Bucket(t, tf, utcOffset)
  {
    if tf.TF1d? {
      FloorMonotone(s + utcOffset, t + utcOffset, DAY);
    } else {
      MinuteTruncates(s);
      MinuteTruncates(t);
      FloorMonotone(s, t, MINUTE);
      QuotMonotone(FloorTo(s, MINUTE), FloorTo(t, MINUTE), Width(tf));
    }
  }

  lemma FloorMonotone(s: int, t: int, w: int)
    requires w > 0 && s <= t
    ensures FloorTo(s, w) <= FloorTo(t, w)
  {
    DivMonotone(s, t, w);
    assert FloorTo(s, w) == (s / w) * w && FloorTo(t, w) == (t / w) * w;
    TimesMonotone(s / w, t / w, w);
  }

  /** A minute's remainder within a wider bar leaves room for the seconds of that minute. */
  lemma WithinWidth(ts: Instant, m: int, w: int)
    requires w > 0 && w % MINUTE == 0 && m % MINUTE == 0 && m <= ts < m + MINUTE
    ensures ts < m - m % w + w
    ensures (m % w) % MINUTE == 0
  {
    var r, j, k := m % w, m / MINUTE, w / MINUTE;
    var q := m / w;
    assert m == j * MINUTE && w == k * MINUTE && m == q * w + r;
    assert r == j * MINUTE - q * (k * MINUTE);
    assert r == (j - q * k) * MINUTE;
    UniqueMultiple(r, MINUTE, j - q * k);
    assert w - r == (k - j + q * k) * MINUTE;
    assert k - j + q * k >= 1;
  }

  lemma NegatedMod(m: int, w: int)
    requires w > 0
    ensures (-m) % w == 0 <==> m % w == 0
  {
    if (-m) % w == 0 {
      UniqueMultiple(m, w, -(-m / w));
    }
    if m % w == 0 {
      UniqueMultiple(-m, w, -(m / w));
    }
  }

  lemma QuotFloor(m: int, w: int)
    requires w > 0
    ensures m >= 0 ==> Quotient(m, w) * w == m - m % w
    ensures m < 0 ==> Quotient(m, w) * w == m + (-m) % w
  {
  }

  lemma QuotBracket(ts: Instant, m: int, w: int)
    requires w > 0 && w % MINUTE == 0 && m % MINUTE == 0 && m <= ts < m + MINUTE
    ensures Quotient(m, w) * w <= ts < Quotient(m, w) * w + w <==> m >= 0 || m % w == 0
  {
    QuotFloor(m, w);
    WithinWidth(ts, m, w);
    NegatedMod(m, w);
    hide Quotient;
    if m < 0 {
      var r := (-m) % w;
      NegatedMod(m, MINUTE);
      WithinWidth(-m, -m, w);
      if r != 0 {
        assert r >= MINUTE;
      }
    }
  }

  /**
    A bar contains the instants that are put into it, except where division toward zero has
    moved an intraday bucket of the years before 1970 forward: there it does so only for
    instants whose minute is already a multiple of the width.
   */
  lemma BucketContains(ts: Instant, tf: Timeframe, utcOffset: int)
    requires Supported(tf)
    ensures var open := Bucket(ts, tf, utcOffset);
            open <= ts < open + Width(tf)
            <==> tf.TF1d? || FloorTo(ts, MINUTE) >= 0 || FloorTo(ts, MINUTE) % Width(tf) == 0
  {
    MinuteTruncates(ts);
    QuotBracket(ts, FloorTo(ts, MINUTE), Width(tf));
    hide Truncate, Quotient;
  }

  /** Ninety seconds before the epoch a five-minute tick goes into the bar that opens at the epoch. */
  lemma BucketAheadOfTick()
    ensures -90 * SECOND < Bucket(-90 * SECOND, TF5m, 0) == 0
  {
    MinuteTruncates(-90 * SECOND);
  }

  /** From the epoch on, an intraday bucket is the floor of the instant. */
  lemma BucketIsFloor(ts: Instant, tf: Timeframe, utcOffset: int)
    requires Supported(tf) && !tf.TF1d? && ts >= 0
    ensures Bucket(ts, tf, utcOffset) == FloorTo(ts, Width(tf))
  {
    BucketContains(ts, tf, utcOffset);
    MinuteTruncates(ts);
    FloorNonNegative(ts, MINUTE);
    var m, w := FloorTo(ts, MINUTE), Width(tf);
    assert Bucket(ts, tf, utcOffset) == (m / w) * w;
    UniqueMultiple(ts, w, m / w);
  }

  /** A one-minute bar opens at every full minute from the epoch on. */
  lemma MinuteOpens(n: nat, utcOffset: int)
    ensures Bucket(n * MINUTE, TF1m, utcOffset) == n * MINUTE
  {
    BucketIsFloor(n * MINUTE, TF1m, utcOffset);
    UniqueMultiple(n * MINUTE, MINUTE, n);
    hide Bucket;
  }

  lemma FloorNonNegative(t: int, w: int)
    requires w > 0 && t >= 0
    ensures FloorTo(t, w) >= 0
  {
  }

  lemma FloorUnique(t: int, w: int, k: int, f: int)
    requires w > 0 && f == k * w && f <= t < f + w
    ensures FloorTo(t, w) == f && t / w == k
  {
    UniqueMultiple(t, w, k);
  }

  lemma FloorIs(t: int, w: int)
    requires w > 0
    ensures FloorTo(t, w) == (t / w) * w
  {
  }

  lemma MultipleOfMultiple(q: int, n: int, w: int)
    ensures q * (n * w) == (q * n) * w
  {
  }

  /** The floor to a multiple of `w` does not cross a multiple of a multiple of `w`. */
  lemma FloorNests(t: int, w: int, n: int, v: int)
    requires w > 0 && v > 0 && v == n * w
    ensures FloorTo(FloorTo(t, w), v) == FloorTo(t, v)
  {
    var q, f := t / v, FloorTo(t, v);
    FloorIs(t, v);
    MultipleOfMultiple(q, n, w);
    FloorUnique(f, w, q * n, f);
    FloorMonotone(f, t, w);
    hide FloorTo;
    FloorUnique(FloorTo(t, w), v, q, f);
  }

  /** Every coarse bar is made of whole fine bars when the fine width divides the coarse one. */
  lemma BucketsNest(ts: Instant, fine: Timeframe, coarse: Timeframe, utcOffset: int)
    requires Supported(fine) && Supported(coarse) && !fine.TF1d? && !coarse.TF1d? && ts >= 0
    requires Width(coarse) % Width(fine) == 0
    ensures Bucket(ts, fine, utcOffset) >= 0
    ensures Bucket(Bucket(ts, fine, utcOffset), coarse, utcOffset) == Bucket(ts, coarse, utcOffset)
  {
    BucketIsFloor(ts, fine, utcOffset);
    BucketIsFloor(ts, coarse, utcOffset);
    FloorNonNegative(ts, Width(fine));
    BucketIsFloor(FloorTo(ts, Width(fine)), coarse, utcOffset);
    DivMod(Width(coarse), Width(fine));
    FloorNests(ts, Width(fine), Width(coarse) / Width(fine), Width(coarse));
    hide FloorTo, Bucket;
  }
}
