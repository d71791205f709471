/**
  How long bars are, in nanoseconds: how many buckets an hour and a day hold, and what every run of
  the aggregator emits.
 */
module CandleWidths {
  import opened Common
  import opened CandleTime
  import opened Bars
  import opened AggModel
  import opened AggCounts

  // ----- Buckets of an hour -----

  ghost function BucketsIn(tf: Timeframe, from: Instant, to: Instant, utcOffset: int): set<Instant>
    requires Supported(tf)
  {
    set t | from <= t < to :: Bucket(t, tf, utcOffset)
  }

  /** `n` steps of `w` from an instant on. */
  function Steps(from: Instant, w: int, n: nat): set<Instant> {
    if n == 0 then {} else Steps(from, w, n - 1) + {from + (n - 1) * w}
  }

  lemma {:induction false} StepsAre(from: Instant, w: int, n: nat, x: Instant)
    ensures x in Steps(from, w, n) <==> exists k: nat :: k < n && x == from + k * w
  {
    if n > 0 {
      StepsAre(from, w, n - 1, x);
      assert x == from + (n - 1) * w ==> exists k: nat :: k < n && x == from + k * w;
    }
  }

  lemma {:induction false} StepsCount(from: Instant, w: int, n: nat)
    requires w > 0
    ensures |Steps(from, w, n)| == n
  {
    if n > 0 {
      StepsCount(from, w, n - 1);
      StepsAre(from, w, n - 1, from + (n - 1) * w);
      forall k: nat | k < n - 1
        ensures from + k * w != from + (n - 1) * w
      {
        TimesMonotone(k + 1, n - 1, w);
        assert (k + 1) * w == k * w + w;
      }
    }
  }

  lemma TimesOrder(a: int, b: int, w: int)
    requires w > 0 && a * w < b * w
    ensures a < b
  {
    if a >= b {
      TimesMonotone(b, a, w);
    }
  }

  lemma FloorInSteps(t: int, from: int, w: int, m: nat, n: nat)
    requires w > 0 && from == m * w && from <= t < from + n * w
    ensures FloorTo(t, w) in Steps(from, w, n)
  {
    FloorIs(t, w);
    var q := t / w;
    DivMod(t, w);
    assert (q + 1) * w == q * w + w && (m + n) * w == m * w + n * w;
    TimesOrder(m, q + 1, w);
    TimesOrder(q, m + n, w);
    assert q * w == from + (q - m) * w by {
      assert (q - m) * w == q * w - m * w;
    }
    StepsAre(from, w, n, q * w);
  }

  lemma StepIsFloor(from: int, w: int, m: nat, k: nat)
    requires w > 0 && from == m * w
    ensures FloorTo(from + k * w, w) == from + k * w
  {
    assert (m + k) * w == from + k * w;
    FloorUnique(from + k * w, w, m + k, from + k * w);
  }

  lemma StepInside(w: int, n: nat, k: nat)
    requires w > 0 && k < n
    ensures 0 <= k * w < n * w
  {
    TimesMonotone(k + 1, n, w);
    TimesMonotone(0, k, w);
    assert (k + 1) * w == k * w + w;
  }

  /** A stretch of `n` widths that starts on a multiple of the width holds `n` buckets. */
  lemma StretchHolds(tf: Timeframe, from: Instant, m: nat, n: nat, utcOffset: int)
    requires Supported(tf) && !tf.TF1d? && from == m * Width(tf) && from >= 0
    ensures |BucketsIn(tf, from, from + n * Width(tf), utcOffset)| == n
  {
    hide Bucket, FloorTo, Width;
    var w := Width(tf);
    var all := BucketsIn(tf, from, from + n * w, utcOffset);
    forall x
      ensures x in all <==> x in Steps(from, w, n)
    {
      StepsAre(from, w, n, x);
      if x in all {
        var t :| from <= t < from + n * w && x == Bucket(t, tf, utcOffset);
        BucketIsFloor(t, tf, utcOffset);
        FloorInSteps(t, from, w, m, n);
      }
      if k: nat :| k < n && x == from + k * w {
        StepInside(w, n, k);
        BucketIsFloor(x, tf, utcOffset);
        StepIsFloor(from, w, m, k);
      }
    }
    assert all == Steps(from, w, n);
    StepsCount(from, w, n);
  }

  lemma HourIsMultiple(h: nat, n: nat, w: int)
    requires n * w == 3_600_000_000_000
    ensures h * 3_600_000_000_000 == (h * n) * w
  {
  }

  /** Each hour from the epoch on holds 60, 20, 12, 4, 2 and 1 buckets of the intraday timeframes. */
  lemma HourHolds(tf: Timeframe, h: nat, utcOffset: int)
    requires Supported(tf) && !tf.TF1d?
    ensures |BucketsIn(tf, h * 3_600_000_000_000, (h + 1) * 3_600_000_000_000, utcOffset)|
            == match tf
               case TF1m => 60
               case TF3m => 20
               case TF5m => 12
               case TF15m => 4
               case TF30m => 2
               case TF1h => 1
               case _ => 0
  {
    var n: nat := 3_600_000_000_000 / Width(tf);
    HourIsMultiple(h, n, Width(tf));
    hide BucketsIn;
    StretchHolds(tf, h * 3_600_000_000_000, h * n, n, utcOffset);
  }

  /** A day from local midnight to local midnight holds one daily bucket, which opens at its start. */
  lemma DayHolds(d: int, utcOffset: int)
    ensures var midnight := d * 86_400_000_000_000 - utcOffset;
            BucketsIn(TF1d, midnight, midnight + 86_400_000_000_000, utcOffset) == {midnight}
  {
    var midnight := d * 86_400_000_000_000 - utcOffset;
    forall t | midnight <= t < midnight + 86_400_000_000_000
      ensures Bucket(t, TF1d, utcOffset) == midnight
    {
      FloorUnique(t + utcOffset, 86_400_000_000_000, d, d * 86_400_000_000_000);
    }
    hide Bucket;
    assert Bucket(midnight, TF1d, utcOffset) in BucketsIn(TF1d, midnight, midnight + 86_400_000_000_000, utcOffset);
  }

  // ----- Candles of a run -----

  /** A candle lasts as long as its timeframe says: whole minutes, an hour or a day. */
  ghost predicate LastsRight(c: Candle) {
    match c.timeframe
    case TF1m => c.closeTime - c.openTime == 60_000_000_000
    case TF3m => c.closeTime - c.openTime == 180_000_000_000
    case TF5m => c.closeTime - c.openTime == 300_000_000_000
    case TF15m => c.closeTime - c.openTime == 900_000_000_000
    case TF30m => c.closeTime - c.openTime == 1_800_000_000_000
    case TF1h => c.closeTime - c.openTime == 3_600_000_000_000
    case TF1d => c.closeTime - c.openTime == 86_400_000_000_000
    case Unsupported(_) => false
  }

  ghost predicate BarsLast(s: State) {
    forall k :: k in s.bars ==> LastsRight(s.bars[k].candle)
  }

  ghost predicate AllLast(cs: seq<Candle>) {
    forall i :: 0 <= i < |cs| ==> LastsRight(cs[i])
  }

  lemma AllLastConcat(a: seq<Candle>, b: seq<Candle>)
    requires AllLast(a) && AllLast(b)
    ensures AllLast(a + b)
  {
    hide LastsRight;
  }

  lemma NewLasts(key: SeriesKey, open: Instant, t: Tick, mode: VolumeMode)
    requires Supported(key.timeframe)
    ensures LastsRight(AddTick(NewBar(key, open, open + Width(key.timeframe)), t, mode).candle)
  {
    hide TickWeight;
  }

  lemma AddedLasts(b: Bar, t: Tick, mode: VolumeMode)
    requires LastsRight(b.candle)
    ensures LastsRight(AddTick(b, t, mode).candle)
  {
    hide TickWeight;
  }

  lemma OfferLasts(o: Options, s: State, t: Tick, tf: Timeframe)
    requires Supported(tf) && BarsLast(s)
    ensures var r := Offer(o, s, t, tf); BarsLast(r.state) && AllLast(r.closed)
  {
    hide AddTick, Bucket, Width, LastsRight, NewBar;
    var key := SeriesKey(t.symbol, tf);
    NewLasts(key, Bucket(TimeOf(t), tf, o.utcOffset), t, o.mode);
    if key in s.bars {
      AddedLasts(s.bars[key], t, o.mode);
    }
  }

  lemma {:induction false} SweepLasts(o: Options, s: State, symbol: string, now: Instant, n: nat)
    requires n <= |s.order| && BarsLast(s)
    ensures var w := SweepTo(o, s, symbol, now, n); BarsLast(w.state) && AllLast(w.closed)
  {
    hide LastsRight, Keeps;
    if n > 0 {
      SweepLasts(o, s, symbol, now, n - 1);
    }
  }

  lemma {:induction false} OfferToLasts(o: Options, s: State, t: Tick, tfs: seq<Timeframe>, n: nat)
    requires n <= |tfs| && BarsLast(s)
    ensures var (s', r) := OfferTo(o, s, t, tfs, n);
            BarsLast(s') && (r.Some? ==> s' == r.value.state && AllLast(r.value.closed))
  {
    hide LastsRight, Offer;
    if n > 0 {
      OfferToLasts(o, s, t, tfs, n - 1);
      var (s1, r) := OfferTo(o, s, t, tfs, n - 1);
      if r.Some? && Supported(tfs[n - 1]) {
        OfferLasts(o, s1, t, tfs[n - 1]);
      }
    }
  }

  lemma UpdateLasts(o: Options, s: State, t: Tick, tfs: seq<Timeframe>)
    requires BarsLast(s)
    ensures var (s', r) := Update(o, s, t, tfs);
            BarsLast(s') && (r.Some? ==> AllLast(r.value.closed))
  {
    hide LastsRight, OfferTo, SweepTo;
    SweepLasts(o, s, t.symbol, TimeOf(t), |s.order|);
    var e := EvictIdle(o, s, t.symbol, TimeOf(t));
    OfferToLasts(o, e.state, t, tfs, |tfs|);
    var r := OfferTo(o, e.state, t, tfs, |tfs|).1;
    AllLastConcat(e.closed, if r.Some? then r.value.closed else []);
  }

  lemma {:induction false} InProgressLast(s: State, n: nat)
    requires n <= |s.order| && BarsLast(s)
    ensures AllLast(InProgress(s, n))
  {
    hide LastsRight;
    if n > 0 {
      InProgressLast(s, n - 1);
    }
  }

  lemma {:induction false} RunKeepsLast(o: Options, inputs: seq<Input>)
    ensures BarsLast(Run(o, inputs).state) && AllLast(Run(o, inputs).closed)
  {
    hide LastsRight, Update;
    if inputs != [] {
      var x, before := inputs[|inputs| - 1], Run(o, inputs[..|inputs| - 1]);
      RunKeepsLast(o, inputs[..|inputs| - 1]);
      UpdateLasts(o, before.state, x.tick, x.timeframes);
      var r := Update(o, before.state, x.tick, x.timeframes).1;
      AllLastConcat(before.closed, if r.Some? then r.value.closed else []);
    }
  }

  /**
    Over every run, under every policy and idle time, also with updates that fail: each candle that
    was emitted or is in progress lasts exactly as long as its timeframe says.
   */
  lemma CandlesLastRight(o: Options, inputs: seq<Input>)
    ensures var r := Run(o, inputs); AllLast(r.closed + InProgress(r.state, |r.state.order|))
  {
    hide Run, LastsRight, InProgress;
    var r := Run(o, inputs);
    RunKeepsLast(o, inputs);
    InProgressLast(r.state, |r.state.order|);
    AllLastConcat(r.closed, InProgress(r.state, |r.state.order|));
  }

  // ----- Which time of a tick counts -----

  lemma SameTick(b: Bar, t: Tick, u: Tick, mode: VolumeMode)
    requires t.ltp == u.ltp && t.volume == u.volume
    ensures AddTick(b, t, mode) == AddTick(b, u, mode)
  {
  }

  ghost predicate SameClock(t: Tick, u: Tick) {
    TimeOf(t) == TimeOf(u) && t.symbol == u.symbol && t.ltp == u.ltp && t.volume == u.volume
  }

  lemma SameOffer(o: Options, s: State, t: Tick, u: Tick, tf: Timeframe)
    requires Supported(tf) && SameClock(t, u)
    ensures Offer(o, s, t, tf) == Offer(o, s, u, tf)
  {
    hide AddTick, Bucket, Width, NewBar, TimeOf;
    var key := SeriesKey(t.symbol, tf);
    var open := Bucket(TimeOf(t), tf, o.utcOffset);
    SameTick(NewBar(key, open, open + Width(tf)), t, u, o.mode);
    if key in s.bars {
      SameTick(s.bars[key], t, u, o.mode);
    }
  }

  lemma {:induction false} SameOffers(o: Options, s: State, t: Tick, u: Tick, tfs: seq<Timeframe>, n: nat)
    requires n <= |tfs| && SameClock(t, u)
    ensures OfferTo(o, s, t, tfs, n) == OfferTo(o, s, u, tfs, n)
  {
    hide Offer, SameClock;
    if n > 0 {
      SameOffers(o, s, t, u, tfs, n - 1);
      var (s1, r) := OfferTo(o, s, t, tfs, n - 1);
      if r.Some? && Supported(tfs[n - 1]) {
        SameOffer(o, r.value.state, t, u, tfs[n - 1]);
      }
    }
  }

  /** The provider's time counts, whenever the tick was received; without one the time of receipt stands in. */
  lemma ClockDecides(o: Options, s: State, t: Tick, tfs: seq<Timeframe>, received: Instant)
    ensures t.providerTS != -62_135_596_800_000_000_000 ==>
              Update(o, s, t, tfs) == Update(o, s, t.(receivedAt := received), tfs)
    ensures t.providerTS == -62_135_596_800_000_000_000 != t.receivedAt ==>
              Update(o, s, t, tfs) == Update(o, s, t.(providerTS := t.receivedAt, receivedAt := received), tfs)
  {
    hide OfferTo, EvictIdle;
    var u := if t.providerTS != ZERO_TIME then t.(receivedAt := received)
             else t.(providerTS := t.receivedAt, receivedAt := received);
    if t.providerTS != ZERO_TIME || t.receivedAt != ZERO_TIME {
      SameOffers(o, EvictIdle(o, s, t.symbol, TimeOf(t)).state, t, u, tfs, |tfs|);
    }
  }

  /**
    Under the policy that turns away older ticks, a tick of the epoch or later that is taken goes into a
    bar whose stretch holds its provider's time.
   */
  lemma TakenInside(o: Options, s: State, t: Tick, tf: Timeframe)
    requires Supported(tf) && o.policy.RejectOlder? && t.providerTS >= 0
    requires BarsLast(s) && Inv(o, s)
    ensures var r, key := Offer(o, s, t, tf), SeriesKey(t.symbol, tf);
            r.rejected == 0 ==>
              key in r.state.bars && var c := r.state.bars[key].candle; c.openTime <= t.providerTS < c.closeTime
  {
    hide Bucket, Width, AddTick, LastsRight;
    var key := SeriesKey(t.symbol, tf);
    var open := Bucket(t.providerTS, tf, o.utcOffset);
    BucketHolds(t.providerTS, tf, o.utcOffset);
    NewTimes(key, open, t, o.mode);
    if key in s.bars {
      AddedTimes(s.bars[key], t, o.mode);
      StretchIsWidth(s.bars[key].candle);
    }
  }

  lemma BucketHolds(ts: Instant, tf: Timeframe, utcOffset: int)
    requires Supported(tf) && ts >= 0
    ensures Bucket(ts, tf, utcOffset) <= ts < Bucket(ts, tf, utcOffset) + Width(tf)
  {
    BucketContains(ts, tf, utcOffset);
    FloorNonNegative(ts, MINUTE);
  }

  lemma NewTimes(key: SeriesKey, open: Instant, t: Tick, mode: VolumeMode)
    requires Supported(key.timeframe)
    ensures var c := AddTick(NewBar(key, open, open + Width(key.timeframe)), t, mode).candle;
            c.openTime == open && c.closeTime == open + Width(key.timeframe)
  {
    hide TickWeight;
  }

  lemma AddedTimes(b: Bar, t: Tick, mode: VolumeMode)
    ensures var c := AddTick(b, t, mode).candle;
            c.openTime == b.candle.openTime && c.closeTime == b.candle.closeTime
  {
    hide TickWeight;
  }

  lemma StretchIsWidth(c: Candle)
    requires LastsRight(c)
    ensures Supported(c.timeframe) && c.closeTime == c.openTime + Width(c.timeframe)
  {
  }
}
