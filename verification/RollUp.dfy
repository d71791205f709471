/**
  Roll-up consistency: coarse candles are merges of fine ones.

  For ticks in time order from the epoch on, and a fine intraday width that divides a coarse
  one, the coarse candles of a symbol can be computed from its fine candles.
 */
module RollUp {
  import opened Common
  import opened CandleTime
  import opened Bars
  import opened AggModel
  import opened AggCounts
  import opened AggSeries
  import opened AggBatch

  ghost predicate InOrder(ticks: seq<Tick>) {
    && (forall i :: 0 <= i < |ticks| ==> TimeOf(ticks[i]) >= 0)
    && (forall i, j :: 0 <= i <= j < |ticks| ==> TimeOf(ticks[i]) <= TimeOf(ticks[j]))
  }

  // ----- In order, a series is a list of bars -----

  function BarsOf(o: Options, key: SeriesKey, ticks: seq<Tick>): seq<Bar>
    requires Supported(key.timeframe)
  {
    if ticks == [] then []
    else PutTick(o, key, BarsOf(o, key, ticks[..|ticks| - 1]), ticks[|ticks| - 1])
  }

  function PutTick(o: Options, key: SeriesKey, bars: seq<Bar>, t: Tick): seq<Bar>
    requires Supported(key.timeframe)
  {
    var n := |bars| - 1;
    if bars != [] && bars[n].candle.openTime == B(o, key, t) then bars[..n] + [AddTick(bars[n], t, o.mode)]
    else bars + [StartBar(o, key, t)]
  }

  function Candles(bars: seq<Bar>): (r: seq<Candle>)
    ensures |r| == |bars| && forall i :: 0 <= i < |r| ==> r[i] == bars[i].candle
  {
    seq(|bars|, i requires 0 <= i < |bars| => bars[i].candle)
  }

  /** The series holds the bars: all but the last emitted, the last in progress and newest. */
  ghost predicate Matches(o: Options, key: SeriesKey, x: Series, bars: seq<Bar>, ticks: seq<Tick>)
    requires Supported(key.timeframe)
  {
    && AllOf(x) == Candles(bars)
    && (x.cur.Some? <==> ticks != []) && (bars != [] <==> ticks != [])
    && (ticks != [] ==>
          && x.cur == Some(bars[|bars| - 1])
          && x.cur.value.candle.openTime == B(o, key, ticks[|ticks| - 1])
          && x.cur.value.candle.tradeCount > 0)
  }

  lemma PutMatches(o: Options, key: SeriesKey, x: Series, bars: seq<Bar>, ticks: seq<Tick>, t: Tick)
    requires Supported(key.timeframe) && o.policy.RejectOlder? && Matches(o, key, x, bars, ticks)
    requires ticks != [] ==> B(o, key, ticks[|ticks| - 1]) <= B(o, key, t)
    ensures Matches(o, key, SeriesOffer(o, key, x, t), PutTick(o, key, bars, t), ticks + [t])
  {
  }

  lemma StartHasTick(o: Options, key: SeriesKey, t: Tick)
    requires Supported(key.timeframe)
    ensures var c := StartBar(o, key, t).candle; c.openTime == B(o, key, t) && c.tradeCount == 1
  {
  }

  lemma BucketsInOrder(o: Options, key: SeriesKey, ticks: seq<Tick>, n: nat)
    requires Supported(key.timeframe) && InOrder(ticks) && n < |ticks|
    ensures InOrder(ticks[..n])
    ensures n > 0 ==> B(o, key, ticks[n - 1]) <= B(o, key, ticks[n])
  {
    hide Bucket;
    if n > 0 {
      BucketMonotone(TimeOf(ticks[n - 1]), TimeOf(ticks[n]), key.timeframe, o.utcOffset);
    }
  }

  lemma {:induction false} FeedMatches(o: Options, key: SeriesKey, ticks: seq<Tick>)
    requires Supported(key.timeframe) && o.policy.RejectOlder? && InOrder(ticks)
    ensures Matches(o, key, Feed(o, key, ticks), BarsOf(o, key, ticks), ticks)
  {
    if ticks == [] {
      assert AllOf(IDLE) == Candles([]);
    } else {
      var n := |ticks| - 1;
      BucketsInOrder(o, key, ticks, n);
      FeedMatches(o, key, ticks[..n]);
      hide Matches, SeriesOffer, PutTick, B, InOrder;
      PutMatches(o, key, Feed(o, key, ticks[..n]), BarsOf(o, key, ticks[..n]), ticks[..n], ticks[n]);
      assert ticks[..n] + [ticks[n]] == ticks;
    }
  }

  // ----- Summaries and their merge -----

  /** What rolls up: prices and counts always, volume and VWAP weight under incremental volume. */
  datatype Summary = Summary(
    openTime: Instant, open: real, high: real, low: real, close: real, count: int, volume: int, weight: real)

  function SummaryOf(c: Candle, mode: VolumeMode): Summary {
    Summary(c.openTime, c.open, c.high, c.low, c.close, c.tradeCount,
            if mode.VolumeIncremental? then c.volume else 0,
            if mode.VolumeIncremental? then c.vwap * c.volume as real else 0.0)
  }

  function Summaries(cs: seq<Candle>, mode: VolumeMode): (r: seq<Summary>)
    ensures |r| == |cs| && forall i :: 0 <= i < |r| ==> r[i] == SummaryOf(cs[i], mode)
  {
    seq(|cs|, i requires 0 <= i < |cs| => SummaryOf(cs[i], mode))
  }

  /** First open, last close, highest high, lowest low, and sums. */
  function Merge(a: Summary, b: Summary): Summary {
    Summary(a.openTime, a.open, Max(a.high, b.high), Min(a.low, b.low), b.close,
            a.count + b.count, a.volume + b.volume, a.weight + b.weight)
  }

  /** A fine candle joins the coarse candle of its bucket, or starts one. */
  function Glue(bucket: Instant, coarse: seq<Summary>, f: Summary): seq<Summary> {
    var n := |coarse| - 1;
    if coarse != [] && coarse[n].openTime == bucket then coarse[..n] + [Merge(coarse[n], f)]
    else coarse + [f.(openTime := bucket)]
  }

  /** The coarse candles made from fine ones. */
  function RolledUp(tf: Timeframe, utcOffset: int, fine: seq<Summary>): seq<Summary>
    requires Supported(tf)
  {
    if fine == [] then []
    else
      var n := |fine| - 1;
      Glue(Bucket(fine[n].openTime, tf, utcOffset), RolledUp(tf, utcOffset, fine[..n]), fine[n])
  }

  /** A tick on summaries: what `AddTick` does to what rolls up. */
  function AddTo(s: Summary, t: Tick, mode: VolumeMode): Summary {
    var v := if mode.VolumeIncremental? && t.volume > 0 then t.volume else 0;
    s.(high := Max(s.high, t.ltp), low := Min(s.low, t.ltp), close := t.ltp, count := s.count + 1,
       volume := s.volume + v, weight := s.weight + t.ltp * v as real)
  }

  function Started(open: Instant, t: Tick, mode: VolumeMode): Summary {
    var v := if mode.VolumeIncremental? && t.volume > 0 then t.volume else 0;
    Summary(open, t.ltp, t.ltp, t.ltp, t.ltp, 1, v, t.ltp * v as real)
  }

  lemma VwapWeight(b: Bar)
    requires WeightsInRange(b)
    ensures b.candle.vwap * b.candle.volume as real == b.numer
  {
  }

  lemma Zero(x: real)
    ensures x * 0.0 == 0.0
  {
  }

  lemma NumerStep(b: Bar, t: Tick, mode: VolumeMode)
    requires mode.VolumeIncremental?
    ensures var c, v := AddTick(b, t, mode), if t.volume > 0 then t.volume else 0;
            c.numer == b.numer + t.ltp * v as real && c.candle.volume == b.candle.volume + v
  {
  }

  lemma SummaryAdds(b: Bar, t: Tick, mode: VolumeMode)
    requires WeightsInRange(b) && b.candle.tradeCount > 0
    ensures SummaryOf(AddTick(b, t, mode).candle, mode) == AddTo(SummaryOf(b.candle, mode), t, mode)
    ensures WeightsInRange(AddTick(b, t, mode))
  {
    WeightsStep(b, t, mode);
    VwapWeight(b);
    VwapWeight(AddTick(b, t, mode));
    if mode.VolumeIncremental? {
      NumerStep(b, t, mode);
    }
    Zero(t.ltp);
    AddTickPrice(b, t, mode);
    hide AddTick, WeightsInRange;
  }

  lemma SummaryStarts(o: Options, key: SeriesKey, t: Tick)
    requires Supported(key.timeframe)
    ensures SummaryOf(StartBar(o, key, t).candle, o.mode) == Started(B(o, key, t), t, o.mode)
    ensures WeightsInRange(StartBar(o, key, t))
  {
  }

  /** Adding a tick to the later part of a merge adds it to the merge. */
  lemma MergeAdds(a: Summary, b: Summary, t: Tick, mode: VolumeMode, open: Instant)
    requires b.low <= b.high
    ensures Merge(a, AddTo(b, t, mode)) == AddTo(Merge(a, b), t, mode)
    ensures Merge(a, Started(open, t, mode)) == AddTo(a, t, mode)
  {
  }

  // ----- Ticks on lists of summaries -----

  function AddLast(s: seq<Summary>, t: Tick, mode: VolumeMode): seq<Summary>
    requires s != []
  {
    s[..|s| - 1] + [AddTo(s[|s| - 1], t, mode)]
  }

  /** A tick moves the summaries of a series as it moves its bars. */
  ghost predicate Follows(o: Options, key: SeriesKey, bars: seq<Bar>)
    requires Supported(key.timeframe)
  {
    forall i :: 0 <= i < |bars| ==> WeightsInRange(bars[i]) && bars[i].candle.tradeCount > 0
  }

  lemma PutFollows(o: Options, key: SeriesKey, bars: seq<Bar>, t: Tick)
    requires Supported(key.timeframe) && Follows(o, key, bars)
    ensures var next, s := PutTick(o, key, bars, t), Summaries(Candles(bars), o.mode);
            && Follows(o, key, next)
            && Summaries(Candles(next), o.mode) ==
               (if bars != [] && bars[|bars| - 1].candle.openTime == B(o, key, t) then AddLast(s, t, o.mode)
                else s + [Started(B(o, key, t), t, o.mode)])
  {
    SummaryStarts(o, key, t);
    StartHasTick(o, key, t);
    if bars != [] {
      SummaryAdds(bars[|bars| - 1], t, o.mode);
      AddTickPrice(bars[|bars| - 1], t, o.mode);
    }
    hide B, AddTick, StartBar, WeightsInRange, AddTo, Started, SummaryOf;
  }

  lemma {:induction false} BarsFollow(o: Options, key: SeriesKey, ticks: seq<Tick>)
    requires Supported(key.timeframe)
    ensures Follows(o, key, BarsOf(o, key, ticks))
  {
    if ticks != [] {
      BarsFollow(o, key, ticks[..|ticks| - 1]);
      PutFollows(o, key, BarsOf(o, key, ticks[..|ticks| - 1]), ticks[|ticks| - 1]);
      hide PutTick, Follows;
    }
  }

  /** A tick in the last fine candle is a tick in the last coarse one. */
  lemma GlueAdds(bucket: Instant, coarse: seq<Summary>, f: Summary, t: Tick, mode: VolumeMode)
    requires f.low <= f.high
    ensures Glue(bucket, coarse, f) != []
    ensures Glue(bucket, coarse, AddTo(f, t, mode)) == AddLast(Glue(bucket, coarse, f), t, mode)
    ensures Glue(bucket, coarse, f)[|Glue(bucket, coarse, f)| - 1].openTime == bucket
  {
    if coarse != [] {
      MergeAdds(coarse[|coarse| - 1], f, t, mode, bucket);
    }
    hide Merge;
    assert AddTo(f, t, mode).(openTime := bucket) == AddTo(f.(openTime := bucket), t, mode);
    hide AddTo;
    MergeTime();
  }

  lemma MergeTime()
    ensures forall a, b :: Merge(a, b).openTime == a.openTime
  {
  }

  lemma RolledAdds(tf: Timeframe, utcOffset: int, fine: seq<Summary>, t: Tick, mode: VolumeMode)
    requires Supported(tf) && fine != [] && fine[|fine| - 1].low <= fine[|fine| - 1].high
    ensures RolledUp(tf, utcOffset, fine) != []
    ensures RolledUp(tf, utcOffset, AddLast(fine, t, mode)) == AddLast(RolledUp(tf, utcOffset, fine), t, mode)
    ensures RolledUp(tf, utcOffset, fine)[|RolledUp(tf, utcOffset, fine)| - 1].openTime
         == Bucket(fine[|fine| - 1].openTime, tf, utcOffset)
  {
    var n := |fine| - 1;
    var next := AddLast(fine, t, mode);
    assert next[..n] == fine[..n] && next[n] == AddTo(fine[n], t, mode);
    GlueAdds(Bucket(fine[n].openTime, tf, utcOffset), RolledUp(tf, utcOffset, fine[..n]), fine[n], t, mode);
    hide Bucket, Glue;
  }

  lemma RolledGrows(tf: Timeframe, utcOffset: int, fine: seq<Summary>, f: Summary)
    requires Supported(tf)
    ensures RolledUp(tf, utcOffset, fine + [f]) == Glue(Bucket(f.openTime, tf, utcOffset), RolledUp(tf,
            utcOffset, fine), f)
  {
  }

  /** The summaries of a series after a run of ticks. */
  function Rolled(o: Options, key: SeriesKey, ticks: seq<Tick>): seq<Summary>
    requires Supported(key.timeframe)
  {
    Summaries(Candles(BarsOf(o, key, ticks)), o.mode)
  }

  ghost predicate Nested(fine: SeriesKey, coarse: SeriesKey) {
    && Supported(fine.timeframe) && Supported(coarse.timeframe)
    && !fine.timeframe.TF1d? && !coarse.timeframe.TF1d?
    && Width(coarse.timeframe) % Width(fine.timeframe) == 0
  }

  lemma LastTime(o: Options, key: SeriesKey, ticks: seq<Tick>)
    requires Supported(key.timeframe) && ticks != []
    ensures var bars := BarsOf(o, key, ticks);
            bars != [] && bars[|bars| - 1].candle.openTime == B(o, key, ticks[|ticks| - 1])
  {
    var n := |ticks| - 1;
    StartHasTick(o, key, ticks[n]);
    var before := BarsOf(o, key, ticks[..n]);
    if before != [] {
      AddTickPrice(before[|before| - 1], ticks[n], o.mode);
    }
    hide B, AddTick, StartBar;
  }

  /** How the summaries of a series move with one more tick. */
  lemma RolledStep(o: Options, key: SeriesKey, ticks: seq<Tick>, t: Tick)
    requires Supported(key.timeframe)
    ensures var s := Rolled(o, key, ticks);
            && (ticks != [] ==> s != [] && s[|s| - 1].openTime == B(o, key, ticks[|ticks| - 1]))
            && (ticks == [] ==> s == [])
            && Rolled(o, key, ticks + [t]) ==
               if ticks != [] && B(o, key, ticks[|ticks| - 1]) == B(o, key, t) then AddLast(s, t, o.mode)
               else s + [Started(B(o, key, t), t, o.mode)]
  {
    hide B, PutTick, Follows, AddLast, Started;
    var bars := BarsOf(o, key, ticks);
    assert (ticks + [t])[..|ticks|] == ticks;
    BarsFollow(o, key, ticks);
    PutFollows(o, key, bars, t);
    if ticks != [] {
      LastTime(o, key, ticks);
    }
  }

  lemma {:induction false} RangeOrdered(o: Options, key: SeriesKey, ticks: seq<Tick>)
    requires Supported(key.timeframe) && ticks != []
    ensures var s := Rolled(o, key, ticks); s != [] && s[|s| - 1].low <= s[|s| - 1].high
  {
  }

  lemma RollStep(o: Options, fine: SeriesKey, coarse: SeriesKey, ticks: seq<Tick>, t: Tick)
    requires Nested(fine, coarse) && InOrder(ticks + [t])
    requires Rolled(o, coarse, ticks) == RolledUp(coarse.timeframe, o.utcOffset, Rolled(o, fine, ticks))
    ensures Rolled(o, coarse, ticks + [t]) == RolledUp(coarse.timeframe, o.utcOffset, Rolled(o, fine, ticks + [t]))
  {
    var tf, off := coarse.timeframe, o.utcOffset;
    var fs, cs := Rolled(o, fine, ticks), Rolled(o, coarse, ticks);
    assert (ticks + [t])[|ticks|] == t;
    RolledStep(o, fine, ticks, t);
    RolledStep(o, coarse, ticks, t);
    BucketsNest(TimeOf(t), fine.timeframe, tf, off);
    var start := Started(B(o, fine, t), t, o.mode);
    RolledGrows(tf, off, fs, start);
    if ticks != [] {
      var last := ticks[|ticks| - 1];
      assert (ticks + [t])[|ticks| - 1] == last;
      BucketsNest(TimeOf(last), fine.timeframe, tf, off);
      RangeOrdered(o, fine, ticks);
      RolledAdds(tf, off, fs, t, o.mode);
      MergeAdds(cs[|cs| - 1], start, t, o.mode, B(o, fine, t));
    }
    hide Rolled, RolledUp, Bucket, AddLast, AddTo, Merge;
  }

  /**
    Roll-up, on the machine of one series: for ticks in time order from the epoch on, the
    coarse summaries are the merges of the fine ones, bucket by bucket.
   */
  lemma {:induction false} RollUpConsistent(o: Options, fine: SeriesKey, coarse: SeriesKey, ticks: seq<Tick>)
    requires Nested(fine, coarse) && InOrder(ticks)
    ensures Rolled(o, coarse, ticks) == RolledUp(coarse.timeframe, o.utcOffset, Rolled(o, fine, ticks))
  {
    if ticks == [] {
      assert Rolled(o, coarse, ticks) == [] && Rolled(o, fine, ticks) == [];
    } else {
      var n := |ticks| - 1;
      RollUpConsistent(o, fine, coarse, ticks[..n]);
      assert ticks[..n] + [ticks[n]] == ticks;
      RollStep(o, fine, coarse, ticks[..n], ticks[n]);
      hide Rolled, RolledUp, Nested;
    }
  }

  lemma SeriesRollUp(o: Options, fine: SeriesKey, coarse: SeriesKey, ticks: seq<Tick>)
    requires Nested(fine, coarse) && InOrder(ticks) && o.policy.RejectOlder?
    ensures Summaries(AllOf(Feed(o, coarse, ticks)), o.mode)
         == RolledUp(coarse.timeframe, o.utcOffset, Summaries(AllOf(Feed(o, fine, ticks)), o.mode))
  {
    RollUpConsistent(o, fine, coarse, ticks);
    FeedMatches(o, fine, ticks);
    FeedMatches(o, coarse, ticks);
    hide RolledUp, Feed, BarsOf, Nested, Summaries, InOrder;
  }

  /** Every update of the symbol lists both timeframes, equally often. */
  ghost predicate ListedAlike(fine: SeriesKey, coarse: SeriesKey, inputs: seq<Input>) {
    forall i :: 0 <= i < |inputs| && inputs[i].tick.symbol == fine.symbol ==>
      var tfs := inputs[i].timeframes;
      Listed(tfs, fine.timeframe, |tfs|) == Listed(tfs, coarse.timeframe, |tfs|)
  }

  lemma {:induction false} SameTicks(fine: SeriesKey, coarse: SeriesKey, inputs: seq<Input>)
    requires fine.symbol == coarse.symbol && ListedAlike(fine, coarse, inputs)
    ensures TicksOf(fine, inputs) == TicksOf(coarse, inputs)
  {
    if inputs != [] {
      SameTicks(fine, coarse, inputs[..|inputs| - 1]);
      hide Listed, Repeat;
    }
  }

  /**
    Roll-up, on what updates and a final flush emit for two series of a symbol: every coarse
    candle has the first open, the last close, the highest high, the lowest low and the summed
    trade counts of its fine candles and, under incremental volume, their summed volume and
    VWAP weight.
   */
  lemma CandlesRollUp(o: Options, fine: SeriesKey, coarse: SeriesKey, inputs: seq<Input>)
    requires AllSupported(inputs) && Nested(fine, coarse) && fine.symbol == coarse.symbol
    requires o.policy.RejectOlder? && o.idleEvict <= 0
    requires ListedAlike(fine, coarse, inputs) && InOrder(TicksOf(fine, inputs))
    ensures var r := Run(o, inputs);
            var all := r.closed + InProgress(r.state, |r.state.order|);
            Summaries(OfKey(all, coarse), o.mode)
            == RolledUp(coarse.timeframe, o.utcOffset, Summaries(OfKey(all, fine), o.mode))
  {
    SameTicks(fine, coarse, inputs);
    UpdatesThenFlush(o, inputs, fine);
    UpdatesThenFlush(o, inputs, coarse);
    RunIsFeed(o, fine, inputs);
    RunIsFeed(o, coarse, inputs);
    SeriesRollUp(o, fine, coarse, TicksOf(fine, inputs));
    hide Run, RolledUp, Feed, SeriesRun, OfKey, TicksOf, Summaries, InOrder, ListedAlike, InProgress, AllSupported;
  }
}
