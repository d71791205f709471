/**
  Streaming equals batch.

  Without eviction, the candles of a series are the OHLCV folds of its ticks grouped by
  bucket, whatever order the ticks came in, as long as the policy rejects older buckets.
 */
module AggBatch {
  import opened Common
  import opened CandleTime
  import opened Bars
  import opened AggModel
  import opened AggCounts
  import opened AggSeries

  /** The ticks a series is offered: those of its symbol, once per listing of its timeframe. */
  function TicksOf(key: SeriesKey, inputs: seq<Input>): seq<Tick> {
    if inputs == [] then []
    else
      var x, before := inputs[|inputs| - 1], TicksOf(key, inputs[..|inputs| - 1]);
      if x.tick.symbol != key.symbol then before
      else before + Repeat(x.tick, Listed(x.timeframes, key.timeframe, |x.timeframes|))
  }

  function Repeat(t: Tick, n: nat): (r: seq<Tick>)
    ensures |r| == n && forall i :: 0 <= i < n ==> r[i] == t
  {
    if n == 0 then [] else Repeat(t, n - 1) + [t]
  }

  function Feed(o: Options, key: SeriesKey, ticks: seq<Tick>): Series
    requires Supported(key.timeframe)
  {
    if ticks == [] then IDLE
    else SeriesOffer(o, key, Feed(o, key, ticks[..|ticks| - 1]), ticks[|ticks| - 1])
  }

  lemma FeedSnoc(o: Options, key: SeriesKey, ticks: seq<Tick>, t: Tick)
    requires Supported(key.timeframe)
    ensures Feed(o, key, ticks + [t]) == SeriesOffer(o, key, Feed(o, key, ticks), t)
  {
    hide SeriesOffer;
    assert (ticks + [t])[..|ticks|] == ticks;
  }

  lemma {:induction false} FeedRepeats(o: Options, key: SeriesKey, ticks: seq<Tick>, t: Tick, n: nat)
    requires Supported(key.timeframe)
    ensures Feed(o, key, ticks + Repeat(t, n)) == Offers(o, key, Feed(o, key, ticks), t, n)
  {
    hide SeriesOffer, Feed;
    if n == 0 {
      assert ticks + [] == ticks;
    } else {
      FeedRepeats(o, key, ticks, t, n - 1);
      FeedSnoc(o, key, ticks + Repeat(t, n - 1), t);
      assert ticks + Repeat(t, n) == ticks + Repeat(t, n - 1) + [t];
    }
  }

  /** With no eviction a series just takes its ticks one by one. */
  lemma {:induction false} RunIsFeed(o: Options, key: SeriesKey, inputs: seq<Input>)
    requires Supported(key.timeframe) && o.idleEvict <= 0
    ensures SeriesRun(o, key, inputs) == Feed(o, key, TicksOf(key, inputs))
  {
    if inputs != [] {
      var n := |inputs| - 1;
      RunIsFeed(o, key, inputs[..n]);
      FeedRepeats(o, key, TicksOf(key, inputs[..n]), inputs[n].tick,
                  Listed(inputs[n].timeframes, key.timeframe, |inputs[n].timeframes|));
      hide Feed, Offers, Listed, Repeat;
    }
  }

  // ----- The batch definition -----

  /** The ticks whose bucket is not before the bucket of any earlier tick. */
  ghost function Accepted(o: Options, key: SeriesKey, ticks: seq<Tick>): (r: seq<Tick>)
    requires Supported(key.timeframe)
  {
    if ticks == [] then []
    else
      var n := |ticks| - 1;
      var before := Accepted(o, key, ticks[..n]);
      if forall j :: 0 <= j < n ==> B(o, key, ticks[j]) <= B(o, key, ticks[n]) then before + [ticks[n]] else before
  }

  function InBucket(o: Options, key: SeriesKey, ticks: seq<Tick>, b: Instant): (r: seq<Tick>)
    requires Supported(key.timeframe)
  {
    if ticks == [] then []
    else
      var n := |ticks| - 1;
      var before := InBucket(o, key, ticks[..n], b);
      if B(o, key, ticks[n]) == b then before + [ticks[n]] else before
  }

  /** The bar of a bucket, folded from the ticks that fall into it. */
  function BucketBar(o: Options, key: SeriesKey, ticks: seq<Tick>, b: Instant): Bar
    requires Supported(key.timeframe)
  {
    BarOf(key, b, b + Width(key.timeframe), InBucket(o, key, ticks, b), o.mode)
  }

  ghost predicate Increasing(cs: seq<Candle>) {
    forall i, j :: 0 <= i < j < |cs| ==> cs[i].openTime < cs[j].openTime
  }

  /** Every listed candle is the fold of the ticks of its bucket. */
  ghost predicate AllFolded(o: Options, key: SeriesKey, cs: seq<Candle>, ticks: seq<Tick>)
    requires Supported(key.timeframe)
  {
    forall i :: 0 <= i < |cs| ==>
      InBucket(o, key, ticks, cs[i].openTime) != [] && cs[i] == BucketBar(o, key, ticks, cs[i].openTime).candle
  }

  /** Every bucket that has ticks is listed. */
  ghost predicate AllListed(o: Options, key: SeriesKey, cs: seq<Candle>, ticks: seq<Tick>)
    requires Supported(key.timeframe)
  {
    forall j :: 0 <= j < |ticks| ==> exists i :: 0 <= i < |cs| && cs[i].openTime == B(o, key, ticks[j])
  }

  /** The batch result: one candle per bucket with ticks, in order of bucket. */
  ghost predicate IsBatch(o: Options, key: SeriesKey, cs: seq<Candle>, ticks: seq<Tick>)
    requires Supported(key.timeframe)
  {
    Increasing(cs) && AllFolded(o, key, cs, ticks) && AllListed(o, key, cs, ticks)
  }

  lemma InBucketSnoc(o: Options, key: SeriesKey, ticks: seq<Tick>, t: Tick, b: Instant)
    requires Supported(key.timeframe)
    ensures InBucket(o, key, ticks + [t], b) ==
            if B(o, key, t) == b then InBucket(o, key, ticks, b) + [t] else InBucket(o, key, ticks, b)
  {
  }

  lemma {:induction false} EmptyBucket(o: Options, key: SeriesKey, ticks: seq<Tick>, b: Instant)
    requires Supported(key.timeframe)
    ensures InBucket(o, key, ticks, b) == [] <==> forall j :: 0 <= j < |ticks| ==> B(o, key, ticks[j]) != b
  {
    if ticks != [] {
      EmptyBucket(o, key, ticks[..|ticks| - 1], b);
      hide B;
    }
  }

  /** Accepted ticks are offered ticks. */
  lemma {:induction false} AcceptedFrom(o: Options, key: SeriesKey, ticks: seq<Tick>)
    requires Supported(key.timeframe)
    ensures forall x :: x in Accepted(o, key, ticks) ==> x in ticks
  {
    if ticks != [] {
      var n := |ticks| - 1;
      AcceptedFrom(o, key, ticks[..n]);
      assert ticks == ticks[..n] + [ticks[n]];
      hide B;
    }
  }

  // ----- One more tick -----

  lemma FoldedSnoc(o: Options, key: SeriesKey, cs: seq<Candle>, ticks: seq<Tick>, t: Tick)
    requires Supported(key.timeframe) && AllFolded(o, key, cs, ticks)
    requires forall i :: 0 <= i < |cs| ==> cs[i].openTime != B(o, key, t)
    ensures AllFolded(o, key, cs, ticks + [t])
  {
  }

  /** The bar of the newest bucket takes the tick. */
  lemma BarTakes(o: Options, key: SeriesKey, ticks: seq<Tick>, t: Tick)
    requires Supported(key.timeframe)
    ensures var b := B(o, key, t);
            BucketBar(o, key, ticks + [t], b) == AddTick(BucketBar(o, key, ticks, b), t, o.mode)
  {
  }

  lemma BarTimes(o: Options, key: SeriesKey, ticks: seq<Tick>, b: Instant)
    requires Supported(key.timeframe)
    ensures var c := BucketBar(o, key, ticks, b).candle;
            c.openTime == b && c.tradeCount == |InBucket(o, key, ticks, b)|
  {
  }

  lemma ListedSnoc(o: Options, key: SeriesKey, cs: seq<Candle>, ticks: seq<Tick>, t: Tick, next: seq<Candle>)
    requires Supported(key.timeframe) && AllListed(o, key, cs, ticks)
    requires forall i :: 0 <= i < |cs| ==> exists j :: 0 <= j < |next| && next[j].openTime == cs[i].openTime
    requires exists i :: 0 <= i < |next| && next[i].openTime == B(o, key, t)
    ensures AllListed(o, key, next, ticks + [t])
  {
  }

  /** What a series that rejects older buckets holds after `ticks`. */
  ghost predicate Holds(o: Options, key: SeriesKey, x: Series, ticks: seq<Tick>)
    requires Supported(key.timeframe)
  {
    var acc := Accepted(o, key, ticks);
    && IsBatch(o, key, AllOf(x), acc)
    && (x.cur.None? <==> ticks == [])
    && (x.cur.None? ==> x.done == [])
    && (x.cur.Some? ==>
          var b := x.cur.value.candle.openTime;
          && x.cur.value == BucketBar(o, key, acc, b)
          && Newest(o, key, ticks, b))
  }

  /** `b` is the latest bucket of the ticks. */
  ghost predicate Newest(o: Options, key: SeriesKey, ticks: seq<Tick>, b: Instant)
    requires Supported(key.timeframe)
  {
    && (forall j :: 0 <= j < |ticks| ==> B(o, key, ticks[j]) <= b)
    && (exists j :: 0 <= j < |ticks| && B(o, key, ticks[j]) == b)
  }

  lemma NewestSnoc(o: Options, key: SeriesKey, ticks: seq<Tick>, t: Tick)
    requires Supported(key.timeframe)
    requires forall j :: 0 <= j < |ticks| ==> B(o, key, ticks[j]) <= B(o, key, t)
    ensures Newest(o, key, ticks + [t], B(o, key, t))
  {
    hide B;
    assert (ticks + [t])[|ticks|] == t;
  }

  /** An older tick is neither accepted nor recorded. */
  lemma OlderTick(o: Options, key: SeriesKey, x: Series, ticks: seq<Tick>, t: Tick)
    requires Supported(key.timeframe) && Holds(o, key, x, ticks) && x.cur.Some?
    requires B(o, key, t) < x.cur.value.candle.openTime
    ensures Holds(o, key, x, ticks + [t])
  {
  }

  lemma AcceptSnoc(o: Options, key: SeriesKey, ticks: seq<Tick>, t: Tick)
    requires Supported(key.timeframe)
    requires forall j :: 0 <= j < |ticks| ==> B(o, key, ticks[j]) <= B(o, key, t)
    ensures Accepted(o, key, ticks + [t]) == Accepted(o, key, ticks) + [t]
  {
  }

  /** A tick of the current bucket goes into the bar in progress. */
  lemma SameBucket(o: Options, key: SeriesKey, x: Series, ticks: seq<Tick>, t: Tick)
    requires Supported(key.timeframe) && Holds(o, key, x, ticks) && x.cur.Some?
    requires B(o, key, t) == x.cur.value.candle.openTime
    ensures Holds(o, key, x.(cur := Some(AddTick(x.cur.value, t, o.mode)), active := Some(TimeOf(t))), ticks + [t])
  {
    hide B, IsBatch, BucketBar;
    var acc := Accepted(o, key, ticks);
    AcceptSnoc(o, key, ticks, t);
    hide AddTick, Accepted;
    NewestSnoc(o, key, ticks, t);
    SameBucketBatch(o, key, x, acc, t);
  }

  lemma SameBucketBatch(o: Options, key: SeriesKey, x: Series, acc: seq<Tick>, t: Tick)
    requires Supported(key.timeframe) && x.cur.Some? && IsBatch(o, key, AllOf(x), acc)
    requires B(o, key, t) == x.cur.value.candle.openTime
    requires x.cur.value == BucketBar(o, key, acc, B(o, key, t))
    ensures var y := x.(cur := Some(AddTick(x.cur.value, t, o.mode)), active := Some(TimeOf(t)));
            && y.cur.value == BucketBar(o, key, acc + [t], B(o, key, t))
            && y.cur.value.candle.openTime == B(o, key, t)
            && IsBatch(o, key, AllOf(y), acc + [t])
  {
    var b := B(o, key, t);
    var y := x.(cur := Some(AddTick(x.cur.value, t, o.mode)), active := Some(TimeOf(t)));
    BarTakes(o, key, acc, t);
    BarTimes(o, key, acc + [t], b);
    InBucketSnoc(o, key, acc, t, b);
    hide AddTick, BucketBar, InBucket, B;
    DoneBefore(o, key, x, acc);
    FoldedSnoc(o, key, x.done, acc, t);
    AddLast(o, key, x.done, acc + [t], y.cur.value.candle, b);
    hide Increasing, AllFolded;
    SameOpens(o, key, x, y, acc, t);
  }

  /** Candles already emitted are folded, in order, and older than the bar in progress. */
  lemma DoneBefore(o: Options, key: SeriesKey, x: Series, acc: seq<Tick>)
    requires Supported(key.timeframe) && x.cur.Some? && IsBatch(o, key, AllOf(x), acc)
    ensures Increasing(x.done) && AllFolded(o, key, x.done, acc)
    ensures forall i :: 0 <= i < |x.done| ==> x.done[i].openTime < x.cur.value.candle.openTime
  {
    var all := AllOf(x);
    assert all[|x.done|] == x.cur.value.candle;
    assert forall i :: 0 <= i < |x.done| ==> all[i] == x.done[i];
    hide B, BucketBar, InBucket;
  }

  lemma AddLast(o: Options, key: SeriesKey, done: seq<Candle>, ticks: seq<Tick>, c: Candle, b: Instant)
    requires Supported(key.timeframe) && Increasing(done) && AllFolded(o, key, done, ticks)
    requires c.openTime == b && c == BucketBar(o, key, ticks, b).candle && InBucket(o, key, ticks, b) != []
    requires forall i :: 0 <= i < |done| ==> done[i].openTime < b
    ensures Increasing(done + [c]) && AllFolded(o, key, done + [c], ticks)
  {
  }

  lemma SameOpens(o: Options, key: SeriesKey, x: Series, y: Series, acc: seq<Tick>, t: Tick)
    requires Supported(key.timeframe) && x.cur.Some? && y.cur.Some? && AllListed(o, key, AllOf(x), acc)
    requires y.done == x.done && y.cur.value.candle.openTime == x.cur.value.candle.openTime == B(o, key, t)
    ensures AllListed(o, key, AllOf(y), acc + [t])
  {
    hide B;
    var cs, next := AllOf(x), AllOf(y);
    forall i | 0 <= i < |cs|
      ensures exists j :: 0 <= j < |next| && next[j].openTime == cs[i].openTime
    {
      assert next[i].openTime == cs[i].openTime;
    }
    assert next[|x.done|].openTime == B(o, key, t);
    ListedSnoc(o, key, cs, acc, t, next);
  }

  /** A tick of a later bucket, or the first one, starts a new bar. */
  lemma NewBucket(o: Options, key: SeriesKey, x: Series, ticks: seq<Tick>, t: Tick, y: Series)
    requires Supported(key.timeframe) && Holds(o, key, x, ticks)
    requires x.cur.Some? ==> x.cur.value.candle.openTime < B(o, key, t)
    requires y.done == AllOf(x) && y.cur == Some(StartBar(o, key, t))
    ensures Holds(o, key, y, ticks + [t])
  {
    NoneYet(o, key, x, ticks, t);
    hide B, IsBatch, BucketBar, StartBar;
    AcceptSnoc(o, key, ticks, t);
    hide Accepted, InBucket;
    NewestSnoc(o, key, ticks, t);
    NewBucketBatch(o, key, x, Accepted(o, key, ticks), t, y);
  }

  lemma NewBucketBatch(o: Options, key: SeriesKey, x: Series, acc: seq<Tick>, t: Tick, y: Series)
    requires Supported(key.timeframe) && IsBatch(o, key, AllOf(x), acc)
    requires x.cur.None? ==> x.done == []
    requires x.cur.Some? ==> x.cur.value.candle.openTime < B(o, key, t)
    requires InBucket(o, key, acc, B(o, key, t)) == []
    requires y.done == AllOf(x) && y.cur == Some(StartBar(o, key, t))
    ensures y.cur.value == BucketBar(o, key, acc + [t], B(o, key, t))
    ensures y.cur.value.candle.openTime == B(o, key, t)
    ensures IsBatch(o, key, AllOf(y), acc + [t])
  {
    var b := B(o, key, t);
    BarTakes(o, key, acc, t);
    BarTimes(o, key, acc + [t], b);
    InBucketSnoc(o, key, acc, t, b);
    assert BucketBar(o, key, acc, b) == NewBar(key, b, b + Width(key.timeframe));
    hide B, AddTick, InBucket, BucketBar;
    OldOpens(o, key, x, acc);
    FoldedSnoc(o, key, y.done, acc, t);
    AddLast(o, key, y.done, acc + [t], y.cur.value.candle, b);
    hide Increasing, AllFolded;
    MoreOpens(o, key, y, acc, t);
  }

  lemma NoneYet(o: Options, key: SeriesKey, x: Series, ticks: seq<Tick>, t: Tick)
    requires Supported(key.timeframe) && Holds(o, key, x, ticks)
    requires x.cur.Some? ==> x.cur.value.candle.openTime < B(o, key, t)
    ensures InBucket(o, key, Accepted(o, key, ticks), B(o, key, t)) == []
    ensures forall j :: 0 <= j < |ticks| ==> B(o, key, ticks[j]) < B(o, key, t)
  {
    assert x.cur.None? ==> ticks == [];
    var acc := Accepted(o, key, ticks);
    EmptyBucket(o, key, acc, B(o, key, t));
    AcceptedFrom(o, key, ticks);
    hide B, IsBatch, InBucket, Accepted, BucketBar;
    forall j | 0 <= j < |acc|
      ensures B(o, key, acc[j]) != B(o, key, t)
    {
      assert acc[j] in ticks;
    }
  }

  /** All candles so far are older than the bucket of the newest bar. */
  lemma OldOpens(o: Options, key: SeriesKey, x: Series, acc: seq<Tick>)
    requires Supported(key.timeframe) && IsBatch(o, key, AllOf(x), acc)
    requires x.cur.None? ==> x.done == []
    ensures forall i :: 0 <= i < |AllOf(x)| && x.cur.Some? ==> AllOf(x)[i].openTime <= x.cur.value.candle.openTime
  {
    if x.cur.Some? {
      DoneBefore(o, key, x, acc);
    }
    hide B, IsBatch;
  }

  lemma MoreOpens(o: Options, key: SeriesKey, y: Series, acc: seq<Tick>, t: Tick)
    requires Supported(key.timeframe) && y.cur.Some? && AllListed(o, key, y.done, acc)
    requires y.cur.value.candle.openTime == B(o, key, t)
    ensures AllListed(o, key, AllOf(y), acc + [t])
  {
    hide B;
    var cs, next := y.done, AllOf(y);
    forall i | 0 <= i < |cs|
      ensures exists j :: 0 <= j < |next| && next[j].openTime == cs[i].openTime
    {
      assert next[i].openTime == cs[i].openTime;
    }
    assert next[|cs|].openTime == B(o, key, t);
    ListedSnoc(o, key, cs, acc, t, next);
  }

  lemma OfferHolds(o: Options, key: SeriesKey, x: Series, ticks: seq<Tick>, t: Tick)
    requires Supported(key.timeframe) && o.policy.RejectOlder? && Holds(o, key, x, ticks)
    ensures Holds(o, key, SeriesOffer(o, key, x, t), ticks + [t])
  {
    var y := SeriesOffer(o, key, x, t);
    if x.cur.None? {
      assert AllOf(x) == [];
      hide Holds, StartBar;
      NewBucket(o, key, x, ticks, t, y);
    } else {
      CurHasTicks(o, key, x, ticks);
      hide Holds, StartBar, B;
      var b := x.cur.value.candle.openTime;
      if B(o, key, t) < b {
        OlderTick(o, key, x, ticks, t);
      } else if B(o, key, t) == b {
        SameBucket(o, key, x, ticks, t);
      } else {
        NewBucket(o, key, x, ticks, t, y);
      }
    }
  }

  lemma CurHasTicks(o: Options, key: SeriesKey, x: Series, ticks: seq<Tick>)
    requires Supported(key.timeframe) && Holds(o, key, x, ticks) && x.cur.Some?
    ensures x.cur.value.candle.tradeCount > 0
  {
    var all := AllOf(x);
    assert all[|x.done|] == x.cur.value.candle;
    BarTimes(o, key, Accepted(o, key, ticks), x.cur.value.candle.openTime);
    hide B, BucketBar, Accepted, InBucket;
  }

  lemma {:induction false} FeedHolds(o: Options, key: SeriesKey, ticks: seq<Tick>)
    requires Supported(key.timeframe) && o.policy.RejectOlder?
    ensures Holds(o, key, Feed(o, key, ticks), ticks)
  {
    if ticks == [] {
      assert AllOf(IDLE) == [];
    } else {
      var n := |ticks| - 1;
      FeedHolds(o, key, ticks[..n]);
      OfferHolds(o, key, Feed(o, key, ticks[..n]), ticks[..n], ticks[n]);
      assert ticks[..n] + [ticks[n]] == ticks;
      hide Holds, SeriesOffer;
    }
  }

  /**
    Streaming equals batch. When older buckets are rejected and nothing is evicted, for any
    order of ticks, the candles of each series that updates and a final flush emit are exactly
    the batch: strictly increasing open times, one candle per bucket that accepted ticks, each
    the fold of the accepted ticks of its bucket.
   */
  lemma StreamingIsBatch(o: Options, inputs: seq<Input>, key: SeriesKey)
    requires AllSupported(inputs) && Supported(key.timeframe)
    requires o.policy.RejectOlder? && o.idleEvict <= 0
    ensures var r := Run(o, inputs);
            IsBatch(o, key, OfKey(r.closed + InProgress(r.state, |r.state.order|), key),
                    Accepted(o, key, TicksOf(key, inputs)))
  {
    UpdatesThenFlush(o, inputs, key);
    RunIsFeed(o, key, inputs);
    FeedHolds(o, key, TicksOf(key, inputs));
    hide Run, IsBatch, Accepted, Feed, SeriesRun, OfKey, TicksOf;
  }
}
