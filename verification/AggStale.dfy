/**
  Idle eviction under the stale policy: open times, and when a run is still the batch.
 */
module AggStale {
  import opened Common
  import opened CandleTime
  import opened Bars
  import opened AggModel
  import opened AggCounts
  import opened AggSeries
  import opened AggBatch
  import opened AggEviction

  // ----- Open times strictly increase -----

  /** What was emitted is in order, its last open time is remembered, and the bar is later. */
  ghost predicate StaleOrdered(x: Series) {
    && Increasing(x.done) && Ticking(x)
    && (x.closedAt.None? <==> x.done == [])
    && (x.done != [] ==> x.closedAt.value == x.done[|x.done| - 1].openTime)
    && (x.done != [] && x.cur.Some? ==> x.closedAt.value < x.cur.value.candle.openTime)
  }

  lemma StaleOfferOrdered(o: Options, key: SeriesKey, x: Series, t: Tick)
    requires Supported(key.timeframe) && o.policy.RejectStale? && StaleOrdered(x)
    ensures StaleOrdered(SeriesOffer(o, key, x, t))
  {
    StartedAt(o, key, t);
    if x.cur.Some? {
      AddTickOwn(x.cur.value, t, o.mode);
      AddTickOpens(x.cur.value, t, o.mode);
    }
    hide B, AddTick, StartBar, Increasing;
  }

  lemma StaleEvictOrdered(o: Options, x: Series, now: Instant)
    requires StaleOrdered(x)
    ensures StaleOrdered(SeriesEvict(o, x, now))
  {
  }

  lemma {:induction false} StaleOffersOrdered(o: Options, key: SeriesKey, x: Series, t: Tick, times: nat)
    requires Supported(key.timeframe) && o.policy.RejectStale? && StaleOrdered(x)
    ensures StaleOrdered(Offers(o, key, x, t, times))
  {
    hide StaleOrdered, SeriesOffer;
    if times > 0 {
      StaleOffersOrdered(o, key, x, t, times - 1);
      StaleOfferOrdered(o, key, Offers(o, key, x, t, times - 1), t);
    }
  }

  lemma {:induction false} StaleRunOrdered(o: Options, key: SeriesKey, inputs: seq<Input>)
    requires Supported(key.timeframe) && o.policy.RejectStale?
    ensures StaleOrdered(SeriesRun(o, key, inputs))
  {
    if inputs == [] {
    } else {
      hide StaleOrdered, Offers, SeriesEvict, Listed;
      var n := |inputs| - 1;
      StaleRunOrdered(o, key, inputs[..n]);
      var x, t := SeriesRun(o, key, inputs[..n]), inputs[n].tick;
      StaleEvictOrdered(o, x, TimeOf(t));
      StaleOffersOrdered(o, key, SeriesEvict(o, x, TimeOf(t)), t,
                         Listed(inputs[n].timeframes, key.timeframe, |inputs[n].timeframes|));
    }
  }

  /**
    Under the stale policy, whatever the idle time and however the timeframe is listed, the open
    times that a run and its flush emit for a series strictly increase.
   */
  lemma StaleTimesIncrease(o: Options, inputs: seq<Input>, key: SeriesKey)
    requires AllSupported(inputs) && Supported(key.timeframe) && o.policy.RejectStale?
    ensures var r := Run(o, inputs);
            Increasing(OfKey(r.closed + InProgress(r.state, |r.state.order|), key))
  {
    hide Run, SeriesRun, OfKey, InProgress, AllSupported;
    UpdatesThenFlush(o, inputs, key);
    StaleRunOrdered(o, key, inputs);
  }

  // ----- When the run is the batch -----

  /** The bucket of the newest bar, when it last took a tick, and whether it has been evicted since. */
  datatype Newest = Newest(open: Option<Instant>, at: Instant, evicted: bool)

  predicate GoneBy(o: Options, m: Newest, t: Tick) {
    m.evicted || (o.idleEvict > 0 && m.open.Some? && TimeOf(t) - m.at > o.idleEvict)
  }

  function AfterOffer(o: Options, key: SeriesKey, m: Newest, t: Tick): Newest
    requires Supported(key.timeframe)
  {
    var b := B(o, key, t);
    if m.open.None? || (m.evicted && m.open.value < b) then Newest(Some(b), TimeOf(t), false)
    else if !m.evicted && m.open.value <= b then m.(at := TimeOf(t))
    else m
  }

  function AfterInput(o: Options, key: SeriesKey, m: Newest, x: Input): Newest
    requires Supported(key.timeframe)
  {
    if x.tick.symbol != key.symbol then m
    else
      var woken := m.(evicted := GoneBy(o, m, x.tick));
      if Listed(x.timeframes, key.timeframe, |x.timeframes|) == 0 then woken else AfterOffer(o, key, woken, x.tick)
  }

  function Recall(o: Options, key: SeriesKey, inputs: seq<Input>): Newest
    requires Supported(key.timeframe)
  {
    if inputs == [] then Newest(None, 0, false)
    else AfterInput(o, key, Recall(o, key, inputs[..|inputs| - 1]), inputs[|inputs| - 1])
  }

  /** A later tick swallowed by the bar in progress, or one turned away that belongs to the evicted bar. */
  predicate IsStray(o: Options, key: SeriesKey, m: Newest, t: Tick)
    requires Supported(key.timeframe)
  {
    m.open.Some? && if m.evicted then B(o, key, t) == m.open.value else m.open.value < B(o, key, t)
  }

  predicate Strays(o: Options, key: SeriesKey, m: Newest, x: Input)
    requires Supported(key.timeframe)
  {
    && x.tick.symbol == key.symbol && Listed(x.timeframes, key.timeframe, |x.timeframes|) > 0
    && IsStray(o, key, m.(evicted := GoneBy(o, m, x.tick)), x.tick)
  }

  ghost predicate NeverStrays(o: Options, key: SeriesKey, inputs: seq<Input>)
    requires Supported(key.timeframe)
  {
    forall k :: 0 <= k < |inputs| ==> !Strays(o, key, Recall(o, key, inputs[..k]), inputs[k])
  }

  lemma NeverStraysSnoc(o: Options, key: SeriesKey, inputs: seq<Input>)
    requires Supported(key.timeframe) && inputs != []
    ensures var n := |inputs| - 1;
            NeverStrays(o, key, inputs)
            <==> NeverStrays(o, key, inputs[..n]) && !Strays(o, key, Recall(o, key, inputs[..n]), inputs[n])
  {
    hide Strays, Recall;
    var n := |inputs| - 1;
    assert forall k :: 0 <= k < n ==> inputs[..n][..k] == inputs[..k] && inputs[..n][k] == inputs[k];
    if NeverStrays(o, key, inputs) {
      forall k | 0 <= k < n
        ensures !Strays(o, key, Recall(o, key, inputs[..n][..k]), inputs[..n][k])
      {
        assert !Strays(o, key, Recall(o, key, inputs[..k]), inputs[k]);
      }
    } else {
      var k :| 0 <= k < |inputs| && Strays(o, key, Recall(o, key, inputs[..k]), inputs[k]);
      if k < n {
        assert Strays(o, key, Recall(o, key, inputs[..n][..k]), inputs[..n][k]);
      }
    }
  }

  /** The series is where its memory says. */
  ghost predicate Agrees(x: Series, m: Newest) {
    && StaleOrdered(x)
    && (m.open.None? ==> x.cur.None? && x.done == [] && !m.evicted)
    && (m.open.Some? && !m.evicted ==>
          x.cur.Some? && x.cur.value.candle.openTime == m.open.value && x.active == Some(m.at))
    && (m.open.Some? && m.evicted ==>
          x.cur.None? && x.done != [] && x.done[|x.done| - 1].openTime == m.open.value)
  }

  lemma EvictAgrees(o: Options, x: Series, m: Newest, t: Tick)
    requires Agrees(x, m)
    ensures var y := SeriesEvict(o, x, TimeOf(t));
            && Agrees(y, m.(evicted := GoneBy(o, m, t))) && AllOf(y) == AllOf(x)
            && (y == x || (x.cur.Some? && y.cur.None? && y.done == AllOf(x)))
  {
    StaleEvictOrdered(o, x, TimeOf(t));
    hide Increasing;
  }

  lemma OfferAgrees(o: Options, key: SeriesKey, x: Series, m: Newest, t: Tick)
    requires Supported(key.timeframe) && o.policy.RejectStale? && Agrees(x, m)
    ensures Agrees(SeriesOffer(o, key, x, t), AfterOffer(o, key, m, t))
  {
    StaleOfferOrdered(o, key, x, t);
    StartedAt(o, key, t);
    if x.cur.Some? {
      AddTickOpens(x.cur.value, t, o.mode);
    }
    hide B, AddTick, StartBar, Increasing;
  }

  /** While nothing strays: the series holds the batch, as if it had never been evicted. */
  ghost predicate Whole(o: Options, key: SeriesKey, x: Series, ticks: seq<Tick>)
    requires Supported(key.timeframe)
  {
    if x.cur.Some? || ticks == [] then Holds(o, key, x, ticks)
    else exists y: Series :: y.cur.Some? && x.done == AllOf(y) && Holds(o, key, y, ticks)
  }

  /** A candle that can no longer become the fold of its bucket. */
  ghost predicate OffAt(o: Options, key: SeriesKey, x: Series, ticks: seq<Tick>, i: nat)
    requires Supported(key.timeframe)
  {
    && i < |AllOf(x)|
    && var c, acc := AllOf(x)[i], Accepted(o, key, ticks);
       || (c.tradeCount > |InBucket(o, key, acc, c.openTime)|
           && exists j :: 0 <= j < |ticks| && c.openTime < B(o, key, ticks[j]))
       || (i < |x.done| && c.tradeCount < |InBucket(o, key, acc, c.openTime)|)
  }

  ghost predicate Broken(o: Options, key: SeriesKey, x: Series, ticks: seq<Tick>)
    requires Supported(key.timeframe)
  {
    exists i: nat :: OffAt(o, key, x, ticks, i)
  }

  lemma BrokenIsNoBatch(o: Options, key: SeriesKey, x: Series, ticks: seq<Tick>)
    requires Supported(key.timeframe) && Broken(o, key, x, ticks)
    ensures !IsBatch(o, key, AllOf(x), Accepted(o, key, ticks))
  {
    hide B, Accepted, InBucket, BucketBar, AllOf;
    var i: nat :| OffAt(o, key, x, ticks, i);
    BarTimes(o, key, Accepted(o, key, ticks), AllOf(x)[i].openTime);
  }

  lemma WholeIsBatch(o: Options, key: SeriesKey, x: Series, ticks: seq<Tick>)
    requires Supported(key.timeframe) && Whole(o, key, x, ticks)
    ensures IsBatch(o, key, AllOf(x), Accepted(o, key, ticks))
  {
    hide IsBatch, Accepted, BucketBar, B;
    if x.cur.None? && ticks != [] {
      var y: Series :| y.cur.Some? && x.done == AllOf(y) && Holds(o, key, y, ticks);
      assert AllOf(x) == x.done;
    }
  }

  lemma EvictWhole(o: Options, key: SeriesKey, x: Series, m: Newest, t: Tick, ticks: seq<Tick>)
    requires Supported(key.timeframe) && Agrees(x, m)
    ensures Whole(o, key, x, ticks) ==> Whole(o, key, SeriesEvict(o, x, TimeOf(t)), ticks)
    ensures Broken(o, key, x, ticks) ==> Broken(o, key, SeriesEvict(o, x, TimeOf(t)), ticks)
  {
    hide Agrees, Holds, SeriesEvict, Accepted, InBucket, B;
    var y := SeriesEvict(o, x, TimeOf(t));
    EvictAgrees(o, x, m, t);
    if Broken(o, key, x, ticks) {
      var i: nat :| OffAt(o, key, x, ticks, i);
      assert OffAt(o, key, y, ticks, i);
    }
    if Whole(o, key, x, ticks) && y != x {
      HoldsTicks(o, key, x, ticks);
    }
  }

  lemma HoldsTicks(o: Options, key: SeriesKey, x: Series, ticks: seq<Tick>)
    requires Supported(key.timeframe) && Holds(o, key, x, ticks)
    ensures x.cur.None? <==> ticks == []
  {
  }

  /** What the newest bar of a whole series holds. */
  lemma WholeCount(o: Options, key: SeriesKey, x: Series, ticks: seq<Tick>)
    requires Supported(key.timeframe) && Holds(o, key, x, ticks) && x.cur.Some?
    ensures var c := x.cur.value.candle;
            && c.tradeCount == |InBucket(o, key, Accepted(o, key, ticks), c.openTime)|
            && forall j :: 0 <= j < |ticks| ==> B(o, key, ticks[j]) <= c.openTime
  {
    BarTimes(o, key, Accepted(o, key, ticks), x.cur.value.candle.openTime);
    hide B, InBucket, BucketBar, Accepted, IsBatch;
  }

  lemma OfferWhole(o: Options, key: SeriesKey, x: Series, m: Newest, t: Tick, ticks: seq<Tick>)
    requires Supported(key.timeframe) && o.policy.RejectStale? && Agrees(x, m) && Whole(o, key, x, ticks)
    requires !IsStray(o, key, m, t)
    ensures Whole(o, key, SeriesOffer(o, key, x, t), ticks + [t])
  {
    hide Holds, StartBar, AddTick, B, Increasing;
    var z := SeriesOffer(o, key, x, t);
    assert ticks + [t] != [];
    if x.cur.Some? {
      if B(o, key, t) < x.cur.value.candle.openTime {
        OlderTick(o, key, x, ticks, t);
      } else {
        SameBucket(o, key, x, ticks, t);
      }
    } else if ticks == [] {
      HoldsNothing(o, key, x);
      NewBucket(o, key, x, ticks, t, z);
    } else {
      var y: Series :| y.cur.Some? && x.done == AllOf(y) && Holds(o, key, y, ticks);
      assert x.done[|x.done| - 1] == y.cur.value.candle;
      if B(o, key, t) < y.cur.value.candle.openTime {
        OlderTick(o, key, y, ticks, t);
      } else {
        NewBucket(o, key, y, ticks, t, z);
      }
    }
  }

  lemma HoldsNothing(o: Options, key: SeriesKey, x: Series)
    requires Supported(key.timeframe) && Holds(o, key, x, [])
    ensures x.done == []
  {
  }

  /** A stray tick breaks the newest candle. */
  lemma StrayBreaks(o: Options, key: SeriesKey, x: Series, m: Newest, t: Tick, ticks: seq<Tick>)
    requires Supported(key.timeframe) && o.policy.RejectStale? && Agrees(x, m) && Whole(o, key, x, ticks)
    requires IsStray(o, key, m, t)
    ensures Broken(o, key, SeriesOffer(o, key, x, t), ticks + [t])
  {
    hide Holds, StartBar, AddTick, B, Increasing, Accepted, InBucket;
    var z, all := SeriesOffer(o, key, x, t), ticks + [t];
    assert all[|ticks|] == t;
    if x.cur.Some? {
      HoldsTicks(o, key, x, ticks);
      WholeCount(o, key, x, ticks);
      AcceptSnoc(o, key, ticks, t);
      InBucketSnoc(o, key, Accepted(o, key, ticks), t, x.cur.value.candle.openTime);
      AddTickOwn(x.cur.value, t, o.mode);
      AddTickOpens(x.cur.value, t, o.mode);
      assert OffAt(o, key, z, all, |x.done|);
    } else if ticks != [] {
      var y: Series :| y.cur.Some? && x.done == AllOf(y) && Holds(o, key, y, ticks);
      assert x.done[|x.done| - 1] == y.cur.value.candle;
      WholeCount(o, key, y, ticks);
      AcceptSnoc(o, key, ticks, t);
      InBucketSnoc(o, key, Accepted(o, key, ticks), t, y.cur.value.candle.openTime);
      assert OffAt(o, key, z, all, |x.done| - 1);
    } else {
      HoldsNothing(o, key, x);
    }
  }

  /** A broken candle stays broken. */
  lemma OfferBroken(o: Options, key: SeriesKey, x: Series, m: Newest, t: Tick, ticks: seq<Tick>)
    requires Supported(key.timeframe) && o.policy.RejectStale? && Agrees(x, m) && Broken(o, key, x, ticks)
    ensures Broken(o, key, SeriesOffer(o, key, x, t), ticks + [t])
  {
    hide StartBar, AddTick, B, Increasing, Accepted, InBucket;
    var z, all := SeriesOffer(o, key, x, t), ticks + [t];
    var i: nat :| OffAt(o, key, x, ticks, i);
    var c := AllOf(x)[i];
    assert forall j :: 0 <= j < |ticks| ==> all[j] == ticks[j];
    AcceptedOrNot(o, key, ticks, t);
    InBucketSnoc(o, key, Accepted(o, key, ticks), t, c.openTime);
    if x.cur.Some? {
      AddTickOwn(x.cur.value, t, o.mode);
      AddTickOpens(x.cur.value, t, o.mode);
    }
    assert OffAt(o, key, z, all, i);
  }

  /** Whether the series is whole or broken for good. */
  ghost predicate Stands(o: Options, key: SeriesKey, x: Series, ticks: seq<Tick>, whole: bool)
    requires Supported(key.timeframe)
  {
    if whole then Whole(o, key, x, ticks) else Broken(o, key, x, ticks)
  }

  lemma OfferStands(o: Options, key: SeriesKey, x: Series, m: Newest, t: Tick, ticks: seq<Tick>, whole: bool)
    requires Supported(key.timeframe) && o.policy.RejectStale? && Agrees(x, m) && Stands(o, key, x, ticks, whole)
    ensures Stands(o, key, SeriesOffer(o, key, x, t), ticks + [t], whole && !IsStray(o, key, m, t))
  {
    hide Agrees, Whole, Broken, SeriesOffer, IsStray;
    if !whole {
      OfferBroken(o, key, x, m, t, ticks);
    } else if IsStray(o, key, m, t) {
      StrayBreaks(o, key, x, m, t, ticks);
    } else {
      OfferWhole(o, key, x, m, t, ticks);
    }
  }

  /** Offered again, a tick does not stray unless it did before. */
  lemma OfferedAgain(o: Options, key: SeriesKey, m: Newest, t: Tick)
    requires Supported(key.timeframe)
    ensures var again := AfterOffer(o, key, m, t);
            && AfterOffer(o, key, again, t) == again
            && (IsStray(o, key, again, t) ==> IsStray(o, key, m, t))
  {
    hide B;
  }

  lemma {:induction false} OffersStand(o: Options, key: SeriesKey, x: Series, m: Newest, t: Tick, ticks: seq<Tick>,
      whole: bool, n: nat)
    requires Supported(key.timeframe) && o.policy.RejectStale? && n > 0
    requires Agrees(x, m) && Stands(o, key, x, ticks, whole)
    ensures var y := Offers(o, key, x, t, n);
            && Agrees(y, AfterOffer(o, key, m, t))
            && Stands(o, key, y, ticks + Repeat(t, n), whole && !IsStray(o, key, m, t))
  {
    hide Agrees, Stands, SeriesOffer, IsStray, AfterOffer;
    assert ticks + Repeat(t, n) == ticks + Repeat(t, n - 1) + [t];
    if n == 1 {
      assert ticks + Repeat(t, 0) == ticks && Offers(o, key, x, t, 0) == x;
      OfferAgrees(o, key, x, m, t);
      OfferStands(o, key, x, m, t, ticks, whole);
    } else {
      OffersStand(o, key, x, m, t, ticks, whole, n - 1);
      OfferedAgain(o, key, m, t);
      var y, again := Offers(o, key, x, t, n - 1), AfterOffer(o, key, m, t);
      OfferAgrees(o, key, y, again, t);
      OfferStands(o, key, y, again, t, ticks + Repeat(t, n - 1), whole && !IsStray(o, key, m, t));
    }
  }

  lemma EvictStands(o: Options, key: SeriesKey, x: Series, m: Newest, t: Tick, ticks: seq<Tick>, whole: bool)
    requires Supported(key.timeframe) && Agrees(x, m) && Stands(o, key, x, ticks, whole)
    ensures Stands(o, key, SeriesEvict(o, x, TimeOf(t)), ticks, whole)
  {
    hide Agrees, Whole, Broken, SeriesEvict;
    EvictWhole(o, key, x, m, t, ticks);
  }

  lemma InputStands(o: Options, key: SeriesKey, x: Series, m: Newest, ticks: seq<Tick>, whole: bool, i: Input)
    requires Supported(key.timeframe) && o.policy.RejectStale?
    requires Agrees(x, m) && Stands(o, key, x, ticks, whole)
    ensures var n := if i.tick.symbol == key.symbol then Listed(i.timeframes, key.timeframe, |i.timeframes|) else 0;
            var y := SeriesUpdate(o, key, x, i.tick, i.timeframes);
            && Agrees(y, AfterInput(o, key, m, i))
            && Stands(o, key, y, ticks + Repeat(i.tick, n), whole && !Strays(o, key, m, i))
  {
    hide Agrees, Stands, SeriesEvict, IsStray, AfterOffer, GoneBy, Listed;
    assert ticks + Repeat(i.tick, 0) == ticks;
    if i.tick.symbol == key.symbol {
      var n, y := Listed(i.timeframes, key.timeframe, |i.timeframes|), SeriesEvict(o, x, TimeOf(i.tick));
      EvictAgrees(o, x, m, i.tick);
      EvictStands(o, key, x, m, i.tick, ticks, whole);
      if n > 0 {
        OffersStand(o, key, y, m.(evicted := GoneBy(o, m, i.tick)), i.tick, ticks, whole, n);
      } else {
        assert Offers(o, key, y, i.tick, 0) == y;
      }
    }
  }

  lemma {:induction false} RunStands(o: Options, key: SeriesKey, inputs: seq<Input>)
    requires Supported(key.timeframe) && o.policy.RejectStale?
    ensures Agrees(SeriesRun(o, key, inputs), Recall(o, key, inputs))
    ensures Stands(o, key, SeriesRun(o, key, inputs), TicksOf(key, inputs), NeverStrays(o, key, inputs))
  {
    if inputs == [] {
      NothingStrays(o, key);
    } else {
      hide Agrees, Stands, SeriesUpdate, AfterInput, Strays, NeverStrays, Listed, Repeat;
      var n := |inputs| - 1;
      RunStands(o, key, inputs[..n]);
      NeverStraysSnoc(o, key, inputs);
      var ticks := TicksOf(key, inputs[..n]);
      assert ticks + Repeat(inputs[n].tick, 0) == ticks by {
        assert Repeat(inputs[n].tick, 0) == [];
      }
      InputStands(o, key, SeriesRun(o, key, inputs[..n]), Recall(o, key, inputs[..n]), ticks,
                  NeverStrays(o, key, inputs[..n]), inputs[n]);
    }
  }

  lemma NothingStrays(o: Options, key: SeriesKey)
    requires Supported(key.timeframe)
    ensures Agrees(IDLE, Newest(None, 0, false)) && NeverStrays(o, key, []) && Whole(o, key, IDLE, [])
  {
    assert AllOf(IDLE) == [];
  }

  /**
    Under the stale policy, whatever the idle time: a run gives the batch result for a series exactly
    when no tick strays. A tick strays when the bar in progress swallows it although its bucket is
    later, or when it is turned away although it belongs to the bar that was evicted last.
   */
  lemma StaleEvictionIsBatchIff(o: Options, inputs: seq<Input>, key: SeriesKey)
    requires AllSupported(inputs) && Supported(key.timeframe) && o.policy.RejectStale?
    ensures var r := Run(o, inputs);
            IsBatch(o, key, OfKey(r.closed + InProgress(r.state, |r.state.order|), key),
                    Accepted(o, key, TicksOf(key, inputs)))
            <==> NeverStrays(o, key, inputs)
  {
    hide Run, Accepted, SeriesRun, OfKey, TicksOf, InProgress, AllSupported, Whole, Broken, Agrees, AllOf, IsBatch,
         NeverStrays;
    UpdatesThenFlush(o, inputs, key);
    RunStands(o, key, inputs);
    if NeverStrays(o, key, inputs) {
      WholeIsBatch(o, key, SeriesRun(o, key, inputs), TicksOf(key, inputs));
    } else {
      BrokenIsNoBatch(o, key, SeriesRun(o, key, inputs), TicksOf(key, inputs));
    }
  }

  /**
    Thirty seconds apart in one minute, with an idle time of ten seconds: the first tick's candle
    has been evicted, and the second tick is turned away although nothing was out of order.
   */
  lemma EvictedMinuteLosesTick(o: Options, key: SeriesKey, first: Tick, second: Tick, inputs: seq<Input>)
    requires o == Options(VolumeCumulative, RejectStale, 10 * SECOND, 0) && key == SeriesKey("NIFTY", TF1m)
    requires first == Tick("NIFTY", 100.0, 10, 0, 0)
    requires second == Tick("NIFTY", 105.0, 20, 30 * SECOND, 30 * SECOND)
    requires inputs == [Input(first, [TF1m]), Input(second, [TF1m])]
    ensures var r := Run(o, inputs);
            !IsBatch(o, key, OfKey(r.closed + InProgress(r.state, |r.state.order|), key),
                     Accepted(o, key, TicksOf(key, inputs)))
  {
    hide Run, OfKey, InProgress, TicksOf, IsBatch, Accepted, NeverStrays, B;
    SameMinute(o, key, first, second);
    SecondStrays(o, key, first, second, inputs);
    StaleEvictionIsBatchIff(o, inputs, key);
  }

  lemma SameMinute(o: Options, key: SeriesKey, first: Tick, second: Tick)
    requires key.timeframe == TF1m && first.providerTS == 0 && second.providerTS == 30 * SECOND
    ensures B(o, key, first) == B(o, key, second)
  {
    BucketIsFloor(0, TF1m, o.utcOffset);
    BucketIsFloor(30 * SECOND, TF1m, o.utcOffset);
    hide Bucket;
  }

  lemma SecondStrays(o: Options, key: SeriesKey, first: Tick, second: Tick, inputs: seq<Input>)
    requires o.idleEvict == 10 * SECOND && key.timeframe == TF1m && first.symbol == second.symbol == key.symbol
    requires first.providerTS == 0 && second.providerTS == 30 * SECOND
    requires inputs == [Input(first, [TF1m]), Input(second, [TF1m])]
    requires B(o, key, first) == B(o, key, second)
    ensures !NeverStrays(o, key, inputs)
  {
    hide B;
    assert inputs[..1][..0] == [];
    assert Listed([TF1m], TF1m, 1) == 1;
    assert Recall(o, key, inputs[..1]) == Newest(Some(B(o, key, first)), 0, false);
    assert Strays(o, key, Recall(o, key, inputs[..1]), inputs[1]);
  }
}
