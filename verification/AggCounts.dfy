/**
  Tick accounting: nothing offered to the aggregator is lost or counted twice.
 */
module AggCounts {
  import opened Common
  import opened CandleTime
  import opened Bars
  import opened AggModel
  import opened MapSum

  /** Ticks recorded in a list of candles. */
  function TradesIn(cs: seq<Candle>): nat {
    if cs == [] then 0 else TradesIn(cs[..|cs| - 1]) + cs[|cs| - 1].tradeCount
  }

  lemma {:induction false} TradesConcat(a: seq<Candle>, b: seq<Candle>)
    ensures TradesIn(a + b) == TradesIn(a) + TradesIn(b)
  {
    if b == [] {
      assert a + b == a;
    } else {
      assert (a + b)[..|a + b| - 1] == a + b[..|b| - 1];
      TradesConcat(a, b[..|b| - 1]);
    }
  }

  function CountOf(bars: map<SeriesKey, Bar>, k: SeriesKey): real {
    if k in bars then bars[k].candle.tradeCount as real else 0.0
  }

  /** Ticks in progress. */
  ghost function Live(bars: map<SeriesKey, Bar>): real {
    SumOver(bars.Keys, k => CountOf(bars, k))
  }

  lemma LivePut(bars: map<SeriesKey, Bar>, k: SeriesKey, b: Bar)
    ensures Live(bars[k := b]) == Live(bars) - CountOf(bars, k) + b.candle.tradeCount as real
  {
    var next := bars[k := b];
    if k in bars {
      assert next.Keys == bars.Keys;
      SumChange(bars.Keys, j => CountOf(bars, j), j => CountOf(next, j), k);
    } else {
      assert next.Keys == bars.Keys + {k};
      SumPutIn(bars.Keys, j => CountOf(next, j), k);
      SumSame(bars.Keys, j => CountOf(bars, j), j => CountOf(next, j));
    }
  }

  lemma LiveDrop(bars: map<SeriesKey, Bar>, k: SeriesKey)
    ensures Live(bars - {k}) == Live(bars) - CountOf(bars, k)
  {
    var next := bars - {k};
    if k in bars {
      assert next.Keys == bars.Keys - {k};
      SumTakeOut(bars.Keys, j => CountOf(bars, j), k);
      SumSame(next.Keys, j => CountOf(bars, j), j => CountOf(next, j));
    } else {
      assert next == bars;
    }
  }

  lemma CountsOne(c: Candle)
    ensures TradesIn([c]) == c.tradeCount
  {
  }

  lemma AddTickCounts(b: Bar, t: Tick, mode: VolumeMode)
    ensures AddTick(b, t, mode).candle.tradeCount == b.candle.tradeCount + 1
  {
  }

  /** One offer accounts for one tick: rejected, or added to the bar in progress. */
  lemma OfferCounts(o: Options, s: State, t: Tick, tf: Timeframe)
    requires Supported(tf)
    ensures var r := Offer(o, s, t, tf);
            TradesIn(r.closed) as real + r.rejected as real + Live(r.state.bars) == Live(s.bars) + 1.0
  {
    var key := SeriesKey(t.symbol, tf);
    var open := Bucket(TimeOf(t), tf, o.utcOffset);
    var empty := NewBar(key, open, open + Width(tf));
    LivePut(s.bars, key, AddTick(empty, t, o.mode));
    AddTickCounts(empty, t, o.mode);
    if key in s.bars {
      LivePut(s.bars, key, AddTick(s.bars[key], t, o.mode));
      AddTickCounts(s.bars[key], t, o.mode);
      CountsOne(s.bars[key].candle);
    }
    hide Live, AddTick, Bucket, Width;
  }

  /** Evicting a series hands its ticks over to the candle it emits. */
  lemma EvictOneCounts(s: State, key: SeriesKey)
    ensures var (s', out) := EvictOne(s, key);
            TradesIn(out) as real + Live(s'.bars) == Live(s.bars)
  {
    LiveDrop(s.bars, key);
    if key in s.bars {
      CountsOne(s.bars[key].candle);
    }
    hide Live;
  }

  lemma {:induction false} SweepCounts(o: Options, s: State, symbol: string, now: Instant, n: nat)
    requires n <= |s.order|
    ensures var w := SweepTo(o, s, symbol, now, n);
            TradesIn(w.closed) as real + Live(w.state.bars) == Live(s.bars)
  {
    hide Live, Keeps, EvictOne;
    if n > 0 {
      SweepCounts(o, s, symbol, now, n - 1);
      var w := SweepTo(o, s, symbol, now, n - 1);
      EvictOneCounts(w.state, s.order[n - 1]);
      TradesConcat(w.closed, EvictOne(w.state, s.order[n - 1]).1);
      hide TradesIn;
    }
  }

  lemma {:induction false} OfferToCounts(o: Options, s: State, t: Tick, tfs: seq<Timeframe>, n: nat)
    requires n <= |tfs| && forall i :: 0 <= i < n ==> Supported(tfs[i])
    ensures var (s', r) := OfferTo(o, s, t, tfs, n);
            && r.Some? && s' == r.value.state
            && TradesIn(r.value.closed) as real + r.value.rejected as real + Live(s'.bars) == Live(s.bars) + n as real
  {
    hide Live, Offer;
    if n > 0 {
      OfferToCounts(o, s, t, tfs, n - 1);
      var (s1, r) := OfferTo(o, s, t, tfs, n - 1);
      OfferCounts(o, s1, t, tfs[n - 1]);
      TradesConcat(r.value.closed, Offer(o, s1, t, tfs[n - 1]).closed);
      hide TradesIn;
    }
  }

  /** An update accounts for the ticks it offered, up to the first timeframe not supported. */
  lemma UpdateCounts(o: Options, s: State, t: Tick, tfs: seq<Timeframe>)
    ensures var (s', r) := Update(o, s, t, tfs);
            && TradesIn(ClosedSoFar(o, s, t, tfs)) as real + Rejections(o, s, t, tfs) as real + Live(s'.bars)
               == Live(s.bars) + SupportedUpTo(tfs) as real
            && (r.Some? <==> SupportedUpTo(tfs) == |tfs|)
            && (r.Some? ==> r.value == Step(s', ClosedSoFar(o, s, t, tfs), Rejections(o, s, t, tfs)))
  {
    hide Live, TradesIn, SweepTo, OfferTo, EvictIdle;
    var e, n := EvictIdle(o, s, t.symbol, TimeOf(t)), SupportedUpTo(tfs);
    EvictCounts(o, s, t.symbol, TimeOf(t));
    OfferToCounts(o, e.state, t, tfs, n);
    TradesConcat(e.closed, OfferTo(o, e.state, t, tfs, n).1.value.closed);
    if n < |tfs| {
      Stuck(o, e.state, t, tfs, n, |tfs|);
    }
  }

  lemma EvictCounts(o: Options, s: State, symbol: string, now: Instant)
    ensures var e := EvictIdle(o, s, symbol, now);
            TradesIn(e.closed) as real + Live(e.state.bars) == Live(s.bars)
  {
    hide Live, SweepTo;
    SweepCounts(o, s, symbol, now, |s.order|);
  }

  // ----- Whole runs -----

  datatype Input = Input(tick: Tick, timeframes: seq<Timeframe>)

  ghost predicate AllSupported(inputs: seq<Input>) {
    forall i, j :: 0 <= i < |inputs| && 0 <= j < |inputs[i].timeframes| ==> Supported(inputs[i].timeframes[j])
  }

  /**
    The state, the candles and the rejections after a run of updates. An update that fails returns
    no candles, but its count of rejections.
   */
  function Run(o: Options, inputs: seq<Input>): Step {
    if inputs == [] then Step(EMPTY, [], 0)
    else
      var before, x := Run(o, inputs[..|inputs| - 1]), inputs[|inputs| - 1];
      var (s', r) := Update(o, before.state, x.tick, x.timeframes);
      if r.None? then Step(s', before.closed, before.rejected + Rejections(o, before.state, x.tick, x.timeframes))
      else Step(s', before.closed + r.value.closed, before.rejected + r.value.rejected)
  }

  function Offered(inputs: seq<Input>): nat {
    if inputs == [] then 0 else Offered(inputs[..|inputs| - 1]) + |inputs[|inputs| - 1].timeframes|
  }

  /** Ticks offered before an update ends or fails. */
  function Attempted(inputs: seq<Input>): nat {
    if inputs == [] then 0
    else Attempted(inputs[..|inputs| - 1]) + SupportedUpTo(inputs[|inputs| - 1].timeframes)
  }

  /** The candles that failing updates had closed and did not return. */
  function Unreported(o: Options, inputs: seq<Input>): seq<Candle> {
    if inputs == [] then []
    else
      var front, x := inputs[..|inputs| - 1], inputs[|inputs| - 1];
      var s := Run(o, front).state;
      Unreported(o, front)
      + if Update(o, s, x.tick, x.timeframes).1.None? then ClosedSoFar(o, s, x.tick, x.timeframes) else []
  }

  lemma {:induction false} RunInv(o: Options, inputs: seq<Input>)
    ensures Inv(o, Run(o, inputs).state)
  {
    if inputs != [] {
      var n := |inputs| - 1;
      RunInv(o, inputs[..n]);
      UpdateKeeps(o, Run(o, inputs[..n]).state, inputs[n].tick, inputs[n].timeframes);
      hide Inv, Update;
    }
  }

  lemma {:induction false} RunCounts(o: Options, inputs: seq<Input>)
    ensures var r := Run(o, inputs);
            TradesIn(r.closed) as real + TradesIn(Unreported(o, inputs)) as real + r.rejected as real
            + Live(r.state.bars) == Attempted(inputs) as real
  {
    hide Live, TradesIn, Update, ClosedSoFar, Rejections, SupportedUpTo;
    if inputs == [] {
      NothingCounted();
    } else {
      var n := |inputs| - 1;
      RunCounts(o, inputs[..n]);
      var before, x := Run(o, inputs[..n]), inputs[n];
      UpdateCounts(o, before.state, x.tick, x.timeframes);
      var closed := ClosedSoFar(o, before.state, x.tick, x.timeframes);
      TradesConcat(before.closed, closed);
      TradesConcat(Unreported(o, inputs[..n]), closed);
      assert Unreported(o, inputs[..n]) + [] == Unreported(o, inputs[..n]);
    }
  }

  lemma NothingCounted()
    ensures TradesIn([]) == 0 && Live(map[]) == 0.0
  {
  }

  lemma {:induction false} AllSupportedCounts(o: Options, inputs: seq<Input>)
    requires AllSupported(inputs)
    ensures Attempted(inputs) == Offered(inputs) && Unreported(o, inputs) == []
  {
    hide Update, ClosedSoFar, Run;
    if inputs != [] {
      var n := |inputs| - 1;
      AllSupportedCounts(o, inputs[..n]);
      var x := inputs[n];
      assert SupportedUpTo(x.timeframes) == |x.timeframes| by {
        assert forall j :: 0 <= j < |x.timeframes| ==> Supported(inputs[n].timeframes[j]);
        SupportedEnds(x.timeframes, |x.timeframes|);
      }
      UpdateCounts(o, Run(o, inputs[..n]).state, x.tick, x.timeframes);
    }
  }

  ghost function FirstKeys(order: seq<SeriesKey>, n: nat): set<SeriesKey>
    requires n <= |order|
  {
    if n == 0 then {} else FirstKeys(order, n - 1) + {order[n - 1]}
  }

  lemma {:induction false} FirstKeysAre(order: seq<SeriesKey>, n: nat, key: SeriesKey)
    requires n <= |order|
    ensures key in FirstKeys(order, n) <==> key in order[..n]
  {
    if n > 0 {
      FirstKeysAre(order, n - 1, key);
      assert order[..n] == order[..n - 1] + [order[n - 1]];
    }
  }

  function CountIn(bars: map<SeriesKey, Bar>): SeriesKey -> real {
    k => CountOf(bars, k)
  }

  /** One more series in progress adds its ticks. */
  lemma InProgressStep(s: State, n: nat)
    requires n < |s.order|
    ensures TradesIn(InProgress(s, n + 1)) as real == TradesIn(InProgress(s, n)) as real + CountOf(s.bars, s.order[n])
  {
    hide TradesIn;
    var key := s.order[n];
    var more := if key in s.bars && s.bars[key].candle.tradeCount > 0 then [s.bars[key].candle] else [];
    TradesConcat(InProgress(s, n), more);
    if more != [] {
      CountsOne(more[0]);
    } else {
      CountsNone();
    }
  }

  lemma CountsNone()
    ensures TradesIn([]) == 0
  {
  }

  /** The candles in progress hold exactly the live ticks. */
  lemma {:induction false} InProgressCounts(s: State, n: nat)
    requires n <= |s.order| && NoRepeats(s.order)
    ensures TradesIn(InProgress(s, n)) as real == SumOver(FirstKeys(s.order, n), CountIn(s.bars))
  {
    if n > 0 {
      hide TradesIn, InProgress, CountOf;
      InProgressCounts(s, n - 1);
      InProgressStep(s, n - 1);
      FirstKeysAre(s.order, n - 1, s.order[n - 1]);
      SumPutIn(FirstKeys(s.order, n - 1), CountIn(s.bars), s.order[n - 1]);
    }
  }

  lemma LiveInProgress(o: Options, s: State)
    requires Inv(o, s)
    ensures TradesIn(InProgress(s, |s.order|)) as real == Live(s.bars)
  {
    var n := |s.order|;
    InProgressCounts(s, n);
    forall key
      ensures key in FirstKeys(s.order, n) <==> key in s.bars.Keys
    {
      FirstKeysAre(s.order, n, key);
      assert s.order[..n] == s.order;
    }
    assert FirstKeys(s.order, n) == s.bars.Keys;
    SumSame(s.bars.Keys, CountIn(s.bars), k => CountOf(s.bars, k));
  }

  /**
    After any run of updates, under either order policy and with or without eviction: every tick
    that was offered to a timeframe was rejected, or is in a candle that was emitted, or is in a
    candle in progress, or in one that a failing update closed and did not return. With every
    timeframe supported all ticks are offered and no candle is lost.
   */
  lemma TickAccounting(o: Options, inputs: seq<Input>)
    ensures var r := Run(o, inputs);
            Attempted(inputs) == r.rejected + TradesIn(r.closed) + TradesIn(InProgress(r.state, |r.state.order|))
                                 + TradesIn(Unreported(o, inputs))
    ensures AllSupported(inputs) ==> Attempted(inputs) == Offered(inputs) && Unreported(o, inputs) == []
  {
    hide Run, TradesIn, SumOver, Live, Unreported, Attempted, Offered, AllSupported, InProgress;
    var r := Run(o, inputs);
    RunInv(o, inputs);
    RunCounts(o, inputs);
    LiveInProgress(o, r.state);
    if AllSupported(inputs) {
      AllSupportedCounts(o, inputs);
    }
  }

  /** An update closes the candle of the first minute, meets an unsupported timeframe and returns nothing. */
  lemma FailedUpdateLosesCandle(o: Options, first: Tick, second: Tick, inputs: seq<Input>)
    requires o == Options(VolumeCumulative, RejectOlder, 0, 0)
    requires first == Tick("NIFTY", 100.0, 10, 0, 0) && second == Tick("NIFTY", 105.0, 20, MINUTE, MINUTE)
    requires inputs == [Input(first, [TF1m]), Input(second, [TF1m, Unsupported("2m")])]
    ensures Run(o, inputs).closed == [] && TradesIn(Unreported(o, inputs)) == 1
  {
    hide TradesIn, AddTick, Bucket, OfferTo, Offer, SupportedUpTo, EvictIdle;
    assert inputs[..1] == [Input(first, [TF1m])] && inputs[..1][..0] == [];
    MinuteOpens(0, 0);
    MinuteOpens(1, 0);
    SupportedEnds([TF1m], 1);
    SupportedEnds([TF1m, Unsupported("2m")], 1);
    OneOffered(o, EMPTY, first, [TF1m]);
    FirstOffer(o, first);
    var s := Run(o, inputs[..1]).state;
    assert Run(o, inputs[..1][..0]) == Step(EMPTY, [], 0);
    assert s == Offer(o, EMPTY, first, TF1m).state;
    assert Bucket(TimeOf(second), TF1m, o.utcOffset) == MINUTE;
    OneOffered(o, s, second, [TF1m, Unsupported("2m")]);
    LaterOffer(o, s, second);
    var c := s.bars[SeriesKey("NIFTY", TF1m)].candle;
    CountsOne(c);
    hide Run, Update, ClosedSoFar;
    assert Unreported(o, inputs[..1]) == [];
    assert inputs[..|inputs| - 1] == inputs[..1] && inputs[|inputs| - 1] == Input(second, [TF1m, Unsupported("2m")]);
    assert Unreported(o, inputs) == [c];
  }

  /** With no eviction, an update that stops after one timeframe is one offer. */
  lemma OneOffered(o: Options, s: State, t: Tick, tfs: seq<Timeframe>)
    requires o.idleEvict <= 0 && tfs != [] && Supported(tfs[0]) && SupportedUpTo(tfs) == 1
    ensures var out := Offer(o, s, t, tfs[0]);
            && Update(o, s, t, tfs).0 == out.state
            && Update(o, s, t, tfs).1 == (if |tfs| == 1 then Some(out) else None)
            && ClosedSoFar(o, s, t, tfs) == out.closed
  {
    hide Offer, SupportedUpTo;
    assert OfferTo(o, s, t, tfs, 0) == (s, Some(Step(s, [], 0)));
    OfferToNext(o, s, t, tfs, 0);
    hide OfferTo;
    assert [] + Offer(o, s, t, tfs[0]).closed == Offer(o, s, t, tfs[0]).closed;
    UpdateEnds(o, s, t, tfs, 1);
  }

  lemma FirstOffer(o: Options, t: Tick)
    requires t.symbol == "NIFTY" && Bucket(TimeOf(t), TF1m, o.utcOffset) == 0
    ensures var r, key := Offer(o, EMPTY, t, TF1m), SeriesKey("NIFTY", TF1m);
            r.closed == [] && key in r.state.bars
            && r.state.bars[key].candle.openTime == 0 && r.state.bars[key].candle.tradeCount == 1
  {
    hide AddTick, Bucket;
    var empty := NewBar(SeriesKey("NIFTY", TF1m), 0, MINUTE);
    AddTickOwn(empty, t, o.mode);
    AddTickOpens(empty, t, o.mode);
  }

  lemma LaterOffer(o: Options, s: State, t: Tick)
    requires o.policy.RejectOlder? && t.symbol == "NIFTY" && SeriesKey("NIFTY", TF1m) in s.bars
    requires var c := s.bars[SeriesKey("NIFTY", TF1m)].candle;
             c.openTime < Bucket(TimeOf(t), TF1m, o.utcOffset) && c.tradeCount > 0
    ensures Offer(o, s, t, TF1m).closed == [s.bars[SeriesKey("NIFTY", TF1m)].candle]
  {
    hide AddTick, Bucket;
  }

  lemma AddTickOpens(b: Bar, t: Tick, mode: VolumeMode)
    ensures AddTick(b, t, mode).candle.openTime == b.candle.openTime
  {
    hide TickWeight;
  }
}
