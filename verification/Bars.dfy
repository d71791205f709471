/**
  One bar under construction: prices, volume under either contract, and VWAP.
 */
module Bars {
  import opened Common
  import opened CandleTime

  datatype VolumeMode = VolumeCumulative | VolumeIncremental

  datatype Tick = Tick(symbol: string, ltp: real, volume: int, providerTS: Instant, receivedAt: Instant)

  datatype SeriesKey = SeriesKey(symbol: string, timeframe: Timeframe)

  datatype Candle = Candle(
    symbol: string, timeframe: Timeframe, open: real, high: real, low: real, close: real,
    volume: int, vwap: real, tradeCount: nat, openTime: Instant, closeTime: Instant)

  /** The value of a builder: its candle, the VWAP sums, and the last cumulative volume seen. */
  datatype Bar = Bar(candle: Candle, numer: real, denom: real, lastVolume: int, hasLast: bool)

  function NewBar(key: SeriesKey, open: Instant, close: Instant): Bar {
    Bar(Candle(key.symbol, key.timeframe, 0.0, 0.0, 0.0, 0.0, 0, 0.0, 0, open, close), 0.0, 0.0, 0, false)
  }

  datatype Weight = Weight(weight: int, nextLast: int, hasNext: bool)

  function TickWeight(t: Tick, mode: VolumeMode, lastVolume: int, hasLast: bool): Weight {
    if t.volume <= 0 then Weight(0, lastVolume, hasLast)
    else if mode.VolumeIncremental? then Weight(t.volume, lastVolume, hasLast)
    else if !hasLast then Weight(t.volume, t.volume, true)
    else if t.volume > lastVolume then Weight(t.volume - lastVolume, t.volume, true)
    else if t.volume < lastVolume then Weight(t.volume, t.volume, true)
    else Weight(0, lastVolume, true)
  }

  function AddPrice(c: Candle, price: real): Candle {
    if c.tradeCount == 0 then c.(open := price, high := price, low := price, close := price, tradeCount := 1)
    else c.(high := Max(c.high, price), low := Min(c.low, price), close := price, tradeCount := c.tradeCount + 1)
  }

  /** Volume and VWAP of a bar after `weight` more units at `price`. */
  function Weighed(b: Bar, price: real, weight: int): Bar {
    if weight > 0 then
      var numer, denom := b.numer + price * weight as real, b.denom + weight as real;
      var vwap := if denom > 0.0 then numer / denom else b.candle.vwap;
      b.(candle := b.candle.(volume := b.candle.volume + weight, vwap := vwap), numer := numer, denom := denom)
    else b
  }

  function Seen(b: Bar, w: Weight): Bar {
    if w.hasNext then b.(lastVolume := w.nextLast, hasLast := true) else b
  }

  function AddTick(b: Bar, t: Tick, mode: VolumeMode): Bar {
    var w := TickWeight(t, mode, b.lastVolume, b.hasLast);
    Weighed(Seen(b, w).(candle := AddPrice(b.candle, t.ltp)), t.ltp, w.weight)
  }

  /** The bar that a run of ticks makes. */
  function BarOf(key: SeriesKey, open: Instant, close: Instant, ticks: seq<Tick>, mode: VolumeMode): Bar {
    if ticks == [] then NewBar(key, open, close)
    else AddTick(BarOf(key, open, close, ticks[..|ticks| - 1], mode), ticks[|ticks| - 1], mode)
  }

  /** The mutable builder. */
  class BarBuilder {
    var candle: Candle
    var vwapNumer: real
    var vwapDenom: real
    var lastVolume: int
    var hasLastVol: bool

    ghost function View(): Bar
      reads this
    {
      Bar(candle, vwapNumer, vwapDenom, lastVolume, hasLastVol)
    }

    constructor (key: SeriesKey, open: Instant, close: Instant)
      ensures View() == NewBar(key, open, close)
    {
      candle := NewBar(key, open, close).candle;
      vwapNumer, vwapDenom, lastVolume, hasLastVol := 0.0, 0.0, 0, false;
    }

    method TakePrice(price: real)
      modifies this`candle
      ensures candle == AddPrice(old(candle), price)
    {
      if candle.tradeCount == 0 {
        candle := candle.(open := price, high := price, low := price, close := price);
      } else {
        if price > candle.high {
          candle := candle.(high := price);
        }
        if price < candle.low {
          candle := candle.(low := price);
        }
        candle := candle.(close := price);
      }
      candle := candle.(tradeCount := candle.tradeCount + 1);
    }

    method TakeWeight(price: real, weight: int)
      modifies this
      ensures View() == Weighed(old(View()), price, weight)
    {
      if weight > 0 {
        candle := candle.(volume := candle.volume + weight);
        vwapNumer := vwapNumer + price * weight as real;
        vwapDenom := vwapDenom + weight as real;
        if vwapDenom > 0.0 {
          candle := candle.(vwap := vwapNumer / vwapDenom);
        }
      }
    }

    method AddOne(tick: Tick, mode: VolumeMode)
      modifies this
      ensures View() == AddTick(old(View()), tick, mode)
    {
      hide AddPrice, TickWeight, Weighed;
      var w := TickWeight(tick, mode, lastVolume, hasLastVol);
      TakePrice(tick.ltp);
      if w.hasNext {
        lastVolume := w.nextLast;
        hasLastVol := true;
      }
      TakeWeight(tick.ltp, w.weight);
    }
  }

  // ----- What a bar means -----

  /** First, last, highest, lowest and how many. */
  ghost predicate IsOHLC(c: Candle, ticks: seq<Tick>) {
    && c.tradeCount == |ticks|
    && (ticks != [] ==>
          && c.open == ticks[0].ltp && c.close == ticks[|ticks| - 1].ltp
          && (forall i :: 0 <= i < |ticks| ==> c.low <= ticks[i].ltp <= c.high)
          && (exists i :: 0 <= i < |ticks| && ticks[i].ltp == c.high)
          && (exists i :: 0 <= i < |ticks| && ticks[i].ltp == c.low))
  }

  lemma PriceExtends(c: Candle, ticks: seq<Tick>, t: Tick)
    requires IsOHLC(c, ticks)
    ensures IsOHLC(AddPrice(c, t.ltp), ticks + [t])
  {
    var next, d := ticks + [t], AddPrice(c, t.ltp);
    assert next[|ticks|] == t;
    if ticks != [] {
      var h :| 0 <= h < |ticks| && ticks[h].ltp == c.high;
      var l :| 0 <= l < |ticks| && ticks[l].ltp == c.low;
      assert next[0] == ticks[0] && next[h] == ticks[h] && next[l] == ticks[l];
      assert next[if c.high < t.ltp then |ticks| else h].ltp == d.high;
      assert next[if t.ltp < c.low then |ticks| else l].ltp == d.low;
    }
  }

  /** Prices, times and names of a candle are not touched by volume. */
  lemma AddTickPrice(b: Bar, t: Tick, mode: VolumeMode)
    ensures var c, d := AddTick(b, t, mode).candle, AddPrice(b.candle, t.ltp);
            d.(volume := c.volume, vwap := c.vwap) == c
  {
  }

  /** A bar carries its key and its bucket, and exactly the prices of its ticks. */
  lemma {:induction false} BarIsOHLC(key: SeriesKey, open: Instant, close: Instant, ticks: seq<Tick>, mode: VolumeMode)
    ensures var c := BarOf(key, open, close, ticks, mode).candle;
            && c.symbol == key.symbol && c.timeframe == key.timeframe && c.openTime == open && c.closeTime == close
            && IsOHLC(c, ticks)
  {
    if ticks != [] {
      var n := |ticks| - 1;
      BarIsOHLC(key, open, close, ticks[..n], mode);
      var b := BarOf(key, open, close, ticks[..n], mode);
      hide AddTick, IsOHLC;
      AddTickPrice(b, ticks[n], mode);
      PriceExtends(b.candle, ticks[..n], ticks[n]);
      assert ticks == ticks[..n] + [ticks[n]];
      SameOHLC(AddPrice(b.candle, ticks[n].ltp), AddTick(b, ticks[n], mode).candle, ticks);
    }
  }

  lemma SameOHLC(c: Candle, d: Candle, ticks: seq<Tick>)
    requires IsOHLC(c, ticks) && c.(volume := d.volume, vwap := d.vwap) == d
    ensures IsOHLC(d, ticks)
  {
  }

  // ----- VWAP -----

  /** The VWAP sums are weighted prices: within the range of the bar, weight for weight. */
  ghost predicate WeightsInRange(b: Bar) {
    && b.denom == b.candle.volume as real && b.candle.volume >= 0
    && b.candle.low * b.denom <= b.numer <= b.candle.high * b.denom
    && (b.candle.volume > 0 ==> b.candle.vwap == b.numer / b.denom && b.candle.tradeCount > 0)
    && (b.candle.volume == 0 ==> b.candle.vwap == 0.0)
  }

  lemma PriceKeepsWeights(b: Bar, price: real)
    requires WeightsInRange(b)
    ensures var c := AddPrice(b.candle, price);
            WeightsInRange(b.(candle := c)) && c.low <= price <= c.high && c.tradeCount > 0
  {
  }

  lemma WeighedInRange(b: Bar, price: real, weight: int)
    requires WeightsInRange(b) && weight > 0
    requires b.candle.low <= price <= b.candle.high && b.candle.tradeCount > 0
    ensures WeightsInRange(Weighed(b, price, weight))
  {
  }

  lemma WeightsStep(b: Bar, t: Tick, mode: VolumeMode)
    requires WeightsInRange(b)
    ensures WeightsInRange(AddTick(b, t, mode))
  {
    hide WeightsInRange, AddPrice, TickWeight;
    var w := TickWeight(t, mode, b.lastVolume, b.hasLast);
    PriceKeepsWeights(b, t.ltp);
    SeenKeepsWeights(b.(candle := AddPrice(b.candle, t.ltp)), w);
    if w.weight > 0 {
      WeighedInRange(Seen(b.(candle := AddPrice(b.candle, t.ltp)), w), t.ltp, w.weight);
    }
  }

  lemma SeenKeepsWeights(b: Bar, w: Weight)
    requires WeightsInRange(b)
    ensures WeightsInRange(Seen(b, w))
  {
  }

  /** Whenever a bar has volume, its VWAP lies within its range. */
  lemma {:induction false} VwapInRange(key: SeriesKey, open: Instant, close: Instant, ticks: seq<Tick>,
      mode: VolumeMode)
    ensures var b := BarOf(key, open, close, ticks, mode);
            && WeightsInRange(b)
            && (b.candle.volume > 0 ==> b.candle.low <= b.candle.vwap <= b.candle.high)
  {
    hide AddTick, WeightsInRange;
    if ticks == [] {
      EmptyWeights(key, open, close);
    } else {
      var n := |ticks| - 1;
      VwapInRange(key, open, close, ticks[..n], mode);
      WeightsStep(BarOf(key, open, close, ticks[..n], mode), ticks[n], mode);
    }
    VwapNow(BarOf(key, open, close, ticks, mode));
  }

  lemma EmptyWeights(key: SeriesKey, open: Instant, close: Instant)
    ensures WeightsInRange(NewBar(key, open, close))
  {
  }

  lemma VwapNow(b: Bar)
    requires WeightsInRange(b)
    ensures b.candle.volume > 0 ==> b.candle.low <= b.candle.vwap <= b.candle.high
  {
  }

  // ----- Volume -----

  /** The volumes that count: a tick without positive volume adds nothing. */
  function Volumes(ticks: seq<Tick>): (vs: seq<int>)
    ensures forall i :: 0 <= i < |vs| ==> vs[i] > 0
  {
    if ticks == [] then []
    else
      var v, before := ticks[|ticks| - 1].volume, Volumes(ticks[..|ticks| - 1]);
      if v > 0 then before + [v] else before
  }

  function Total(vs: seq<int>): int {
    if vs == [] then 0 else Total(vs[..|vs| - 1]) + vs[|vs| - 1]
  }

  /** Where a non-decreasing run ends: at the last value, or before a smaller one. */
  predicate RunEnds(vs: seq<int>, i: nat)
    requires i < |vs|
  {
    i + 1 == |vs| || vs[i + 1] < vs[i]
  }

  /** Sum of the last values of the maximal non-decreasing runs, over the first `n` values. */
  function RunTops(vs: seq<int>, n: nat): int
    requires n <= |vs|
  {
    if n == 0 then 0 else RunTops(vs, n - 1) + if RunEnds(vs, n - 1) then vs[n - 1] else 0
  }

  lemma {:induction false} RunTopsLocal(vs: seq<int>, v: int, n: nat)
    requires n < |vs|
    ensures RunTops(vs + [v], n) == RunTops(vs, n)
  {
    if n > 0 {
      RunTopsLocal(vs, v, n - 1);
    }
  }

  /** A new value either continues the last run, replacing its top, or starts another. */
  lemma RunTopsExtends(vs: seq<int>, v: int)
    ensures RunTops(vs + [v], |vs| + 1) ==
            RunTops(vs, |vs|) + if vs != [] && v >= vs[|vs| - 1] then v - vs[|vs| - 1] else v
  {
    var n, us := |vs|, vs + [v];
    assert RunTops(us, n + 1) == RunTops(us, n) + v;
    if n > 0 {
      RunTopsLocal(vs, v, n - 1);
      var before := RunTops(vs, n - 1);
      assert RunTops(vs, n) == before + vs[n - 1];
      assert RunTops(us, n) == before + if v < vs[n - 1] then vs[n - 1] else 0;
    }
  }

  /**
    The volume contract. Incremental: the total of the positive tick volumes. Cumulative: a
    running total that restarts whenever it falls, so the sum of the last values of the
    maximal non-decreasing runs.
   */
  lemma {:induction false} VolumeContract(key: SeriesKey, open: Instant, close: Instant, ticks: seq<Tick>,
      mode: VolumeMode)
    ensures var b, vs := BarOf(key, open, close, ticks, mode), Volumes(ticks);
            && b.candle.volume == (if mode.VolumeIncremental? then Total(vs) else RunTops(vs, |vs|))
            && (mode.VolumeCumulative? ==>
                  && b.hasLast == (vs != []) && (vs != [] ==> b.lastVolume == vs[|vs| - 1]))
            && (mode.VolumeIncremental? ==> !b.hasLast)
  {
    if ticks != [] {
      var n := |ticks| - 1;
      VolumeContract(key, open, close, ticks[..n], mode);
      var b, vs, v := BarOf(key, open, close, ticks[..n], mode), Volumes(ticks[..n]), ticks[n].volume;
      VolumeStep(b, ticks[n], mode);
      if v > 0 {
        RunTopsExtends(vs, v);
        assert (vs + [v])[..|vs|] == vs;
      }
      hide AddTick, RunTops;
    }
  }

  lemma VolumeStep(b: Bar, t: Tick, mode: VolumeMode)
    ensures var w, c := TickWeight(t, mode, b.lastVolume, b.hasLast), AddTick(b, t, mode);
            && c.candle.volume == b.candle.volume + (if w.weight > 0 then w.weight else 0)
            && c.hasLast == (b.hasLast || w.hasNext)
            && c.lastVolume == (if w.hasNext then w.nextLast else b.lastVolume)
  {
  }

  // ----- Volume and VWAP, tick by tick -----

  /**
    What the last tick adds to the volume: nothing without a positive volume, its volume in incremental
    mode, and in cumulative mode what the total grew by, or all of it after a restart.
   */
  function Increment(ticks: seq<Tick>, mode: VolumeMode): int
    requires ticks != []
  {
    var v, before := ticks[|ticks| - 1].volume, Volumes(ticks[..|ticks| - 1]);
    if v <= 0 then 0
    else if mode.VolumeIncremental? || before == [] || v < before[|before| - 1] then v
    else v - before[|before| - 1]
  }

  function Traded(ticks: seq<Tick>, mode: VolumeMode): int {
    if ticks == [] then 0 else Traded(ticks[..|ticks| - 1], mode) + Increment(ticks, mode)
  }

  function Money(price: real, units: int): real {
    price * units as real
  }

  /** The money traded: each tick's price times what it adds to the volume. */
  function Turnover(ticks: seq<Tick>, mode: VolumeMode): real {
    if ticks == [] then 0.0
    else Turnover(ticks[..|ticks| - 1], mode) + Money(ticks[|ticks| - 1].ltp, Increment(ticks, mode))
  }

  lemma TickIncrement(b: Bar, ticks: seq<Tick>, mode: VolumeMode)
    requires ticks != []
    requires var vs := Volumes(ticks[..|ticks| - 1]);
             && (mode.VolumeCumulative? ==>
                   b.hasLast == (vs != []) && (vs != [] ==> b.lastVolume == vs[|vs| - 1]))
    ensures TickWeight(ticks[|ticks| - 1], mode, b.lastVolume, b.hasLast).weight == Increment(ticks, mode) >= 0
  {
  }

  lemma SumsStep(b: Bar, t: Tick, mode: VolumeMode)
    requires b.denom == b.candle.volume as real && b.candle.volume >= 0
    ensures var w, c := TickWeight(t, mode, b.lastVolume, b.hasLast).weight, AddTick(b, t, mode);
            w >= 0 ==>
              && c.candle.volume == b.candle.volume + w && c.denom == c.candle.volume as real
              && c.numer == b.numer + Money(t.ltp, w)
  {
    hide TickWeight;
  }

  lemma {:induction false} SumsAdd(key: SeriesKey, open: Instant, close: Instant, ticks: seq<Tick>, mode: VolumeMode)
    ensures var b := BarOf(key, open, close, ticks, mode);
            b.candle.volume == Traded(ticks, mode) && b.numer == Turnover(ticks, mode)
  {
    if ticks != [] {
      hide AddTick, TickWeight, WeightsInRange, Increment, Volumes, Money;
      var n := |ticks| - 1;
      var b := BarOf(key, open, close, ticks[..n], mode);
      SumsAdd(key, open, close, ticks[..n], mode);
      VwapInRange(key, open, close, ticks[..n], mode);
      VolumeContract(key, open, close, ticks[..n], mode);
      SumsKept(b);
      TickIncrement(b, ticks, mode);
      SumsStep(b, ticks[n], mode);
    }
  }

  /**
    Over any ticks and in both modes the volume of a bar is what its ticks add up to, and its VWAP times
    its volume is the money traded.
   */
  lemma VwapMeans(key: SeriesKey, open: Instant, close: Instant, ticks: seq<Tick>, mode: VolumeMode)
    ensures var b := BarOf(key, open, close, ticks, mode);
            && b.candle.volume == Traded(ticks, mode)
            && (b.candle.volume > 0 ==> b.candle.vwap * b.candle.volume as real == Turnover(ticks, mode))
            && (b.candle.volume == 0 ==> b.candle.vwap == 0.0)
  {
    hide BarOf, WeightsInRange, Traded, Turnover;
    VwapInRange(key, open, close, ticks, mode);
    SumsAdd(key, open, close, ticks, mode);
    VwapTimesVolume(BarOf(key, open, close, ticks, mode));
  }

  lemma SumsKept(b: Bar)
    requires WeightsInRange(b)
    ensures b.denom == b.candle.volume as real && b.candle.volume >= 0
  {
  }

  lemma VwapTimesVolume(b: Bar)
    requires WeightsInRange(b)
    ensures b.candle.volume > 0 ==> b.candle.vwap * b.candle.volume as real == b.numer
    ensures b.candle.volume == 0 ==> b.candle.vwap == 0.0
  {
  }
}
