/**
  The candle aggregator on values: one bar per series, the order in which series were first
  seen, and the times that eviction and the stale policy consult.
 */
module AggModel {
  import opened Common
  import opened CandleTime
  import opened Bars

  datatype OrderPolicy = RejectOlder | RejectStale

  datatype Options = Options(mode: VolumeMode, policy: OrderPolicy, idleEvict: int, utcOffset: int)

  datatype State = State(
    bars: map<SeriesKey, Bar>, order: seq<SeriesKey>,
    lastActivity: map<SeriesKey, Instant>, lastClosed: map<SeriesKey, Instant>)

  const EMPTY := State(map[], [], map[], map[])

  /** The state after a step, the candles it closed and how many ticks it turned away. */
  datatype Step = Step(state: State, closed: seq<Candle>, rejected: nat)

  function TimeOf(t: Tick): Instant {
    if IsZeroTime(t.providerTS) then t.receivedAt else t.providerTS
  }

  predicate Stale(o: Options, s: State, key: SeriesKey, open: Instant) {
    o.policy.RejectStale? && key in s.lastClosed && open <= s.lastClosed[key]
  }

  /** Put a tick into the bar of a series. */
  function AddTo(o: Options, s: State, key: SeriesKey, b: Bar, t: Tick): State {
    s.(bars := s.bars[key := AddTick(b, t, o.mode)], lastActivity := s.lastActivity[key := TimeOf(t)])
  }

  /** Close the bar of a series: it is emitted when it has ticks. */
  function CloseBar(s: State, key: SeriesKey): (State, seq<Candle>)
    requires key in s.bars
  {
    var c := s.bars[key].candle;
    if c.tradeCount > 0 then (s.(lastClosed := s.lastClosed[key := c.openTime]), [c]) else (s, [])
  }

  /** One tick in one timeframe, in the order in which the cases are tried. */
  function Offer(o: Options, s: State, t: Tick, tf: Timeframe): Step
    requires Supported(tf)
  {
    var key := SeriesKey(t.symbol, tf);
    var open := Bucket(TimeOf(t), tf, o.utcOffset);
    var empty := NewBar(key, open, open + Width(tf));
    if key in s.bars then
      var b := s.bars[key];
      if open < b.candle.openTime then Step(s, [], 1)
      else if o.policy.RejectStale? then
        if Stale(o, s, key, open) then Step(s, [], 1) else Step(AddTo(o, s, key, b, t), [], 0)
      else if open == b.candle.openTime then Step(AddTo(o, s, key, b, t), [], 0)
      else
        var (s', out) := CloseBar(s, key);
        Step(AddTo(o, s', key, empty, t), out, 0)
    else if Stale(o, s, key, open) then Step(s, [], 1)
    else Step(AddTo(o, s.(order := s.order + [key]), key, empty, t), [], 0)
  }

  /** Whether eviction keeps a series: other symbols, unknown activity and recent activity stay. */
  predicate Keeps(o: Options, s: State, key: SeriesKey, symbol: string, now: Instant) {
    key.symbol != symbol || key !in s.lastActivity || now - s.lastActivity[key] <= o.idleEvict
  }

  /** Eviction of one series. */
  function EvictOne(s: State, key: SeriesKey): (State, seq<Candle>) {
    var (s', out) := if key in s.bars then CloseBar(s, key) else (s, []);
    (s'.(bars := s'.bars - {key}, lastActivity := s'.lastActivity - {key}), out)
  }

  datatype Sweep = Sweep(state: State, kept: seq<SeriesKey>, closed: seq<Candle>)

  /** Eviction after looking at the first `n` series in order. */
  function SweepTo(o: Options, s: State, symbol: string, now: Instant, n: nat): Sweep
    requires n <= |s.order|
  {
    if n == 0 then Sweep(s, [], [])
    else
      var w, key := SweepTo(o, s, symbol, now, n - 1), s.order[n - 1];
      if Keeps(o, w.state, key, symbol, now) then w.(kept := w.kept + [key])
      else
        var (s', out) := EvictOne(w.state, key);
        Sweep(s', w.kept, w.closed + out)
  }

  function EvictIdle(o: Options, s: State, symbol: string, now: Instant): Step {
    if o.idleEvict <= 0 then Step(s, [], 0)
    else
      var w := SweepTo(o, s, symbol, now, |s.order|);
      Step(w.state.(order := w.kept), w.closed, 0)
  }

  /** The first `n` timeframes; `None` once one is not supported. */
  function OfferTo(o: Options, s: State, t: Tick, tfs: seq<Timeframe>, n: nat): (State, Option<Step>)
    requires n <= |tfs|
  {
    if n == 0 then (s, Some(Step(s, [], 0)))
    else
      var (s1, r) := OfferTo(o, s, t, tfs, n - 1);
      if r.None? || !Supported(tfs[n - 1]) then (s1, None)
      else
        var next := Offer(o, r.value.state, t, tfs[n - 1]);
        (next.state, Some(Step(next.state, r.value.closed + next.closed, r.value.rejected + next.rejected)))
  }

  /** How many of the timeframes come before the first one that is not supported. */
  function SupportedUpTo(tfs: seq<Timeframe>): (n: nat)
    ensures n <= |tfs| && forall j :: 0 <= j < n ==> Supported(tfs[j])
    ensures n < |tfs| ==> !Supported(tfs[n])
  {
    if tfs == [] || !Supported(tfs[0]) then 0 else 1 + SupportedUpTo(tfs[1..])
  }

  lemma {:induction false} SupportedEnds(tfs: seq<Timeframe>, n: nat)
    requires n <= |tfs| && forall j :: 0 <= j < n ==> Supported(tfs[j])
    requires n < |tfs| ==> !Supported(tfs[n])
    ensures SupportedUpTo(tfs) == n
  {
    if n > 0 {
      SupportedEnds(tfs[1..], n - 1);
    }
  }

  /** Once a timeframe is not supported, nothing more is offered. */
  lemma {:induction false} Stuck(o: Options, s: State, t: Tick, tfs: seq<Timeframe>, i: nat, n: nat)
    requires i < n <= |tfs| && !Supported(tfs[i])
    ensures OfferTo(o, s, t, tfs, n) == (OfferTo(o, s, t, tfs, i).0, None)
  {
    hide Offer;
    if i + 1 < n {
      Stuck(o, s, t, tfs, i, n - 1);
    }
  }

  /** The ticks turned away before an update ends or fails. */
  function Rejections(o: Options, s: State, t: Tick, tfs: seq<Timeframe>): nat {
    var r := OfferTo(o, EvictIdle(o, s, t.symbol, TimeOf(t)).state, t, tfs, SupportedUpTo(tfs)).1;
    if r.Some? then r.value.rejected else 0
  }

  /** The candles evicted or closed before an update ends or fails. */
  function ClosedSoFar(o: Options, s: State, t: Tick, tfs: seq<Timeframe>): seq<Candle> {
    var e := EvictIdle(o, s, t.symbol, TimeOf(t));
    var r := OfferTo(o, e.state, t, tfs, SupportedUpTo(tfs)).1;
    e.closed + if r.Some? then r.value.closed else []
  }

  /** An update: evict, then offer. On an unsupported timeframe nothing is returned, but what was done stays done. */
  function Update(o: Options, s: State, t: Tick, tfs: seq<Timeframe>): (State, Option<Step>) {
    var e := EvictIdle(o, s, t.symbol, TimeOf(t));
    var (s', r) := OfferTo(o, e.state, t, tfs, |tfs|);
    (s', if r.None? then None else Some(Step(s', e.closed + r.value.closed, r.value.rejected)))
  }

  lemma OfferToNext(o: Options, s: State, t: Tick, tfs: seq<Timeframe>, i: nat)
    requires i < |tfs| && Supported(tfs[i]) && OfferTo(o, s, t, tfs, i).1.Some?
    requires OfferTo(o, s, t, tfs, i).1.value.state == OfferTo(o, s, t, tfs, i).0
    ensures var before, next := OfferTo(o, s, t, tfs, i).1.value, Offer(o, OfferTo(o, s, t, tfs, i).0, t, tfs[i]);
            OfferTo(o, s, t, tfs, i + 1)
            == (next.state, Some(Step(next.state, before.closed + next.closed, before.rejected + next.rejected)))
  {
    hide Offer;
  }

  /** What an update comes to, once the timeframes before the first unsupported one are done. */
  lemma UpdateEnds(o: Options, s: State, t: Tick, tfs: seq<Timeframe>, n: nat)
    requires n <= |tfs| && n == SupportedUpTo(tfs)
    requires OfferTo(o, EvictIdle(o, s, t.symbol, TimeOf(t)).state, t, tfs, n).1.Some?
    ensures var e := EvictIdle(o, s, t.symbol, TimeOf(t));
            var (s', r) := OfferTo(o, e.state, t, tfs, n);
            && Update(o, s, t, tfs)
               == (s', if n < |tfs| then None else Some(Step(s', e.closed + r.value.closed, r.value.rejected)))
            && Rejections(o, s, t, tfs) == r.value.rejected
  {
    hide OfferTo, EvictIdle, SupportedUpTo;
    if n < |tfs| {
      Stuck(o, EvictIdle(o, s, t.symbol, TimeOf(t)).state, t, tfs, n, |tfs|);
    }
  }

  /** Everything in progress, in order. */
  function InProgress(s: State, n: nat): seq<Candle>
    requires n <= |s.order|
  {
    if n == 0 then []
    else
      var key := s.order[n - 1];
      InProgress(s, n - 1)
      + if key in s.bars && s.bars[key].candle.tradeCount > 0 then [s.bars[key].candle] else []
  }

  // ----- What every step keeps -----

  ghost predicate Inv(o: Options, s: State) {
    && NoRepeats(s.order)
    && (forall k :: k in s.order <==> k in s.bars)
    && s.bars.Keys == s.lastActivity.Keys
    && (forall k :: k in s.bars ==>
          var c := s.bars[k].candle;
          && Supported(k.timeframe) && c.symbol == k.symbol && c.timeframe == k.timeframe && c.tradeCount > 0)
  }

  lemma PutKeeps(o: Options, s: State, key: SeriesKey, b: Bar, at: Instant, closed: map<SeriesKey, Instant>)
    requires Inv(o, s) && Supported(key.timeframe)
    requires b.candle.symbol == key.symbol && b.candle.timeframe == key.timeframe && b.candle.tradeCount > 0
    ensures Inv(o, State(s.bars[key := b], if key in s.bars then s.order else s.order + [key],
                         s.lastActivity[key := at], closed))
  {
    var order := if key in s.bars then s.order else s.order + [key];
    forall k
      ensures k in order <==> k in s.bars[key := b]
    {
      if key !in s.bars {
        assert order[|s.order|] == key;
        assert k in s.order ==> k in order;
      }
    }
  }

  lemma AddTickOwn(b: Bar, t: Tick, mode: VolumeMode)
    ensures var c := AddTick(b, t, mode).candle;
            c.symbol == b.candle.symbol && c.timeframe == b.candle.timeframe
            && c.tradeCount == b.candle.tradeCount + 1
  {
    hide TickWeight;
  }

  lemma BarOwn(o: Options, s: State, key: SeriesKey)
    requires Inv(o, s) && key in s.bars
    ensures var c := s.bars[key].candle;
            c.symbol == key.symbol && c.timeframe == key.timeframe && c.tradeCount > 0
  {
  }

  lemma OfferKeeps(o: Options, s: State, t: Tick, tf: Timeframe)
    requires Inv(o, s) && Supported(tf)
    ensures Inv(o, Offer(o, s, t, tf).state)
  {
    hide Inv, Bucket, Width, AddTick;
    var key := SeriesKey(t.symbol, tf);
    var open := Bucket(TimeOf(t), tf, o.utcOffset);
    var empty := NewBar(key, open, open + Width(tf));
    var closed := Offer(o, s, t, tf).state.lastClosed;
    AddTickOwn(empty, t, o.mode);
    PutKeeps(o, s, key, AddTick(empty, t, o.mode), TimeOf(t), closed);
    if key in s.bars {
      var b := s.bars[key];
      BarOwn(o, s, key);
      AddTickOwn(b, t, o.mode);
      PutKeeps(o, s, key, AddTick(b, t, o.mode), TimeOf(t), closed);
    }
  }

  /** During a sweep: what is left of the state is the kept prefix and the unseen rest. */
  ghost predicate SweepInv(o: Options, s: State, w: Sweep, n: nat) {
    && n <= |s.order|
    && NoRepeats(w.kept + s.order[n..])
    && (forall k :: k in w.kept + s.order[n..] <==> k in w.state.bars)
    && w.state.bars.Keys == w.state.lastActivity.Keys
    && (forall k :: k in w.state.bars ==>
          && k in s.bars && w.state.bars[k] == s.bars[k]
          && k in s.lastActivity && w.state.lastActivity[k] == s.lastActivity[k])
  }

  lemma KeptShift<T>(kept: seq<T>, order: seq<T>, n: nat)
    requires n < |order|
    ensures kept + order[n..] == (kept + [order[n]]) + order[n + 1..]
  {
  }

  lemma DropKey<T(!new)>(kept: seq<T>, order: seq<T>, n: nat)
    requires n < |order| && NoRepeats(kept + order[n..])
    ensures NoRepeats(kept + order[n + 1..])
    ensures forall k :: k in kept + order[n + 1..] <==> k in kept + order[n..] && k != order[n]
  {
    var a, b, m := kept + order[n..], kept + order[n + 1..], |kept|;
    assert forall i :: 0 <= i < |b| ==> b[i] == a[if i < m then i else i + 1];
    assert a[m] == order[n];
    forall k | k in a && k != order[n]
      ensures k in b
    {
      var i :| 0 <= i < |a| && a[i] == k;
      assert b[if i < m then i else i - 1] == k;
    }
    forall k | k in b
      ensures k in a && k != order[n]
    {
      var i :| 0 <= i < |b| && b[i] == k;
      assert a[if i < m then i else i + 1] == k;
    }
  }

  lemma {:induction false} SweepKeeps(o: Options, s: State, symbol: string, now: Instant, n: nat)
    requires Inv(o, s) && n <= |s.order|
    ensures SweepInv(o, s, SweepTo(o, s, symbol, now, n), n)
  {
    hide SweepInv, Inv, Keeps, EvictOne;
    if n == 0 {
      SweepStarts(o, s);
    } else {
      SweepKeeps(o, s, symbol, now, n - 1);
      SweepStep(o, s, SweepTo(o, s, symbol, now, n - 1), symbol, now, n - 1);
    }
  }

  lemma SweepStarts(o: Options, s: State)
    requires Inv(o, s)
    ensures SweepInv(o, s, Sweep(s, [], []), 0)
  {
  }

  lemma SweepStep(o: Options, s: State, w: Sweep, symbol: string, now: Instant, n: nat)
    requires SweepInv(o, s, w, n) && n < |s.order|
    ensures var key := s.order[n];
            if Keeps(o, w.state, key, symbol, now) then SweepInv(o, s, w.(kept := w.kept + [key]), n + 1)
            else SweepInv(o, s, Sweep(EvictOne(w.state, key).0, w.kept, w.closed + EvictOne(w.state, key).1), n + 1)
  {
    hide SweepInv, Keeps, EvictOne;
    KeptStep(o, s, w, n);
    EvictedStep(o, s, w, n);
  }

  lemma KeptStep(o: Options, s: State, w: Sweep, n: nat)
    requires SweepInv(o, s, w, n) && n < |s.order|
    ensures SweepInv(o, s, w.(kept := w.kept + [s.order[n]]), n + 1)
  {
    hide NoRepeats;
    KeptShift(w.kept, s.order, n);
  }

  lemma EvictedStep(o: Options, s: State, w: Sweep, n: nat)
    requires SweepInv(o, s, w, n) && n < |s.order|
    ensures var (s', out) := EvictOne(w.state, s.order[n]);
            SweepInv(o, s, Sweep(s', w.kept, w.closed + out), n + 1)
  {
    hide NoRepeats;
    DropKey(w.kept, s.order, n);
  }

  /** The next series to look at still has its bar and its activity. */
  lemma SweepHead(o: Options, s: State, w: Sweep, n: nat)
    requires SweepInv(o, s, w, n) && n < |s.order|
    ensures s.order[n] in w.state.bars && s.order[n] in w.state.lastActivity
  {
  }

  lemma EvictKeeps(o: Options, s: State, symbol: string, now: Instant)
    requires Inv(o, s)
    ensures Inv(o, EvictIdle(o, s, symbol, now).state)
  {
    if o.idleEvict > 0 {
      var n := |s.order|;
      SweepKeeps(o, s, symbol, now, n);
      var w := SweepTo(o, s, symbol, now, n);
      assert w.kept + s.order[n..] == w.kept;
      hide SweepTo;
    }
  }

  lemma {:induction false} OfferToKeeps(o: Options, s: State, t: Tick, tfs: seq<Timeframe>, n: nat)
    requires Inv(o, s) && n <= |tfs|
    ensures Inv(o, OfferTo(o, s, t, tfs, n).0)
    ensures OfferTo(o, s, t, tfs, n).1.Some? ==> OfferTo(o, s, t, tfs, n).1.value.state == OfferTo(o, s, t, tfs, n).0
  {
    hide Inv, Offer;
    if n > 0 {
      OfferToKeeps(o, s, t, tfs, n - 1);
      var (s1, r) := OfferTo(o, s, t, tfs, n - 1);
      if r.Some? && Supported(tfs[n - 1]) {
        OfferKeeps(o, s1, t, tfs[n - 1]);
      }
    }
  }

  /**
    After every update, also one that fails half-way: `order` has no duplicates and is exactly
    the set of series with a bar, every such series has a last activity, and every bar has ticks.
   */
  lemma UpdateKeeps(o: Options, s: State, t: Tick, tfs: seq<Timeframe>)
    requires Inv(o, s)
    ensures Inv(o, Update(o, s, t, tfs).0)
  {
    EvictKeeps(o, s, t.symbol, TimeOf(t));
    OfferToKeeps(o, EvictIdle(o, s, t.symbol, TimeOf(t)).state, t, tfs, |tfs|);
    hide Inv, OfferTo, EvictIdle;
  }
}
