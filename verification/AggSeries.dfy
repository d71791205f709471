/**
  The aggregator is a product of independent series.

  What happens to one symbol and timeframe depends only on the ticks of that symbol and how
  often the timeframe is listed. Each series is a small machine of its own; the theorems about
  buckets are proved on that machine.
 */
module AggSeries {
  import opened Common
  import opened CandleTime
  import opened Bars
  import opened AggModel
  import opened AggCounts

  /** One series: candles emitted, the bar in progress, its last activity and last close. */
  datatype Series = Series(done: seq<Candle>, cur: Option<Bar>, active: Option<Instant>, closedAt: Option<Instant>)

  const IDLE := Series([], None, None, None)

  /** The bucket of a tick in a series. */
  function B(o: Options, key: SeriesKey, t: Tick): Instant
    requires Supported(key.timeframe)
  {
    Bucket(TimeOf(t), key.timeframe, o.utcOffset)
  }

  function StartBar(o: Options, key: SeriesKey, t: Tick): Bar
    requires Supported(key.timeframe)
  {
    AddTick(NewBar(key, B(o, key, t), B(o, key, t) + Width(key.timeframe)), t, o.mode)
  }

  function CloseCur(x: Series): Series
    requires x.cur.Some?
  {
    var c := x.cur.value.candle;
    if c.tradeCount > 0 then x.(done := x.done + [c], closedAt := Some(c.openTime)) else x
  }

  function SeriesOffer(o: Options, key: SeriesKey, x: Series, t: Tick): Series
    requires Supported(key.timeframe)
  {
    var open := B(o, key, t);
    var stale := o.policy.RejectStale? && x.closedAt.Some? && open <= x.closedAt.value;
    if x.cur.Some? then
      var b := x.cur.value;
      if open < b.candle.openTime then x
      else if o.policy.RejectStale? then
        if stale then x else x.(cur := Some(AddTick(b, t, o.mode)), active := Some(TimeOf(t)))
      else if open == b.candle.openTime then x.(cur := Some(AddTick(b, t, o.mode)), active := Some(TimeOf(t)))
      else CloseCur(x).(cur := Some(StartBar(o, key, t)), active := Some(TimeOf(t)))
    else if stale then x
    else x.(cur := Some(StartBar(o, key, t)), active := Some(TimeOf(t)))
  }

  function SeriesEvict(o: Options, x: Series, now: Instant): Series {
    if o.idleEvict > 0 && x.cur.Some? && x.active.Some? && now - x.active.value > o.idleEvict
    then CloseCur(x).(cur := None, active := None)
    else x
  }

  function Offers(o: Options, key: SeriesKey, x: Series, t: Tick, times: nat): Series
    requires Supported(key.timeframe)
  {
    if times == 0 then x else SeriesOffer(o, key, Offers(o, key, x, t, times - 1), t)
  }

  /** How often a timeframe is listed among the first `n`. */
  function Listed(tfs: seq<Timeframe>, tf: Timeframe, n: nat): nat
    requires n <= |tfs|
  {
    if n == 0 then 0 else Listed(tfs, tf, n - 1) + if tfs[n - 1] == tf then 1 else 0
  }

  function SeriesUpdate(o: Options, key: SeriesKey, x: Series, t: Tick, tfs: seq<Timeframe>): Series
    requires Supported(key.timeframe)
  {
    if t.symbol != key.symbol then x
    else Offers(o, key, SeriesEvict(o, x, TimeOf(t)), t, Listed(tfs, key.timeframe, |tfs|))
  }

  function SeriesRun(o: Options, key: SeriesKey, inputs: seq<Input>): Series
    requires Supported(key.timeframe)
  {
    if inputs == [] then IDLE
    else
      var x := inputs[|inputs| - 1];
      SeriesUpdate(o, key, SeriesRun(o, key, inputs[..|inputs| - 1]), x.tick, x.timeframes)
  }

  // ----- The aggregator seen from one series -----

  /** The candles of one series, in the order they were emitted. */
  function OfKey(cs: seq<Candle>, key: SeriesKey): seq<Candle> {
    if cs == [] then []
    else
      var c, before := cs[|cs| - 1], OfKey(cs[..|cs| - 1], key);
      if c.symbol == key.symbol && c.timeframe == key.timeframe then before + [c] else before
  }

  lemma {:induction false} OfKeyConcat(a: seq<Candle>, b: seq<Candle>, key: SeriesKey)
    ensures OfKey(a + b, key) == OfKey(a, key) + OfKey(b, key)
  {
    if b == [] {
      assert a + b == a;
    } else {
      assert (a + b)[..|a + b| - 1] == a + b[..|b| - 1];
      OfKeyConcat(a, b[..|b| - 1], key);
    }
  }

  lemma OfKeyOne(c: Candle, key: SeriesKey)
    ensures OfKey([c], key) == if c.symbol == key.symbol && c.timeframe == key.timeframe then [c] else []
  {
    assert [c][..0] == [];
  }

  function Seen(s: State, cs: seq<Candle>, key: SeriesKey): Series {
    Series(OfKey(cs, key),
           if key in s.bars then Some(s.bars[key]) else None,
           if key in s.lastActivity then Some(s.lastActivity[key]) else None,
           if key in s.lastClosed then Some(s.lastClosed[key]) else None)
  }

  /** Closing the bar of a series shows in that series only. */
  lemma CloseSeen(o: Options, s: State, cs: seq<Candle>, k: SeriesKey, key: SeriesKey)
    requires Inv(o, s) && k in s.bars
    ensures var (s', out) := CloseBar(s, k);
            Seen(s', cs + out, key) == if k == key then CloseCur(Seen(s, cs, key)) else Seen(s, cs, key)
  {
    var c := s.bars[k].candle;
    OfKeyConcat(cs, [c], key);
    OfKeyOne(c, key);
    assert cs + [] == cs;
    hide OfKey;
  }

  /** Adding a tick to a series shows in that series only. */
  lemma AddSeen(o: Options, s: State, cs: seq<Candle>, k: SeriesKey, b: Bar, t: Tick, key: SeriesKey)
    ensures Seen(AddTo(o, s, k, b, t), cs, key) ==
            if k == key then Seen(s, cs, key).(cur := Some(AddTick(b, t, o.mode)), active := Some(TimeOf(t)))
            else Seen(s, cs, key)
  {
    hide OfKey, AddTick;
  }

  lemma OrderUnseen(s: State, cs: seq<Candle>, order: seq<SeriesKey>, key: SeriesKey)
    ensures Seen(s.(order := order), cs, key) == Seen(s, cs, key)
  {
  }

  lemma OfferSeen(o: Options, s: State, cs: seq<Candle>, t: Tick, tf: Timeframe, key: SeriesKey)
    requires Inv(o, s) && Supported(tf) && Supported(key.timeframe)
    ensures var r := Offer(o, s, t, tf);
            Seen(r.state, cs + r.closed, key) ==
            if key == SeriesKey(t.symbol, tf) then SeriesOffer(o, key, Seen(s, cs, key), t) else Seen(s, cs, key)
  {
    assert cs + [] == cs;
    if SeriesKey(t.symbol, tf) in s.bars {
      OfferKnownSeen(o, s, cs, t, tf, key);
    } else {
      OfferFirstSeen(o, s, cs, t, tf, key);
    }
  }

  lemma OfferFirstSeen(o: Options, s: State, cs: seq<Candle>, t: Tick, tf: Timeframe, key: SeriesKey)
    requires Supported(tf) && Supported(key.timeframe)
    requires SeriesKey(t.symbol, tf) !in s.bars && cs + [] == cs
    ensures var r := Offer(o, s, t, tf);
            Seen(r.state, cs + r.closed, key) ==
            if key == SeriesKey(t.symbol, tf) then SeriesOffer(o, key, Seen(s, cs, key), t) else Seen(s, cs, key)
  {
    var k := SeriesKey(t.symbol, tf);
    var open := Bucket(TimeOf(t), tf, o.utcOffset);
    AddSeen(o, s.(order := s.order + [k]), cs, k, NewBar(k, open, open + Width(tf)), t, key);
    OrderUnseen(s, cs, s.order + [k], key);
    hide OfKey, AddTick, Bucket, Width, AddTo, NewBar;
  }

  lemma SeenFields(s: State, cs: seq<Candle>, key: SeriesKey)
    ensures var x := Seen(s, cs, key);
            && x.cur == (if key in s.bars then Some(s.bars[key]) else None)
            && x.closedAt == (if key in s.lastClosed then Some(s.lastClosed[key]) else None)
  {
  }

  lemma OfferKnownSeen(o: Options, s: State, cs: seq<Candle>, t: Tick, tf: Timeframe, key: SeriesKey)
    requires Inv(o, s) && Supported(tf) && Supported(key.timeframe)
    requires SeriesKey(t.symbol, tf) in s.bars && cs + [] == cs
    ensures var r := Offer(o, s, t, tf);
            Seen(r.state, cs + r.closed, key) ==
            if key == SeriesKey(t.symbol, tf) then SeriesOffer(o, key, Seen(s, cs, key), t) else Seen(s, cs, key)
  {
    hide OfKey, AddTick, Bucket, Width, Inv, CloseCur, CloseBar, AddTo, NewBar, Seen;
    var k := SeriesKey(t.symbol, tf);
    var open := Bucket(TimeOf(t), tf, o.utcOffset);
    SeenFields(s, cs, key);
    CloseSeen(o, s, cs, k, key);
    var (s', out) := CloseBar(s, k);
    AddSeen(o, s', cs + out, k, NewBar(k, open, open + Width(tf)), t, key);
    AddSeen(o, s, cs, k, s.bars[k], t, key);
  }

  lemma {:induction false} OfferToSeen(o: Options, s: State, cs: seq<Candle>, t: Tick, tfs: seq<Timeframe>,
      n: nat, key: SeriesKey)
    requires Inv(o, s) && Supported(key.timeframe)
    requires n <= |tfs| && forall i :: 0 <= i < n ==> Supported(tfs[i])
    ensures var (s', r) := OfferTo(o, s, t, tfs, n);
            && r.Some? && s' == r.value.state
            && Seen(s', cs + r.value.closed, key) ==
               if t.symbol == key.symbol then Offers(o, key, Seen(s, cs, key), t, Listed(tfs, key.timeframe, n))
               else Seen(s, cs, key)
  {
    hide Inv, Offer, Seen, SeriesOffer;
    if n == 0 {
      assert cs + [] == cs;
    } else {
      OfferToSeen(o, s, cs, t, tfs, n - 1, key);
      OfferToKeeps(o, s, t, tfs, n - 1);
      var (s1, r) := OfferTo(o, s, t, tfs, n - 1);
      OfferSeen(o, s1, cs + r.value.closed, t, tfs[n - 1], key);
      var more := Offer(o, s1, t, tfs[n - 1]).closed;
      assert cs + (r.value.closed + more) == cs + r.value.closed + more;
    }
  }

  lemma EvictOneSeen(o: Options, s: State, s0: State, cs: seq<Candle>, k: SeriesKey, key: SeriesKey)
    requires Inv(o, s0) && k in s.bars && k in s0.bars && s.bars[k] == s0.bars[k]
    ensures var (s', out) := EvictOne(s, k);
            Seen(s', cs + out, key) ==
            if k == key then CloseCur(Seen(s, cs, key)).(cur := None, active := None) else Seen(s, cs, key)
  {
    var c := s.bars[k].candle;
    OfKeyConcat(cs, [c], key);
    OfKeyOne(c, key);
    assert cs + [] == cs;
    hide OfKey, NoRepeats;
  }

  lemma SweepStepSeen(o: Options, s: State, w: Sweep, cs: seq<Candle>, symbol: string, now: Instant, n: nat,
      key: SeriesKey)
    requires Inv(o, s) && n < |s.order| && o.idleEvict > 0
    requires SweepInv(o, s, w, n)
    ensures var k := s.order[n];
            var x := Seen(w.state, cs + w.closed, key);
            if Keeps(o, w.state, k, symbol, now) then k == key && k.symbol == symbol ==> SeriesEvict(o, x, now) == x
            else Seen(EvictOne(w.state, k).0, cs + (w.closed + EvictOne(w.state, k).1), key) ==
                 if k == key then SeriesEvict(o, x, now) else x
  {
    var k := s.order[n];
    SweepHead(o, s, w, n);
    EvictOneSeen(o, w.state, s, cs + w.closed, k, key);
    SeenNow(w.state, cs + w.closed, k);
    assert cs + (w.closed + EvictOne(w.state, k).1) == cs + w.closed + EvictOne(w.state, k).1;
    hide OfKey, Inv, SweepInv, NoRepeats, EvictOne, CloseCur, Seen;
  }

  /** A sweep evicts a series when it comes to it, and leaves the others alone. */
  lemma {:induction false} SweepSeen(o: Options, s: State, cs: seq<Candle>, symbol: string, now: Instant,
      n: nat, key: SeriesKey)
    requires Inv(o, s) && n <= |s.order| && o.idleEvict > 0
    ensures var w := SweepTo(o, s, symbol, now, n);
            Seen(w.state, cs + w.closed, key) ==
            if key in s.order[..n] && key.symbol == symbol then SeriesEvict(o, Seen(s, cs, key), now)
                else Seen(s, cs, key)
  {
    if n == 0 {
      assert cs + [] == cs;
    } else {
      SweepSeen(o, s, cs, symbol, now, n - 1, key);
      SweepKeeps(o, s, symbol, now, n - 1);
      SweepStepSeen(o, s, SweepTo(o, s, symbol, now, n - 1), cs, symbol, now, n - 1, key);
      PrefixGrows(s.order, n, key);
      hide Inv, SweepInv, EvictOne, Seen, SeriesEvict;
    }
  }

  lemma PrefixGrows<T(!new)>(s: seq<T>, n: nat, x: T)
    requires NoRepeats(s) && 0 < n <= |s|
    ensures x in s[..n] <==> x in s[..n - 1] || x == s[n - 1]
    ensures s[n - 1] !in s[..n - 1]
  {
    assert s[..n] == s[..n - 1] + [s[n - 1]];
  }

  lemma SeenNow(s: State, cs: seq<Candle>, k: SeriesKey)
    requires k in s.bars && k in s.lastActivity
    ensures Seen(s, cs, k).cur == Some(s.bars[k]) && Seen(s, cs, k).active == Some(s.lastActivity[k])
  {
  }

  lemma EvictSeen(o: Options, s: State, cs: seq<Candle>, t: Tick, key: SeriesKey)
    requires Inv(o, s)
    ensures var e := EvictIdle(o, s, t.symbol, TimeOf(t));
            Seen(e.state, cs + e.closed, key) ==
            if t.symbol == key.symbol then SeriesEvict(o, Seen(s, cs, key), TimeOf(t)) else Seen(s, cs, key)
  {
    if o.idleEvict <= 0 {
      assert cs + [] == cs;
    } else {
      SweepSeen(o, s, cs, t.symbol, TimeOf(t), |s.order|, key);
      assert s.order[..|s.order|] == s.order;
      assert key !in s.order ==> key !in s.bars;
      hide SweepTo, OfKey, CloseCur;
    }
  }

  lemma UpdateSeen(o: Options, s: State, cs: seq<Candle>, t: Tick, tfs: seq<Timeframe>, key: SeriesKey)
    requires Inv(o, s) && Supported(key.timeframe)
    requires forall i :: 0 <= i < |tfs| ==> Supported(tfs[i])
    ensures var (s', r) := Update(o, s, t, tfs);
            && r.Some? && s' == r.value.state
            && Seen(s', cs + r.value.closed, key) == SeriesUpdate(o, key, Seen(s, cs, key), t, tfs)
  {
    var e := EvictIdle(o, s, t.symbol, TimeOf(t));
    EvictSeen(o, s, cs, t, key);
    EvictKeeps(o, s, t.symbol, TimeOf(t));
    OfferToSeen(o, e.state, cs + e.closed, t, tfs, |tfs|, key);
    var out := OfferTo(o, e.state, t, tfs, |tfs|).1.value.closed;
    assert cs + (e.closed + out) == cs + e.closed + out;
    hide Inv, OfferTo, Seen, EvictIdle, SeriesEvict;
  }

  /**
    Independence: over every run of updates on supported timeframes, the candles of a series
    and its bar in progress are those of its own machine.
   */
  lemma {:induction false} SeriesIndependent(o: Options, inputs: seq<Input>, key: SeriesKey)
    requires AllSupported(inputs) && Supported(key.timeframe)
    ensures Seen(Run(o, inputs).state, Run(o, inputs).closed, key) == SeriesRun(o, key, inputs)
  {
    if inputs != [] {
      var n := |inputs| - 1;
      SeriesIndependent(o, inputs[..n], key);
      RunInv(o, inputs[..n]);
      var before := Run(o, inputs[..n]);
      UpdateSeen(o, before.state, before.closed, inputs[n].tick, inputs[n].timeframes, key);
      hide Inv, Update, Seen, SeriesUpdate;
    }
  }

  lemma FlushOneSeen(o: Options, s: State, before: seq<Candle>, k: SeriesKey, key: SeriesKey)
    requires Inv(o, s) && k in s.bars
    ensures OfKey(before + [s.bars[k].candle], key) ==
            if k == key then OfKey(before, key) + [s.bars[k].candle] else OfKey(before, key)
  {
    OfKeyConcat(before, [s.bars[k].candle], key);
    OfKeyOne(s.bars[k].candle, key);
    hide OfKey, NoRepeats;
  }

  lemma FlushList(o: Options, s: State, n: nat)
    requires Inv(o, s) && 0 < n <= |s.order|
    ensures s.order[n - 1] in s.bars
    ensures InProgress(s, n) == InProgress(s, n - 1) + [s.bars[s.order[n - 1]].candle]
  {
    assert s.order[n - 1] in s.order;
  }

  /** Flushing emits the bar in progress of every series, once. */
  lemma {:induction false} FlushSeen(o: Options, s: State, n: nat, key: SeriesKey)
    requires Inv(o, s) && n <= |s.order|
    ensures OfKey(InProgress(s, n), key) == if key in s.order[..n] && key in s.bars then [s.bars[key].candle] else []
  {
    if n > 0 {
      FlushSeen(o, s, n - 1, key);
      var k := s.order[n - 1];
      assert k in s.order;
      PrefixGrows(s.order, n, key);
      FlushOneSeen(o, s, InProgress(s, n - 1), k, key);
      FlushList(o, s, n);
      hide OfKey, NoRepeats, InProgress, Inv;
    }
  }

  /** All candles of a series: those emitted by updates, then the one a flush emits. */
  function AllOf(x: Series): seq<Candle> {
    x.done + if x.cur.Some? then [x.cur.value.candle] else []
  }

  lemma UpdatesThenFlush(o: Options, inputs: seq<Input>, key: SeriesKey)
    requires AllSupported(inputs) && Supported(key.timeframe)
    ensures var r := Run(o, inputs);
            OfKey(r.closed + InProgress(r.state, |r.state.order|), key) == AllOf(SeriesRun(o, key, inputs))
  {
    var r := Run(o, inputs);
    SeriesIndependent(o, inputs, key);
    RunInv(o, inputs);
    FlushSeen(o, r.state, |r.state.order|, key);
    OfKeyConcat(r.closed, InProgress(r.state, |r.state.order|), key);
    assert r.state.order[..|r.state.order|] == r.state.order;
    hide Run, SeriesRun, OfKey;
  }
}
