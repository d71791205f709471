/**
  The aggregator as an object: builders mutated in place behind a map, and the order of series
  in a slice (a buffer and a length) that eviction compacts in place.
 */
module Aggregator {
  import opened Common
  import opened CandleTime
  import opened Bars
  import opened AggModel

  class Aggregator {
    const options: Options
    var bars: map<SeriesKey, BarBuilder>
    var buffer: array<SeriesKey>
    var length: nat
    var lastActivity: map<SeriesKey, Instant>
    var lastClosed: map<SeriesKey, Instant>

    /** Distinct series have distinct builders, and the slice fits its buffer. */
    ghost predicate Shape()
      reads this, buffer
    {
      && length <= buffer.Length
      && (forall j, k :: j in bars && k in bars && j != k ==> bars[j] != bars[k])
    }

    ghost predicate Valid()
      reads this, buffer, bars.Values
    {
      Shape() && Inv(options, View())
    }

    ghost function View(): State
      reads this, buffer, bars.Values
    {
      State(Built(), if length <= buffer.Length then buffer[..length] else [], lastActivity, lastClosed)
    }

    ghost function Built(): map<SeriesKey, Bar>
      reads this`bars, bars.Values
    {
      map k | k in bars :: bars[k].View()
    }

    lemma KeysBuilt()
      ensures Built().Keys == bars.Keys
    {
    }

    constructor (o: Options)
      ensures Valid() && options == o && View() == EMPTY
      ensures fresh(buffer) && bars == map[]
    {
      options := o;
      bars, length, lastActivity, lastClosed := map[], 0, map[], map[];
      buffer := new SeriesKey[0];
    }

    /** Go's `append` to the slice of keys: it moves to a larger buffer when this one is full. */
    method Append(key: SeriesKey)
      requires length <= buffer.Length
      modifies this`buffer, this`length, buffer
      ensures length == old(length) + 1 && length <= buffer.Length
      ensures buffer == old(buffer) || fresh(buffer)
      ensures buffer[..length] == old(buffer[..length]) + [key]
    {
      if length == buffer.Length {
        var larger := new SeriesKey[2 * length + 1];
        var i := 0;
        while i < length
          invariant length == old(length) && buffer == old(buffer) && unchanged(buffer)
          invariant 0 <= i <= length && larger[..i] == buffer[..i]
        {
          larger[i] := buffer[i];
          i := i + 1;
        }
        buffer := larger;
      }
      buffer[length] := key;
      length := length + 1;
    }

    method AddOneTo(key: SeriesKey, t: Tick)
      requires Shape() && key in bars
      modifies bars[key]
      ensures Built() == old(Built())[key := AddTick(old(Built())[key], t, options.mode)]
    {
      hide AddTick;
      bars[key].AddOne(t, options.mode);
    }

    /** Record a tick in the builder of a series and note the activity. */
    method Record(key: SeriesKey, t: Tick)
      requires Shape() && key in bars
      modifies bars[key], this`lastActivity
      ensures Shape()
      ensures View() == AddTo(options, old(View()), key, old(View()).bars[key], t)
    {
      hide AddTick, Built;
      KeysBuilt();
      AddOneTo(key, t);
      lastActivity := lastActivity[key := TimeOf(t)];
    }

    /** A new builder takes the place of whatever the series had. */
    method Install(key: SeriesKey, open: Instant, closeAt: Instant)
      requires Shape()
      modifies this`bars
      ensures Shape() && key in bars && fresh(bars[key]) && bars.Values <= old(bars.Values) + {bars[key]}
      ensures View() == old(View()).(bars := old(View()).bars[key := NewBar(key, open, closeAt)])
    {
      var created := new BarBuilder(key, open, closeAt);
      ghost var before := View();
      bars := bars[key := created];
      assert View().bars == before.bars[key := NewBar(key, open, closeAt)];
    }

    /** The first tick of a series: a builder, a place in the order, and the tick. */
    method Start(key: SeriesKey, open: Instant, closeAt: Instant, t: Tick)
      requires Shape() && key !in bars
      modifies this, buffer
      ensures Shape() && (buffer == old(buffer) || fresh(buffer)) && fresh(bars.Values - old(bars.Values))
      ensures View() == AddTo(options, old(View()).(order := old(View()).order + [key]), key, NewBar(key, open,
              closeAt), t)
    {
      hide NewBar, AddTick, Built;
      KeysBuilt();
      ghost var s := View();
      Append(key);
      assert View() == s.(order := s.order + [key]);
      Install(key, open, closeAt);
      Record(key, t);
      assert View().bars == s.bars[key := AddTick(NewBar(key, open, closeAt), t, options.mode)];
    }

    /** The candle of a series, noted as its last closed one, unless it has no ticks. */
    method Emit(key: SeriesKey) returns (closed: seq<Candle>)
      requires Shape() && key in bars
      modifies this`lastClosed
      ensures Shape()
      ensures View() == CloseBar(old(View()), key).0 && closed == CloseBar(old(View()), key).1
    {
      var builder := bars[key];
      assert View().bars[key] == builder.View();
      closed := [];
      if builder.candle.tradeCount > 0 {
        closed := [builder.candle];
        lastClosed := lastClosed[key := builder.candle.openTime];
      }
    }

    /** A later bucket: the bar is emitted if it has ticks, and a new one takes the tick. */
    method RollOver(key: SeriesKey, open: Instant, closeAt: Instant, t: Tick) returns (closed: seq<Candle>)
      requires Shape() && key in bars
      modifies this
      ensures Shape() && buffer == old(buffer) && fresh(bars.Values - old(bars.Values))
      ensures var (s', out) := CloseBar(old(View()), key);
              closed == out && View() == AddTo(options, s', key, NewBar(key, open, closeAt), t)
    {
      hide NewBar, AddTick, CloseBar, Shape, Built;
      closed := Emit(key);
      ghost var s := View();
      assert View().bars.Keys == bars.Keys by { KeysBuilt(); }
      Install(key, open, closeAt);
      Record(key, t);
      assert View().bars == s.bars[key := AddTick(NewBar(key, open, closeAt), t, options.mode)];
    }

    /** One tick in one timeframe. */
    method Offer(t: Tick, tf: Timeframe) returns (closed: seq<Candle>, rejected: nat)
      requires Valid() && Supported(tf)
      modifies this, buffer, bars.Values
      ensures Valid() && (buffer == old(buffer) || fresh(buffer)) && fresh(bars.Values - old(bars.Values))
      ensures Step(View(), closed, rejected) == AggModel.Offer(options, old(View()), t, tf)
    {
      OfferKeeps(options, View(), t, tf);
      closed, rejected := OfferUnchecked(t, tf);
    }

    method OfferUnchecked(t: Tick, tf: Timeframe) returns (closed: seq<Candle>, rejected: nat)
      requires Shape() && Supported(tf)
      modifies this, buffer, bars.Values
      ensures Shape() && (buffer == old(buffer) || fresh(buffer)) && fresh(bars.Values - old(bars.Values))
      ensures Step(View(), closed, rejected) == AggModel.Offer(options, old(View()), t, tf)
    {
      hide AddTo, Bucket, Width, NewBar, CloseBar;
      ghost var s := View();
      closed, rejected := [], 0;
      var key := SeriesKey(t.symbol, tf);
      var open := Bucket(TimeOf(t), tf, options.utcOffset);
      if key in bars {
        closed, rejected := OfferKnown(t, tf, open);
      } else if options.policy.RejectStale? && key in lastClosed && open <= lastClosed[key] {
        rejected := 1;
      } else {
        Start(key, open, open + Width(tf), t);
      }
    }

    /** A tick of a series that has a bar in progress. */
    method OfferKnown(t: Tick, tf: Timeframe, open: Instant) returns (closed: seq<Candle>, rejected: nat)
      requires Shape() && Supported(tf) && SeriesKey(t.symbol, tf) in bars
      requires open == Bucket(TimeOf(t), tf, options.utcOffset)
      modifies this, bars.Values
      ensures Shape() && buffer == old(buffer) && fresh(bars.Values - old(bars.Values))
      ensures Step(View(), closed, rejected) == AggModel.Offer(options, old(View()), t, tf)
    {
      hide AddTo, Bucket, Width, NewBar, CloseBar;
      ghost var s := View();
      closed, rejected := [], 0;
      var key := SeriesKey(t.symbol, tf);
      var builder := bars[key];
      assert s.bars[key] == builder.View();
      if open < builder.candle.openTime {
        rejected := 1;
      } else if options.policy.RejectStale? {
        if key in lastClosed && open <= lastClosed[key] {
          rejected := 1;
        } else {
          Record(key, t);
        }
      } else if open == builder.candle.openTime {
        Record(key, t);
      } else {
        closed := RollOver(key, open, open + Width(tf), t);
      }
    }

    /** Eviction of one series: its candle if it has ticks, then its builder and activity go. */
    method EvictSeries(key: SeriesKey) returns (closed: seq<Candle>)
      requires Shape() && key in bars
      modifies this`bars, this`lastActivity, this`lastClosed
      ensures Shape() && bars == old(bars) - {key}
      ensures View() == EvictOne(old(View()), key).0 && closed == EvictOne(old(View()), key).1
    {
      hide CloseBar;
      closed := Emit(key);
      ghost var s := View();
      bars := bars - {key};
      lastActivity := lastActivity - {key};
      assert View().bars == s.bars - {key};
    }

    /** One step of the sweep: keep the key, moving it down, or evict its series. */
    method Visit(symbol: string, now: Instant, keep: nat, i: nat, ghost order: seq<SeriesKey>)
      returns (next: nat, out: seq<Candle>)
      requires Shape() && keep <= i < length <= buffer.Length && buffer[i] in bars && buffer[i] in lastActivity
      modifies this`bars, this`lastActivity, this`lastClosed, buffer
      ensures Shape() && SubmapOf(bars, old(bars)) && keep <= next <= i + 1
      ensures forall j :: i < j < length ==> buffer[j] == old(buffer[j])
      ensures var key, s := old(buffer[i]), old(View()).(order := order);
              if Keeps(options, s, key, symbol, now) then
                View().(order := order) == s && out == [] && buffer[..next] == old(buffer[..keep]) + [key]
              else
                View().(order := order) == EvictOne(s, key).0 && out == EvictOne(s, key).1
                && buffer[..next] == old(buffer[..keep])
    {
      next, out := keep, [];
      var key := buffer[i];
      if key.symbol != symbol || now - lastActivity[key] <= options.idleEvict {
        buffer[keep] := key;
        next := keep + 1;
      } else {
        out := EvictSeries(key);
      }
    }

    /** The sweep has looked at `i` keys of state `s`: the rest of the slice is untouched. */
    ghost predicate Swept(s: State, symbol: string, now: Instant, keep: nat, i: nat, closed: seq<Candle>)
      reads this, buffer, bars.Values
    {
      && keep <= i <= |s.order| == length <= buffer.Length
      && (forall j :: i <= j < length ==> buffer[j] == s.order[j])
      && Sweep(View().(order := s.order), buffer[..keep], closed) == SweepTo(options, s, symbol, now, i)
    }

    method VisitNext(symbol: string, now: Instant, keep: nat, i: nat, closed: seq<Candle>, ghost s: State)
      returns (next: nat, out: seq<Candle>)
      requires Shape() && Inv(options, s) && i < length && Swept(s, symbol, now, keep, i, closed)
      modifies this`bars, this`lastActivity, this`lastClosed, buffer
      ensures Shape() && SubmapOf(bars, old(bars))
      ensures Swept(s, symbol, now, next, i + 1, out)
    {
      hide NoRepeats, SweepInv, Inv, EvictOne, Keeps, Built;
      SweepKeeps(options, s, symbol, now, i);
      SweepHead(options, s, SweepTo(options, s, symbol, now, i), i);
      KeysBuilt();
      next, out := Visit(symbol, now, keep, i, s.order);
      out := closed + out;
    }

    /** The sweep over the slice; the write position never passes the read position. */
    method Compact(symbol: string, now: Instant) returns (closed: seq<Candle>)
      requires Shape() && Inv(options, View())
      modifies this, buffer
      ensures Shape() && buffer == old(buffer) && SubmapOf(bars, old(bars))
      ensures var w := SweepTo(options, old(View()), symbol, now, |old(View()).order|);
              View() == w.state.(order := w.kept) && closed == w.closed
    {
      hide Inv, Built, Swept, View, Shape, SweepTo, SubmapOf;
      ghost var s := View();
      closed := [];
      var keep, i := 0, 0;
      SweepBegins(symbol, now);
      SubmapSelf(bars);
      while i < length
        invariant length == old(length) && buffer == old(buffer) && i <= length && Shape()
        invariant SubmapOf(bars, old(bars))
        invariant Swept(s, symbol, now, keep, i, closed)
      {
        ghost var before := bars;
        keep, closed := VisitNext(symbol, now, keep, i, closed, s);
        SubmapChain(bars, before, old(bars));
        i := i + 1;
      }
      SweepDone(s, symbol, now, keep, closed);
      Shorten(keep);
    }

    lemma SweepBegins(symbol: string, now: Instant)
      requires Shape()
      ensures Swept(View(), symbol, now, 0, 0, []) && |View().order| == length
    {
    }

    lemma SweepDone(s: State, symbol: string, now: Instant, keep: nat, closed: seq<Candle>)
      requires Swept(s, symbol, now, keep, length, closed)
      ensures keep <= length == |s.order|
      ensures Sweep(View().(order := s.order), buffer[..keep], closed) == SweepTo(options, s, symbol, now, |s.order|)
    {
    }

    method Shorten(keep: nat)
      requires Shape() && keep <= length
      modifies this`length
      ensures Shape() && length == keep && View() == old(View()).(order := buffer[..keep])
    {
      length := keep;
    }

    static ghost predicate SubmapOf(a: map<SeriesKey, BarBuilder>, b: map<SeriesKey, BarBuilder>) {
      forall k :: k in a ==> k in b && a[k] == b[k]
    }

    static lemma SubmapSelf(a: map<SeriesKey, BarBuilder>)
      ensures SubmapOf(a, a)
    {
    }

    static lemma SubmapChain(a: map<SeriesKey, BarBuilder>, b: map<SeriesKey, BarBuilder>,
                             c: map<SeriesKey, BarBuilder>)
      requires SubmapOf(a, b) && SubmapOf(b, c)
      ensures SubmapOf(a, c)
    {
    }

    /** Eviction of the idle series of a symbol, in place. */
    method EvictIdle(symbol: string, now: Instant) returns (closed: seq<Candle>)
      requires Valid() && options.idleEvict > 0
      modifies this, buffer
      ensures Valid() && buffer == old(buffer) && bars.Values <= old(bars.Values)
      ensures Step(View(), closed, 0) == AggModel.EvictIdle(options, old(View()), symbol, now)
    {
      EvictKeeps(options, View(), symbol, now);
      closed := Compact(symbol, now);
      assert bars.Values <= old(bars.Values);
      hide Inv, SweepTo;
    }

    /**
      An update: evict, then offer the tick to every timeframe. On an unsupported timeframe it
      returns no candles, and what was evicted or closed until then is only counted.
     */
    method Update(t: Tick, tfs: seq<Timeframe>)
      returns (closed: seq<Candle>, rejected: nat, evicted: nat, ok: bool)
      requires Valid()
      modifies this, buffer, bars.Values
      ensures Valid() && (buffer == old(buffer) || fresh(buffer)) && fresh(bars.Values - old(bars.Values))
      ensures var (s', r) := AggModel.Update(options, old(View()), t, tfs);
              && View() == s' && ok == r.Some?
              && (if ok then r.value == Step(s', closed, rejected) else closed == [])
      ensures rejected == Rejections(options, old(View()), t, tfs)
      ensures evicted == |AggModel.EvictIdle(options, old(View()), t.symbol, TimeOf(t)).closed|
    {
      hide AggModel.Offer, AggModel.EvictIdle, AggModel.Update, OfferTo, Rejections, SupportedUpTo, Built, Shape, Inv;
      closed, rejected := [], 0;
      if options.idleEvict > 0 {
        closed := EvictIdle(t.symbol, TimeOf(t));
      }
      NoEviction(options, old(View()), t.symbol, TimeOf(t));
      evicted := |closed|;
      ghost var before := closed;
      ghost var e := View();
      NothingOffered(options, e, t, tfs);
      var i := 0;
      while i < |tfs|
        invariant 0 <= i <= |tfs|
        invariant Valid() && (buffer == old(buffer) || fresh(buffer)) && fresh(bars.Values - old(bars.Values))
        invariant var (s', r) := OfferTo(options, e, t, tfs, i);
                  r.Some? && View() == s' && r.value == Step(s', r.value.closed, rejected)
                  && closed == before + r.value.closed
        invariant forall j :: 0 <= j < i ==> Supported(tfs[j])
      {
        if !Supported(tfs[i]) {
          SupportedEnds(tfs, i);
          UpdateEnds(options, old(View()), t, tfs, i);
          return [], rejected, evicted, false;
        }
        OfferToNext(options, e, t, tfs, i);
        var out, n := Offer(t, tfs[i]);
        closed := closed + out;
        rejected := rejected + n;
        i := i + 1;
      }
      SupportedEnds(tfs, |tfs|);
      UpdateEnds(options, old(View()), t, tfs, |tfs|);
      return closed, rejected, evicted, true;
    }

    lemma NothingOffered(o: Options, s: State, t: Tick, tfs: seq<Timeframe>)
      ensures OfferTo(o, s, t, tfs, 0) == (s, Some(Step(s, [], 0)))
    {
    }

    lemma NoEviction(o: Options, s: State, symbol: string, now: Instant)
      ensures o.idleEvict <= 0 ==> AggModel.EvictIdle(o, s, symbol, now) == Step(s, [], 0)
    {
    }

    /** Everything in progress, in order; afterwards the aggregator is as new. */
    method Flush() returns (out: seq<Candle>)
      requires Valid()
      modifies this
      ensures Valid() && buffer == old(buffer)
      ensures View() == EMPTY && out == InProgress(old(View()), |old(View()).order|)
    {
      hide InProgress;
      ghost var s := View();
      out := ListInProgress();
      bars, length, lastActivity, lastClosed := map[], 0, map[], map[];
      assert View() == EMPTY;
    }

    /** Everything in progress, in order; a snapshot leaves it in progress. */
    method ListInProgress() returns (out: seq<Candle>)
      requires Shape()
      ensures out == InProgress(View(), |View().order|)
    {
      out := [];
      var i := 0;
      ghost var s := View();
      while i < length
        invariant 0 <= i <= length && out == InProgress(s, i)
      {
        var key := buffer[i];
        assert s.order[i] == key;
        if key in bars && bars[key].candle.tradeCount > 0 {
          assert s.bars[key] == bars[key].View();
          out := out + [bars[key].candle];
        }
        i := i + 1;
      }
    }
  }
}
