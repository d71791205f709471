/**
  What the counters of a simulation count: what became of every signal, bar by bar, and how a run ends.
 */
module SimCounts {
  import opened Common
  import opened SimModel
  import opened SimProofs
  import opened SimTheorems

  /** What one signal adds to the counters, by what it did to the direction held. */
  ghost predicate TalliesLaw(s: State, t: State, d: Decision) {
    var was, now := PositionFromOpen(s.pos), PositionFromOpen(t.pos);
    var m, n := s.metrics, t.metrics;
    && n.buySignals == m.buySignals + (if d.Buy? then 1 else 0)
    && n.sellSignals == m.sellSignals + (if d.Sell? then 1 else 0)
    && n.exitSignals == m.exitSignals + (if d.Exit? then 1 else 0)
    && n.ignoredBuyLong == m.ignoredBuyLong + (if d.Buy? && was == InLong then 1 else 0)
    && n.ignoredSellShort == m.ignoredSellShort + (if d.Sell? && was == InShort then 1 else 0)
    && n.ignoredExitFlat == m.ignoredExitFlat + (if d.Exit? && was == Flat then 1 else 0)
    && n.opensLong == m.opensLong + (if was != InLong && now == InLong then 1 else 0)
    && n.opensShort == m.opensShort + (if was != InShort && now == InShort then 1 else 0)
    && n.closes == m.closes + (if was != Flat && now != was then 1 else 0)
    && n.endOfDataCloses == m.endOfDataCloses
  }

  lemma ActTallies(cfg: Config, strat: Strategy, s: State, c: Candle, bar: nat, sig: Signal)
    ensures TalliesLaw(s, Act(cfg, strat, s, c, bar, sig), sig.decision)
  {
    hide ClosePosition, CanOpen, FillPrice;
  }

  /** A bar after warmup counts its signal, whether it was ignored, and what it opened and closed. */
  lemma BarTallies(cfg: Config, strat: Strategy, useStore: bool, candles: seq<Candle>, i: nat)
    requires i < |candles| && strat.warmup <= i
    ensures var s, t := After(cfg, strat, useStore, candles, i), After(cfg, strat, useStore, candles, i + 1);
            TalliesLaw(s, t, SignalAt(strat, t.seen, i).decision)
  {
    var s := After(cfg, strat, useStore, candles, i);
    var o := Observe(strat, useStore, s, candles[i], i);
    var sig := strat.evaluate(o.seen);
    assert o.seen[..i + 1] == o.seen;
    ActTallies(cfg, strat, o, candles[i], i, sig);
    SameTallies(strat, useStore, s, candles[i], i, Act(cfg, strat, o, candles[i], i, sig), sig.decision);
    hide Act, TalliesLaw, Observe;
  }

  lemma SameTallies(strat: Strategy, useStore: bool, s: State, c: Candle, i: nat, t: State, d: Decision)
    requires TalliesLaw(Observe(strat, useStore, s, c, i), t, d)
    ensures TalliesLaw(s, t, d)
  {
    hide ContextAt, Tail;
  }

  /** During warmup the signals are dropped: nothing is counted, opened or booked. */
  lemma {:induction false} WarmupDropped(cfg: Config, strat: Strategy, useStore: bool, candles: seq<Candle>, n: nat)
    requires n <= |candles| && (n == 0 || n - 1 < strat.warmup)
    ensures var s := After(cfg, strat, useStore, candles, n);
            s.pos.None? && s.trades == [] && s.metrics == Metrics(0, 0, 0, 0, 0, 0, 0, 0, 0, 0)
  {
    hide UpdateExcursion, ContextAt, Tail, Act;
    if n > 0 {
      WarmupDropped(cfg, strat, useStore, candles, n - 1);
    }
  }

  /**
    A run closes at the end of the data exactly what its last bar left open: then its last trade ends
    on the last bar and says so, and otherwise nothing is added.
   */
  lemma EndOfDataCloses(cfg: Config, strat: Strategy, useStore: bool, candles: seq<Candle>)
    ensures var s, r := After(cfg, strat, useStore, candles, |candles|), Result(cfg, strat, useStore, candles);
            && r.pos.None?
            && (s.pos.None? ==> r.trades == s.trades && r.metrics == s.metrics)
            && (s.pos.Some? ==>
                  && |r.trades| == |s.trades| + 1 && s.trades <= r.trades
                  && r.metrics == s.metrics.(closes := s.metrics.closes + 1, endOfDataCloses := 1)
                  && var t, last := r.trades[|s.trades|], candles[|candles| - 1];
                     && t.exitReason == "end of data" && t.exitTime == last.closeTime
                     && t.exitSignal.decision.Exit? && t.exitSignal.generatedAt == last.closeTime)
  {
    NoEarlyEnd(cfg, strat, useStore, candles, |candles|);
    NothingYet(cfg, strat, useStore);
    hide After, FillPrice, GrossPnL, SlippageFromFill;
  }

  lemma NothingYet(cfg: Config, strat: Strategy, useStore: bool)
    ensures After(cfg, strat, useStore, [], 0).pos.None?
  {
  }

  // ----- What the strategy is shown -----

  lemma BarShows(cfg: Config, strat: Strategy, useStore: bool, s: State, c: Candle, bar: nat)
    ensures OnBar(cfg, strat, useStore, s, c, bar).seen == s.seen + [ContextAt(s, useStore, c, bar)]
  {
    hide Act, ContextAt, Tail, UpdateExcursion;
  }

  /**
    On every bar, in both modes, the strategy is shown the bar, its number and the direction held when
    the bar arrives; with a store of its own it is given no history.
   */
  lemma {:induction false} PositionShown(cfg: Config, strat: Strategy, useStore: bool, candles: seq<Candle>,
      n: nat, j: nat)
    requires j < n <= |candles|
    ensures var x, held := After(cfg, strat, useStore, candles, n).seen[j],
                After(cfg, strat, useStore, candles, j).pos;
            && x.candle == candles[j] && x.barIndex == j
            && (held.None? ==> x.position == Flat)
            && (held.Some? && held.value.direction.Long? ==> x.position == InLong)
            && (held.Some? && held.value.direction.Short? ==> x.position == InShort)
            && (useStore ==> x.history == [])
  {
    hide OnBar;
    BarShows(cfg, strat, useStore, After(cfg, strat, useStore, candles, n - 1), candles[n - 1], n - 1);
    if j < n - 1 {
      PositionShown(cfg, strat, useStore, candles, n - 1, j);
    }
  }
}
