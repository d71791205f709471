/**
  The simulator itself: journal, metrics and the bar loop, refining the state machine.
 */
module Simulator {
  import opened Common
  import opened SimModel

  class Journal {
    var trades: seq<Trade>

    constructor ()
      ensures trades == []
    {
      trades := [];
    }

    method Add(trade: Trade)
      modifies this
      ensures trades == old(trades) + [trade]
    {
      trades := trades + [trade];
    }
  }

  class SimulationMetrics {
    var buySignals: nat
    var sellSignals: nat
    var exitSignals: nat
    var opensLong: nat
    var opensShort: nat
    var closes: nat
    var ignoredBuyLong: nat
    var ignoredSellShort: nat
    var ignoredExitFlat: nat
    var endOfDataCloses: nat

    function View(): Metrics
      reads this
    {
      Metrics(buySignals, sellSignals, exitSignals, opensLong, opensShort, closes,
              ignoredBuyLong, ignoredSellShort, ignoredExitFlat, endOfDataCloses)
    }

    method Reset()
      modifies this
      ensures View() == NO_METRICS
    {
      buySignals, sellSignals, exitSignals := 0, 0, 0;
      opensLong, opensShort, closes := 0, 0, 0;
      ignoredBuyLong, ignoredSellShort, ignoredExitFlat, endOfDataCloses := 0, 0, 0, 0;
    }
  }

  class Simulator {
    const cfg: Config

    constructor (c: Config)
      ensures cfg == WithDefaults(c)
    {
      cfg := WithDefaults(c);
    }

    method CanOpenNow(journal: Journal) returns (ok: bool)
      ensures ok == CanOpen(cfg, journal.trades)
    {
      var equity, i := cfg.initialCapital, 0;
      var trades := journal.trades;
      while i < |trades|
        invariant 0 <= i <= |trades|
        invariant equity == cfg.initialCapital + Sum(NetProfits(trades[..i]))
      {
        assert NetProfits(trades[..i + 1])[..i] == NetProfits(trades[..i]);
        equity := equity + trades[i].netProfit;
        i := i + 1;
      }
      assert trades[..i] == trades;
      return equity > 0.0;
    }

    /** A buy or a sell: reverse or open, as the equity allows. */
    method Enter(strat: Strategy, dir: Direction, journal: Journal, metrics: SimulationMetrics?,
                 pos: Option<OpenPosition>, c: Candle, bar: nat, sig: Signal, ghost s: State)
      returns (next: Option<OpenPosition>)
      requires pos == s.pos && journal.trades == s.trades && (metrics != null ==> metrics.View() == s.metrics)
      modifies journal, metrics
      ensures var t := SimModel.Enter(cfg, strat, s, dir, c, bar, sig);
              next == t.pos && journal.trades == t.trades && (metrics != null ==> metrics.View() == t.metrics)
    {
      hide ClosePosition, CanOpen, OpenAt;
      next := pos;
      if next.Some? {
        journal.Add(ClosePosition(cfg, strat, next.value, c, bar, sig));
        if metrics != null {
          metrics.closes := metrics.closes + 1;
        }
        next := None;
      }
      var ok := CanOpenNow(journal);
      if ok {
        next := Some(OpenAt(cfg, dir, c, bar, sig));
        if metrics != null {
          if dir.Long? {
            metrics.opensLong := metrics.opensLong + 1;
          } else {
            metrics.opensShort := metrics.opensShort + 1;
          }
        }
      }
    }

    /** The signal switch of one bar. */
    method HandleSignal(strat: Strategy, journal: Journal, metrics: SimulationMetrics?,
                        pos: Option<OpenPosition>, c: Candle, bar: nat, sig: Signal, ghost s: State)
      returns (next: Option<OpenPosition>)
      requires pos == s.pos && journal.trades == s.trades && (metrics != null ==> metrics.View() == s.metrics)
      modifies journal, metrics
      ensures var t := Act(cfg, strat, s, c, bar, sig);
              next == t.pos && journal.trades == t.trades && (metrics != null ==> metrics.View() == t.metrics)
    {
      hide SimModel.Enter, ClosePosition;
      next := pos;
      ghost var m := s.metrics;
      if !IsAction(sig) {
        return;
      }
      match sig.decision
      case Buy =>
        if metrics != null {
          metrics.buySignals := metrics.buySignals + 1;
        }
        if pos.Some? && pos.value.direction.Long? {
          if metrics != null {
            metrics.ignoredBuyLong := metrics.ignoredBuyLong + 1;
          }
          return;
        }
        next := Enter(strat, Long, journal, metrics, pos, c, bar, sig,
            s.(metrics := m.(buySignals := m.buySignals + 1)));
      case Sell =>
        if metrics != null {
          metrics.sellSignals := metrics.sellSignals + 1;
        }
        if pos.Some? && pos.value.direction.Short? {
          if metrics != null {
            metrics.ignoredSellShort := metrics.ignoredSellShort + 1;
          }
          return;
        }
        next := Enter(strat, Short, journal, metrics, pos, c, bar, sig,
            s.(metrics := m.(sellSignals := m.sellSignals + 1)));
      case Exit =>
        if metrics != null {
          metrics.exitSignals := metrics.exitSignals + 1;
        }
        if pos.None? {
          if metrics != null {
            metrics.ignoredExitFlat := metrics.ignoredExitFlat + 1;
          }
          return;
        }
        journal.Add(ClosePosition(cfg, strat, pos.value, c, bar, sig));
        if metrics != null {
          metrics.closes := metrics.closes + 1;
        }
        next := None;
    }

    /** The end of the data closes whatever is still open. */
    method CloseAtEnd(strat: Strategy, journal: Journal, metrics: SimulationMetrics?, pos: OpenPosition,
                      last: Candle, bar: nat, ghost s: State)
      requires s.pos == Some(pos) && journal.trades == s.trades && (metrics != null ==> metrics.View() == s.metrics)
      modifies journal, metrics
      ensures var t := Close(cfg, strat, s, last, bar, EndOfData(last));
              && journal.trades == t.trades
              && (metrics != null ==> metrics.View() == t.metrics.(endOfDataCloses := s.metrics.endOfDataCloses + 1))
    {
      hide ClosePosition;
      journal.Add(ClosePosition(cfg, strat, pos, last, bar, EndOfData(last)));
      if metrics != null {
        metrics.endOfDataCloses := metrics.endOfDataCloses + 1;
        metrics.closes := metrics.closes + 1;
      }
    }

    /** One bar: show it to the strategy, move the excursions, act on the signal. */
    method HandleBar(strat: Strategy, useStore: bool, journal: Journal, metrics: SimulationMetrics?,
                     pos: Option<OpenPosition>, history: seq<Candle>, seen: seq<Context>,
                     candle: Candle, i: nat, ghost s: State)
      returns (nextPos: Option<OpenPosition>, nextHistory: seq<Candle>, nextSeen: seq<Context>)
      requires pos == s.pos && history == s.history && seen == s.seen
      requires journal.trades == s.trades && (metrics != null ==> metrics.View() == s.metrics)
      modifies journal, metrics
      ensures var t := OnBar(cfg, strat, useStore, s, candle, i);
              && nextPos == t.pos && nextHistory == t.history && nextSeen == t.seen && journal.trades == t.trades
              && (metrics != null ==> metrics.View() == t.metrics)
    {
      hide Act, ClosePosition, UpdateExcursion, Tail;
      var ctx := Context(candle, if useStore then [] else history, PositionFromOpen(pos),
                         if IsZeroTime(candle.closeTime) then candle.openTime else candle.closeTime, i);
      nextPos := pos;
      if i >= strat.warmup && pos.Some? {
        nextPos := Some(UpdateExcursion(pos.value, candle));
      }
      nextSeen := seen + [ctx];
      var sig := strat.evaluate(nextSeen);
      nextHistory := history;
      if !useStore {
        nextHistory := Tail(history + [candle], HistoryCap(strat));
      }
      if i >= strat.warmup {
        nextPos := HandleSignal(strat, journal, metrics, nextPos, candle, i, sig, Observe(strat, useStore, s,
            candle, i));
      }
    }

    /**
      The bar loop. The journal and the metrics it leaves are those of the state machine; with
      no strategy or no candles the journal is empty and the metrics are not touched.
     */
    method RunWithMetrics(strategy: Option<Strategy>, candles: seq<Candle>, useStore: bool, metrics: SimulationMetrics?)
      returns (journal: Journal)
      modifies metrics
      ensures fresh(journal)
      ensures strategy.None? || candles == [] ==> journal.trades == [] && (metrics != null ==> unchanged(metrics))
      ensures strategy.Some? && candles != [] ==>
                var r := Result(cfg, strategy.value, useStore, candles);
                journal.trades == r.trades && (metrics != null ==> metrics.View() == r.metrics)
    {
      journal := new Journal();
      if strategy.None? || |candles| == 0 {
        return;
      }
      if metrics != null {
        metrics.Reset();
      }
      hide OnBar, ClosePosition;
      var strat := strategy.value;
      var history: seq<Candle>, seen: seq<Context>, pos: Option<OpenPosition> := [], [], None;
      var i := 0;
      while i < |candles|
        invariant 0 <= i <= |candles| && fresh(journal)
        invariant var s := After(cfg, strat, useStore, candles, i);
                  && pos == s.pos && history == s.history && seen == s.seen && journal.trades == s.trades
                  && (metrics != null ==> metrics.View() == s.metrics)
      {
        pos, history, seen := HandleBar(strat, useStore, journal, metrics, pos, history, seen, candles[i], i,
                                        After(cfg, strat, useStore, candles, i));
        i := i + 1;
      }
      if pos.Some? {
        CloseAtEnd(strat, journal, metrics, pos.value, candles[|candles| - 1], |candles| - 1,
                   After(cfg, strat, useStore, candles, |candles|));
      }
    }
  }
}
