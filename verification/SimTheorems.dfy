/**
  The main results about a whole simulation: the ledger it produces, the accounting of
  signals, what the strategy is shown, and the cost identity of a trade.
 */
module SimTheorems {
  import opened Common
  import opened SimModel
  import opened SimProofs
  import Drawdown

  // ----- The ledger of a run -----

  /** The signal recorded as the exit of trade `k`: the strategy's, or the end of the data. */
  function ExitSignalOf(strat: Strategy, candles: seq<Candle>, r: State, k: nat): Signal
    requires k < |r.spans| && r.spans[k].exit < |r.seen| && candles != []
  {
    if k == |r.spans| - 1 && r.metrics.endOfDataCloses > 0 then EndOfData(candles[|candles| - 1])
    else SignalAt(strat, r.seen, r.spans[k].exit)
  }

  lemma {:induction false} NoEarlyEnd(cfg: Config, strat: Strategy, useStore: bool, candles: seq<Candle>, n: nat)
    requires n <= |candles|
    ensures After(cfg, strat, useStore, candles, n).metrics.endOfDataCloses == 0
  {
    hide UpdateExcursion, ClosePosition, CanOpen, OpenAt, ContextAt, Tail;
    if n > 0 {
      NoEarlyEnd(cfg, strat, useStore, candles, n - 1);
    }
  }

  /** A complete ledger: flat, ordered, and each trade exactly what its span stands for. */
  ghost predicate IsLedger(cfg: Config, strat: Strategy, candles: seq<Candle>, r: State) {
    && r.pos.None? && |r.spans| == |r.trades| && |r.seen| == |candles|
    && Chained(r.spans)
    && (forall k :: 0 <= k < |r.spans| ==>
          && strat.warmup <= r.spans[k].entry <= r.spans[k].exit < |candles|
          && (r.spans[k].entry == r.spans[k].exit ==> k == |r.spans| - 1 && r.spans[k].exit == |candles| - 1)
          && r.trades[k] == TradeOf(cfg, strat, candles, r.spans[k], SignalAt(strat, r.seen, r.spans[k].entry),
                                    ExitSignalOf(strat, candles, r, k)))
  }

  lemma FlatLedger(cfg: Config, strat: Strategy, candles: seq<Candle>, s: State)
    requires Inv(cfg, strat, candles, s, |candles|) && s.pos.None? && s.metrics.endOfDataCloses == 0
    ensures IsLedger(cfg, strat, candles, s)
  {
    hide Chained, TradeOf, SignalAt, Funded;
    forall k | 0 <= k < |s.spans|
      ensures Booked(cfg, strat, candles, s, k)
    {
    }
  }

  lemma ClosedLedger(cfg: Config, strat: Strategy, candles: seq<Candle>, s: State, r: State)
    requires Inv(cfg, strat, candles, s, |candles|) && s.pos.Some?
    requires var last := |candles| - 1;
             && r.seen == s.seen && r.pos.None? && r.metrics.endOfDataCloses > 0
             && r.trades == Close(cfg, strat, s, candles[last], last, EndOfData(candles[last])).trades
             && r.spans == Close(cfg, strat, s, candles[last], last, EndOfData(candles[last])).spans
    ensures IsLedger(cfg, strat, candles, r)
    ensures Funded(cfg, r.trades, |r.trades|)
  {
    var last := |candles| - 1;
    CloseBooks(cfg, strat, candles, s, last, EndOfData(candles[last]));
    hide Chained, TradeOf, SignalAt, Funded, PositionAt, Close;
    forall k | 0 <= k < |s.spans|
      ensures Booked(cfg, strat, candles, s, k)
    {
    }
  }

  /**
    Every run ends flat. Its trades follow one another: each opens at or after warmup, ends on
    a later bar (only a trade opened on the last bar ends where it began), and starts no
    earlier than the bar on which the previous one ended. Each is exactly the trade its span
    stands for, computed from the candles alone.
   */
  lemma Ledger(cfg: Config, strat: Strategy, useStore: bool, candles: seq<Candle>)
    ensures IsLedger(cfg, strat, candles, Result(cfg, strat, useStore, candles))
    ensures var r := Result(cfg, strat, useStore, candles); Funded(cfg, r.trades, |r.trades|)
  {
    var n := |candles|;
    var s := After(cfg, strat, useStore, candles, n);
    AfterInv(cfg, strat, useStore, candles, n);
    NoEarlyEnd(cfg, strat, useStore, candles, n);
    hide After, Close, IsLedger;
    if s.pos.Some? {
      assert n > 0 by {
        assert s.pos.value.entryBar < n;
      }
      hide Inv;
      ClosedLedger(cfg, strat, candles, s, Result(cfg, strat, useStore, candles));
    } else {
      FlatLedger(cfg, strat, candles, s);
    }
  }

  lemma FundedEquity(cfg: Config, trades: seq<Trade>, k: nat)
    requires Funded(cfg, trades, |trades|) && k < |trades|
    ensures Drawdown.Equity(cfg.initialCapital, NetProfits(trades))[k] > 0.0
  {
    assert CanOpen(cfg, trades[..k]);
    Drawdown.EquityAt(cfg.initialCapital, NetProfits(trades), k);
    assert NetProfits(trades)[..k] == NetProfits(trades[..k]);
  }

  /**
    The account was worth more than nothing whenever a trade was opened, so the equity curve
    of the journal is strictly positive everywhere except, possibly, at its last point.
   */
  lemma EquityStaysPositive(cfg: Config, strat: Strategy, useStore: bool, candles: seq<Candle>, k: nat)
    requires k < |Result(cfg, strat, useStore, candles).trades|
    ensures Drawdown.Equity(cfg.initialCapital, NetProfits(Result(cfg, strat, useStore, candles).trades))[k] > 0.0
  {
    hide Result, Drawdown.Equity, IsLedger;
    Ledger(cfg, strat, useStore, candles);
    FundedEquity(cfg, Result(cfg, strat, useStore, candles).trades, k);
  }

  // ----- Signals, opens and closes -----

  /** How many of the first `n` signals, warmup aside, carried decision `d`. */
  function CountSignals(strat: Strategy, seen: seq<Context>, d: Decision, n: nat): (c: nat)
    requires n <= |seen|
    ensures c <= n
  {
    if n == 0 then 0
    else CountSignals(strat, seen, d, n - 1)
         + if n - 1 >= strat.warmup && SignalAt(strat, seen, n - 1).decision == d then 1 else 0
  }

  lemma {:induction false} CountGrows(strat: Strategy, seen: seq<Context>, x: Context, d: Decision, n: nat)
    requires n <= |seen|
    ensures CountSignals(strat, seen + [x], d, n) == CountSignals(strat, seen, d, n)
  {
    if n > 0 {
      CountGrows(strat, seen, x, d, n - 1);
      SeenGrows(strat, seen, x, n - 1);
    }
  }

  ghost predicate Accounted(strat: Strategy, s: State, n: nat) {
    var m := s.metrics;
    && |s.seen| == n
    && m.buySignals == CountSignals(strat, s.seen, Buy, n)
    && m.sellSignals == CountSignals(strat, s.seen, Sell, n)
    && m.exitSignals == CountSignals(strat, s.seen, Exit, n)
    && m.closes == |s.trades|
    && m.opensLong + m.opensShort == |s.trades| + (if s.pos.Some? then 1 else 0)
    && m.opensLong + m.ignoredBuyLong <= m.buySignals
    && m.opensShort + m.ignoredSellShort <= m.sellSignals
    && m.ignoredExitFlat <= m.exitSignals
  }

  /** How acting on one signal moves the counters. */
  lemma ActCounts(cfg: Config, strat: Strategy, s: State, c: Candle, bar: nat, sig: Signal)
    ensures var t, m := Act(cfg, strat, s, c, bar, sig), s.metrics;
            var buy, sell, exit := if sig.decision.Buy? then 1 else 0, if sig.decision.Sell? then 1 else 0,
                if sig.decision.Exit? then 1 else 0;
            && t.metrics.buySignals == m.buySignals + buy
            && t.metrics.sellSignals == m.sellSignals + sell
            && t.metrics.exitSignals == m.exitSignals + exit
            && t.metrics.closes - |t.trades| == m.closes - |s.trades|
            && t.metrics.opensLong + t.metrics.opensShort - |t.trades| - (if t.pos.Some? then 1 else 0)
               == m.opensLong + m.opensShort - |s.trades| - (if s.pos.Some? then 1 else 0)
            && t.metrics.opensLong + t.metrics.ignoredBuyLong <= m.opensLong + m.ignoredBuyLong + buy
            && t.metrics.opensShort + t.metrics.ignoredSellShort <= m.opensShort + m.ignoredSellShort + sell
            && t.metrics.ignoredExitFlat <= m.ignoredExitFlat + exit
  {
  }

  /** Showing one more context: the counters still count all signals but the newest. */
  lemma CountsBefore(strat: Strategy, seen: seq<Context>, x: Context, n: nat)
    requires |seen| == n
    ensures forall d :: CountSignals(strat, seen + [x], d, n) == CountSignals(strat, seen, d, n)
  {
    forall d
      ensures CountSignals(strat, seen + [x], d, n) == CountSignals(strat, seen, d, n)
    {
      CountGrows(strat, seen, x, d, n);
    }
  }

  lemma CountsNewest(strat: Strategy, seen: seq<Context>, d: Decision)
    requires seen != []
    ensures CountSignals(strat, seen, d, |seen|) == CountSignals(strat, seen, d, |seen| - 1)
              + if |seen| - 1 >= strat.warmup && strat.evaluate(seen).decision == d then 1 else 0
  {
    assert seen[..|seen|] == seen;
  }

  lemma BarAccounted(cfg: Config, strat: Strategy, useStore: bool, s: State, c: Candle, i: nat)
    requires Accounted(strat, s, i)
    ensures Accounted(strat, OnBar(cfg, strat, useStore, s, c, i), i + 1)
  {
    var o := Observe(strat, useStore, s, c, i);
    CountsBefore(strat, s.seen, ContextAt(s, useStore, c, i), i);
    CountsNewest(strat, o.seen, Buy);
    CountsNewest(strat, o.seen, Sell);
    CountsNewest(strat, o.seen, Exit);
    hide UpdateExcursion, Act, ContextAt, Tail, CountSignals;
    if i >= strat.warmup {
      ActCounts(cfg, strat, o, c, i, strat.evaluate(o.seen));
    }
  }

  lemma {:induction false} AfterAccounted(cfg: Config, strat: Strategy, useStore: bool, candles: seq<Candle>, n: nat)
    requires n <= |candles|
    ensures Accounted(strat, After(cfg, strat, useStore, candles, n), n)
  {
    if n > 0 {
      AfterAccounted(cfg, strat, useStore, candles, n - 1);
      BarAccounted(cfg, strat, useStore, After(cfg, strat, useStore, candles, n - 1), candles[n - 1], n - 1);
      hide Accounted, OnBar;
    }
  }

  /**
    The accounting of a whole run: it opens exactly as often as it closes, once per trade in
    the journal, at most one close is due to the end of the data, and the signal counters are
    the numbers of signals the strategy gave after warmup.
   */
  lemma OpensEqualCloses(cfg: Config, strat: Strategy, useStore: bool, candles: seq<Candle>)
    ensures var r := Result(cfg, strat, useStore, candles);
            && r.metrics.opensLong + r.metrics.opensShort == r.metrics.closes == |r.trades|
            && r.metrics.endOfDataCloses <= 1
            && Accounted(strat, r, |candles|)
  {
    AfterAccounted(cfg, strat, useStore, candles, |candles|);
    NoEarlyEnd(cfg, strat, useStore, candles, |candles|);
    hide After, CountSignals, ClosePosition;
  }

  // ----- What one signal does -----

  /** What acting on a decision does to the direction held and to the journal. */
  ghost predicate ObeysLaw(cfg: Config, s: State, t: State, d: Decision) {
    var was, now := PositionFromOpen(s.pos), PositionFromOpen(t.pos);
    && (d.Buy? ==>
          now == if was == InLong || cfg.initialCapital + Sum(NetProfits(t.trades)) > 0.0 then InLong else Flat)
    && (d.Sell? ==>
          now == if was == InShort || cfg.initialCapital + Sum(NetProfits(t.trades)) > 0.0 then InShort else Flat)
    && (d.Exit? ==> now == Flat)
    && (d.Other? ==> now == was)
    && |t.trades| == |s.trades| + (if was != Flat && now != was then 1 else 0)
    && s.trades <= t.trades
  }

  lemma ActObeys(cfg: Config, strat: Strategy, s: State, c: Candle, bar: nat, sig: Signal)
    ensures ObeysLaw(cfg, s, Act(cfg, strat, s, c, bar, sig), sig.decision)
  {
  }

  /**
    The law of one bar after warmup. A buy leaves the account long, unless closing the short
    left no equity; a sell is its mirror image; an exit leaves it flat; anything else leaves
    the direction alone. A trade is booked exactly when a position is given up.
   */
  lemma BarLaw(cfg: Config, strat: Strategy, useStore: bool, candles: seq<Candle>, i: nat)
    requires i < |candles| && strat.warmup <= i
    ensures var s, t := After(cfg, strat, useStore, candles, i), After(cfg, strat, useStore, candles, i + 1);
            ObeysLaw(cfg, s, t, SignalAt(strat, t.seen, i).decision)
  {
    var s := After(cfg, strat, useStore, candles, i);
    var o := Observe(strat, useStore, s, candles[i], i);
    assert o.seen[..i + 1] == o.seen;
    ActObeys(cfg, strat, o, candles[i], i, strat.evaluate(o.seen));
    SameHolding(cfg, strat, useStore, s, candles[i], i, Act(cfg, strat, o, candles[i], i, strat.evaluate(o.seen)),
                strat.evaluate(o.seen).decision);
    hide Act, ObeysLaw, Observe;
  }

  lemma SameHolding(cfg: Config, strat: Strategy, useStore: bool, s: State, c: Candle, i: nat, t: State, d: Decision)
    requires ObeysLaw(cfg, Observe(strat, useStore, s, c, i), t, d)
    ensures ObeysLaw(cfg, s, t, d)
  {
  }

  lemma {:induction false} StaysShut(cfg: Config, strat: Strategy, useStore: bool, candles: seq<Candle>,
      i: nat, j: nat)
    requires i <= j <= |candles|
    requires After(cfg, strat, useStore, candles, i).pos.None?
    requires !CanOpen(cfg, After(cfg, strat, useStore, candles, i).trades)
    ensures After(cfg, strat, useStore, candles, j).pos.None?
    ensures After(cfg, strat, useStore, candles, j).trades == After(cfg, strat, useStore, candles, i).trades
    decreases j
  {
    hide ClosePosition, CanOpen, Tail, FillPrice, ContextAt;
    if i < j {
      StaysShut(cfg, strat, useStore, candles, i, j - 1);
    }
  }

  /** Once the account is worthless it stays flat: no signal opens anything again. */
  lemma RuinIsFinal(cfg: Config, strat: Strategy, useStore: bool, candles: seq<Candle>, i: nat, j: nat)
    requires i <= j <= |candles|
    requires After(cfg, strat, useStore, candles, i).pos.None?
    requires cfg.initialCapital + Sum(NetProfits(After(cfg, strat, useStore, candles, i).trades)) <= 0.0
    ensures After(cfg, strat, useStore, candles, j).pos.None?
    ensures After(cfg, strat, useStore, candles, j).trades == After(cfg, strat, useStore, candles, i).trades
  {
    hide After;
    StaysShut(cfg, strat, useStore, candles, i, j);
  }

  // ----- No look-ahead -----

  /**
    The context of bar `j` holds the bar itself, its time, and exactly the last bars before it: up
    to 64, or to three times the warmup when that is more. A bar without a closing time counts at
    its opening.
   */
  ghost predicate Shows(strat: Strategy, candles: seq<Candle>, x: Context, j: nat)
    requires j < |candles|
  {
    && x.history == Tail(candles[..j], if strat.warmup * 3 > 64 then strat.warmup * 3 else 64)
    && x.candle == candles[j] && x.barIndex == j
    && x.timestamp
       == if candles[j].closeTime == -62_135_596_800_000_000_000 then candles[j].openTime else candles[j].closeTime
  }

  ghost predicate AllShown(strat: Strategy, candles: seq<Candle>, s: State, n: nat)
    requires n <= |candles|
  {
    && |s.seen| == n && s.history == Tail(candles[..n], HistoryCap(strat))
    && forall j: nat :: j < n ==> Shows(strat, candles, s.seen[j], j)
  }

  lemma BarShown(cfg: Config, strat: Strategy, candles: seq<Candle>, s: State, i: nat)
    requires i < |candles| && AllShown(strat, candles, s, i)
    ensures AllShown(strat, candles, OnBar(cfg, strat, false, s, candles[i], i), i + 1)
  {
    hide OnBar, ContextAt, Shows, Tail, HistoryCap;
    BarSees(cfg, strat, s, candles[i], i);
    ContextShows(strat, candles, s, i);
    TailGrows(candles, i, HistoryCap(strat));
  }

  lemma BarSees(cfg: Config, strat: Strategy, s: State, c: Candle, bar: nat)
    ensures var t := OnBar(cfg, strat, false, s, c, bar);
            t.seen == s.seen + [ContextAt(s, false, c, bar)] && t.history == Tail(s.history + [c], HistoryCap(strat))
  {
    hide Act, ContextAt, Tail, HistoryCap;
  }

  lemma ContextShows(strat: Strategy, candles: seq<Candle>, s: State, i: nat)
    requires i < |candles| && s.history == Tail(candles[..i], HistoryCap(strat))
    ensures Shows(strat, candles, ContextAt(s, false, candles[i], i), i)
  {
    hide Tail;
  }

  lemma TailGrows(candles: seq<Candle>, i: nat, n: nat)
    requires i < |candles|
    ensures Tail(Tail(candles[..i], n) + [candles[i]], n) == Tail(candles[..i + 1], n)
  {
  }

  lemma {:induction false} HistoryShown(cfg: Config, strat: Strategy, candles: seq<Candle>, n: nat)
    requires n <= |candles|
    ensures AllShown(strat, candles, After(cfg, strat, false, candles, n), n)
  {
    if n > 0 {
      HistoryShown(cfg, strat, candles, n - 1);
      BarShown(cfg, strat, candles, After(cfg, strat, false, candles, n - 1), n - 1);
      hide AllShown, OnBar;
    }
  }

  /** Later candles cannot change anything about an earlier bar. */
  lemma {:induction false} NoLookAhead(cfg: Config, strat: Strategy, useStore: bool, a: seq<Candle>,
      b: seq<Candle>, n: nat)
    requires n <= |a| && n <= |b| && a[..n] == b[..n]
    ensures After(cfg, strat, useStore, a, n) == After(cfg, strat, useStore, b, n)
  {
    if n > 0 {
      assert a[..n - 1] == a[..n][..n - 1] == b[..n][..n - 1] == b[..n - 1];
      assert a[n - 1] == a[..n][n - 1] == b[..n][n - 1] == b[n - 1];
      NoLookAhead(cfg, strat, useStore, a, b, n - 1);
      hide OnBar;
    }
  }

  /** A later state has the trades of an earlier one first, then trades that end at bar `n` or later. */
  ghost predicate Continues(s: State, t: State, n: nat) {
    && |s.trades| == |s.spans| && |t.trades| == |t.spans|
    && s.trades <= t.trades && s.spans <= t.spans
    && forall k :: |s.spans| <= k < |t.spans| ==> t.spans[k].exit >= n
  }

  lemma BarContinues(cfg: Config, strat: Strategy, useStore: bool, s: State, c: Candle, bar: nat)
    requires |s.trades| == |s.spans|
    ensures Continues(s, OnBar(cfg, strat, useStore, s, c, bar), bar)
  {
    hide Act;
    var o := Observe(strat, useStore, s, c, bar);
    ActContinues(cfg, strat, o, c, bar, strat.evaluate(o.seen));
  }

  lemma ActContinues(cfg: Config, strat: Strategy, s: State, c: Candle, bar: nat, sig: Signal)
    requires |s.trades| == |s.spans|
    ensures Continues(s, Act(cfg, strat, s, c, bar, sig), bar)
  {
    hide ClosePosition, CanOpen, OpenAt;
  }

  lemma ContinuesOn(s: State, t: State, u: State, n: nat, m: nat)
    requires Continues(s, t, n) && Continues(t, u, m) && n <= m
    ensures Continues(s, u, n)
  {
  }

  lemma {:induction false} AfterContinues(cfg: Config, strat: Strategy, useStore: bool, candles: seq<Candle>,
      n: nat, m: nat)
    requires n <= m <= |candles|
    ensures Continues(After(cfg, strat, useStore, candles, n), After(cfg, strat, useStore, candles, m), n)
  {
    hide OnBar;
    if n < m {
      AfterContinues(cfg, strat, useStore, candles, n, m - 1);
      BarContinues(cfg, strat, useStore, After(cfg, strat, useStore, candles, m - 1), candles[m - 1], m - 1);
      hide Continues;
      ContinuesOn(After(cfg, strat, useStore, candles, n), After(cfg, strat, useStore, candles, m - 1),
                  After(cfg, strat, useStore, candles, m), n, m - 1);
    } else {
      AsManySpans(cfg, strat, useStore, candles, n);
    }
  }

  lemma {:induction false} AsManySpans(cfg: Config, strat: Strategy, useStore: bool, candles: seq<Candle>, n: nat)
    requires n <= |candles|
    ensures var s := After(cfg, strat, useStore, candles, n); |s.trades| == |s.spans|
  {
    hide OnBar;
    if n > 0 {
      AsManySpans(cfg, strat, useStore, candles, n - 1);
      BarContinues(cfg, strat, useStore, After(cfg, strat, useStore, candles, n - 1), candles[n - 1], n - 1);
    }
  }

  lemma ResultContinues(cfg: Config, strat: Strategy, useStore: bool, candles: seq<Candle>, n: nat)
    requires n <= |candles| && (n < |candles| || After(cfg, strat, useStore, candles, n).pos.None?)
    ensures Continues(After(cfg, strat, useStore, candles, n), Result(cfg, strat, useStore, candles), n)
  {
    hide After, ClosePosition;
    AfterContinues(cfg, strat, useStore, candles, n, |candles|);
  }

  /**
    No look-ahead, on whole journals: the trades that end on one of the first `n` bars are the
    same, in the same places, for any two candle sequences that agree on those bars, however
    both go on.
   */
  lemma JournalsShareBeginning(cfg: Config, strat: Strategy, useStore: bool, a: seq<Candle>, b: seq<Candle>, n: nat)
    requires n < |a| && n < |b| && a[..n] == b[..n]
    ensures var p, q := Result(cfg, strat, useStore, a), Result(cfg, strat, useStore, b);
            var m := |After(cfg, strat, useStore, a, n).trades|;
            && m <= |p.trades| == |p.spans| && m <= |q.trades| == |q.spans|
            && p.trades[..m] == q.trades[..m] && p.spans[..m] == q.spans[..m]
            && (forall k :: m <= k < |p.spans| ==> p.spans[k].exit >= n)
            && (forall k :: m <= k < |q.spans| ==> q.spans[k].exit >= n)
  {
    hide After, Result;
    NoLookAhead(cfg, strat, useStore, a, b, n);
    ResultContinues(cfg, strat, useStore, a, n);
    ResultContinues(cfg, strat, useStore, b, n);
  }

  // ----- Costs -----

  /** What slippage moves a fill away from a close price, per unit, in the trader's disfavour. */
  function SlipCost(cfg: Config, close: real): real {
    close * (cfg.slippagePct / 100.0)
  }

  lemma FillGap(cfg: Config, close: real, dir: Direction, isEntry: bool)
    ensures var gap, cost := FillPrice(cfg, close, dir, isEntry) - close, SlipCost(cfg, close);
            if (dir.Long? && isEntry) || (dir.Short? && !isEntry) then gap == cost else gap == -cost
  {
  }

  lemma MidIdentity(dir: Direction, m1: real, m2: real, f1: real, f2: real, c1: real, c2: real, q: int)
    requires q > 0
    requires if dir.Long? then f1 == m1 + c1 && f2 == m2 - c2 else f1 == m1 - c1 && f2 == m2 + c2
    ensures GrossPnL(dir, f1, f2, q) == GrossPnL(dir, m1, m2, q) - (SlippageFromFill(f1, m1,
            q) + SlippageFromFill(f2, m2, q))
            <==> c1 >= 0.0 && c2 >= 0.0
  {
  }

  lemma NetOf(cfg: Config, strat: Strategy, pos: OpenPosition, c: Candle, bar: int, sig: Signal)
    ensures var t, exit := ClosePosition(cfg, strat, pos, c, bar, sig), FillPrice(cfg, c.close, pos.direction, false);
            && t.netProfit == t.grossProfit - t.commission - t.taxes
            && t.grossProfit == GrossPnL(pos.direction, pos.entryPrice, exit, pos.quantity)
            && t.slippage == SlippageFromFill(pos.entryPrice, pos.entryMid, pos.quantity)
                             + SlippageFromFill(exit, c.close, pos.quantity)
  {
  }

  /** The cost identity in terms of the trade's own commission and taxes. */
  lemma CostBalance(cfg: Config, strat: Strategy, candles: seq<Candle>, sp: Span, entrySig: Signal, exitSig: Signal)
    requires sp.entry <= sp.exit < |candles| && cfg.quantity > 0
    ensures var t := TradeOf(cfg, strat, candles, sp, entrySig, exitSig);
            var a, b := candles[sp.entry].close, candles[sp.exit].close;
            t.netProfit == GrossPnL(sp.direction, a, b, cfg.quantity) - t.slippage - t.commission - t.taxes
            <==> SlipCost(cfg, a) >= 0.0 && SlipCost(cfg, b) >= 0.0
  {
    hide FillPrice, GrossPnL, SlippageFromFill, Best, ClosePosition, SlipCost, Abs;
    var a, b := candles[sp.entry].close, candles[sp.exit].close;
    var f1, f2 := FillPrice(cfg, a, sp.direction, true), FillPrice(cfg, b, sp.direction, false);
    FillGap(cfg, a, sp.direction, true);
    FillGap(cfg, b, sp.direction, false);
    MidIdentity(sp.direction, a, b, f1, f2, SlipCost(cfg, a), SlipCost(cfg, b), cfg.quantity);
    NetOf(cfg, strat, PositionAt(cfg, candles, sp.direction, sp.entry, entrySig, sp.exit + 1),
        candles[sp.exit], sp.exit, exitSig);
  }

  lemma EntryKept(cfg: Config, candles: seq<Candle>, sp: Span, entrySig: Signal)
    requires sp.entry <= sp.exit < |candles|
    ensures var pos := PositionAt(cfg, candles, sp.direction, sp.entry, entrySig, sp.exit + 1);
            && pos.direction == sp.direction && pos.quantity == cfg.quantity
            && pos.entryMid == candles[sp.entry].close
            && pos.entryPrice == FillPrice(cfg, candles[sp.entry].close, sp.direction, true)
  {
  }

  /**
    The excursions of a trade are the larger of zero and the most any bar after the entry, up
    to and including the exit, went for or against the position.
   */
  lemma TradeExcursions(cfg: Config, strat: Strategy, candles: seq<Candle>, sp: Span, entrySig: Signal, exitSig: Signal)
    requires sp.entry <= sp.exit < |candles|
    ensures var t := TradeOf(cfg, strat, candles, sp, entrySig, exitSig);
            && IsExcursion(cfg, candles, sp, t.entryPrice, true, t.mfe)
            && IsExcursion(cfg, candles, sp, t.entryPrice, false, t.mae)
  {
    hide Reach, FillPrice, GrossPnL, SlippageFromFill;
    var t := TradeOf(cfg, strat, candles, sp, entrySig, exitSig);
    BestIsExcursion(cfg, candles, sp, t.entryPrice, true);
    BestIsExcursion(cfg, candles, sp, t.entryPrice, false);
  }

  /** `m` is the maximum of zero and what the bars after the entry reached. */
  ghost predicate IsExcursion(cfg: Config, candles: seq<Candle>, sp: Span, price: real, favorable: bool, m: real)
    requires sp.entry <= sp.exit < |candles|
  {
    && m >= 0.0
    && (forall i :: sp.entry < i <= sp.exit ==> Reach(favorable, sp.direction, price, cfg.quantity, candles[i]) <= m)
    && (m == 0.0
        || exists i :: sp.entry < i <= sp.exit
                       && Reach(favorable, sp.direction, price, cfg.quantity, candles[i]) == m)
  }

  lemma BestIsExcursion(cfg: Config, candles: seq<Candle>, sp: Span, price: real, favorable: bool)
    requires sp.entry <= sp.exit < |candles|
    ensures IsExcursion(cfg, candles, sp, price, favorable,
                        Best(favorable, sp.direction, price, cfg.quantity, candles[sp.entry + 1..sp.exit + 1]))
  {
  }
}
