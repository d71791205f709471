/**
  What trades cost: the figures of a trade from its candles and the configuration, and what a whole
  run is charged.
 */
module TradeCosts {
  import opened Common
  import opened SimModel
  import opened SimProofs
  import opened SimTheorems

  /** A fill is the close moved by the slippage percentage against the trader. */
  lemma FilledAgainst(cfg: Config, close: real, dir: Direction, isEntry: bool)
    ensures FillPrice(cfg, close, dir, isEntry)
            == if dir.Long? == isEntry then close + close * cfg.slippagePct / 100.0
               else close - close * cfg.slippagePct / 100.0
  {
  }

  lemma TradePrices(cfg: Config, strat: Strategy, candles: seq<Candle>, sp: Span, entrySig: Signal, exitSig: Signal)
    requires sp.entry <= sp.exit < |candles|
    ensures var t := TradeOf(cfg, strat, candles, sp, entrySig, exitSig);
            var a, b := candles[sp.entry].close, candles[sp.exit].close;
            && t.entryPrice == (if sp.direction.Long? then a + a * cfg.slippagePct / 100.0
                                else a - a * cfg.slippagePct / 100.0)
            && t.exitPrice == (if sp.direction.Long? then b - b * cfg.slippagePct / 100.0
                               else b + b * cfg.slippagePct / 100.0)
  {
    hide FillPrice, PositionAt, ClosePosition;
    FilledAgainst(cfg, candles[sp.entry].close, sp.direction, true);
    FilledAgainst(cfg, candles[sp.exit].close, sp.direction, false);
    EntryKept(cfg, candles, sp, entrySig);
    var pos := PositionAt(cfg, candles, sp.direction, sp.entry, entrySig, sp.exit + 1);
    ClosedPrices(cfg, strat, pos, candles[sp.exit], sp.exit, exitSig);
  }

  lemma ClosedPrices(cfg: Config, strat: Strategy, pos: OpenPosition, c: Candle, bar: int, sig: Signal)
    ensures var t := ClosePosition(cfg, strat, pos, c, bar, sig);
            t.entryPrice == pos.entryPrice && t.exitPrice == FillPrice(cfg, c.close, pos.direction, false)
  {
    hide FillPrice;
  }

  /** Prices and money of a trade: two commissions, tax on a gain, slippage at both fills. */
  lemma TradeMoney(cfg: Config, strat: Strategy, candles: seq<Candle>, sp: Span, entrySig: Signal, exitSig: Signal)
    requires sp.entry <= sp.exit < |candles|
    ensures var t, q := TradeOf(cfg, strat, candles, sp, entrySig, exitSig), cfg.quantity as real;
            var a, b := candles[sp.entry].close, candles[sp.exit].close;
            && t.direction == sp.direction && t.quantity == cfg.quantity
            && t.entryPrice == (if sp.direction.Long? then a + a * cfg.slippagePct / 100.0
                                else a - a * cfg.slippagePct / 100.0)
            && t.exitPrice == (if sp.direction.Long? then b - b * cfg.slippagePct / 100.0
                               else b + b * cfg.slippagePct / 100.0)
            && t.grossProfit == (if sp.direction.Long? then (t.exitPrice - t.entryPrice) * q
                                 else (t.entryPrice - t.exitPrice) * q)
            && t.commission == cfg.commission + cfg.commission
            && t.taxes == (if t.grossProfit > 0.0 then t.grossProfit * cfg.taxRate else 0.0)
            && t.netProfit == t.grossProfit - t.commission - t.taxes
            && t.slippage == (if t.entryPrice > a then t.entryPrice - a else a - t.entryPrice) * q
                             + (if t.exitPrice > b then t.exitPrice - b else b - t.exitPrice) * q
  {
    hide TradeOf;
    TradePrices(cfg, strat, candles, sp, entrySig, exitSig);
    TradeBooks(cfg, strat, candles, sp, entrySig, exitSig);
  }

  lemma TradeBooks(cfg: Config, strat: Strategy, candles: seq<Candle>, sp: Span, entrySig: Signal, exitSig: Signal)
    requires sp.entry <= sp.exit < |candles|
    ensures var t, q := TradeOf(cfg, strat, candles, sp, entrySig, exitSig), cfg.quantity as real;
            var a, b := candles[sp.entry].close, candles[sp.exit].close;
            && t.direction == sp.direction && t.quantity == cfg.quantity
            && t.grossProfit == (if sp.direction.Long? then (t.exitPrice - t.entryPrice) * q
                                 else (t.entryPrice - t.exitPrice) * q)
            && t.commission == cfg.commission + cfg.commission
            && t.taxes == (if t.grossProfit > 0.0 then t.grossProfit * cfg.taxRate else 0.0)
            && t.netProfit == t.grossProfit - t.commission - t.taxes
            && t.slippage == (if t.entryPrice > a then t.entryPrice - a else a - t.entryPrice) * q
                             + (if t.exitPrice > b then t.exitPrice - b else b - t.exitPrice) * q
  {
    hide FillPrice, PositionAt, ClosePosition;
    EntryKept(cfg, candles, sp, entrySig);
    var pos := PositionAt(cfg, candles, sp.direction, sp.entry, entrySig, sp.exit + 1);
    ClosedMoney(cfg, strat, pos, candles[sp.exit], sp.exit, exitSig);
  }

  /** The money of a position that is closed. */
  lemma ClosedMoney(cfg: Config, strat: Strategy, pos: OpenPosition, c: Candle, bar: int, sig: Signal)
    ensures var t, q := ClosePosition(cfg, strat, pos, c, bar, sig), pos.quantity as real;
            && t.direction == pos.direction && t.quantity == pos.quantity && t.entryPrice == pos.entryPrice
            && t.exitPrice == FillPrice(cfg, c.close, pos.direction, false)
            && t.grossProfit == (if pos.direction.Long? then (t.exitPrice - t.entryPrice) * q
                                 else (t.entryPrice - t.exitPrice) * q)
            && t.commission == cfg.commission + cfg.commission
            && t.taxes == (if t.grossProfit > 0.0 then t.grossProfit * cfg.taxRate else 0.0)
            && t.netProfit == t.grossProfit - t.commission - t.taxes
            && t.slippage == (if t.entryPrice > pos.entryMid then t.entryPrice - pos.entryMid
                              else pos.entryMid - t.entryPrice) * q
                             + (if t.exitPrice > c.close then t.exitPrice - c.close else c.close - t.exitPrice) * q
  {
    hide FillPrice;
    NothingTaxed(cfg.taxRate);
  }

  lemma NothingTaxed(rate: real)
    ensures 0.0 * rate == 0.0
  {
  }

  /** Times, duration and ratios of a trade. */
  lemma TradeShape(cfg: Config, strat: Strategy, candles: seq<Candle>, sp: Span, entrySig: Signal, exitSig: Signal)
    requires sp.entry <= sp.exit < |candles|
    ensures var t := TradeOf(cfg, strat, candles, sp, entrySig, exitSig);
            var a, b, value := candles[sp.entry], candles[sp.exit], t.entryPrice * cfg.quantity as real;
            && t.entrySignal == entrySig && t.exitSignal == exitSig
            && t.symbol == b.symbol && t.timeframe == b.timeframe
            && t.entryTime == a.closeTime && t.exitTime == b.closeTime
            && t.barsHeld == (if sp.exit == sp.entry then 1 else sp.exit - sp.entry)
            && t.holdingDuration == (if a.closeTime <= b.closeTime then b.closeTime - a.closeTime else 0)
            && (value > 0.0 ==> t.returnPercent * value == 100.0 * t.netProfit)
            && (value <= 0.0 ==> t.returnPercent == 0.0)
            && (t.mae > 0.0 ==> t.riskReward * t.mae == t.mfe) && (t.mae <= 0.0 ==> t.riskReward == 0.0)
            && t.exitReason == (if exitSig.reasons == [] then "signal" else exitSig.reasons[0])
  {
    hide FillPrice, GrossPnL, SlippageFromFill, Best;
    var t := TradeOf(cfg, strat, candles, sp, entrySig, exitSig);
    var value := t.entryPrice * cfg.quantity as real;
    if value > 0.0 {
      PercentOf(t.netProfit, value);
    }
  }

  lemma PercentOf(x: real, y: real)
    requires y > 0.0
    ensures (x / y) * 100.0 * y == 100.0 * x
  {
    assert x / y * y == x;
  }

  /**
    The cost identity, for both directions: net profit is what the closes differ by, less slippage,
    one commission for each of the two fills, and the tax on a gain. It holds exactly when slippage
    is a cost at both fills.
   */
  lemma CostIdentity(cfg: Config, strat: Strategy, candles: seq<Candle>, sp: Span, entrySig: Signal, exitSig: Signal)
    requires sp.entry <= sp.exit < |candles| && cfg.quantity > 0
    ensures var t, q := TradeOf(cfg, strat, candles, sp, entrySig, exitSig), cfg.quantity as real;
            var a, b := candles[sp.entry].close, candles[sp.exit].close;
            var tax := if t.grossProfit > 0.0 then t.grossProfit * cfg.taxRate else 0.0;
            t.netProfit == (if sp.direction.Long? then (b - a) * q else (a - b) * q)
                           - t.slippage - 2.0 * cfg.commission - tax
            <==> a * cfg.slippagePct >= 0.0 && b * cfg.slippagePct >= 0.0
  {
    hide TradeOf, SlipCost;
    CostBalance(cfg, strat, candles, sp, entrySig, exitSig);
    TradeMoney(cfg, strat, candles, sp, entrySig, exitSig);
    SlipSign(cfg, candles[sp.entry].close);
    SlipSign(cfg, candles[sp.exit].close);
  }

  lemma SlipSign(cfg: Config, close: real)
    ensures SlipCost(cfg, close) >= 0.0 <==> close * cfg.slippagePct >= 0.0
  {
    assert SlipCost(cfg, close) == close * cfg.slippagePct / 100.0;
  }

  /**
    Where it fails: with a negative slippage on positive closes both fills are better than the
    close, and the reported slippage is money gained although it is listed as a cost.
   */
  lemma NegativeSlippageGains(cfg: Config, strat: Strategy, candles: seq<Candle>, sp: Span, entrySig: Signal,
      exitSig: Signal)
    requires sp.entry <= sp.exit < |candles| && cfg.quantity == 1 && cfg.slippagePct == -1.0
    requires cfg.commission == 0.0 && cfg.taxRate == 0.0
    requires candles[sp.entry].close == 100.0 && candles[sp.exit].close == 110.0
    ensures var t := TradeOf(cfg, strat, candles, sp, entrySig, exitSig);
            t.slippage == 2.1 && t.netProfit == if sp.direction.Long? then 12.1 else -7.9
  {
    hide TradeOf;
    TradeMoney(cfg, strat, candles, sp, entrySig, exitSig);
  }

  // ----- Excursions in prices -----

  lemma ReachInPrices(dir: Direction, entry: real, qty: int, c: Candle)
    ensures Reach(true, dir, entry, qty, c)
            == (if dir.Long? then c.high - entry else entry - c.low) * qty as real
    ensures Reach(false, dir, entry, qty, c)
            == (if dir.Long? then entry - c.low else c.high - entry) * qty as real
  {
  }

  /**
    What a long trade gains on a bar is counted from its high, what it loses from its low; a short
    trade the other way round.
   */
  lemma ExcursionsInPrices(cfg: Config, strat: Strategy, candles: seq<Candle>, sp: Span, entrySig: Signal,
      exitSig: Signal, i: nat)
    requires sp.entry < i <= sp.exit < |candles|
    ensures var t, q := TradeOf(cfg, strat, candles, sp, entrySig, exitSig), cfg.quantity as real;
            && t.mfe >= 0.0 && t.mae >= 0.0
            && (sp.direction.Long? ==>
                  t.mfe >= (candles[i].high - t.entryPrice) * q && t.mae >= (t.entryPrice - candles[i].low) * q)
            && (sp.direction.Short? ==>
                  t.mfe >= (t.entryPrice - candles[i].low) * q && t.mae >= (candles[i].high - t.entryPrice) * q)
  {
    hide TradeOf, Reach;
    TradeExcursions(cfg, strat, candles, sp, entrySig, exitSig);
    var t := TradeOf(cfg, strat, candles, sp, entrySig, exitSig);
    ReachInPrices(sp.direction, t.entryPrice, cfg.quantity, candles[i]);
    assert Reach(true, sp.direction, t.entryPrice, cfg.quantity, candles[i]) <= t.mfe;
    assert Reach(false, sp.direction, t.entryPrice, cfg.quantity, candles[i]) <= t.mae;
  }

  /** And the excursions are reached, unless nothing went that way. */
  lemma ExcursionsReached(cfg: Config, strat: Strategy, candles: seq<Candle>, sp: Span, entrySig: Signal,
      exitSig: Signal) returns (best: nat, worst: nat)
    requires sp.entry <= sp.exit < |candles|
    ensures var t, q := TradeOf(cfg, strat, candles, sp, entrySig, exitSig), cfg.quantity as real;
            && (t.mfe > 0.0 ==>
                  && sp.entry < best <= sp.exit
                  && t.mfe == (if sp.direction.Long? then candles[best].high - t.entryPrice
                               else t.entryPrice - candles[best].low) * q)
            && (t.mae > 0.0 ==>
                  && sp.entry < worst <= sp.exit
                  && t.mae == (if sp.direction.Long? then t.entryPrice - candles[worst].low
                               else candles[worst].high - t.entryPrice) * q)
  {
    hide TradeOf, Reach;
    TradeExcursions(cfg, strat, candles, sp, entrySig, exitSig);
    var t := TradeOf(cfg, strat, candles, sp, entrySig, exitSig);
    best, worst := 0, 0;
    if t.mfe > 0.0 {
      best :| sp.entry < best <= sp.exit
              && Reach(true, sp.direction, t.entryPrice, cfg.quantity, candles[best]) == t.mfe;
      ReachInPrices(sp.direction, t.entryPrice, cfg.quantity, candles[best]);
    }
    if t.mae > 0.0 {
      worst :| sp.entry < worst <= sp.exit
               && Reach(false, sp.direction, t.entryPrice, cfg.quantity, candles[worst]) == t.mae;
      ReachInPrices(sp.direction, t.entryPrice, cfg.quantity, candles[worst]);
    }
  }

  // ----- Whole runs -----

  function Commissions(trades: seq<Trade>): real {
    if trades == [] then 0.0 else Commissions(trades[..|trades| - 1]) + trades[|trades| - 1].commission
  }

  function Taxes(trades: seq<Trade>): real {
    if trades == [] then 0.0 else Taxes(trades[..|trades| - 1]) + trades[|trades| - 1].taxes
  }

  /** The gross profit of the trades that gained. */
  function Gains(trades: seq<Trade>): real {
    if trades == [] then 0.0
    else
      var t := trades[|trades| - 1];
      Gains(trades[..|trades| - 1]) + if t.grossProfit > 0.0 then t.grossProfit else 0.0
  }

  ghost predicate ChargedAs(cfg: Config, t: Trade) {
    && t.commission == cfg.commission + cfg.commission
    && t.taxes == if t.grossProfit > 0.0 then t.grossProfit * cfg.taxRate else 0.0
  }

  function Fold(n: nat, x: real): real {
    n as real * x
  }

  lemma FoldNext(n: nat, x: real)
    ensures Fold(n + 1, x) == Fold(n, x) + x && Fold(0, x) == 0.0
  {
    assert (n + 1) as real * x == n as real * x + x;
  }

  lemma RateOfSum(rate: real, a: real, b: real)
    ensures rate * (a + b) == rate * a + b * rate
  {
  }

  lemma {:induction false} ChargesTotal(cfg: Config, trades: seq<Trade>)
    requires forall k :: 0 <= k < |trades| ==> ChargedAs(cfg, trades[k])
    ensures Commissions(trades) == Fold(2 * |trades|, cfg.commission)
    ensures Taxes(trades) == cfg.taxRate * Gains(trades)
  {
    hide Fold;
    if trades == [] {
      FoldNext(0, cfg.commission);
    } else {
      var n := |trades| - 1;
      ChargesTotal(cfg, trades[..n]);
      assert ChargedAs(cfg, trades[n]);
      FoldNext(2 * n, cfg.commission);
      FoldNext(2 * n + 1, cfg.commission);
      RateOfSum(cfg.taxRate, Gains(trades[..n]), if trades[n].grossProfit > 0.0 then trades[n].grossProfit else 0.0);
    }
  }

  /**
    Over every run: the journal pays one commission for each fill, and the tax rate on the gross
    profit of the trades that gained.
   */
  lemma RunCharges(cfg: Config, strat: Strategy, useStore: bool, candles: seq<Candle>)
    ensures var r := Result(cfg, strat, useStore, candles);
            && Commissions(r.trades)
               == (r.metrics.opensLong + r.metrics.opensShort + r.metrics.closes) as real * cfg.commission
            && Taxes(r.trades) == cfg.taxRate * Gains(r.trades)
  {
    hide Result, TradeOf, SignalAt, ExitSignalOf, Chained, Accounted;
    var r := Result(cfg, strat, useStore, candles);
    Ledger(cfg, strat, useStore, candles);
    OpensEqualCloses(cfg, strat, useStore, candles);
    forall k | 0 <= k < |r.trades|
      ensures ChargedAs(cfg, r.trades[k])
    {
      TradeMoney(cfg, strat, candles, r.spans[k], SignalAt(strat, r.seen, r.spans[k].entry),
                 ExitSignalOf(strat, candles, r, k));
    }
    ChargesTotal(cfg, r.trades);
  }
}
