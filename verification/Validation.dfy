/**
  The repository's own validators, used as specifications of the simulator.
 */
module Validation {
  import opened Common
  import opened SimModel
  import SimProofs
  import SimTheorems
  import Stats = Statistics

  datatype Problem = MissingExitTime | ExitBeforeEntry | InvalidPrice | InvalidQuantity | InvalidBars
  datatype Issue = Issue(trade: nat, problem: Problem)

  /** A trade with nothing to report. */
  ghost predicate Sound(t: Trade) {
    && !IsZeroTime(t.exitTime) && t.entryTime <= t.exitTime
    && t.entryPrice > 0.0 && t.exitPrice > 0.0 && t.quantity > 0 && t.barsHeld >= 1
  }

  /** Whether a problem is present in a trade. */
  ghost predicate Has(t: Trade, p: Problem) {
    match p
    case MissingExitTime => IsZeroTime(t.exitTime)
    case ExitBeforeEntry => t.exitTime < t.entryTime
    case InvalidPrice => t.entryPrice <= 0.0 || t.exitPrice <= 0.0
    case InvalidQuantity => t.quantity <= 0
    case InvalidBars => t.barsHeld < 1
  }

  /** The problems of one trade, in the order they are reported. */
  function ProblemsOf(t: Trade): (r: seq<Problem>)
    ensures forall p :: p in r <==> Has(t, p)
    ensures r == [] <==> Sound(t)
  {
    var r0 := if IsZeroTime(t.exitTime) then [MissingExitTime] else [];
    var r1 := if !(t.entryTime < t.exitTime) && t.entryTime != t.exitTime then r0 + [ExitBeforeEntry] else r0;
    var r2 := if t.entryPrice <= 0.0 || t.exitPrice <= 0.0 then r1 + [InvalidPrice] else r1;
    var r3 := if t.quantity <= 0 then r2 + [InvalidQuantity] else r2;
    if t.barsHeld < 1 then r3 + [InvalidBars] else r3
  }

  function Labelled(k: nat, ps: seq<Problem>): (r: seq<Issue>)
    ensures |r| == |ps| && forall i :: 0 <= i < |r| ==> r[i] == Issue(k, ps[i])
  {
    seq(|ps|, i requires 0 <= i < |ps| => Issue(k, ps[i]))
  }

  /**
    The journal validator reports each problem of each trade, and nothing else; it is silent
    exactly when every trade is sound.
   */
  method ValidateJournal(trades: seq<Trade>) returns (issues: seq<Issue>)
    ensures forall x :: x in issues <==> x.trade < |trades| && Has(trades[x.trade], x.problem)
    ensures issues == [] <==> forall k :: 0 <= k < |trades| ==> Sound(trades[k])
  {
    issues := [];
    var i := 0;
    while i < |trades|
      invariant 0 <= i <= |trades|
      invariant forall x :: x in issues <==> x.trade < i && Has(trades[x.trade], x.problem)
    {
      hide Has, Sound;
      var ps := ProblemsOf(trades[i]);
      var more := Labelled(i, ps);
      forall x
        ensures x in more <==> x.trade == i && Has(trades[i], x.problem)
      {
        if x.trade == i && Has(trades[i], x.problem) {
          var j :| 0 <= j < |ps| && ps[j] == x.problem;
          assert more[j] == x;
        }
      }
      issues := issues + more;
      i := i + 1;
    }
    SilentMeansSound(trades, issues);
  }

  lemma NoProblem(t: Trade)
    requires forall p :: !Has(t, p)
    ensures Sound(t)
  {
    assert !Has(t, MissingExitTime) && !Has(t, ExitBeforeEntry) && !Has(t, InvalidPrice);
    assert !Has(t, InvalidQuantity) && !Has(t, InvalidBars);
  }

  lemma SilentMeansSound(trades: seq<Trade>, issues: seq<Issue>)
    requires forall x :: x in issues <==> x.trade < |trades| && Has(trades[x.trade], x.problem)
    ensures issues == [] <==> forall k :: 0 <= k < |trades| ==> Sound(trades[k])
  {
    if issues == [] {
      forall k | 0 <= k < |trades|
        ensures Sound(trades[k])
      {
        forall p: Problem
          ensures !Has(trades[k], p)
        {
          assert Issue(k, p) !in issues;
        }
        NoProblem(trades[k]);
      }
    } else {
      var x := issues[0];
      assert x in issues;
      assert !Sound(trades[x.trade]);
    }
  }

  // ----- Journals of the simulator are sound -----

  /** Both sides of a trade fill at a positive price exactly while slippage stays within 100%. */
  lemma FillsPositive(cfg: Config, close: real)
    requires close > 0.0
    ensures (forall dir, isEntry :: FillPrice(cfg, close, dir, isEntry) > 0.0)
            <==> -100.0 < cfg.slippagePct < 100.0
  {
    var pct := cfg.slippagePct / 100.0;
    if -100.0 < cfg.slippagePct < 100.0 {
      assert close * (1.0 + pct) > 0.0 && close * (1.0 - pct) > 0.0;
    } else if cfg.slippagePct >= 100.0 {
      assert FillPrice(cfg, close, Long, false) == close * (1.0 - pct) <= 0.0;
    } else {
      assert FillPrice(cfg, close, Long, true) == close * (1.0 + pct) <= 0.0;
    }
  }

  /** Candles as a feed delivers them: stamped, in order, with positive closes. */
  ghost predicate WellFormed(candles: seq<Candle>) {
    && (forall i :: 0 <= i < |candles| ==> !IsZeroTime(candles[i].closeTime) && candles[i].close > 0.0)
    && (forall i, j :: 0 <= i <= j < |candles| ==> candles[i].closeTime <= candles[j].closeTime)
  }

  /** One trade is bought at one side and sold at the other, so both bounds matter to either direction. */
  lemma TradeSoundIff(cfg: Config, strat: Strategy, candles: seq<Candle>, sp: Span, a: Signal, b: Signal)
    requires WellFormed(candles) && sp.entry <= sp.exit < |candles| && cfg.quantity > 0
    ensures Sound(SimProofs.TradeOf(cfg, strat, candles, sp, a, b)) <==> -100.0 < cfg.slippagePct < 100.0
  {
    TradePricesPositive(cfg, candles[sp.entry].close, candles[sp.exit].close, sp.direction);
    hide FillPrice, GrossPnL, SlippageFromFill, SimProofs.Best;
  }

  lemma TradePricesPositive(cfg: Config, entry: real, exit: real, dir: Direction)
    requires entry > 0.0 && exit > 0.0
    ensures FillPrice(cfg, entry, dir, true) > 0.0 && FillPrice(cfg, exit, dir, false) > 0.0
            <==> -100.0 < cfg.slippagePct < 100.0
  {
    var pct := cfg.slippagePct / 100.0;
    SignOfProduct(entry, 1.0 + pct);
    SignOfProduct(entry, 1.0 - pct);
    SignOfProduct(exit, 1.0 + pct);
    SignOfProduct(exit, 1.0 - pct);
  }

  lemma SignOfProduct(a: real, x: real)
    requires a > 0.0
    ensures a * x > 0.0 <==> x > 0.0
  {
  }

  /**
    On well-formed candles the validator has nothing to say about a simulated journal exactly
    when there is no trade or slippage stays strictly within 100 percent, whatever the strategy
    does.
   */
  lemma SimulatedJournalSound(c: Config, strat: Strategy, useStore: bool, candles: seq<Candle>)
    requires WellFormed(candles)
    ensures var trades := Result(WithDefaults(c), strat, useStore, candles).trades;
            (forall k :: 0 <= k < |trades| ==> Sound(trades[k]))
            <==> trades == [] || -100.0 < c.slippagePct < 100.0
  {
    var cfg := WithDefaults(c);
    var r := Result(cfg, strat, useStore, candles);
    SimTheorems.Ledger(cfg, strat, useStore, candles);
    forall k | 0 <= k < |r.trades|
      ensures Sound(r.trades[k]) <==> -100.0 < c.slippagePct < 100.0
    {
      hide Sound, WellFormed, Result, SimProofs.TradeOf, SimProofs.SignalAt, SimTheorems.ExitSignalOf,
          SimProofs.Chained;
      TradeSoundIff(cfg, strat, candles, r.spans[k], SimProofs.SignalAt(strat, r.seen, r.spans[k].entry),
                    SimTheorems.ExitSignalOf(strat, candles, r, k));
    }
    if r.trades != [] {
      assert Sound(r.trades[0]) <==> -100.0 < c.slippagePct < 100.0;
    }
  }

  // ----- Metrics -----

  datatype MetricsIssue = OpensDiffer(opens: nat, closes: nat) | OpenedWithoutSignals

  method ValidateSimulationMetrics(m: Metrics) returns (issues: seq<MetricsIssue>)
    ensures issues == [] <==>
              && m.opensLong + m.opensShort == m.closes
              && (m.opensLong + m.opensShort > 0 ==> m.buySignals + m.sellSignals + m.exitSignals > 0)
    ensures OpensDiffer(m.opensLong + m.opensShort, m.closes) in issues <==> m.opensLong + m.opensShort != m.closes
  {
    issues := [];
    var opens := m.opensLong + m.opensShort;
    if opens != m.closes {
      issues := issues + [OpensDiffer(opens, m.closes)];
    }
    var expected := m.buySignals + m.sellSignals + m.exitSignals;
    if expected == 0 && opens > 0 {
      issues := issues + [OpenedWithoutSignals];
    }
  }

  /** The accounting of every simulated run passes. */
  lemma SimulatedMetricsSound(cfg: Config, strat: Strategy, useStore: bool, candles: seq<Candle>)
    ensures var m := Result(cfg, strat, useStore, candles).metrics;
            && m.opensLong + m.opensShort == m.closes
            && (m.opensLong + m.opensShort > 0 ==> m.buySignals + m.sellSignals + m.exitSignals > 0)
  {
    hide Result;
    SimTheorems.OpensEqualCloses(cfg, strat, useStore, candles);
  }

  // ----- Statistics -----

  datatype StatsIssue = DrawdownPercent | NegativeProfitFactor | WinRateRange | TooManyOutcomes | DrawdownUnrealistic

  method ValidateStatistics(s: Stats.Statistics, capital: real) returns (issues: seq<StatsIssue>)
    ensures DrawdownPercent in issues <==> s.maxDrawdownPercent > 100.0
    ensures NegativeProfitFactor in issues <==> s.profitFactor < 0.0
    ensures WinRateRange in issues <==> s.winRate < 0.0 || s.winRate > 1.0
    ensures TooManyOutcomes in issues <==>
              s.totalTrades > 0 && s.outcomes.winningTrades + s.outcomes.losingTrades > s.totalTrades
    ensures DrawdownUnrealistic in issues <==> capital > 0.0 && s.maxDrawdown > capital * 2.0
  {
    issues := [];
    if s.maxDrawdownPercent > 100.0 {
      issues := issues + [DrawdownPercent];
    }
    if s.profitFactor < 0.0 {
      issues := issues + [NegativeProfitFactor];
    }
    if s.winRate < 0.0 || s.winRate > 1.0 {
      issues := issues + [WinRateRange];
    }
    if s.totalTrades > 0 {
      if s.outcomes.winningTrades + s.outcomes.losingTrades > s.totalTrades {
        issues := issues + [TooManyOutcomes];
      }
    }
    if capital > 0.0 && s.maxDrawdown > capital * 2.0 {
      issues := issues + [DrawdownUnrealistic];
    }
  }

  lemma Ratio(a: real, b: real)
    requires a >= 0.0 && b > 0.0
    ensures a / b >= 0.0
  {
  }

  /**
    Computed statistics raise no issue but one: whatever the journal, only the drawdown over
    twice the capital can be reported, and it is reported exactly when that is the drawdown.
   */
  method ComputedStatisticsIssues(trades: seq<Trade>, capital: real, month: Instant -> string, year: Instant -> string,
                                  root: real -> real)
    returns (issues: seq<StatsIssue>)
    ensures forall x :: x in issues ==> x == DrawdownUnrealistic
    ensures trades != [] ==>
              var curve := Stats.Drawdown.Equity(capital, NetProfits(trades));
              (issues == [] <==> !(capital > 0.0 && Stats.Drawdown.DrawdownOf(curve) > capital * 2.0))
  {
    var s := Stats.ComputeStatistics(trades, capital, month, year, root);
    hide Stats.IsCalendar, Stats.Extremes, Stats.Streaks, Stats.Drawdown.Equity, NetProfits, Sum;
    if trades != [] {
      Fraction(s.outcomes.winningTrades, s.totalTrades);
      if s.outcomes.grossLoss > 0.0 {
        Ratio(s.outcomes.grossProfit, s.outcomes.grossLoss);
      }
    }
    issues := ValidateStatistics(s, capital);
    OnlyOneKind(issues);
  }

  lemma OnlyOneKind(issues: seq<StatsIssue>)
    ensures (forall x :: x in issues ==> x == DrawdownUnrealistic) ==> (issues == []
            <==> DrawdownUnrealistic !in issues)
  {
    if issues != [] {
      assert issues[0] in issues;
    }
  }
}
