/**
  The performance cache rebuilds trades from the portfolio's updates: what it gets right, and
  exactly when.
 */
module Performance {
  import opened Common
  import opened Drawdown
  import P = Portfolio
  import L = PortfolioLaws
  import S = MapSum

  datatype Update = Update(symbol: string, positionOpen: bool, realized: real, unrealized: real,
                           timestamp: Instant)

  datatype Trade = Trade(symbol: string, pnl: real, timestamp: Instant)

  datatype State = State(
    trades: seq<Trade>,
    equity: seq<real>,
    open: map<string, bool>,
    lastRealized: real,
    totalTrades: nat,
    winningTrades: nat,
    losingTrades: nat,
    grossProfit: real,
    grossLoss: real,
    tradeTotal: real,
    realized: real,
    unrealized: real,
    drawdown: DrawdownView
  )

  const EMPTY := State([], [], map[], 0.0, 0, 0, 0, 0.0, 0.0, 0.0, 0.0, 0.0, DrawdownView(0.0, 0.0, 0.0))

  predicate IsOpen(s: State, symbol: string) {
    symbol in s.open && s.open[symbol]
  }

  function Recorded(s: State, t: Trade): State {
    var counted := s.(trades := s.trades + [t], totalTrades := s.totalTrades + 1,
                      tradeTotal := s.tradeTotal + t.pnl);
    if t.pnl > 0.0 then
      counted.(winningTrades := s.winningTrades + 1, grossProfit := s.grossProfit + t.pnl)
    else if t.pnl < 0.0 then
      counted.(losingTrades := s.losingTrades + 1, grossLoss := s.grossLoss + -t.pnl)
    else counted
  }

  /** An update that closes an open symbol records the profit realised since the last update. */
  function After(s: State, u: Update): State {
    var t := if !u.positionOpen && IsOpen(s, u.symbol)
             then Recorded(s, Trade(u.symbol, u.realized - s.lastRealized, u.timestamp)) else s;
    var net := u.realized + u.unrealized;
    t.(open := s.open[u.symbol := u.positionOpen], lastRealized := u.realized,
       realized := u.realized, unrealized := u.unrealized,
       equity := s.equity + [net], drawdown := Advance(s.drawdown, net))
  }

  class Cache {
    var trades: seq<Trade>
    var equityCurve: seq<real>
    var openSymbols: map<string, bool>
    var lastRealizedPnL: real
    var totalTrades: nat
    var winningTrades: nat
    var losingTrades: nat
    var grossProfit: real
    var grossLoss: real
    var tradePnLTotal: real
    var realizedPnL: real
    var unrealizedPnL: real
    const drawdown: DrawdownState

    ghost function View(): State
      reads this, drawdown
    {
      State(trades, equityCurve, openSymbols, lastRealizedPnL, totalTrades, winningTrades, losingTrades,
            grossProfit, grossLoss, tradePnLTotal, realizedPnL, unrealizedPnL, drawdown.View())
    }

    constructor ()
      ensures View() == EMPTY && fresh(drawdown)
    {
      trades, equityCurve, openSymbols := [], [], map[];
      lastRealizedPnL, totalTrades, winningTrades, losingTrades := 0.0, 0, 0, 0;
      grossProfit, grossLoss, tradePnLTotal, realizedPnL, unrealizedPnL := 0.0, 0.0, 0.0, 0.0, 0.0;
      drawdown := new DrawdownState();
    }

    method RecordTrade(t: Trade)
      modifies this
      ensures View() == Recorded(old(View()), t)
    {
      trades := trades + [t];
      totalTrades := totalTrades + 1;
      tradePnLTotal := tradePnLTotal + t.pnl;
      if t.pnl > 0.0 {
        winningTrades := winningTrades + 1;
        grossProfit := grossProfit + t.pnl;
      } else if t.pnl < 0.0 {
        losingTrades := losingTrades + 1;
        grossLoss := grossLoss + -t.pnl;
      }
    }

    method Apply(u: Update)
      modifies this, drawdown
      ensures View() == After(old(View()), u)
    {
      hide Recorded, Advance;
      RecordedKeepsCurve(View(), Trade(u.symbol, u.realized - lastRealizedPnL, u.timestamp));
      var wasOpen := u.symbol in openSymbols && openSymbols[u.symbol];
      if u.positionOpen {
        openSymbols := openSymbols[u.symbol := true];
      } else {
        if wasOpen {
          RecordTrade(Trade(u.symbol, u.realized - lastRealizedPnL, u.timestamp));
        }
        openSymbols := openSymbols[u.symbol := false];
      }
      lastRealizedPnL := u.realized;
      realizedPnL := u.realized;
      unrealizedPnL := u.unrealized;
      var net := realizedPnL + unrealizedPnL;
      equityCurve := equityCurve + [net];
      drawdown.Update(net);
    }
  }

  // What the counters mean, whatever updates arrive.

  function PnLs(trades: seq<Trade>): (r: seq<real>)
    ensures |r| == |trades|
  {
    seq(|trades|, i requires 0 <= i < |trades| => trades[i].pnl)
  }

  function Gains(x: real): real { if x > 0.0 then x else 0.0 }

  function Losses(x: real): real { if x < 0.0 then -x else 0.0 }

  function Wins(trades: seq<Trade>): nat {
    if trades == [] then 0
    else Wins(trades[..|trades| - 1]) + if trades[|trades| - 1].pnl > 0.0 then 1 else 0
  }

  function Defeats(trades: seq<Trade>): nat {
    if trades == [] then 0
    else Defeats(trades[..|trades| - 1]) + if trades[|trades| - 1].pnl < 0.0 then 1 else 0
  }

  /** Every counter is its measure of the recorded trades, and the drawdown that of the curve. */
  ghost predicate Consistent(s: State) {
    && s.totalTrades == |s.trades|
    && s.winningTrades == Wins(s.trades) && s.losingTrades == Defeats(s.trades)
    && s.tradeTotal == Sum(PnLs(s.trades))
    && s.grossProfit == Total(PnLs(s.trades), Gains)
    && s.grossLoss == Total(PnLs(s.trades), Losses)
    && s.grossProfit - s.grossLoss == s.tradeTotal
    && s.drawdown == AdvanceAll(s.equity)
  }

  lemma RecordedConsistent(s: State, t: Trade)
    requires Consistent(s)
    ensures Consistent(Recorded(s, t))
  {
    hide Wins, Defeats, Sum, Total, PnLs, AdvanceAll;
    CountsGrow(s.trades, t);
    AmountsGrow(s.trades, t);
  }

  lemma CountsGrow(trades: seq<Trade>, t: Trade)
    ensures Wins(trades + [t]) == Wins(trades) + if t.pnl > 0.0 then 1 else 0
    ensures Defeats(trades + [t]) == Defeats(trades) + if t.pnl < 0.0 then 1 else 0
  {
    assert (trades + [t])[..|trades|] == trades;
  }

  lemma AmountsGrow(trades: seq<Trade>, t: Trade)
    ensures var pnls := PnLs(trades + [t]);
            && Sum(pnls) == Sum(PnLs(trades)) + t.pnl
            && Total(pnls, Gains) == Total(PnLs(trades), Gains) + Gains(t.pnl)
            && Total(pnls, Losses) == Total(PnLs(trades), Losses) + Losses(t.pnl)
  {
    hide Gains, Losses;
    assert PnLs(trades + [t]) == PnLs(trades) + [t.pnl];
    assert (PnLs(trades) + [t.pnl])[..|trades|] == PnLs(trades);
  }

  lemma AfterConsistent(s: State, u: Update)
    requires Consistent(s)
    ensures Consistent(After(s, u))
  {
    hide Recorded, Advance, AdvanceAll;
    var t := if !u.positionOpen && IsOpen(s, u.symbol)
             then Recorded(s, Trade(u.symbol, u.realized - s.lastRealized, u.timestamp)) else s;
    if !u.positionOpen && IsOpen(s, u.symbol) {
      RecordedConsistent(s, Trade(u.symbol, u.realized - s.lastRealized, u.timestamp));
    }
    CurveGrows(s.equity, u.realized + u.unrealized);
    RecordedKeepsCurve(s, Trade(u.symbol, u.realized - s.lastRealized, u.timestamp));
  }

  lemma CurveGrows(equity: seq<real>, net: real)
    ensures AdvanceAll(equity + [net]) == Advance(AdvanceAll(equity), net)
  {
  }

  lemma RecordedKeepsCurve(s: State, t: Trade)
    ensures var r := Recorded(s, t);
            && r.equity == s.equity && r.drawdown == s.drawdown && r.open == s.open
            && r.lastRealized == s.lastRealized
            && r.realized == s.realized && r.unrealized == s.unrealized
  {
  }

  // The two caches in line.

  datatype Both = Both(portfolio: P.State, performance: State)

  ghost function FromPortfolio(u: P.Update): Update {
    Update(u.symbol, u.open.Some?, u.realized, u.unrealized, u.timestamp)
  }

  ghost function Step(b: Both, r: P.Report): Both {
    var published := P.Published(b.portfolio, r);
    Both(P.After(b.portfolio, r),
         if published.Some? then After(b.performance, FromPortfolio(published.value)) else b.performance)
  }

  ghost function Pipeline(reports: seq<P.Report>): Both {
    if reports == [] then Both(P.EMPTY, EMPTY)
    else Step(Pipeline(reports[..|reports| - 1]), reports[|reports| - 1])
  }

  /** Profit realised by an exit on a symbol the performance cache holds to be closed. */
  ghost function MissedOf(b: Both, r: P.Report): real {
    if L.Counts(r) && !IsOpen(b.performance, r.symbol) then P.Gain(b.portfolio.positions, r) else 0.0
  }

  ghost function Missed(reports: seq<P.Report>): real {
    if reports == [] then 0.0
    else Missed(reports[..|reports| - 1]) + MissedOf(Pipeline(reports[..|reports| - 1]), reports[|reports| - 1])
  }

  /** The round trips of the portfolio: what each exit of an open position realised. */
  ghost function RoundTrips(reports: seq<P.Report>): seq<Trade> {
    if reports == [] then []
    else
      var front, r := reports[..|reports| - 1], reports[|reports| - 1];
      var before := Pipeline(front).portfolio.positions;
      if L.Counts(r) && P.IsExit(r.action) && P.KeyOf(r) in before
      then RoundTrips(front) + [Trade(r.symbol, P.Gain(before, r), r.timestamp)]
      else RoundTrips(front)
  }

  ghost predicate InStep(b: Both) {
    b.performance.lastRealized == b.portfolio.realized
  }

  lemma StepKeeps(b: Both, r: P.Report)
    requires InStep(b) && Consistent(b.performance)
    ensures InStep(Step(b, r)) && Consistent(Step(b, r).performance)
  {
    hide After, P.UnrealizedSum, P.SymbolUnrealized, P.Gain;
    var published := P.Published(b.portfolio, r);
    if published.Some? {
      AfterConsistent(b.performance, FromPortfolio(published.value));
      AfterTakesRealized(b.performance, FromPortfolio(published.value));
    }
  }

  lemma AfterTakesRealized(s: State, u: Update)
    ensures After(s, u).lastRealized == u.realized
  {
  }

  lemma StepTotals(b: Both, r: P.Report)
    requires InStep(b)
    ensures var c := Step(b, r);
            c.performance.tradeTotal - b.performance.tradeTotal + MissedOf(b, r)
            == c.portfolio.realized - b.portfolio.realized
  {
  }

  /**
    Whatever is reported: the trades' profits and the profit missed make up the realised profit,
    so gross profit minus gross loss is the realised profit exactly when nothing was missed.
   */
  lemma {:induction false} GrossMatchesRealized(reports: seq<P.Report>)
    ensures var b := Pipeline(reports);
            && InStep(b) && Consistent(b.performance)
            && b.performance.tradeTotal + Missed(reports) == b.portfolio.realized
            && (b.performance.grossProfit - b.performance.grossLoss == b.portfolio.realized
                <==> Missed(reports) == 0.0)
  {
    hide Step, MissedOf;
    if reports == [] {
      EmptyConsistent();
    } else {
      var front, r := reports[..|reports| - 1], reports[|reports| - 1];
      GrossMatchesRealized(front);
      StepKeeps(Pipeline(front), r);
      StepTotals(Pipeline(front), r);
    }
  }

  lemma EmptyConsistent()
    ensures Consistent(EMPTY)
  {
  }

  /** The performance cache holds a symbol open exactly while the portfolio does. */
  ghost predicate OpenTogether(b: Both, timeframeOf: string -> string) {
    && (forall k :: k in b.portfolio.positions ==> k.timeframe == timeframeOf(k.symbol))
    && (forall symbol :: IsOpen(b.performance, symbol) <==>
                           P.Key(symbol, timeframeOf(symbol)) in b.portfolio.positions)
  }

  lemma StepTogether(b: Both, r: P.Report, timeframeOf: string -> string)
    requires OpenTogether(b, timeframeOf)
    requires L.Counts(r) ==> r.timeframe == timeframeOf(r.symbol)
    ensures OpenTogether(Step(b, r), timeframeOf)
  {
  }

  lemma StepTrades(b: Both, r: P.Report, timeframeOf: string -> string)
    requires InStep(b) && OpenTogether(b, timeframeOf)
    requires L.Counts(r) ==> r.timeframe == timeframeOf(r.symbol)
    ensures MissedOf(b, r) == 0.0
    ensures Step(b, r).performance.trades
            == if L.Counts(r) && P.IsExit(r.action) && P.KeyOf(r) in b.portfolio.positions
               then b.performance.trades + [Trade(r.symbol, P.Gain(b.portfolio.positions, r), r.timestamp)]
               else b.performance.trades
  {
  }

  /**
    With one timeframe per symbol the recorded trades are the portfolio's round trips, one for
    one, and gross profit minus gross loss is the realised profit.
   */
  lemma {:induction false} TradesAreRoundTrips(reports: seq<P.Report>, timeframeOf: string -> string)
    requires forall r :: r in reports && L.Counts(r) ==> r.timeframe == timeframeOf(r.symbol)
    ensures var b := Pipeline(reports);
            && OpenTogether(b, timeframeOf)
            && b.performance.trades == RoundTrips(reports)
            && Missed(reports) == 0.0
            && b.performance.grossProfit - b.performance.grossLoss == b.portfolio.realized
  {
    hide Step, MissedOf, L.Counts, OpenTogether;
    GrossMatchesRealized(reports);
    if reports == [] {
      NothingOpen(timeframeOf);
    } else {
      var front, r := reports[..|reports| - 1], reports[|reports| - 1];
      TradesAreRoundTrips(front, timeframeOf);
      GrossMatchesRealized(front);
      StepTogether(Pipeline(front), r, timeframeOf);
      StepTrades(Pipeline(front), r, timeframeOf);
    }
  }

  lemma NothingOpen(timeframeOf: string -> string)
    ensures OpenTogether(Both(P.EMPTY, EMPTY), timeframeOf)
  {
  }

  /** The drawdown kept step by step is that of the whole curve, started at zero. */
  lemma PipelineDrawdown(reports: seq<P.Report>)
    ensures var s := Pipeline(reports).performance;
            IsMaxDrawdown([0.0] + s.equity, s.drawdown.maxDD)
  {
    GrossMatchesRealized(reports);
    IncrementalDrawdown(Pipeline(reports).performance.equity);
  }

  /** Two timeframes of one symbol: the first exit closes the symbol, the second is missed. */
  function TwoTimeframes(): seq<P.Report> {
    [L.Fill("X", "1m", "LONG_ENTRY", 1.0), L.Fill("X", "5m", "LONG_ENTRY", 1.0),
     L.Fill("X", "1m", "LONG_EXIT", 2.0), L.Fill("X", "5m", "LONG_EXIT", 3.0)]
  }

  lemma EntryOpens(b: Both, r: P.Report)
    requires r.status == P.FILLED && r.action == "LONG_ENTRY"
    ensures var c := Step(b, r);
            && c.portfolio.positions == b.portfolio.positions[P.KeyOf(r) := P.PositionOf(r, P.Long)]
            && IsOpen(c.performance, r.symbol)
            && MissedOf(b, r) == 0.0
  {
  }

  lemma ExitCloses(b: Both, r: P.Report)
    requires r.status == P.FILLED && r.action == "LONG_EXIT"
    ensures var c := Step(b, r);
            && c.portfolio.positions == b.portfolio.positions - {P.KeyOf(r)}
            && !IsOpen(c.performance, r.symbol)
            && MissedOf(b, r)
               == if IsOpen(b.performance, r.symbol) then 0.0 else P.Gain(b.portfolio.positions, r)
  {
  }

  /** Without one timeframe per symbol the law fails: here two of three units are missed. */
  lemma TwoTimeframesMiss()
    ensures Missed(TwoTimeframes()) == 2.0
    ensures var b := Pipeline(TwoTimeframes());
            b.performance.grossProfit - b.performance.grossLoss != b.portfolio.realized
  {
    hide Step, MissedOf, IsOpen;
    var rs := TwoTimeframes();
    assert rs[..4] == rs && rs[..4][..3] == rs[..3] && rs[..3][..2] == rs[..2] && rs[..2][..1] == rs[..1];
    assert rs[..1][..0] == [];
    var b0 := Both(P.EMPTY, EMPTY);
    var b1 := Step(b0, rs[0]);
    var b2 := Step(b1, rs[1]);
    var b3 := Step(b2, rs[2]);
    EntryOpens(b0, rs[0]);
    EntryOpens(b1, rs[1]);
    ExitCloses(b2, rs[2]);
    ExitCloses(b3, rs[3]);
    assert Pipeline(rs[..1]) == b1;
    assert Pipeline(rs[..2]) == b2;
    assert Pipeline(rs[..3]) == b3;
    assert b3.portfolio.positions[P.KeyOf(rs[3])] == P.PositionOf(rs[1], P.Long);
    assert P.Gain(b3.portfolio.positions, rs[3]) == 2.0;
    assert Missed(rs[..0]) == 0.0;
    assert Missed(rs[..1]) == 0.0;
    assert Missed(rs[..2]) == 0.0;
    assert Missed(rs[..3]) == 0.0;
    GrossMatchesRealized(rs);
  }

  /** Unrealised profit of the symbols an update does not speak of. */
  ghost function Elsewhere(s: P.State, symbol: string): real {
    S.SumOver(s.positions.Keys - P.OfSymbol(s.positions, symbol), P.UnrealizedAt(s.positions, s.prices))
  }

  /** Positions are filed under their own symbol. */
  ghost predicate Keyed(positions: P.Positions) {
    forall k :: k in positions ==> positions[k].symbol == k.symbol
  }

  /** The second cache only listens. */
  lemma {:induction false} PipelinePortfolio(reports: seq<P.Report>)
    ensures Pipeline(reports).portfolio == L.Run(reports)
  {
    hide P.After, After;
    if reports != [] {
      PipelinePortfolio(reports[..|reports| - 1]);
    }
  }

  lemma {:induction false} PipelineKeyed(reports: seq<P.Report>)
    ensures Keyed(Pipeline(reports).portfolio.positions)
  {
    if reports != [] {
      hide P.UnrealizedSum, P.Gain, After, P.SymbolUnrealized;
      PipelineKeyed(reports[..|reports| - 1]);
    }
  }

  /** A report touches no position, and no mark, of another symbol. */
  lemma ElsewhereUntouched(s: P.State, r: P.Report)
    requires Keyed(s.positions)
    ensures Elsewhere(P.After(s, r), r.symbol) == Elsewhere(s, r.symbol)
  {
    hide P.After, P.UnrealizedSum, S.SumOver, P.Unrealized;
    var t := P.After(s, r);
    forall k
      ensures k in t.positions && t.positions[k].symbol != r.symbol
              <==> k in s.positions && s.positions[k].symbol != r.symbol
      ensures k in s.positions && s.positions[k].symbol != r.symbol ==>
                P.UnrealizedAt(t.positions, t.prices)(k) == P.UnrealizedAt(s.positions, s.prices)(k)
    {
      OtherUntouched(s, r, k);
    }
    var others := s.positions.Keys - P.OfSymbol(s.positions, r.symbol);
    assert others == t.positions.Keys - P.OfSymbol(t.positions, r.symbol);
    S.SumSame(others, P.UnrealizedAt(s.positions, s.prices), P.UnrealizedAt(t.positions, t.prices));
  }

  lemma OtherUntouched(s: P.State, r: P.Report, k: P.Key)
    requires Keyed(s.positions)
    ensures var t := P.After(s, r);
            && (k in t.positions && t.positions[k].symbol != r.symbol
                <==> k in s.positions && s.positions[k].symbol != r.symbol)
            && (k in s.positions && s.positions[k].symbol != r.symbol ==>
                  t.positions[k] == s.positions[k]
                  && P.Unrealized(t.prices, t.positions[k]) == P.Unrealized(s.prices, s.positions[k]))
  {
    hide P.Gain, P.UnrealizedSum, S.SumOver;
  }

  lemma EquityPoint(b: Both, r: P.Report)
    requires L.Counts(r)
    ensures var c := Step(b, r);
            && c.performance.equity != []
            && c.performance.equity[|c.performance.equity| - 1]
               == c.portfolio.realized + c.portfolio.unrealized - Elsewhere(c.portfolio, r.symbol)
  {
    hide P.Gain, Recorded, Advance;
    var t := P.After(b.portfolio, r);
    var own := P.OfSymbol(t.positions, r.symbol);
    assert own + (t.positions.Keys - own) == t.positions.Keys;
    S.SumUnion(own, t.positions.Keys - own, P.UnrealizedAt(t.positions, t.prices));
  }

  /**
    An equity point adds the symbol's unrealised profit to the whole realised profit. So it falls
    short of the portfolio's total by what the other symbols had unrealised before the report,
    and is the total exactly when that cancels.
   */
  lemma EquityPointIsPartial(reports: seq<P.Report>, r: P.Report)
    requires L.Counts(r)
    ensures var b, c := Pipeline(reports), Pipeline(reports + [r]);
            var curve, total := c.performance.equity, c.portfolio.realized + c.portfolio.unrealized;
            && curve != []
            && curve[|curve| - 1] == total - Elsewhere(b.portfolio, r.symbol)
            && (curve[|curve| - 1] == total <==> Elsewhere(b.portfolio, r.symbol) == 0.0)
  {
    hide Elsewhere, P.After, After, L.Counts;
    assert (reports + [r])[..|reports|] == reports;
    var b := Pipeline(reports);
    PipelineKeyed(reports);
    ElsewhereUntouched(b.portfolio, r);
    EquityPoint(b, r);
  }

  /**
    Where it fails: X has gained 1 when Y is entered, and the equity point after the entry of
    Y leaves that out.
   */
  lemma OtherSymbolLeftOut()
    ensures var reports := [L.Fill("X", "1m", "LONG_ENTRY", 1.0), L.Fill("X", "5m", "LONG_ENTRY", 2.0),
                            L.Fill("Y", "1m", "LONG_ENTRY", 1.0)];
            var c := Pipeline(reports);
            && c.performance.equity != []
            && c.performance.equity[|c.performance.equity| - 1]
               == c.portfolio.realized + c.portfolio.unrealized - 1.0
  {
    hide Pipeline, Elsewhere;
    var r1, r2, r3 := L.Fill("X", "1m", "LONG_ENTRY", 1.0), L.Fill("X", "5m", "LONG_ENTRY", 2.0),
                      L.Fill("Y", "1m", "LONG_ENTRY", 1.0);
    GainElsewhere(r1, r2);
    EquityPointIsPartial([r1, r2], r3);
    assert [r1, r2] + [r3] == [r1, r2, r3];
  }

  lemma GainElsewhere(r1: P.Report, r2: P.Report)
    requires r1 == L.Fill("X", "1m", "LONG_ENTRY", 1.0) && r2 == L.Fill("X", "5m", "LONG_ENTRY", 2.0)
    ensures Elsewhere(Pipeline([r1, r2]).portfolio, "Y") == 1.0
  {
    hide P.UnrealizedSum, P.Gain, S.SumOver, Pipeline, L.Run;
    PipelinePortfolio([r1, r2]);
    L.RunOfTwo(r1, r2);
    var s := L.Run([r1, r2]);
    var k1, k2, f := P.KeyOf(r1), P.KeyOf(r2), P.UnrealizedAt(s.positions, s.prices);
    assert s.positions.Keys - P.OfSymbol(s.positions, "Y") == {k1} + {k2};
    assert f(k1) == 1.0 && f(k2) == 0.0;
    S.SumOne(f, k1);
    S.SumPutIn({k1}, f, k2);
  }
}
