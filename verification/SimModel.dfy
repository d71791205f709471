/**
  The trade simulator as a state machine over bars.

  A strategy is any function from the contexts it has been shown so far to a signal, which
  covers strategies that keep state of their own. The state records, beside what the program
  keeps, the contexts shown to the strategy and the bar span of every trade: the ledger itself
  stores only times and a bar count.
 */
module SimModel {
  import opened Common

  datatype Direction = Long | Short

  /** Any decision text other than the three actions is ignored by the simulator. */
  datatype Decision = Buy | Sell | Exit | Other(text: string)

  datatype Candle = Candle(
    symbol: string, timeframe: string,
    open: real, high: real, low: real, close: real,
    openTime: Instant, closeTime: Instant)

  datatype Signal = Signal(decision: Decision, reasons: seq<string>, generatedAt: Instant)

  predicate IsAction(s: Signal) {
    s.decision.Buy? || s.decision.Sell? || s.decision.Exit?
  }

  datatype PositionView = Flat | InLong | InShort

  datatype Context = Context(
    candle: Candle, history: seq<Candle>, position: PositionView, timestamp: Instant, barIndex: nat)

  datatype Strategy = Strategy(name: string, version: string, warmup: int, evaluate: seq<Context> -> Signal)

  datatype Config = Config(
    initialCapital: real, quantity: int, commission: real, taxRate: real, slippagePct: real)

  function WithDefaults(c: Config): (r: Config)
    ensures r.initialCapital > 0.0 && r.quantity > 0
    ensures r.initialCapital == c.initialCapital || (c.initialCapital <= 0.0 && r.initialCapital == 100000.0)
    ensures r.quantity == c.quantity || (c.quantity <= 0 && r.quantity == 1)
    ensures r.commission == c.commission && r.taxRate == c.taxRate && r.slippagePct == c.slippagePct
  {
    c.(initialCapital := if c.initialCapital <= 0.0 then 100000.0 else c.initialCapital,
       quantity := if c.quantity <= 0 then 1 else c.quantity)
  }

  datatype OpenPosition = OpenPosition(
    direction: Direction, entryPrice: real, entryMid: real, entryTime: Instant, entryBar: nat,
    quantity: int, entrySignal: Signal, mfe: real, mae: real)

  datatype Trade = Trade(
    strategy: string, version: string, entrySignal: Signal, exitSignal: Signal,
    symbol: string, timeframe: string, entryTime: Instant, exitTime: Instant,
    entryPrice: real, exitPrice: real, quantity: int, direction: Direction,
    commission: real, taxes: real, slippage: real, grossProfit: real, netProfit: real,
    returnPercent: real, mfe: real, mae: real, barsHeld: int, holdingDuration: int,
    exitReason: string, riskReward: real)

  datatype Metrics = Metrics(
    buySignals: nat, sellSignals: nat, exitSignals: nat, opensLong: nat, opensShort: nat,
    closes: nat, ignoredBuyLong: nat, ignoredSellShort: nat, ignoredExitFlat: nat, endOfDataCloses: nat)

  const NO_METRICS := Metrics(0, 0, 0, 0, 0, 0, 0, 0, 0, 0)

  // ----- Prices and costs -----

  /** A fill moves against the trader: up when buying, down when selling. */
  function FillPrice(cfg: Config, close: real, dir: Direction, isEntry: bool): real {
    var pct := cfg.slippagePct / 100.0;
    match (dir, isEntry)
    case (Long, true) => close * (1.0 + pct)
    case (Long, false) => close * (1.0 - pct)
    case (Short, true) => close * (1.0 - pct)
    case (Short, false) => close * (1.0 + pct)
  }

  function GrossPnL(dir: Direction, entry: real, exit: real, qty: int): real {
    if dir.Long? then (exit - entry) * qty as real else (entry - exit) * qty as real
  }

  function SlippageFromFill(fill: real, mid: real, qty: int): real {
    Abs(fill - mid) * qty as real
  }

  function Favorable(dir: Direction, entry: real, c: Candle, qty: int): real {
    if dir.Long? then (c.high - entry) * qty as real else (entry - c.low) * qty as real
  }

  function Adverse(dir: Direction, entry: real, c: Candle, qty: int): real {
    if dir.Long? then (entry - c.low) * qty as real else (c.high - entry) * qty as real
  }

  // ----- Opening, watching and closing a position -----

  function PositionFromOpen(pos: Option<OpenPosition>): PositionView {
    if pos.None? then Flat else if pos.value.direction.Long? then InLong else InShort
  }

  function OpenAt(cfg: Config, dir: Direction, c: Candle, bar: nat, sig: Signal): OpenPosition {
    OpenPosition(dir, FillPrice(cfg, c.close, dir, true), c.close, c.closeTime, bar, cfg.quantity, sig, 0.0, 0.0)
  }

  function UpdateExcursion(pos: OpenPosition, c: Candle): OpenPosition {
    pos.(mfe := Max(pos.mfe, Favorable(pos.direction, pos.entryPrice, c, pos.quantity)),
         mae := Max(pos.mae, Adverse(pos.direction, pos.entryPrice, c, pos.quantity)))
  }

  function ClosePosition(cfg: Config, strat: Strategy, pos: OpenPosition, c: Candle, bar: int, exitSig: Signal): Trade {
    var exitPrice := FillPrice(cfg, c.close, pos.direction, false);
    var gross := GrossPnL(pos.direction, pos.entryPrice, exitPrice, pos.quantity);
    var slippage := SlippageFromFill(pos.entryPrice, pos.entryMid, pos.quantity)
                    + SlippageFromFill(exitPrice, c.close, pos.quantity);
    var commission := cfg.commission * 2.0;
    var taxes := if gross < 0.0 then 0.0 else gross * cfg.taxRate;
    var net := gross - commission - taxes;
    var entryValue := pos.entryPrice * pos.quantity as real;
    Trade(
      strat.name, strat.version, pos.entrySignal, exitSig, c.symbol, c.timeframe, pos.entryTime, c.closeTime,
      pos.entryPrice, exitPrice, pos.quantity, pos.direction, commission, taxes, slippage, gross, net,
      if entryValue > 0.0 then (net / entryValue) * 100.0 else 0.0,
      pos.mfe, pos.mae,
      if bar - pos.entryBar < 1 then 1 else bar - pos.entryBar,
      if c.closeTime - pos.entryTime < 0 then 0 else c.closeTime - pos.entryTime,
      if |exitSig.reasons| > 0 then exitSig.reasons[0] else "signal",
      if pos.mae > 0.0 then pos.mfe / pos.mae else 0.0)
  }

  // ----- The state machine -----

  /** From the bar whose close filled the entry to the bar whose close filled the exit. */
  datatype Span = Span(direction: Direction, entry: nat, exit: nat)

  datatype State = State(
    pos: Option<OpenPosition>, trades: seq<Trade>, spans: seq<Span>, metrics: Metrics,
    history: seq<Candle>, seen: seq<Context>)

  const START := State(None, [], [], NO_METRICS, [], [])

  function NetProfits(trades: seq<Trade>): (r: seq<real>)
    ensures |r| == |trades|
    ensures forall k :: 0 <= k < |r| ==> r[k] == trades[k].netProfit
  {
    seq(|trades|, k requires 0 <= k < |trades| => trades[k].netProfit)
  }

  predicate CanOpen(cfg: Config, trades: seq<Trade>) {
    cfg.initialCapital + Sum(NetProfits(trades)) > 0.0
  }

  function HistoryCap(strat: Strategy): nat {
    if strat.warmup * 3 < 64 then 64 else strat.warmup * 3
  }

  function ContextAt(s: State, useStore: bool, c: Candle, bar: nat): Context {
    Context(c, if useStore then [] else s.history, PositionFromOpen(s.pos),
            if IsZeroTime(c.closeTime) then c.openTime else c.closeTime, bar)
  }

  /** What happens on every bar before the signal is acted on. */
  function Observe(strat: Strategy, useStore: bool, s: State, c: Candle, bar: nat): State {
    s.(seen := s.seen + [ContextAt(s, useStore, c, bar)],
       history := if useStore then s.history else Tail(s.history + [c], HistoryCap(strat)),
       pos := if bar >= strat.warmup && s.pos.Some? then Some(UpdateExcursion(s.pos.value, c)) else s.pos)
  }

  function Close(cfg: Config, strat: Strategy, s: State, c: Candle, bar: nat, sig: Signal): (t: State)
    requires s.pos.Some?
    ensures t.seen == s.seen && t.history == s.history
  {
    s.(pos := None,
       trades := s.trades + [ClosePosition(cfg, strat, s.pos.value, c, bar, sig)],
       spans := s.spans + [Span(s.pos.value.direction, s.pos.value.entryBar, bar)],
       metrics := s.metrics.(closes := s.metrics.closes + 1))
  }

  function Open(cfg: Config, s: State, dir: Direction, c: Candle, bar: nat, sig: Signal): State {
    s.(pos := Some(OpenAt(cfg, dir, c, bar, sig)),
       metrics := if dir.Long? then s.metrics.(opensLong := s.metrics.opensLong + 1)
                  else s.metrics.(opensShort := s.metrics.opensShort + 1))
  }

  /** Close an opposite position, then open in the wanted direction while equity is positive. */
  function Enter(cfg: Config, strat: Strategy, s: State, dir: Direction, c: Candle, bar: nat, sig: Signal): (t: State)
    ensures t.seen == s.seen && t.history == s.history
  {
    var flat := if s.pos.Some? then Close(cfg, strat, s, c, bar, sig) else s;
    if CanOpen(cfg, flat.trades) then Open(cfg, flat, dir, c, bar, sig) else flat
  }

  function Act(cfg: Config, strat: Strategy, s: State, c: Candle, bar: nat, sig: Signal): (t: State)
    ensures t.seen == s.seen && t.history == s.history
  {
    var m := s.metrics;
    match sig.decision
    case Other(_) => s
    case Buy =>
      var counted := s.(metrics := m.(buySignals := m.buySignals + 1));
      if s.pos.Some? && s.pos.value.direction.Long? then
        counted.(metrics := counted.metrics.(ignoredBuyLong := m.ignoredBuyLong + 1))
      else Enter(cfg, strat, counted, Long, c, bar, sig)
    case Sell =>
      var counted := s.(metrics := m.(sellSignals := m.sellSignals + 1));
      if s.pos.Some? && s.pos.value.direction.Short? then
        counted.(metrics := counted.metrics.(ignoredSellShort := m.ignoredSellShort + 1))
      else Enter(cfg, strat, counted, Short, c, bar, sig)
    case Exit =>
      var counted := s.(metrics := m.(exitSignals := m.exitSignals + 1));
      if s.pos.None? then
        counted.(metrics := counted.metrics.(ignoredExitFlat := m.ignoredExitFlat + 1))
      else Close(cfg, strat, counted, c, bar, sig)
  }

  /** One bar. During warmup the strategy is evaluated and its signal dropped. */
  function OnBar(cfg: Config, strat: Strategy, useStore: bool, s: State, c: Candle, bar: nat): State {
    var o := Observe(strat, useStore, s, c, bar);
    if bar < strat.warmup then o else Act(cfg, strat, o, c, bar, strat.evaluate(o.seen))
  }

  /** The state after the first `n` bars. */
  function After(cfg: Config, strat: Strategy, useStore: bool, candles: seq<Candle>, n: nat): (s: State)
    requires n <= |candles|
    ensures |s.seen| == n
  {
    if n == 0 then START
    else OnBar(cfg, strat, useStore, After(cfg, strat, useStore, candles, n - 1), candles[n - 1], n - 1)
  }

  function EndOfData(last: Candle): Signal {
    Signal(Exit, ["end of data"], last.closeTime)
  }

  /** A whole run: a position still open after the last bar is closed on that bar. */
  function Result(cfg: Config, strat: Strategy, useStore: bool, candles: seq<Candle>): State {
    var s := After(cfg, strat, useStore, candles, |candles|);
    if candles == [] || s.pos.None? then s
    else
      var last := |candles| - 1;
      var closed := Close(cfg, strat, s, candles[last], last, EndOfData(candles[last]));
      closed.(metrics := closed.metrics.(endOfDataCloses := s.metrics.endOfDataCloses + 1))
  }
}
