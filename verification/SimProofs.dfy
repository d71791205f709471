/**
  What every run of the simulator keeps, for every candle sequence and every strategy.
 */
module SimProofs {
  import opened Common
  import opened SimModel

  // ----- Excursions -----

  /** The larger of zero and the favourable (or adverse) excursion of every bar. */
  function Best(favorable: bool, dir: Direction, entry: real, qty: int, bars: seq<Candle>): (m: real)
    ensures m >= 0.0
    ensures forall k :: 0 <= k < |bars| ==> Reach(favorable, dir, entry, qty, bars[k]) <= m
    ensures m == 0.0 || exists k :: 0 <= k < |bars| && Reach(favorable, dir, entry, qty, bars[k]) == m
  {
    hide Reach;
    if bars == [] then 0.0
    else
      var n := |bars| - 1;
      var before := Best(favorable, dir, entry, qty, bars[..n]);
      var m := Max(before, Reach(favorable, dir, entry, qty, bars[n]));
      assert forall k :: 0 <= k < n ==> bars[k] == bars[..n][k];
      m
  }

  function Reach(favorable: bool, dir: Direction, entry: real, qty: int, c: Candle): real {
    if favorable then Favorable(dir, entry, c, qty) else Adverse(dir, entry, c, qty)
  }

  /** The position that was opened on bar `entry`, as it stands when `upTo` bars have been seen. */
  function PositionAt(cfg: Config, candles: seq<Candle>, dir: Direction, entry: nat, sig: Signal,
      upTo: nat): OpenPosition
    requires entry < upTo <= |candles|
  {
    var c := candles[entry];
    var price := FillPrice(cfg, c.close, dir, true);
    var bars := candles[entry + 1..upTo];
    OpenPosition(dir, price, c.close, c.closeTime, entry, cfg.quantity, sig,
                 Best(true, dir, price, cfg.quantity, bars), Best(false, dir, price, cfg.quantity, bars))
  }

  /** Seeing one more bar moves the position to the next prefix. */
  lemma PositionAdvances(cfg: Config, candles: seq<Candle>, dir: Direction, entry: nat, sig: Signal, upTo: nat)
    requires entry < upTo < |candles|
    ensures UpdateExcursion(PositionAt(cfg, candles, dir, entry, sig, upTo), candles[upTo])
         == PositionAt(cfg, candles, dir, entry, sig, upTo + 1)
  {
    hide FillPrice, Favorable, Adverse;
    var bars := candles[entry + 1..upTo + 1];
    assert bars[..|bars| - 1] == candles[entry + 1..upTo];
    assert bars[|bars| - 1] == candles[upTo];
  }

  lemma PositionStarts(cfg: Config, candles: seq<Candle>, dir: Direction, entry: nat, sig: Signal)
    requires entry < |candles|
    ensures OpenAt(cfg, dir, candles[entry], entry, sig) == PositionAt(cfg, candles, dir, entry, sig, entry + 1)
  {
  }

  // ----- The ledger -----

  /** The signal the strategy gave on bar `j`. */
  function SignalAt(strat: Strategy, seen: seq<Context>, j: nat): Signal
    requires j < |seen|
  {
    strat.evaluate(seen[..j + 1])
  }

  /** The trade that a span stands for, computed from the candles alone. */
  function TradeOf(cfg: Config, strat: Strategy, candles: seq<Candle>, span: Span, entrySig: Signal,
      exitSig: Signal): Trade
    requires span.entry <= span.exit < |candles|
  {
    ClosePosition(cfg, strat, PositionAt(cfg, candles, span.direction, span.entry, entrySig, span.exit + 1),
                  candles[span.exit], span.exit, exitSig)
  }

  /** Spans follow one another; a reversal shares its bar with the trade it ends. */
  ghost predicate Chained(spans: seq<Span>) {
    forall k :: 0 < k < |spans| ==> spans[k - 1].exit <= spans[k].entry
  }

  /** Equity was positive when each of the first `n` trades was opened. */
  ghost predicate Funded(cfg: Config, trades: seq<Trade>, n: nat) {
    forall k: nat :: k < n && k <= |trades| ==> CanOpen(cfg, trades[..k])
  }

  ghost predicate Booked(cfg: Config, strat: Strategy, candles: seq<Candle>, s: State, k: nat)
    requires k < |s.spans| && k < |s.trades|
  {
    var sp := s.spans[k];
    && strat.warmup <= sp.entry < sp.exit < |candles| && sp.exit < |s.seen|
    && s.trades[k] == TradeOf(cfg, strat, candles, sp, SignalAt(strat, s.seen, sp.entry), SignalAt(strat,
        s.seen, sp.exit))
  }

  /** What holds when `n` bars have been seen. */
  ghost predicate Inv(cfg: Config, strat: Strategy, candles: seq<Candle>, s: State, n: nat) {
    && n <= |candles| && |s.seen| == n && |s.spans| == |s.trades|
    && (forall k :: 0 <= k < |s.spans| ==> s.spans[k].exit < n && Booked(cfg, strat, candles, s, k))
    && Chained(s.spans)
    && Funded(cfg, s.trades, |s.trades| + (if s.pos.Some? then 1 else 0))
    && (s.pos.Some? ==>
          var p := s.pos.value;
          && strat.warmup <= p.entryBar < n
          && (s.spans != [] ==> s.spans[|s.spans| - 1].exit <= p.entryBar)
          && p == PositionAt(cfg, candles, p.direction, p.entryBar, SignalAt(strat, s.seen, p.entryBar), n))
  }

  /** Signals already given stay the same when another context is shown. */
  lemma SeenGrows(strat: Strategy, seen: seq<Context>, x: Context, j: nat)
    requires j < |seen|
    ensures SignalAt(strat, seen + [x], j) == SignalAt(strat, seen, j)
  {
    assert (seen + [x])[..j + 1] == seen[..j + 1];
  }

  lemma ObserveKeeps(cfg: Config, strat: Strategy, useStore: bool, candles: seq<Candle>, s: State, n: nat)
    requires Inv(cfg, strat, candles, s, n) && n < |candles|
    ensures var o := Observe(strat, useStore, s, candles[n], n);
            && Inv(cfg, strat, candles, o, n + 1)
            && (o.pos.Some? ==> o.pos.value.entryBar < n)
  {
    hide TradeOf, PositionAt, UpdateExcursion, CanOpen, SignalAt, ContextAt, Tail;
    var o := Observe(strat, useStore, s, candles[n], n);
    var x := ContextAt(s, useStore, candles[n], n);
    forall k | 0 <= k < |o.spans|
      ensures o.spans[k].exit < n + 1 && Booked(cfg, strat, candles, o, k)
    {
      assert Booked(cfg, strat, candles, s, k);
      SeenGrows(strat, s.seen, x, s.spans[k].entry);
      SeenGrows(strat, s.seen, x, s.spans[k].exit);
    }
    if s.pos.Some? {
      var p := s.pos.value;
      SeenGrows(strat, s.seen, x, p.entryBar);
      PositionAdvances(cfg, candles, p.direction, p.entryBar, SignalAt(strat, s.seen, p.entryBar), n);
      EntryOf(cfg, candles, p.direction, p.entryBar, SignalAt(strat, s.seen, p.entryBar), n + 1);
    }
  }

  lemma EntryOf(cfg: Config, candles: seq<Candle>, dir: Direction, entry: nat, sig: Signal, upTo: nat)
    requires entry < upTo <= |candles|
    ensures var p := PositionAt(cfg, candles, dir, entry, sig, upTo); p.direction == dir && p.entryBar == entry
  {
  }

  /** Counting a signal changes nothing else. */
  lemma CountKeeps(cfg: Config, strat: Strategy, candles: seq<Candle>, s: State, m: Metrics, n: nat)
    requires Inv(cfg, strat, candles, s, n)
    ensures Inv(cfg, strat, candles, s.(metrics := m), n)
  {
    hide TradeOf, PositionAt, CanOpen, SignalAt;
    forall k | 0 <= k < |s.spans|
      ensures Booked(cfg, strat, candles, s.(metrics := m), k)
    {
      assert Booked(cfg, strat, candles, s, k);
    }
  }

  /** Closing on the bar just seen books the trade the span stands for. */
  lemma CloseBooks(cfg: Config, strat: Strategy, candles: seq<Candle>, s: State, bar: nat, sig: Signal)
    requires Inv(cfg, strat, candles, s, bar + 1) && s.pos.Some?
    ensures var p, t := s.pos.value, Close(cfg, strat, s, candles[bar], bar, sig);
            var sp := Span(p.direction, p.entryBar, bar);
            && t.trades == s.trades + [TradeOf(cfg, strat, candles, sp, SignalAt(strat, s.seen, sp.entry), sig)]
            && t.spans == s.spans + [sp]
            && Chained(t.spans)
            && Funded(cfg, t.trades, |t.trades|)
  {
    hide PositionAt, CanOpen, SignalAt, ClosePosition;
    var t := Close(cfg, strat, s, candles[bar], bar, sig);
    forall k: nat | k < |t.trades|
      ensures CanOpen(cfg, t.trades[..k])
    {
      assert t.trades[..k] == s.trades[..k];
    }
  }

  lemma CloseKeeps(cfg: Config, strat: Strategy, candles: seq<Candle>, s: State, bar: nat, sig: Signal)
    requires Inv(cfg, strat, candles, s, bar + 1)
    requires s.pos.Some? && s.pos.value.entryBar < bar
    requires sig == SignalAt(strat, s.seen, bar)
    ensures Inv(cfg, strat, candles, Close(cfg, strat, s, candles[bar], bar, sig), bar + 1)
  {
    CloseBooks(cfg, strat, candles, s, bar, sig);
    hide TradeOf, PositionAt, CanOpen, SignalAt, ClosePosition, Chained, Funded;
    var t := Close(cfg, strat, s, candles[bar], bar, sig);
    forall k | 0 <= k < |t.spans|
      ensures t.spans[k].exit < bar + 1 && Booked(cfg, strat, candles, t, k)
    {
      if k < |s.spans| {
        assert Booked(cfg, strat, candles, s, k);
      }
    }
  }

  lemma OpenKeeps(cfg: Config, strat: Strategy, candles: seq<Candle>, s: State, dir: Direction, bar: nat, sig: Signal)
    requires Inv(cfg, strat, candles, s, bar + 1)
    requires s.pos.None? && CanOpen(cfg, s.trades) && strat.warmup <= bar
    requires sig == SignalAt(strat, s.seen, bar)
    ensures Inv(cfg, strat, candles, Open(cfg, s, dir, candles[bar], bar, sig), bar + 1)
  {
    PositionStarts(cfg, candles, dir, bar, sig);
    hide TradeOf, PositionAt, CanOpen, SignalAt, FillPrice;
    var t := Open(cfg, s, dir, candles[bar], bar, sig);
    forall k | 0 <= k < |t.spans|
      ensures Booked(cfg, strat, candles, t, k)
    {
      assert Booked(cfg, strat, candles, s, k);
    }
    assert t.trades[..|t.trades|] == t.trades;
  }

  lemma EnterKeeps(cfg: Config, strat: Strategy, candles: seq<Candle>, s: State, dir: Direction, bar: nat, sig: Signal)
    requires Inv(cfg, strat, candles, s, bar + 1)
    requires s.pos.Some? ==> s.pos.value.entryBar < bar
    requires strat.warmup <= bar && sig == SignalAt(strat, s.seen, bar)
    ensures Inv(cfg, strat, candles, Enter(cfg, strat, s, dir, candles[bar], bar, sig), bar + 1)
  {
    InvSeen(cfg, strat, candles, s, bar + 1);
    hide Inv, CanOpen, SignalAt, ClosePosition, OpenAt;
    var flat := s;
    if s.pos.Some? {
      CloseKeeps(cfg, strat, candles, s, bar, sig);
      flat := Close(cfg, strat, s, candles[bar], bar, sig);
    }
    if CanOpen(cfg, flat.trades) {
      OpenKeeps(cfg, strat, candles, flat, dir, bar, sig);
    }
  }

  lemma ActKeeps(cfg: Config, strat: Strategy, candles: seq<Candle>, s: State, bar: nat, sig: Signal)
    requires Inv(cfg, strat, candles, s, bar + 1)
    requires s.pos.Some? ==> s.pos.value.entryBar < bar
    requires strat.warmup <= bar && sig == SignalAt(strat, s.seen, bar)
    ensures Inv(cfg, strat, candles, Act(cfg, strat, s, candles[bar], bar, sig), bar + 1)
  {
    hide Inv, SignalAt, Enter, Close;
    var m := s.metrics;
    match sig.decision
    case Other(_) =>
    case Buy =>
      var counted := s.(metrics := m.(buySignals := m.buySignals + 1));
      CountKeeps(cfg, strat, candles, s, counted.metrics, bar + 1);
      CountKeeps(cfg, strat, candles, s, counted.metrics.(ignoredBuyLong := m.ignoredBuyLong + 1), bar + 1);
      EnterKeeps(cfg, strat, candles, counted, Long, bar, sig);
    case Sell =>
      var counted := s.(metrics := m.(sellSignals := m.sellSignals + 1));
      CountKeeps(cfg, strat, candles, s, counted.metrics, bar + 1);
      CountKeeps(cfg, strat, candles, s, counted.metrics.(ignoredSellShort := m.ignoredSellShort + 1), bar + 1);
      EnterKeeps(cfg, strat, candles, counted, Short, bar, sig);
    case Exit =>
      var counted := s.(metrics := m.(exitSignals := m.exitSignals + 1));
      CountKeeps(cfg, strat, candles, s, counted.metrics, bar + 1);
      CountKeeps(cfg, strat, candles, s, counted.metrics.(ignoredExitFlat := m.ignoredExitFlat + 1), bar + 1);
      if s.pos.Some? {
        CloseKeeps(cfg, strat, candles, counted, bar, sig);
      }
  }

  lemma BarKeeps(cfg: Config, strat: Strategy, useStore: bool, candles: seq<Candle>, s: State, i: nat)
    requires Inv(cfg, strat, candles, s, i) && i < |candles|
    ensures Inv(cfg, strat, candles, OnBar(cfg, strat, useStore, s, candles[i], i), i + 1)
  {
    ObserveKeeps(cfg, strat, useStore, candles, s, i);
    hide Inv, Act, UpdateExcursion, Tail, ContextAt;
    var o := Observe(strat, useStore, s, candles[i], i);
    if i >= strat.warmup {
      InvSeen(cfg, strat, candles, o, i + 1);
      assert o.seen[..i + 1] == o.seen;
      ActKeeps(cfg, strat, candles, o, i, strat.evaluate(o.seen));
    }
  }

  /** The invariant holds after every bar of every run. */
  lemma {:induction false} AfterInv(cfg: Config, strat: Strategy, useStore: bool, candles: seq<Candle>, n: nat)
    requires n <= |candles|
    ensures Inv(cfg, strat, candles, After(cfg, strat, useStore, candles, n), n)
  {
    if n > 0 {
      AfterInv(cfg, strat, useStore, candles, n - 1);
      BarKeeps(cfg, strat, useStore, candles, After(cfg, strat, useStore, candles, n - 1), n - 1);
      hide Inv, OnBar;
    }
  }

  lemma InvSeen(cfg: Config, strat: Strategy, candles: seq<Candle>, s: State, n: nat)
    requires Inv(cfg, strat, candles, s, n)
    ensures |s.seen| == n <= |candles|
  {
  }
}
