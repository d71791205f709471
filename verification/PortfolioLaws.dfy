/**
  What the portfolio's totals conserve over every run of reports.
 */
module PortfolioLaws {
  import opened Common
  import opened MapSum
  import opened Portfolio

  function BasisAt(positions: Positions): Key -> real {
    k => if k in positions then Amount(Signed(positions[k]), positions[k].averagePrice) else 0.0
  }

  function HoldingAt(positions: Positions, prices: Prices): Key -> real {
    k => if k in positions then Amount(Signed(positions[k]), Mark(prices, positions[k])) else 0.0
  }

  /** What the open positions cost, with short positions counting negatively. */
  ghost function Basis(positions: Positions): real {
    SumOver(positions.Keys, BasisAt(positions))
  }

  /** Signed quantity times mark over the open positions. */
  ghost function Holdings(positions: Positions, prices: Prices): real {
    SumOver(positions.Keys, HoldingAt(positions, prices))
  }

  /** Cash that changes hands: an entry pays for its quantity, an exit sells the open one. */
  function CashOf(positions: Positions, r: Report): real {
    if SideOf(r.action).Some? then
      -Amount(SignedQuantity(SideOf(r.action).value, r.quantity), r.price)
    else if IsExit(r.action) && KeyOf(r) in positions then
      Amount(Signed(positions[KeyOf(r)]), r.price)
    else 0.0
  }

  /** The basis of an open position that an entry overwrites. */
  function LostOf(positions: Positions, r: Report): real {
    if SideOf(r.action).Some? && KeyOf(r) in positions then
      Amount(Signed(positions[KeyOf(r)]), positions[KeyOf(r)].averagePrice)
    else 0.0
  }

  lemma UnrealizedIsDifference(positions: Positions, prices: Prices)
    ensures UnrealizedSum(positions, prices) == Holdings(positions, prices) - Basis(positions)
  {
    var f, g, h := UnrealizedAt(positions, prices), BasisAt(positions), HoldingAt(positions, prices);
    forall k | k in positions
      ensures h(k) == f(k) + g(k)
    {
      UnrealizedOne(prices, positions[k]);
    }
    SumPlus(positions.Keys, f, g, h);
  }

  lemma UnrealizedOne(prices: Prices, p: Position)
    ensures Amount(Signed(p), Mark(prices, p)) == Unrealized(prices, p) + Amount(Signed(p), p.averagePrice)
  {
  }

  lemma BasisOfEntry(positions: Positions, key: Key, p: Position)
    ensures Basis(positions[key := p])
            == Basis(positions) + Amount(Signed(p), p.averagePrice)
               - if key in positions then Amount(Signed(positions[key]), positions[key].averagePrice) else 0.0
  {
    hide Amount, Signed;
    var after := positions[key := p];
    var f, g := BasisAt(positions), BasisAt(after);
    if key in positions {
      assert after.Keys == positions.Keys;
      SumChange(positions.Keys, f, g, key);
    } else {
      assert after.Keys == positions.Keys + {key};
      SumPutIn(positions.Keys, g, key);
      SumSame(positions.Keys, f, g);
    }
  }

  lemma BasisOfExit(positions: Positions, key: Key)
    requires key in positions
    ensures Basis(positions - {key})
            == Basis(positions) - Amount(Signed(positions[key]), positions[key].averagePrice)
  {
    hide Amount, Signed;
    var after := positions - {key};
    var f, g := BasisAt(positions), BasisAt(after);
    assert after.Keys == positions.Keys - {key};
    SumTakeOut(positions.Keys, f, key);
    SumSame(positions.Keys - {key}, f, g);
  }

  /** One report: what is realised is cash received, plus basis added, plus basis overwritten. */
  lemma BasisStep(positions: Positions, r: Report)
    ensures Gain(positions, r)
            == CashOf(positions, r) + Basis(PositionsAfter(positions, r)) - Basis(positions) + LostOf(positions, r)
  {
    hide Basis, Amount, SignedQuantity;
    var key := KeyOf(r);
    if SideOf(r.action).Some? {
      BasisOfEntry(positions, key, PositionOf(r, SideOf(r.action).value));
    } else if IsExit(r.action) {
      if key in positions {
        var p := positions[key];
        BasisOfExit(positions, key);
        AmountMinus(Signed(p), r.price, p.averagePrice);
      } else {
        assert positions - {key} == positions;
      }
    }
  }

  function ExitSide(action: string): Side {
    if action == "SHORT_EXIT" then Short else Long
  }

  /**
    An exit closes what is open. It realises what the reported side and quantity would exactly when
    these are the open ones in sign and number, or the price is the average price.
   */
  lemma ExitTakesOpenIff(positions: Positions, r: Report)
    requires IsExit(r.action) && KeyOf(r) in positions
    ensures var p := positions[KeyOf(r)];
            Gain(positions, r) == RealizedPnL(ExitSide(r.action), p.averagePrice, r.price, r.quantity)
            <==> SignedQuantity(ExitSide(r.action), r.quantity) == Signed(p) || r.price == p.averagePrice
  {
    hide SignedQuantity;
    var p := positions[KeyOf(r)];
    SameProduct(r.price - p.averagePrice, Signed(p), SignedQuantity(ExitSide(r.action), r.quantity));
  }

  lemma SameProduct(a: real, x: real, y: real)
    ensures a * x == a * y <==> a == 0.0 || x == y
  {
    if a * x == a * y && a != 0.0 {
      assert a * (x - y) == 0.0;
    }
  }

  // Runs.

  ghost function Run(reports: seq<Report>): State {
    if reports == [] then EMPTY
    else After(Run(reports[..|reports| - 1]), reports[|reports| - 1])
  }

  predicate Counts(r: Report) {
    r.status == FILLED && IsKnown(r.action)
  }

  /** Accumulated cash flow. */
  ghost function Cash(reports: seq<Report>): real {
    if reports == [] then 0.0
    else
      var front, r := reports[..|reports| - 1], reports[|reports| - 1];
      Cash(front) + if Counts(r) then CashOf(Run(front).positions, r) else 0.0
  }

  /** Accumulated basis of overwritten positions. */
  ghost function Lost(reports: seq<Report>): real {
    if reports == [] then 0.0
    else
      var front, r := reports[..|reports| - 1], reports[|reports| - 1];
      Lost(front) + if Counts(r) then LostOf(Run(front).positions, r) else 0.0
  }

  /** The stored unrealised total is the one the current marks give. */
  ghost predicate Fresh(s: State) {
    s.unrealized == UnrealizedSum(s.positions, s.prices)
  }

  /** Whatever is reported: realised profit is cash plus open basis plus overwritten basis. */
  lemma {:induction false} RealizedConserved(reports: seq<Report>)
    ensures Run(reports).realized == Cash(reports) + Basis(Run(reports).positions) + Lost(reports)
  {
    if reports != [] {
      var front, r := reports[..|reports| - 1], reports[|reports| - 1];
      RealizedConserved(front);
      RealizedStep(Run(front), r);
    }
  }

  lemma RealizedStep(s: State, r: Report)
    ensures After(s, r).realized - s.realized
            == if Counts(r) then CashOf(s.positions, r) + Basis(After(s, r).positions) - Basis(s.positions)
                                 + LostOf(s.positions, r)
               else 0.0
    ensures !Counts(r) ==> After(s, r).positions == s.positions
  {
    hide Gain, Basis, CashOf, LostOf, UnrealizedSum;
    BasisStep(s.positions, r);
  }

  // What unknown actions leave out of the stored total.

  /** What a new price of a symbol does to the value of one position. */
  function MarkMove(positions: Positions, prices: Prices, symbol: string, price: real): Key -> real {
    k => if k in positions && positions[k].symbol == symbol
         then Amount(Signed(positions[k]),
                     Mark(prices[symbol := price], positions[k]) - Mark(prices, positions[k]))
         else 0.0
  }

  /** What a new price of a symbol does to the value of the open positions. */
  ghost function Revaluation(positions: Positions, prices: Prices, symbol: string, price: real): real {
    SumOver(positions.Keys, MarkMove(positions, prices, symbol, price))
  }

  lemma Revalued(positions: Positions, prices: Prices, symbol: string, price: real)
    ensures UnrealizedSum(positions, prices[symbol := price])
            == UnrealizedSum(positions, prices) + Revaluation(positions, prices, symbol, price)
  {
    hide SumOver;
    var f, g := UnrealizedAt(positions, prices), UnrealizedAt(positions, prices[symbol := price]);
    var d := MarkMove(positions, prices, symbol, price);
    forall k | k in positions
      ensures g(k) == f(k) + d(k)
    {
      OneRevalued(prices, symbol, price, positions[k]);
    }
    SumPlus(positions.Keys, f, d, g);
  }

  lemma OneRevalued(prices: Prices, symbol: string, price: real, p: Position)
    ensures Unrealized(prices[symbol := price], p)
            == Unrealized(prices, p)
               + if p.symbol == symbol
                 then Amount(Signed(p), Mark(prices[symbol := price], p) - Mark(prices, p)) else 0.0
  {
    AmountMinus(Signed(p), Mark(prices[symbol := price], p), p.averagePrice);
    AmountMinus(Signed(p), Mark(prices, p), p.averagePrice);
    AmountMinus(Signed(p), Mark(prices[symbol := price], p), Mark(prices, p));
  }

  /**
    The value that price moves of unknown actions have given to open positions since the totals
    were last recomputed.
   */
  ghost function Drift(reports: seq<Report>): real {
    if reports == [] then 0.0
    else
      var front, r := reports[..|reports| - 1], reports[|reports| - 1];
      if r.status != FILLED then Drift(front)
      else if IsKnown(r.action) then 0.0
      else Drift(front) + Revaluation(Run(front).positions, Run(front).prices, r.symbol, r.price)
  }

  /** Over every run the stored unrealised total lags behind the marks by the drift. */
  lemma {:induction false} StoredLagsByDrift(reports: seq<Report>)
    ensures var s := Run(reports);
            && UnrealizedSum(s.positions, s.prices) == s.unrealized + Drift(reports)
            && (Fresh(s) <==> Drift(reports) == 0.0)
  {
    hide UnrealizedSum, Revaluation, Gain, PositionsAfter;
    if reports == [] {
      NothingYet(map[], map[]);
      NoneUnrealized();
    } else {
      var front, r := reports[..|reports| - 1], reports[|reports| - 1];
      StoredLagsByDrift(front);
      Revalued(Run(front).positions, Run(front).prices, r.symbol, r.price);
    }
  }

  lemma NoneUnrealized()
    ensures UnrealizedSum(EMPTY.positions, EMPTY.prices) == 0.0
  {
    NothingYet(map[], map[]);
  }

  /**
    Mark to market, over every run. Realised plus unrealised profit is cash flow plus holdings at
    market, plus the basis of positions that entries have overwritten, less the drift that unknown
    actions have left. So the two agree exactly when what was overwritten is what has drifted.
   */
  lemma MarkToMarket(reports: seq<Report>)
    ensures var s := Run(reports);
            && s.realized + s.unrealized
               == Cash(reports) + Holdings(s.positions, s.prices) + Lost(reports) - Drift(reports)
            && (s.realized + s.unrealized == Cash(reports) + Holdings(s.positions, s.prices)
                <==> Lost(reports) == Drift(reports))
  {
    hide Basis, Holdings, UnrealizedSum, Cash, Lost, Drift, Run;
    var s := Run(reports);
    RealizedConserved(reports);
    StoredLagsByDrift(reports);
    UnrealizedIsDifference(s.positions, s.prices);
  }

  function Fill(symbol: string, timeframe: string, action: string, price: real): Report {
    Report("", symbol, timeframe, action, 1, price, FILLED, 0)
  }

  lemma RunOfTwo(r1: Report, r2: Report)
    ensures Run([r1]) == After(EMPTY, r1) && Run([r1, r2]) == After(Run([r1]), r2)
    ensures Lost([r1, r2]) == (if Counts(r1) then LostOf(map[], r1) else 0.0)
                              + if Counts(r2) then LostOf(Run([r1]).positions, r2) else 0.0
  {
    hide After, LostOf, Counts;
    assert [r1, r2][..1] == [r1] && [r1][..0] == [];
    assert Lost([r1]) == if Counts(r1) then LostOf(EMPTY.positions, r1) else 0.0;
  }

  /**
    Where it fails: a second long entry on an open key drops the first position, whose price
    of 1 was paid and is missing from then on.
   */
  lemma OverwriteLoses()
    ensures var reports := [Fill("X", "1m", "LONG_ENTRY", 1.0), Fill("X", "1m", "LONG_ENTRY", 2.0)];
            var s := Run(reports);
            && Fresh(s) && Lost(reports) == 1.0
            && s.realized + s.unrealized != Cash(reports) + Holdings(s.positions, s.prices)
  {
    hide Run, Lost, Cash, Holdings, UnrealizedSum;
    var r1, r2 := Fill("X", "1m", "LONG_ENTRY", 1.0), Fill("X", "1m", "LONG_ENTRY", 2.0);
    RunOfTwo(r1, r2);
    KnownRunsFresh([r1, r2]);
    MarkToMarket([r1, r2]);
  }

  /** Every entry finds its key flat. */
  ghost predicate FlatEntries(reports: seq<Report>) {
    forall i :: 0 <= i < |reports| && Counts(reports[i]) && SideOf(reports[i].action).Some? ==>
                  KeyOf(reports[i]) !in Run(reports[..i]).positions
  }

  lemma {:induction false} FlatEntriesLoseNothing(reports: seq<Report>)
    requires FlatEntries(reports)
    ensures Lost(reports) == 0.0
  {
    if reports != [] {
      var front := reports[..|reports| - 1];
      forall i | 0 <= i < |front|
        ensures front[..i] == reports[..i] && front[i] == reports[i]
      {
      }
      FlatEntriesLoseNothing(front);
    }
  }

  ghost predicate AllPriced(s: State) {
    forall k :: k in s.positions ==>
                  s.positions[k].symbol in s.prices && s.prices[s.positions[k].symbol] > 0.0
  }

  /** With positive fill prices every open position is marked at its symbol's latest price. */
  lemma {:induction false} PricedRuns(reports: seq<Report>)
    requires forall r :: r in reports && r.status == FILLED ==> r.price > 0.0
    ensures AllPriced(Run(reports))
    ensures forall k :: k in Run(reports).positions ==> Run(reports).positions[k].symbol == k.symbol
  {
    if reports != [] {
      hide UnrealizedSum, Gain;
      PricedRuns(reports[..|reports| - 1]);
    }
  }

  /** Where every filled report has a known action the stored totals are never stale. */
  lemma {:induction false} KnownRunsFresh(reports: seq<Report>)
    requires forall r :: r in reports && r.status == FILLED ==> IsKnown(r.action)
    ensures Drift(reports) == 0.0 && Fresh(Run(reports))
  {
    hide Run, Fresh, Revaluation;
    StoredLagsByDrift(reports);
    if reports != [] {
      KnownRunsFresh(reports[..|reports| - 1]);
    }
  }

  /** The law for well-formed runs: known actions, and entries only on flat keys. */
  lemma FlatRunsConserve(reports: seq<Report>)
    requires forall r :: r in reports && r.status == FILLED ==> IsKnown(r.action)
    requires FlatEntries(reports)
    ensures var s := Run(reports);
            s.realized + s.unrealized == Cash(reports) + Holdings(s.positions, s.prices)
  {
    KnownRunsFresh(reports);
    FlatEntriesLoseNothing(reports);
    MarkToMarket(reports);
  }

  function NetAt(positions: Positions, symbol: string): Key -> real {
    k => if k in positions && positions[k].symbol == symbol then Signed(positions[k]) else 0.0
  }

  /** Net signed quantity open in a symbol, over all timeframes. */
  ghost function Net(positions: Positions, symbol: string): real {
    SumOver(positions.Keys, NetAt(positions, symbol))
  }

  /**
    An unknown action moves the reference price without recomputing, so it leaves the stored
    total stale exactly when the price moved and the symbol's open quantities do not cancel.
   */
  lemma UnknownActionStale(s: State, r: Report)
    requires Fresh(s) && AllPriced(s)
    requires r.status == FILLED && !IsKnown(r.action) && r.price > 0.0
    ensures Fresh(After(s, r)) <==>
              Net(s.positions, r.symbol) == 0.0 || (r.symbol in s.prices && r.price == s.prices[r.symbol])
  {
    hide UnrealizedSum, Net;
    var t := After(s, r);
    if r.symbol in s.prices {
      var factor := r.price - s.prices[r.symbol];
      PriceMoves(s, r.symbol, r.price);
      ScaledZero(Net(s.positions, r.symbol), factor);
    } else {
      NothingOpen(s, r.symbol, r.price);
    }
  }

  /**
    A report with an unknown action, after any run with positive fill prices: the drift grows by
    the symbol's net open quantity times the price move, so several of them may cancel.
   */
  lemma UnknownActionDrifts(reports: seq<Report>, r: Report)
    requires forall x :: x in reports && x.status == FILLED ==> x.price > 0.0
    requires r.status == FILLED && !IsKnown(r.action) && r.price > 0.0
    ensures var s := Run(reports);
            var moved := if r.symbol in s.prices
                         then Scaled(Net(s.positions, r.symbol), r.price - s.prices[r.symbol]) else 0.0;
            && Drift(reports + [r]) == Drift(reports) + moved
            && (Fresh(Run(reports + [r])) <==> Drift(reports) + moved == 0.0)
  {
    hide Run, Net, UnrealizedSum, Revaluation, Fresh;
    assert (reports + [r])[..|reports|] == reports;
    StoredLagsByDrift(reports + [r]);
    PricedRuns(reports);
    var s := Run(reports);
    Revalued(s.positions, s.prices, r.symbol, r.price);
    if r.symbol in s.prices {
      PriceMoves(s, r.symbol, r.price);
    } else {
      NothingOpen(s, r.symbol, r.price);
    }
  }

  /**
    Where it fails: one unit is open when an unknown action moves the price from 1 to 2. The
    stored total is stale and the law of mark to market broken, although nothing was overwritten.
   */
  lemma UnknownActionLeavesStale()
    ensures var reports := [Fill("X", "1m", "LONG_ENTRY", 1.0), Fill("X", "1m", "ADJUST", 2.0)];
            var s := Run(reports);
            && !Fresh(s) && Lost(reports) == 0.0
            && s.realized + s.unrealized != Cash(reports) + Holdings(s.positions, s.prices)
  {
    hide Run, Net, UnrealizedSum, SumOver, Lost, Cash, Holdings, Drift;
    var r1, r2 := Fill("X", "1m", "LONG_ENTRY", 1.0), Fill("X", "1m", "ADJUST", 2.0);
    RunOfTwo(r1, r2);
    KnownRunsFresh([r1]);
    PricedRuns([r1]);
    var s := Run([r1]);
    assert s.positions.Keys == {KeyOf(r1)};
    SumOne(NetAt(s.positions, "X"), KeyOf(r1));
    assert Net(s.positions, "X") == 1.0 by {
      NetIs(s.positions, "X");
    }
    UnknownActionStale(s, r2);
    StoredLagsByDrift([r1, r2]);
    MarkToMarket([r1, r2]);
  }

  lemma NetIs(positions: Positions, symbol: string)
    ensures Net(positions, symbol) == SumOver(positions.Keys, NetAt(positions, symbol))
  {
  }

  lemma ScaledZero(a: real, factor: real)
    ensures Scaled(a, factor) == 0.0 <==> a == 0.0 || factor == 0.0
  {
  }

  lemma PriceMoves(s: State, symbol: string, price: real)
    requires AllPriced(s) && symbol in s.prices && price > 0.0
    ensures UnrealizedSum(s.positions, s.prices[symbol := price])
            == UnrealizedSum(s.positions, s.prices) + Scaled(Net(s.positions, symbol), price - s.prices[symbol])
  {
    var factor := price - s.prices[symbol];
    var f, g := UnrealizedAt(s.positions, s.prices), UnrealizedAt(s.positions, s.prices[symbol := price]);
    var n := NetAt(s.positions, symbol);
    var d := k => Scaled(n(k), factor);
    forall k | k in s.positions
      ensures g(k) == f(k) + d(k)
    {
      OneMoves(s, symbol, price, s.positions[k]);
      ScaledNothing(factor);
    }
    SumScaled(s.positions.Keys, n, d, factor);
    SumPlus(s.positions.Keys, f, d, g);
  }

  lemma ScaledNothing(factor: real)
    ensures Scaled(0.0, factor) == 0.0
  {
  }

  lemma OneMoves(s: State, symbol: string, price: real, p: Position)
    requires p.symbol in s.prices && s.prices[p.symbol] > 0.0
    requires symbol in s.prices && price > 0.0
    ensures Unrealized(s.prices[symbol := price], p)
            == Unrealized(s.prices, p)
               + if p.symbol == symbol then Scaled(Signed(p), price - s.prices[symbol]) else 0.0
  {
  }

  lemma NothingOpen(s: State, symbol: string, price: real)
    requires AllPriced(s) && symbol !in s.prices
    ensures UnrealizedSum(s.positions, s.prices[symbol := price]) == UnrealizedSum(s.positions, s.prices)
    ensures Net(s.positions, symbol) == 0.0
  {
    var zero: Key -> real := k => 0.0;
    SumSame(s.positions.Keys, UnrealizedAt(s.positions, s.prices),
            UnrealizedAt(s.positions, s.prices[symbol := price]));
    SumSame(s.positions.Keys, NetAt(s.positions, symbol), zero);
    SumZero(s.positions.Keys, zero);
  }

  // Per-symbol values.

  function KeysIn(positions: Positions, symbols: set<string>): set<Key> {
    set k | k in positions && positions[k].symbol in symbols
  }

  ghost function SymbolTotal(positions: Positions, prices: Prices, symbols: set<string>): real
    decreases |symbols|
  {
    if symbols == {} then 0.0
    else
      var symbol :| symbol in symbols;
      SymbolUnrealized(positions, prices, symbol) + SymbolTotal(positions, prices, symbols - {symbol})
  }

  lemma SymbolSplit(positions: Positions, prices: Prices, symbols: set<string>, symbol: string)
    requires symbol in symbols
    ensures var f := UnrealizedAt(positions, prices);
            SumOver(KeysIn(positions, symbols), f)
            == SymbolUnrealized(positions, prices, symbol)
               + SumOver(KeysIn(positions, symbols - {symbol}), f)
  {
    var own, rest := OfSymbol(positions, symbol), KeysIn(positions, symbols - {symbol});
    assert own + rest == KeysIn(positions, symbols);
    SumUnion(own, rest, UnrealizedAt(positions, prices));
  }

  lemma {:induction false} SymbolsPartition(positions: Positions, prices: Prices, symbols: set<string>)
    ensures SymbolTotal(positions, prices, symbols)
            == SumOver(KeysIn(positions, symbols), UnrealizedAt(positions, prices))
    decreases |symbols|
  {
    hide UnrealizedAt, SymbolUnrealized, SumOver;
    if symbols == {} {
      assert KeysIn(positions, symbols) == {};
      NothingYet(positions, prices);
    } else {
      var symbol :| symbol in symbols
                    && SymbolTotal(positions, prices, symbols)
                       == SymbolUnrealized(positions, prices, symbol)
                          + SymbolTotal(positions, prices, symbols - {symbol});
      SymbolSplit(positions, prices, symbols, symbol);
      SymbolsPartition(positions, prices, symbols - {symbol});
    }
  }

  /** The per-symbol unrealised values sum to the portfolio's total, but for what has drifted. */
  lemma SymbolsSumToTotal(reports: seq<Report>, symbols: set<string>)
    requires forall k :: k in Run(reports).positions ==> Run(reports).positions[k].symbol in symbols
    ensures var s := Run(reports);
            && SymbolTotal(s.positions, s.prices, symbols) == s.unrealized + Drift(reports)
            && (SymbolTotal(s.positions, s.prices, symbols) == s.unrealized <==> Drift(reports) == 0.0)
  {
    hide Run, Drift, SymbolTotal;
    var s := Run(reports);
    StoredLagsByDrift(reports);
    SymbolsPartition(s.positions, s.prices, symbols);
    assert KeysIn(s.positions, symbols) == s.positions.Keys;
  }
}
