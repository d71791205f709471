/**
  The portfolio cache: positions, running totals, and what the totals conserve.
 */
module Portfolio {
  import opened Common
  import opened MapSum

  datatype Side = Long | Short

  datatype Key = Key(symbol: string, timeframe: string)

  datatype Position = Position(
    symbol: string,
    timeframe: string,
    side: Side,
    quantity: int,
    averagePrice: real,
    entryTime: Instant,
    referencePrice: real
  )

  datatype Report = Report(
    orderId: string,
    symbol: string,
    timeframe: string,
    action: string,
    quantity: int,
    price: real,
    status: string,
    timestamp: Instant
  )

  const FILLED := "FILLED"

  function SideOf(action: string): Option<Side> {
    if action == "LONG_ENTRY" then Some(Long)
    else if action == "SHORT_ENTRY" then Some(Short)
    else None
  }

  predicate IsExit(action: string) {
    action == "LONG_EXIT" || action == "SHORT_EXIT"
  }

  predicate IsKnown(action: string) {
    SideOf(action).Some? || IsExit(action)
  }

  function SignedQuantity(side: Side, quantity: int): real {
    if quantity <= 0 then 0.0 else if side == Short then -(quantity as real) else quantity as real
  }

  /** An amount of money: so many units at a price. */
  function Amount(quantity: real, price: real): real {
    quantity * price
  }

  lemma AmountMinus(quantity: real, a: real, b: real)
    ensures (a - b) * quantity == Amount(quantity, a) - Amount(quantity, b)
  {
  }

  function RealizedPnL(side: Side, entryPrice: real, exitPrice: real, quantity: int): real {
    (exitPrice - entryPrice) * SignedQuantity(side, quantity)
  }

  function UnrealizedPnL(side: Side, averagePrice: real, currentPrice: real, quantity: int): real {
    (currentPrice - averagePrice) * SignedQuantity(side, quantity)
  }

  function Exposure(price: real, quantity: int): real {
    if quantity <= 0 || price <= 0.0 then 0.0 else price * quantity as real
  }

  type Positions = map<Key, Position>
  type Prices = map<string, real>

  datatype State = State(
    positions: Positions,
    trades: seq<Report>,
    realized: real,
    unrealized: real,
    exposure: real,
    prices: Prices
  )

  const EMPTY := State(map[], [], 0.0, 0.0, 0.0, map[])

  /** The price a position is marked at: the symbol's latest, when that is positive. */
  function Mark(prices: Prices, p: Position): real {
    if p.symbol in prices && prices[p.symbol] > 0.0 then prices[p.symbol] else p.referencePrice
  }

  function Unrealized(prices: Prices, p: Position): real {
    UnrealizedPnL(p.side, p.averagePrice, Mark(prices, p), p.quantity)
  }

  function Signed(p: Position): real {
    SignedQuantity(p.side, p.quantity)
  }

  function UnrealizedAt(positions: Positions, prices: Prices): Key -> real {
    k => if k in positions then Unrealized(prices, positions[k]) else 0.0
  }

  function ExposureAt(positions: Positions, prices: Prices): Key -> real {
    k => if k in positions then Exposure(Mark(prices, positions[k]), positions[k].quantity) else 0.0
  }

  /** Unrealized profit of all open positions at the current marks. */
  ghost function UnrealizedSum(positions: Positions, prices: Prices): real {
    SumOver(positions.Keys, UnrealizedAt(positions, prices))
  }

  function OfSymbol(positions: Positions, symbol: string): set<Key> {
    set k | k in positions && positions[k].symbol == symbol
  }

  ghost function SymbolUnrealized(positions: Positions, prices: Prices, symbol: string): real {
    SumOver(OfSymbol(positions, symbol), UnrealizedAt(positions, prices))
  }

  function KeyOf(r: Report): Key {
    Key(r.symbol, r.timeframe)
  }

  function PositionOf(r: Report, side: Side): Position {
    Position(r.symbol, r.timeframe, side, r.quantity, r.price, r.timestamp, r.price)
  }

  function PositionsAfter(positions: Positions, r: Report): Positions {
    if SideOf(r.action).Some? then positions[KeyOf(r) := PositionOf(r, SideOf(r.action).value)]
    else if IsExit(r.action) then positions - {KeyOf(r)}
    else positions
  }

  function Gain(positions: Positions, r: Report): real {
    if IsExit(r.action) && KeyOf(r) in positions then
      var p := positions[KeyOf(r)];
      RealizedPnL(p.side, p.averagePrice, r.price, p.quantity)
    else 0.0
  }

  /** The cache after a report: an unknown action moves the reference price and nothing else. */
  ghost function After(s: State, r: Report): State {
    if r.status != FILLED then s
    else
      var positions, prices := PositionsAfter(s.positions, r), s.prices[r.symbol := r.price];
      var moved := s.(trades := s.trades + [r], prices := prices);
      if !IsKnown(r.action) then moved
      else
        moved.(positions := positions,
               realized := s.realized + Gain(s.positions, r),
               unrealized := UnrealizedSum(positions, prices),
               exposure := SumOver(positions.Keys, ExposureAt(positions, prices)))
  }

  /** The update published for a report, if any. */
  datatype Update = Update(symbol: string, open: Option<Position>, realized: real, unrealized: real,
                           timestamp: Instant)

  ghost function Published(s: State, r: Report): Option<Update> {
    if r.status != FILLED || !IsKnown(r.action) then None
    else
      var t := After(s, r);
      Some(Update(r.symbol,
                  if KeyOf(r) in t.positions then Some(t.positions[KeyOf(r)]) else None,
                  t.realized, SymbolUnrealized(t.positions, t.prices, r.symbol), r.timestamp))
  }

  lemma AtKey(positions: Positions, prices: Prices, key: Key)
    requires key in positions
    ensures var p := positions[key];
            && UnrealizedAt(positions, prices)(key)
               == UnrealizedPnL(p.side, p.averagePrice, Mark(prices, p), p.quantity)
            && ExposureAt(positions, prices)(key) == Exposure(Mark(prices, p), p.quantity)
  {
  }

  lemma NothingYet(positions: Positions, prices: Prices)
    ensures SumOver({}, UnrealizedAt(positions, prices)) == 0.0
    ensures SumOver({}, ExposureAt(positions, prices)) == 0.0
  {
  }

  class Cache {
    var positions: Positions
    var trades: seq<Report>
    var realizedTotal: real
    var unrealizedTotal: real
    var exposure: real
    var referencePrice: Prices

    ghost function View(): State
      reads this
    {
      State(positions, trades, realizedTotal, unrealizedTotal, exposure, referencePrice)
    }

    constructor ()
      ensures View() == EMPTY
    {
      positions, trades, referencePrice := map[], [], map[];
      realizedTotal, unrealizedTotal, exposure := 0.0, 0.0, 0.0;
    }

    method MarkNow(p: Position, symbol: string) returns (ref: real)
      requires symbol == p.symbol
      ensures ref == Mark(referencePrice, p)
    {
      ref := p.referencePrice;
      if symbol in referencePrice && referencePrice[symbol] > 0.0 {
        ref := referencePrice[symbol];
      }
    }

    /** Positions are visited in any order; the totals do not depend on it. */
    method RecomputeAggregates()
      modifies this`unrealizedTotal, this`exposure
      ensures unrealizedTotal == UnrealizedSum(positions, referencePrice)
      ensures exposure == SumOver(positions.Keys, ExposureAt(positions, referencePrice))
    {
      hide UnrealizedPnL, Exposure, Mark, UnrealizedAt, ExposureAt, SumOver;
      NothingYet(positions, referencePrice);
      unrealizedTotal, exposure := 0.0, 0.0;
      ghost var f, g := UnrealizedAt(positions, referencePrice), ExposureAt(positions, referencePrice);
      var remaining := positions.Keys;
      ghost var done: set<Key> := {};
      while remaining != {}
        invariant remaining + done == positions.Keys && remaining !! done
        invariant unrealizedTotal == SumOver(done, f) && exposure == SumOver(done, g)
        decreases |remaining|
      {
        var key :| key in remaining;
        var p := positions[key];
        var ref := MarkNow(p, p.symbol);
        unrealizedTotal := unrealizedTotal + UnrealizedPnL(p.side, p.averagePrice, ref, p.quantity);
        exposure := exposure + Exposure(ref, p.quantity);
        AtKey(positions, referencePrice, key);
        SumPutIn(done, f, key);
        SumPutIn(done, g, key);
        remaining, done := remaining - {key}, done + {key};
      }
      assert done == positions.Keys;
    }

    method SymbolUnrealizedNow(symbol: string) returns (total: real)
      ensures total == SymbolUnrealized(positions, referencePrice, symbol)
    {
      hide UnrealizedPnL, Mark, UnrealizedAt, ExposureAt, SumOver;
      NothingYet(positions, referencePrice);
      total := 0.0;
      ghost var f := UnrealizedAt(positions, referencePrice);
      var remaining := positions.Keys;
      ghost var done: set<Key> := {};
      while remaining != {}
        invariant remaining <= positions.Keys && remaining !! done
        invariant done == OfSymbol(positions, symbol) - remaining
        invariant total == SumOver(done, f)
        decreases |remaining|
      {
        var key :| key in remaining;
        var p := positions[key];
        remaining := remaining - {key};
        if p.symbol == symbol {
          var ref := MarkNow(p, symbol);
          total := total + UnrealizedPnL(p.side, p.averagePrice, ref, p.quantity);
          AtKey(positions, referencePrice, key);
          SumPutIn(done, f, key);
          done := done + {key};
        }
      }
      assert done == OfSymbol(positions, symbol);
    }

    method Apply(report: Report) returns (out: Option<Update>)
      modifies this
      ensures View() == After(old(View()), report)
      ensures out == Published(old(View()), report)
    {
      hide UnrealizedSum, SymbolUnrealized, SumOver, RealizedPnL, ExposureAt, UnrealizedAt;
      if report.status != FILLED {
        return None;
      }
      trades := trades + [report];
      referencePrice := referencePrice[report.symbol := report.price];
      var key := KeyOf(report);
      match report.action {
        case "LONG_ENTRY" =>
          positions := positions[key := PositionOf(report, Long)];
        case "SHORT_ENTRY" =>
          positions := positions[key := PositionOf(report, Short)];
        case "LONG_EXIT" =>
          TakeExit(key, report);
        case "SHORT_EXIT" =>
          TakeExit(key, report);
        case _ =>
          return None;
      }
      RecomputeAggregates();
      var unrealized := SymbolUnrealizedNow(report.symbol);
      out := Some(Update(report.symbol, if key in positions then Some(positions[key]) else None,
                         realizedTotal, unrealized, report.timestamp));
    }

    method TakeExit(key: Key, report: Report)
      requires key == KeyOf(report) && IsExit(report.action)
      modifies this`positions, this`realizedTotal
      ensures positions == old(positions) - {key}
      ensures realizedTotal == old(realizedTotal) + Gain(old(positions), report)
    {
      if key !in positions {
        assert positions - {key} == positions;
        return;
      }
      var p := positions[key];
      realizedTotal := realizedTotal + RealizedPnL(p.side, p.averagePrice, report.price, p.quantity);
      positions := positions - {key};
    }
  }
}
