/**
  The portfolio in money: what round trips gain and what the law of mark to market says, in prices
  and quantities alone.
 */
module PortfolioMoney {
  import opened Common
  import opened MapSum
  import opened Portfolio
  import opened PortfolioLaws

  // ----- Round trips -----

  /** An entry and an exit of one key: a long gains what the price gains, a short what it loses. */
  lemma RoundTripGains(s: State, a: Report, b: Report)
    requires a.status == "FILLED" && b.status == "FILLED" && KeyOf(a) == KeyOf(b)
    requires a.action == "LONG_ENTRY" || a.action == "SHORT_ENTRY"
    requires b.action == "LONG_EXIT" || b.action == "SHORT_EXIT"
    ensures var t := After(After(s, a), b);
            && KeyOf(a) !in t.positions
            && (a.quantity > 0 && a.action == "LONG_ENTRY" ==>
                  t.realized == s.realized + a.quantity as real * (b.price - a.price))
            && (a.quantity > 0 && a.action == "SHORT_ENTRY" ==>
                  t.realized == s.realized + a.quantity as real * (a.price - b.price))
            && (a.quantity <= 0 ==> t.realized == s.realized)
  {
    hide UnrealizedSum, SumOver;
    EntryGainsNothing(s, a);
    ExitGains(After(s, a), a, b);
  }

  lemma EntryGainsNothing(s: State, a: Report)
    requires a.status == "FILLED" && (a.action == "LONG_ENTRY" || a.action == "SHORT_ENTRY")
    ensures var t := After(s, a);
            && t.realized == s.realized && KeyOf(a) in t.positions
            && var p := t.positions[KeyOf(a)];
               && p.side == (if a.action == "LONG_ENTRY" then Long else Short)
               && p.quantity == a.quantity && p.averagePrice == a.price && p.referencePrice == a.price
               && p.symbol == a.symbol && p.timeframe == a.timeframe && p.entryTime == a.timestamp
  {
    hide UnrealizedSum, SumOver;
  }

  lemma ExitGains(s: State, a: Report, b: Report)
    requires b.status == "FILLED" && (b.action == "LONG_EXIT" || b.action == "SHORT_EXIT")
    requires KeyOf(b) in s.positions
    requires s.positions[KeyOf(b)].quantity == a.quantity && s.positions[KeyOf(b)].averagePrice == a.price
    ensures var t, p := After(s, b), s.positions[KeyOf(b)];
            && KeyOf(b) !in t.positions
            && (a.quantity > 0 && p.side.Long? ==>
                  t.realized == s.realized + a.quantity as real * (b.price - a.price))
            && (a.quantity > 0 && p.side.Short? ==>
                  t.realized == s.realized + a.quantity as real * (a.price - b.price))
            && (a.quantity <= 0 ==> t.realized == s.realized)
  {
    hide UnrealizedSum, SumOver;
    var q, d := a.quantity as real, b.price - a.price;
    assert d * q == q * d && d * -q == q * (a.price - b.price);
  }

  /** An open position is worth what leaving it at the symbol's price would gain. */
  lemma OpenGains(prices: Prices, p: Position)
    requires p.symbol in prices && prices[p.symbol] > 0.0
    ensures var b, a := prices[p.symbol], p.averagePrice;
            && (p.quantity > 0 && p.side.Long? ==> Unrealized(prices, p) == p.quantity as real * (b - a))
            && (p.quantity > 0 && p.side.Short? ==> Unrealized(prices, p) == p.quantity as real * (a - b))
            && (p.quantity <= 0 ==> Unrealized(prices, p) == 0.0)
  {
    var q, d := p.quantity as real, prices[p.symbol] - p.averagePrice;
    assert d * q == q * d && d * -q == q * -d;
  }

  // ----- Cash and holdings by side -----

  /** Units of a position: as many as its quantity when long, owed when short. */
  function Units(p: Position): real {
    match p.side
    case Long => if p.quantity > 0 then p.quantity as real else 0.0
    case Short => if p.quantity > 0 then -(p.quantity as real) else 0.0
  }

  /** The latest positive price of the symbol, or the price the position was entered at. */
  function PriceNow(prices: Prices, p: Position): real {
    if p.symbol in prices && 0.0 < prices[p.symbol] then prices[p.symbol] else p.referencePrice
  }

  /** Cash a report brings in. A long entry pays and a short one receives; an exit undoes what is open. */
  function CashIn(positions: Positions, r: Report): real {
    var q := if r.quantity > 0 then r.quantity as real else 0.0;
    if r.status != "FILLED" then 0.0
    else if r.action == "LONG_ENTRY" then -(q * r.price)
    else if r.action == "SHORT_ENTRY" then q * r.price
    else if (r.action == "LONG_EXIT" || r.action == "SHORT_EXIT") && KeyOf(r) in positions then
      Units(positions[KeyOf(r)]) * r.price
    else 0.0
  }

  ghost function CashFlow(reports: seq<Report>): real {
    if reports == [] then 0.0
    else
      var front, r := reports[..|reports| - 1], reports[|reports| - 1];
      CashFlow(front) + CashIn(Run(front).positions, r)
  }

  function WorthAt(positions: Positions, prices: Prices): Key -> real {
    k => if k in positions then Units(positions[k]) * PriceNow(prices, positions[k]) else 0.0
  }

  /** What the open positions would bring at the current prices. */
  ghost function Worth(positions: Positions, prices: Prices): real {
    SumOver(positions.Keys, WorthAt(positions, prices))
  }

  /** Money tied up in a position: its quantity at the current price, when both are positive. */
  function TiedUp(prices: Prices, p: Position): real {
    if p.quantity > 0 && PriceNow(prices, p) > 0.0 then p.quantity as real * PriceNow(prices, p) else 0.0
  }

  function TiedUpAt(positions: Positions, prices: Prices): Key -> real {
    k => if k in positions then TiedUp(prices, positions[k]) else 0.0
  }

  /**
    What a report does to the exposure and to the list of trades: a known action makes the exposure the
    money tied up in all open positions, anything else leaves it; what is not filled leaves everything.
   */
  lemma ExposureAdds(s: State, r: Report)
    ensures var t := After(s, r);
            && (r.status == "FILLED" && r.action in {"LONG_ENTRY", "SHORT_ENTRY", "LONG_EXIT", "SHORT_EXIT"} ==>
                  t.exposure == SumOver(t.positions.Keys, TiedUpAt(t.positions, t.prices)))
            && (r.status == "FILLED" ==> t.trades == s.trades + [r] && t.prices == s.prices[r.symbol := r.price])
            && (r.status == "FILLED" && r.action !in {"LONG_ENTRY", "SHORT_ENTRY", "LONG_EXIT", "SHORT_EXIT"} ==>
                  t.exposure == s.exposure && t.positions == s.positions)
            && (r.status != "FILLED" ==> t == s)
  {
    hide SumOver, UnrealizedSum;
    var t := After(s, r);
    ExposureIs(t.positions, t.prices);
  }

  lemma ExposureIs(positions: Positions, prices: Prices)
    ensures SumOver(positions.Keys, ExposureAt(positions, prices))
            == SumOver(positions.Keys, TiedUpAt(positions, prices))
  {
    hide SumOver;
    forall k | k in positions
      ensures ExposureAt(positions, prices)(k) == TiedUpAt(positions, prices)(k)
    {
      var q, price := positions[k].quantity as real, PriceNow(prices, positions[k]);
      assert q * price == price * q;
    }
    SumSame(positions.Keys, ExposureAt(positions, prices), TiedUpAt(positions, prices));
  }

  lemma UnitsAreSigned(p: Position)
    ensures Units(p) == Signed(p)
  {
  }

  lemma CashInIs(positions: Positions, r: Report)
    ensures CashIn(positions, r) == if Counts(r) then CashOf(positions, r) else 0.0
  {
    if KeyOf(r) in positions {
      UnitsAreSigned(positions[KeyOf(r)]);
    }
    hide Units, Signed;
    var q := if r.quantity > 0 then r.quantity as real else 0.0;
    assert -q * r.price == -(q * r.price);
  }

  lemma {:induction false} CashFlowIs(reports: seq<Report>)
    ensures CashFlow(reports) == Cash(reports)
  {
    if reports != [] {
      hide CashIn, CashOf, Counts, After;
      CashFlowIs(reports[..|reports| - 1]);
      CashInIs(Run(reports[..|reports| - 1]).positions, reports[|reports| - 1]);
    }
  }

  lemma WorthIs(positions: Positions, prices: Prices)
    ensures Worth(positions, prices) == Holdings(positions, prices)
  {
    forall k | k in positions
      ensures WorthAt(positions, prices)(k) == HoldingAt(positions, prices)(k)
    {
      UnitsAreSigned(positions[k]);
    }
    hide SumOver;
    SumSame(positions.Keys, WorthAt(positions, prices), HoldingAt(positions, prices));
  }

  /**
    Mark to market in money, over every run: realised plus unrealised profit is the cash that came in
    plus what the open positions would bring, up to overwritten positions and unknown actions.
   */
  lemma MoneyBalances(reports: seq<Report>)
    ensures var s := Run(reports);
            && s.realized + s.unrealized
               == CashFlow(reports) + Worth(s.positions, s.prices) + Lost(reports) - Drift(reports)
            && (s.realized + s.unrealized == CashFlow(reports) + Worth(s.positions, s.prices)
                <==> Lost(reports) == Drift(reports))
  {
    hide Run, Worth, Holdings, CashFlow, Cash, Lost, Drift;
    MarkToMarket(reports);
    CashFlowIs(reports);
    WorthIs(Run(reports).positions, Run(reports).prices);
  }

  /** So it balances for known actions with entries on flat keys, whatever is long or short. */
  lemma FlatRunsBalance(reports: seq<Report>)
    requires forall r :: r in reports && r.status == FILLED ==> IsKnown(r.action)
    requires FlatEntries(reports)
    ensures var s := Run(reports);
            s.realized + s.unrealized == CashFlow(reports) + Worth(s.positions, s.prices)
  {
    hide Run, Worth, Holdings, CashFlow, Cash;
    FlatRunsConserve(reports);
    CashFlowIs(reports);
    WorthIs(Run(reports).positions, Run(reports).prices);
  }
}
