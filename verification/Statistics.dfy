/**
  One pass over a journal: equity curve, drawdown, win and loss totals, streaks, and the
  monthly and annual buckets. Every figure is stated against a definition that does not follow
  the pass.
 */
module Statistics {
  import opened Common
  import opened SimModel
  import opened Drawdown
  import opened MapSum
  import R = RiskRatios

  predicate Won(pnl: real) {
    pnl > 0.0
  }

  predicate Lost(pnl: real) {
    pnl < 0.0
  }

  // ----- Streaks -----

  /** Wins of the window `[a, b)`; with `up` false, losses. */
  function Hits(pnls: seq<real>, up: bool, a: nat, b: nat): (n: nat)
    requires a <= b <= |pnls|
    ensures n <= b - a
  {
    if a == b then 0
    else Hits(pnls, up, a, b - 1) + if (if up then Won(pnls[b - 1]) else Lost(pnls[b - 1])) then 1 else 0
  }

  /** A window that nothing interrupts: trades that break even neither extend nor end it. */
  ghost predicate Unbroken(pnls: seq<real>, up: bool, a: nat, b: nat) {
    a <= b <= |pnls| && forall i :: a <= i < b ==> !(if up then Lost(pnls[i]) else Won(pnls[i]))
  }

  /** The running streak at the end of the journal. */
  function Streak(pnls: seq<real>, up: bool): nat {
    if pnls == [] then 0
    else
      var n := |pnls| - 1;
      if (if up then Won(pnls[n]) else Lost(pnls[n])) then Streak(pnls[..n], up) + 1
      else if (if up then Lost(pnls[n]) else Won(pnls[n])) then 0
      else Streak(pnls[..n], up)
  }

  /** The longest streak: most hits in any unbroken window. */
  ghost predicate IsLongest(pnls: seq<real>, up: bool, n: nat) {
    && (forall a: nat, b: nat | Unbroken(pnls, up, a, b) :: Hits(pnls, up, a, b) <= n)
    && (exists a: nat, b: nat | Unbroken(pnls, up, a, b) :: Hits(pnls, up, a, b) == n)
  }

  lemma {:induction false} HitsLocal(pnls: seq<real>, x: real, up: bool, a: nat, b: nat)
    requires a <= b <= |pnls|
    ensures Hits(pnls + [x], up, a, b) == Hits(pnls, up, a, b)
    decreases b
  {
    if a < b {
      HitsLocal(pnls, x, up, a, b - 1);
    }
  }

  lemma {:induction false} HitsLonger(pnls: seq<real>, up: bool, a: nat, c: nat, b: nat)
    requires a <= c <= b <= |pnls|
    ensures Hits(pnls, up, c, b) <= Hits(pnls, up, a, b)
    decreases b
  {
    if c < b {
      HitsLonger(pnls, up, a, c, b - 1);
    }
  }

  /** The running streak counts the hits of the longest unbroken window that ends the journal. */
  lemma {:induction false} StreakIsSuffix(pnls: seq<real>, up: bool) returns (start: nat)
    ensures Unbroken(pnls, up, start, |pnls|) && Hits(pnls, up, start, |pnls|) == Streak(pnls, up)
    ensures forall a: nat | Unbroken(pnls, up, a, |pnls|) :: start <= a
  {
    if pnls == [] {
      return 0;
    }
    var n := |pnls| - 1;
    assert pnls == pnls[..n] + [pnls[n]];
    if (up && Lost(pnls[n])) || (!up && Won(pnls[n])) {
      return |pnls|;
    }
    start := StreakIsSuffix(pnls[..n], up);
    HitsLocal(pnls[..n], pnls[n], up, start, n);
    forall a: nat | Unbroken(pnls, up, a, |pnls|)
      ensures start <= a
    {
      if a <= n {
        assert Unbroken(pnls[..n], up, a, n);
      }
    }
  }

  /** One more trade: the longest streak is the old one or the running one. */
  lemma LongestExtends(pnls: seq<real>, x: real, up: bool, longest: nat)
    requires IsLongest(pnls, up, longest)
    ensures IsLongest(pnls + [x], up, if longest < Streak(pnls + [x], up) then Streak(pnls + [x], up) else longest)
  {
    var next := pnls + [x];
    var s := Streak(next, up);
    var start := StreakIsSuffix(next, up);
    forall a: nat, b: nat | Unbroken(next, up, a, b)
      ensures Hits(next, up, a, b) <= longest || Hits(next, up, a, b) <= s
    {
      if b <= |pnls| {
        HitsLocal(pnls, x, up, a, b);
        assert Unbroken(pnls, up, a, b) by {
          forall i | a <= i < b
            ensures next[i] == pnls[i]
          {
          }
        }
      } else {
        HitsLonger(next, up, start, a, b);
      }
    }
    if longest >= s {
      var a: nat, b: nat :| Unbroken(pnls, up, a, b) && Hits(pnls, up, a, b) == longest;
      HitsLocal(pnls, x, up, a, b);
      assert Unbroken(next, up, a, b);
    }
  }

  lemma NoStreak(up: bool)
    ensures IsLongest([], up, 0)
  {
    assert Unbroken([], up, 0, 0) && Hits([], up, 0, 0) == 0;
  }

  // ----- Wins and losses -----

  datatype Outcomes = Outcomes(
    wins: seq<real>, losses: seq<real>, winningTrades: nat, losingTrades: nat,
    grossProfit: real, grossLoss: real, largestWin: real, largestLoss: real,
    winStreak: nat, lossStreak: nat, longestWin: nat, longestLoss: nat)

  const NOTHING := Outcomes([], [], 0, 0, 0.0, 0.0, 0.0, 0.0, 0, 0, 0, 0)

  ghost predicate Totals(o: Outcomes, pnls: seq<real>) {
    && o.wins == Filter(pnls, Won) && o.losses == Filter(pnls, Lost)
    && o.winningTrades == |o.wins| && o.losingTrades == |o.losses|
    && o.winningTrades + o.losingTrades <= |pnls|
    && o.grossProfit == Sum(o.wins) && o.grossLoss == -Sum(o.losses)
    && o.grossProfit >= 0.0 && o.grossLoss >= 0.0
    && o.grossProfit - o.grossLoss == Sum(pnls)
  }

  ghost predicate Extremes(o: Outcomes, pnls: seq<real>) {
    && (forall i :: 0 <= i < |pnls| ==> o.largestLoss <= pnls[i] <= o.largestWin)
    && (o.largestWin == 0.0 || o.largestWin in pnls)
    && (o.largestLoss == 0.0 || o.largestLoss in pnls)
    && o.largestLoss <= 0.0 <= o.largestWin
  }

  ghost predicate Streaks(o: Outcomes, pnls: seq<real>) {
    && o.winStreak == Streak(pnls, true) && o.lossStreak == Streak(pnls, false)
    && IsLongest(pnls, true, o.longestWin) && IsLongest(pnls, false, o.longestLoss)
  }

  function Record(o: Outcomes, pnl: real): Outcomes {
    if pnl > 0.0 then
      var s := o.winStreak + 1;
      o.(winningTrades := o.winningTrades + 1, grossProfit := o.grossProfit + pnl, wins := o.wins + [pnl],
         largestWin := Max(o.largestWin, pnl), winStreak := s,
         longestWin := if s > o.longestWin then s else o.longestWin, lossStreak := 0)
    else if pnl < 0.0 then
      var s := o.lossStreak + 1;
      o.(losingTrades := o.losingTrades + 1, grossLoss := o.grossLoss + -pnl, losses := o.losses + [pnl],
         largestLoss := Min(o.largestLoss, pnl), lossStreak := s,
         longestLoss := if s > o.longestLoss then s else o.longestLoss, winStreak := 0)
    else o
  }

  lemma SumSnoc(s: seq<real>, x: real)
    ensures Sum(s + [x]) == Sum(s) + x
  {
  }

  lemma RecordTotals(o: Outcomes, pnls: seq<real>, x: real)
    requires Totals(o, pnls)
    ensures Totals(Record(o, x), pnls + [x])
  {
    hide Sum, Filter;
    FilterSnoc(pnls, x, Won);
    FilterSnoc(pnls, x, Lost);
    SumSnoc(o.wins, x);
    SumSnoc(o.losses, x);
    SumSnoc(pnls, x);
  }


  lemma RecordExtremes(o: Outcomes, pnls: seq<real>, x: real)
    requires Extremes(o, pnls)
    ensures Extremes(Record(o, x), pnls + [x])
  {
  }

  lemma RecordStreaks(o: Outcomes, pnls: seq<real>, x: real)
    requires Streaks(o, pnls)
    ensures Streaks(Record(o, x), pnls + [x])
  {
    LongestExtends(pnls, x, true, o.longestWin);
    LongestExtends(pnls, x, false, o.longestLoss);
    StreakAtMost(pnls, true, o.longestWin);
    StreakAtMost(pnls, false, o.longestLoss);
    StreakSnoc(pnls, x, true);
    StreakSnoc(pnls, x, false);
    hide IsLongest, Streak;
  }

  lemma StreakSnoc(pnls: seq<real>, x: real, up: bool)
    ensures Streak(pnls + [x], up) ==
            if (if up then Won(x) else Lost(x)) then Streak(pnls, up) + 1
            else if (if up then Lost(x) else Won(x)) then 0
            else Streak(pnls, up)
  {
  }

  lemma StreakAtMost(pnls: seq<real>, up: bool, longest: nat)
    requires IsLongest(pnls, up, longest)
    ensures Streak(pnls, up) <= longest
  {
    var start := StreakIsSuffix(pnls, up);
  }

  // ----- Calendar buckets -----

  /** Net profit of the trades whose exit falls in bucket `k`. */
  function InBucket(trades: seq<Trade>, key: Instant -> string, k: string): real {
    if trades == [] then 0.0
    else
      var t := trades[|trades| - 1];
      InBucket(trades[..|trades| - 1], key, k) + if key(t.exitTime) == k then t.netProfit else 0.0
  }

  ghost predicate IsCalendar(m: map<string, real>, trades: seq<Trade>, key: Instant -> string) {
    && (forall k :: k in m <==> exists i :: 0 <= i < |trades| && key(trades[i].exitTime) == k)
    && (forall k :: k in m ==> m[k] == InBucket(trades, key, k))
  }

  /** Adding to a bucket of a Go map: a missing key counts as zero. */
  function AddTo(m: map<string, real>, k: string, v: real): map<string, real> {
    m[k := (if k in m then m[k] else 0.0) + v]
  }

  lemma {:induction false} EmptyBucket(trades: seq<Trade>, key: Instant -> string, k: string)
    requires forall i :: 0 <= i < |trades| ==> key(trades[i].exitTime) != k
    ensures InBucket(trades, key, k) == 0.0
  {
    if trades != [] {
      EmptyBucket(trades[..|trades| - 1], key, k);
    }
  }

  lemma CalendarExtends(m: map<string, real>, trades: seq<Trade>, key: Instant -> string, t: Trade)
    requires IsCalendar(m, trades, key)
    ensures IsCalendar(AddTo(m, key(t.exitTime), t.netProfit), trades + [t], key)
  {
    var next, k0 := trades + [t], key(t.exitTime);
    var m' := AddTo(m, k0, t.netProfit);
    assert next[..|trades|] == trades;
    assert next[|trades|] == t;
    if k0 !in m {
      EmptyBucket(trades, key, k0);
    }
    forall k
      ensures k in m' <==> exists i :: 0 <= i < |next| && key(next[i].exitTime) == k
      ensures k in m' ==> m'[k] == InBucket(next, key, k)
    {
      if k in m {
        var i :| 0 <= i < |trades| && key(trades[i].exitTime) == k;
        assert next[i] == trades[i];
      }
      if k !in m' {
        forall i | 0 <= i < |next|
          ensures key(next[i].exitTime) != k
        {
          if i < |trades| {
            assert next[i] == trades[i];
          }
        }
      }
    }
  }

  /** Nothing is lost between buckets: they total the net profit of the journal. */
  lemma {:induction false} CalendarConserves(keys: set<string>, trades: seq<Trade>, key: Instant -> string)
    requires forall i :: 0 <= i < |trades| ==> key(trades[i].exitTime) in keys
    ensures SumOver(keys, k => InBucket(trades, key, k)) == Sum(NetProfits(trades))
  {
    if trades == [] {
      SumZero(keys, k => InBucket(trades, key, k));
      assert NetProfits(trades) == [];
    } else {
      var n := |trades| - 1;
      var t := trades[n];
      CalendarConserves(keys, trades[..n], key);
      assert NetProfits(trades)[..n] == NetProfits(trades[..n]);
      SumChange(keys, k => InBucket(trades[..n], key, k), k => InBucket(trades, key, k), key(t.exitTime));
    }
  }

  lemma BucketsTotalNetProfit(m: map<string, real>, trades: seq<Trade>, key: Instant -> string)
    requires IsCalendar(m, trades, key)
    ensures SumOver(m.Keys, k => if k in m then m[k] else 0.0) == Sum(NetProfits(trades))
  {
    CalendarConserves(m.Keys, trades, key);
    SumSame(m.Keys, k => InBucket(trades, key, k), k => if k in m then m[k] else 0.0);
  }

  // ----- The pass -----

  datatype Statistics = Statistics(
    totalTrades: nat, winRate: real, netProfit: real, outcomes: Outcomes,
    averageWin: real, averageLoss: real, profitFactor: real, expectancy: real,
    maxDrawdown: real, maxDrawdownPercent: real, recoveryFactor: real, calmarRatio: real, exposure: real,
    averageBarsHeld: real, averageHoldDuration: int,
    monthlyReturns: map<string, real>, annualReturns: map<string, real>, equityCurve: seq<real>,
    sharpeRatio: real, sortinoRatio: real)

  function SumInts(s: seq<int>): int {
    if s == [] then 0 else SumInts(s[..|s| - 1]) + s[|s| - 1]
  }

  function Bars(trades: seq<Trade>): (r: seq<int>)
    ensures |r| == |trades|
  {
    seq(|trades|, k requires 0 <= k < |trades| => trades[k].barsHeld)
  }

  function Holds(trades: seq<Trade>): (r: seq<int>)
    ensures |r| == |trades|
  {
    seq(|trades|, k requires 0 <= k < |trades| => trades[k].holdingDuration)
  }

  /** The figures that are ratios of other figures. */
  ghost predicate Ratios(s: Statistics, trades: seq<Trade>, capital: real) {
    && s.totalTrades > 0
    && s.winRate == s.outcomes.winningTrades as real / s.totalTrades as real
    && s.expectancy == s.netProfit / s.totalTrades as real
    && s.averageBarsHeld == SumInts(Bars(trades)) as real / s.totalTrades as real
    && s.averageHoldDuration == Quotient(SumInts(Holds(trades)), s.totalTrades)
    && s.averageWin == R.MeanOf(s.outcomes.wins) && s.averageLoss == R.MeanOf(s.outcomes.losses)
    && s.profitFactor == (if s.outcomes.grossLoss > 0.0 then s.outcomes.grossProfit / s.outcomes.grossLoss else 0.0)
    && s.recoveryFactor == s.calmarRatio == (if s.maxDrawdown > 0.0 then s.netProfit / s.maxDrawdown else 0.0)
    && s.exposure == (if capital > 0.0 then s.netProfit / capital else 0.0)
  }

  /** A drawdown in percent of a base, capped at 100; nothing when the base is not positive. */
  function PercentOf(drawdown: real, base: real): real {
    if base > 0.0 then Min(100.0, drawdown / base * 100.0) else 0.0
  }

  ghost predicate IsStatistics(s: Statistics, trades: seq<Trade>, capital: real, month: Instant -> string,
      year: Instant -> string, root: real -> real) {
    var pnls := NetProfits(trades);
    && s.totalTrades == |trades| && s.netProfit == Sum(pnls)
    && s.equityCurve == Equity(capital, pnls) && s.maxDrawdown == DrawdownOf(Equity(capital, pnls))
    && Totals(s.outcomes, pnls) && Extremes(s.outcomes, pnls) && Streaks(s.outcomes, pnls)
    && IsCalendar(s.monthlyReturns, trades, month) && IsCalendar(s.annualReturns, trades, year)
    && (capital > 0.0 ==> s.maxDrawdownPercent == PercentOf(s.maxDrawdown, capital))
    && (capital <= 0.0 ==> forall peak :: IsPeak(s.equityCurve, peak) ==>
                             s.maxDrawdownPercent == PercentOf(s.maxDrawdown, peak))
    && s.maxDrawdownPercent <= 100.0
    && Ratios(s, trades, capital)
    && s.sharpeRatio == R.Sharpe(root, pnls) && s.sortinoRatio == R.Sortino(root, pnls)
  }

  /** Nothing in any figure. */
  ghost predicate IsBlank(s: Statistics) {
    var o := s.outcomes;
    && s.totalTrades == o.winningTrades == o.losingTrades == 0
    && o.winStreak == o.lossStreak == o.longestWin == o.longestLoss == 0 && s.averageHoldDuration == 0
    && s.winRate == s.netProfit == s.averageWin == s.averageLoss == s.profitFactor == s.expectancy == 0.0
    && s.maxDrawdown == s.maxDrawdownPercent == s.recoveryFactor == s.calmarRatio == s.exposure == 0.0
    && o.grossProfit == o.grossLoss == o.largestWin == o.largestLoss == 0.0
    && s.averageBarsHeld == s.sharpeRatio == s.sortinoRatio == 0.0
    && o.wins == o.losses == [] && s.monthlyReturns == s.annualReturns == map[] && s.equityCurve == []
  }

  const EMPTY := Statistics(0, 0.0, 0.0, NOTHING, 0.0, 0.0, 0.0, 0.0, 0.0, 0.0, 0.0, 0.0, 0.0, 0.0, 0, map[],
    map[], [], 0.0, 0.0)

  /** What the loop has gathered from the trades seen so far. */
  datatype Pass = Pass(equity: real, peak: real, maxDD: real, curve: seq<real>, net: real, bars: int,
      hold: int, outcomes: Outcomes)

  ghost predicate OnCurve(p: Pass, pnls: seq<real>, capital: real) {
    && p.curve == Equity(capital, pnls) && p.equity == p.curve[|pnls|]
    && IsPeak(p.curve, p.peak) && IsMaxDrawdown(p.curve, p.maxDD)
    && p.net == Sum(pnls)
  }

  ghost predicate Tallied(o: Outcomes, pnls: seq<real>) {
    Totals(o, pnls) && Extremes(o, pnls) && Streaks(o, pnls)
  }

  ghost predicate Gathered(p: Pass, trades: seq<Trade>, capital: real) {
    && OnCurve(p, NetProfits(trades), capital)
    && Tallied(p.outcomes, NetProfits(trades))
    && p.bars == SumInts(Bars(trades)) && p.hold == SumInts(Holds(trades))
  }

  lemma NothingStreaks()
    ensures Streaks(NOTHING, [])
  {
    NoStreak(true);
    NoStreak(false);
    hide IsLongest;
  }

  lemma NothingTallied()
    ensures Tallied(NOTHING, [])
  {
    NothingStreaks();
    NothingEarned();
    NothingExtreme();
    hide Streaks, Totals, Extremes;
  }

  lemma NothingEarned()
    ensures Totals(NOTHING, [])
  {
  }

  lemma NothingExtreme()
    ensures Extremes(NOTHING, [])
  {
  }

  lemma CurveStarts(capital: real)
    ensures OnCurve(Pass(capital, capital, 0.0, [capital], 0.0, 0, 0, NOTHING), [], capital)
  {
    FirstPoint(capital);
    hide IsPeak, IsMaxDrawdown;
  }

  lemma PassStarts(capital: real)
    ensures Gathered(Pass(capital, capital, 0.0, [capital], 0.0, 0, 0, NOTHING), [], capital)
  {
    NothingTallied();
    CurveStarts(capital);
    hide OnCurve, Tallied;
    assert NetProfits([]) == [] && Bars([]) == [] && Holds([]) == [];
  }

  lemma RecordTallied(o: Outcomes, pnls: seq<real>, x: real)
    requires Tallied(o, pnls)
    ensures Tallied(Record(o, x), pnls + [x])
  {
    hide Totals, Extremes, Streaks, Record;
    RecordTotals(o, pnls, x);
    RecordExtremes(o, pnls, x);
    RecordStreaks(o, pnls, x);
  }

  lemma CurveContinues(p: Pass, q: Pass, pnls: seq<real>, x: real, capital: real)
    requires OnCurve(p, pnls, capital)
    requires q.equity == p.equity + x && q.curve == p.curve + [q.equity] && q.net == p.net + x
    requires q.peak == Max(p.peak, q.equity) && q.maxDD == Max(p.maxDD, q.peak - q.equity)
    ensures OnCurve(q, pnls + [x], capital)
  {
    CurveSnoc(capital, pnls, x);
    SumSnoc(pnls, x);
    DrawdownExtends(p.curve, p.peak, p.maxDD, q.equity);
    hide Equity, Sum, IsPeak, IsMaxDrawdown;
  }

  /** One trade of the loop body. */
  method GatherTrade(p: Pass, t: Trade, ghost trades: seq<Trade>, ghost capital: real) returns (q: Pass)
    requires Gathered(p, trades, capital)
    ensures Gathered(q, trades + [t], capital)
  {
    var pnl := t.netProfit;
    var equity := p.equity + pnl;
    var curve := p.curve + [equity];
    var peak := if equity > p.peak then equity else p.peak;
    var dd := peak - equity;
    var maxDD := if dd > p.maxDD then dd else p.maxDD;
    q := Pass(equity, peak, maxDD, curve, p.net + pnl, p.bars + t.barsHeld, p.hold + t.holdingDuration,
              Record(p.outcomes, pnl));
    LedgerSnoc(trades, t);
    hide OnCurve, Tallied, SumInts, NetProfits, Bars, Holds, Record;
    CurveContinues(p, q, NetProfits(trades), pnl, capital);
    RecordTallied(p.outcomes, NetProfits(trades), pnl);
  }

  lemma LedgerSnoc(trades: seq<Trade>, t: Trade)
    ensures NetProfits(trades + [t]) == NetProfits(trades) + [t.netProfit]
    ensures SumInts(Bars(trades + [t])) == SumInts(Bars(trades)) + t.barsHeld
    ensures SumInts(Holds(trades + [t])) == SumInts(Holds(trades)) + t.holdingDuration
  {
    assert Bars(trades + [t]) == Bars(trades) + [t.barsHeld];
    assert Holds(trades + [t]) == Holds(trades) + [t.holdingDuration];
    IntsSnoc(Bars(trades), t.barsHeld);
    IntsSnoc(Holds(trades), t.holdingDuration);
  }

  lemma CurveSnoc(capital: real, pnls: seq<real>, x: real)
    ensures Equity(capital, pnls + [x]) == Equity(capital, pnls) + [Equity(capital, pnls)[|pnls|] + x]
  {
  }

  lemma IntsSnoc(s: seq<int>, x: int)
    ensures SumInts(s + [x]) == SumInts(s) + x
  {
  }

  method ComputeStatistics(trades: seq<Trade>, capital: real, month: Instant -> string, year: Instant -> string,
                           root: real -> real)
    returns (stats: Statistics)
    ensures trades == [] ==> IsBlank(stats)
    ensures trades != [] ==> IsStatistics(stats, trades, capital, month, year, root)
  {
    hide IsStatistics, Gathered, IsCalendar;
    if |trades| == 0 {
      return EMPTY;
    }
    var p, monthly, annual := GatherAll(trades, capital, month, year);
    stats := Summarise(p, trades, capital, month, year, monthly, annual, root);
  }

  method GatherAll(trades: seq<Trade>, capital: real, month: Instant -> string, year: Instant -> string)
    returns (p: Pass, monthly: map<string, real>, annual: map<string, real>)
    ensures Gathered(p, trades, capital)
    ensures IsCalendar(monthly, trades, month) && IsCalendar(annual, trades, year)
  {
    p := Pass(capital, capital, 0.0, [capital], 0.0, 0, 0, NOTHING);
    PassStarts(capital);
    monthly, annual := map[], map[];
    EmptyCalendars(month, year);
    hide Gathered, IsCalendar, AddTo;
    var i := 0;
    while i < |trades|
      invariant 0 <= i <= |trades|
      invariant Gathered(p, trades[..i], capital)
      invariant IsCalendar(monthly, trades[..i], month)
      invariant IsCalendar(annual, trades[..i], year)
    {
      var t := trades[i];
      assert trades[..i + 1] == trades[..i] + [t];
      p := GatherTrade(p, t, trades[..i], capital);
      CalendarExtends(monthly, trades[..i], month, t);
      CalendarExtends(annual, trades[..i], year, t);
      monthly := AddTo(monthly, month(t.exitTime), t.netProfit);
      annual := AddTo(annual, year(t.exitTime), t.netProfit);
      i := i + 1;
    }
    assert trades[..i] == trades;
  }

  lemma EmptyCalendars(month: Instant -> string, year: Instant -> string)
    ensures IsCalendar(map[], [], month) && IsCalendar(map[], [], year)
  {
  }

  lemma PeakUnique(curve: seq<real>, p: real)
    requires IsPeak(curve, p)
    ensures forall q :: IsPeak(curve, q) ==> q == p
  {
  }

  method DrawdownPercent(maxDD: real, capital: real, peak: real) returns (percent: real)
    ensures percent == PercentOf(maxDD, if capital > 0.0 then capital else peak)
    ensures percent <= 100.0
  {
    percent := 0.0;
    if capital > 0.0 {
      percent := maxDD / capital * 100.0;
      if percent > 100.0 {
        percent := 100.0;
      }
    } else if peak > 0.0 {
      percent := maxDD / peak * 100.0;
      if percent > 100.0 {
        percent := 100.0;
      }
    }
  }

  /** The figures derived once the loop is over. */
  method Summarise(p: Pass, trades: seq<Trade>, capital: real, month: Instant -> string, year: Instant -> string,
                   monthly: map<string, real>, annual: map<string, real>, root: real -> real)
    returns (stats: Statistics)
    requires trades != [] && Gathered(p, trades, capital)
    requires IsCalendar(monthly, trades, month) && IsCalendar(annual, trades, year)
    ensures IsStatistics(stats, trades, capital, month, year, root)
  {
    MaxDrawdownUnique(p.curve, p.maxDD, DrawdownOf(p.curve));
    PeakUnique(p.curve, p.peak);
    hide IsCalendar, Totals, Extremes, Streaks, Equity, Sum, SumInts, IsPeak, IsMaxDrawdown, NetProfits, Bars, Holds,
      R.Sharpe, R.Sortino, R.MeanOf, PercentOf, Quotient;
    var n, o := |trades|, p.outcomes;
    var pnls := NetProfits(trades);
    var sharpe := R.ComputeSharpe(root, pnls);
    var sortino := R.ComputeSortino(root, pnls);
    var percent := DrawdownPercent(p.maxDD, capital, p.peak);
    stats := Statistics(
      n, o.winningTrades as real / n as real, p.net, o,
      R.MeanOf(o.wins), R.MeanOf(o.losses),
      if o.grossLoss > 0.0 then o.grossProfit / o.grossLoss else 0.0,
      p.net / n as real, p.maxDD, percent,
      if p.maxDD > 0.0 then p.net / p.maxDD else 0.0,
      if p.maxDD > 0.0 then p.net / p.maxDD else 0.0,
      if capital > 0.0 then p.net / capital else 0.0,
      p.bars as real / n as real, Quotient(p.hold, n), monthly, annual, p.curve, sharpe, sortino);
  }

  /** A ratio times its base is what it is a ratio of. */
  ghost predicate IsShare(ratio: real, total: real, base: real) {
    ratio * base == total
  }

  lemma SharesBack(total: real, base: real)
    requires base != 0.0
    ensures IsShare(total / base, total, base)
  {
  }

  lemma MeanShares(v: seq<real>)
    ensures IsShare(R.MeanOf(v), Sum(v), |v| as real)
  {
    hide Sum, IsShare;
    if v == [] {
      NothingShares();
    } else {
      SharesBack(Sum(v), |v| as real);
    }
  }

  lemma NothingShares()
    ensures IsShare(0.0, Sum([]), 0.0)
  {
  }

  /** The ratios of a journal, each against what it is a ratio of. */
  lemma FiguresShare(s: Statistics, trades: seq<Trade>, capital: real, month: Instant -> string,
      year: Instant -> string, root: real -> real)
    requires trades != [] && IsStatistics(s, trades, capital, month, year, root)
    ensures var n, o := |trades| as real, s.outcomes;
            && IsShare(s.winRate, o.winningTrades as real, n)
            && IsShare(s.expectancy, s.netProfit, n)
            && IsShare(s.averageBarsHeld, SumInts(Bars(trades)) as real, n)
            && IsShare(s.averageWin, o.grossProfit, o.winningTrades as real)
            && IsShare(s.averageLoss, -o.grossLoss, o.losingTrades as real)
            && (o.grossLoss > 0.0 ==> IsShare(s.profitFactor, o.grossProfit, o.grossLoss))
            && (s.maxDrawdown > 0.0 ==> IsShare(s.recoveryFactor, s.netProfit, s.maxDrawdown))
            && (s.maxDrawdown > 0.0 ==> IsShare(s.calmarRatio, s.netProfit, s.maxDrawdown))
            && (capital > 0.0 ==> IsShare(s.exposure, s.netProfit, capital))
            && (capital > 0.0 ==>
                  if s.maxDrawdown <= capital then IsShare(s.maxDrawdownPercent, s.maxDrawdown * 100.0, capital)
                  else s.maxDrawdownPercent == 100.0)
            && (capital <= 0.0 ==> forall peak :: IsPeak(s.equityCurve, peak) ==>
                  if peak <= 0.0 then s.maxDrawdownPercent == 0.0
                  else if s.maxDrawdown <= peak then IsShare(s.maxDrawdownPercent, s.maxDrawdown * 100.0, peak)
                  else s.maxDrawdownPercent == 100.0)
  {
    hide IsCalendar, Extremes, Streaks, Equity, Sum, SumInts, IsPeak, NetProfits, Bars, Holds, R.Sharpe, R.Sortino,
      R.MeanOf, PercentOf, Quotient, IsShare, Filter;
    var n, o := |trades| as real, s.outcomes;
    MeanShares(o.wins);
    MeanShares(o.losses);
    SharesBack(o.winningTrades as real, n);
    SharesBack(s.netProfit, n);
    SharesBack(SumInts(Bars(trades)) as real, n);
    if o.grossLoss > 0.0 {
      SharesBack(o.grossProfit, o.grossLoss);
    }
    if s.maxDrawdown > 0.0 {
      SharesBack(s.netProfit, s.maxDrawdown);
    }
    if capital > 0.0 {
      SharesBack(s.netProfit, capital);
      PercentShares(s.maxDrawdown, capital);
    } else {
      forall peak | IsPeak(s.equityCurve, peak)
        ensures if peak <= 0.0 then s.maxDrawdownPercent == 0.0
                else if s.maxDrawdown <= peak then IsShare(s.maxDrawdownPercent, s.maxDrawdown * 100.0, peak)
                else s.maxDrawdownPercent == 100.0
      {
        PercentShares(s.maxDrawdown, peak);
      }
    }
  }

  lemma PercentShares(drawdown: real, capital: real)
    ensures if capital <= 0.0 then PercentOf(drawdown, capital) == 0.0
            else if drawdown <= capital then IsShare(PercentOf(drawdown, capital), drawdown * 100.0, capital)
            else PercentOf(drawdown, capital) == 100.0
  {
    if capital > 0.0 {
      var q := drawdown / capital;
      assert q * capital == drawdown;
      if drawdown <= capital {
        assert q <= 1.0;
      } else {
        assert q > 1.0;
      }
    }
  }
}
