/**
  Monte Carlo paths over trade returns: extraction of returns from aggregate metrics,
  shuffling, path metrics, percentiles and the confidence interval.

  The random generator is an oracle: a path generator receives the draws it would have made.
 */
module MonteCarlo {
  import opened Common
  import opened Drawdown

  datatype Metrics = Metrics(totalTrades: int, netPnL: real, winRate: real, averageTrade: real)

  /** Go's `math.Round`: halves go away from zero. */
  function Round(x: real): int {
    if x >= 0.0 then (x + 0.5).Floor else -((0.5 - x).Floor)
  }

  /** A rounded share, clamped to what a count allows. */
  function Clamped(share: real, n: nat): (w: nat)
    ensures w <= n
  {
    if Round(share) < 0 then 0 else if Round(share) > n then n else Round(share)
  }

  /** The win rate's share of the trades. */
  function WinShare(m: Metrics): (share: real)
    ensures share == m.totalTrades as real * m.winRate
  {
    m.winRate * m.totalTrades as real
  }

  /** `wins`, clamped to what the trade count allows. */
  function WinCount(m: Metrics): (w: nat)
    requires m.totalTrades > 0
    ensures w <= m.totalTrades
  {
    Clamped(WinShare(m), m.totalTrades)
  }

  /** The whole number nearest to a share, a half counting up, between zero and a count. */
  ghost predicate Nearest(share: real, n: nat, w: int) {
    if share < 0.5 then w == 0
    else if share >= n as real then w == n
    else w as real - 0.5 <= share < w as real + 0.5
  }

  lemma RoundNearest(x: real)
    ensures x >= 0.0 ==> Round(x) as real - 0.5 <= x < Round(x) as real + 0.5
    ensures x < 0.5 ==> Round(x) <= 0
  {
  }

  lemma OneNearest(x: real, v: int, w: int)
    requires v as real - 0.5 <= x < v as real + 0.5
    requires w as real - 0.5 <= x < w as real + 0.5
    ensures v == w
  {
    assert -1.0 < (v - w) as real < 1.0;
  }

  /** Rounding and clamping give the nearest number, and there is one. */
  lemma ClampedNearest(share: real, n: nat)
    requires n > 0
    ensures Nearest(share, n, Clamped(share, n))
    ensures forall w :: Nearest(share, n, w) ==> w == Clamped(share, n)
  {
    hide Round;
    RoundNearest(share);
    forall w | Nearest(share, n, w)
      ensures w == Clamped(share, n)
    {
      if 0.5 <= share < n as real {
        OneNearest(share, w, Round(share));
      }
    }
  }

  ghost predicate NearestWins(m: Metrics, wins: int)
    requires m.totalTrades > 0
  {
    Nearest(WinShare(m), m.totalTrades, wins)
  }

  method Fill(count: nat, v: real) returns (out: seq<real>)
    ensures |out| == count && Sum(out) == count as real * v
    ensures forall i :: 0 <= i < count ==> out[i] == v
  {
    out := [];
    while |out| < count
      invariant |out| <= count && Sum(out) == |out| as real * v
      invariant forall i :: 0 <= i < |out| ==> out[i] == v
    {
      assert (out + [v])[..|out|] == out;
      out := out + [v];
    }
  }

  lemma DivideBack(x: real, y: real)
    requires y != 0.0
    ensures y * (x / y) == x
  {
  }

  /** All winners or all losers: everyone takes the same share. */
  method EvenSplit(netPnL: real, count: nat) returns (trades: seq<real>)
    requires count > 0
    ensures |trades| == count && Sum(trades) == netPnL
    ensures forall i :: 0 <= i < count ==> trades[i] == trades[0]
  {
    DivideBack(netPnL, count as real);
    trades := Fill(count, netPnL / count as real);
  }

  /** The mixed case: the losers share whatever the winners leave of the net PnL. */
  method WinnersThenLosers(netPnL: real, wins: nat, losses: nat, avgWin: real) returns (trades: seq<real>)
    requires wins > 0 && losses > 0
    ensures |trades| == wins + losses && Sum(trades) == netPnL
    ensures forall i :: 0 <= i < wins ==> trades[i] == avgWin
    ensures forall i :: wins <= i < |trades| ==> trades[i] == trades[wins]
  {
    var left := netPnL - wins as real * avgWin;
    var avgLoss := left / losses as real;
    var winners := Fill(wins, avgWin);
    var losers := Fill(losses, avgLoss);
    DivideBack(left, losses as real);
    SumConcat(winners, losers);
    trades := winners + losers;
  }

  /**
    The first `wins` returns are alike and so are the others. With some of both a winner has the average
    trade, or twice the average share of the net PnL when that average is not positive.
   */
  ghost predicate SplitAt(m: Metrics, trades: seq<real>, wins: int)
    requires m.totalTrades > 0 && |trades| == m.totalTrades
  {
    && (forall i :: 0 <= i < wins && i < |trades| ==> trades[i] == trades[0])
    && (forall i :: 0 <= wins <= i < |trades| ==> trades[i] == trades[wins])
    && (0 < wins < m.totalTrades ==>
          if m.averageTrade > 0.0 then trades[0] == m.averageTrade
          else trades[0] * m.totalTrades as real == 2.0 * (if m.netPnL < 0.0 then -m.netPnL else m.netPnL))
  }

  lemma SameSplit(m: Metrics, trades: seq<real>)
    requires m.totalTrades > 0 && |trades| == m.totalTrades && SplitAt(m, trades, WinCount(m))
    ensures forall wins :: NearestWins(m, wins) ==> SplitAt(m, trades, wins)
  {
    hide SplitAt, NearestWins, WinCount;
    forall wins | NearestWins(m, wins)
      ensures wins == WinCount(m)
    {
      OneWinCount(m, wins);
    }
  }

  lemma OneWinCount(m: Metrics, wins: int)
    requires m.totalTrades > 0 && NearestWins(m, wins)
    ensures wins == WinCount(m)
  {
    hide Clamped, Nearest, WinShare;
    ClampedNearest(WinShare(m), m.totalTrades);
  }

  lemma EvenIsSplit(m: Metrics, trades: seq<real>, wins: int)
    requires m.totalTrades > 0 && |trades| == m.totalTrades && (wins == 0 || wins == m.totalTrades)
    requires forall i :: 0 <= i < |trades| ==> trades[i] == trades[0]
    ensures SplitAt(m, trades, wins)
  {
  }

  lemma MixedIsSplit(m: Metrics, trades: seq<real>, wins: int, avgWin: real)
    requires 0 < wins < m.totalTrades == |trades|
    requires forall i :: 0 <= i < wins ==> trades[i] == avgWin
    requires forall i :: wins <= i < |trades| ==> trades[i] == trades[wins]
    requires avgWin == if m.averageTrade <= 0.0 then Abs(m.netPnL) / m.totalTrades as real * 2.0 else m.averageTrade
    ensures SplitAt(m, trades, wins)
  {
    if m.averageTrade <= 0.0 {
      DivideBack(Abs(m.netPnL), m.totalTrades as real);
    }
  }

  /**
    Synthetic per-trade returns. Whatever the metrics say about wins and averages, a positive
    trade count gives that many values, they total the net PnL, and the winners come first.
   */
  method ExtractTradeReturns(m: Metrics) returns (trades: seq<real>)
    ensures m.totalTrades > 0 ==> |trades| == m.totalTrades && Sum(trades) == m.netPnL
    ensures m.totalTrades > 0 ==>
              forall wins :: NearestWins(m, wins) ==> SplitAt(m, trades, wins)
    ensures m.totalTrades <= 0 ==>
              trades == if m.netPnL != 0.0 then [m.netPnL]
                        else if m.averageTrade != 0.0 then [m.averageTrade]
                        else []
  {
    if m.totalTrades <= 0 {
      if m.netPnL != 0.0 {
        return [m.netPnL];
      }
      if m.averageTrade != 0.0 {
        return [m.averageTrade];
      }
      return [];
    }
    hide SplitAt, NearestWins, WinCount;
    var n := m.totalTrades;
    var wins := WinCount(m);
    var losses := n - wins;
    if wins == 0 {
      trades := EvenSplit(m.netPnL, losses);
      EvenIsSplit(m, trades, wins);
      SameSplit(m, trades);
      return;
    }
    if losses == 0 {
      trades := EvenSplit(m.netPnL, wins);
      EvenIsSplit(m, trades, wins);
      SameSplit(m, trades);
      return;
    }
    var avgWin := m.averageTrade;
    if avgWin <= 0.0 {
      avgWin := Abs(m.netPnL) / n as real * 2.0;
    }
    trades := WinnersThenLosers(m.netPnL, wins, losses, avgWin);
    MixedIsSplit(m, trades, wins, avgWin);
    SameSplit(m, trades);
  }

  /** One exchange made by the generator's shuffle. */
  datatype Exchange = Exchange(i: nat, j: nat)

  lemma SwapKeeps(s: seq<real>, i: nat, j: nat)
    requires i < |s| && j < |s|
    ensures multiset(s[i := s[j]][j := s[i]]) == multiset(s)
  {
  }

  /**
    Shuffling copies the returns and exchanges elements in place. Any sequence of exchanges
    the generator may choose leaves the multiset of returns as it was.
   */
  method ShuffleOrder(values: seq<real>, draws: seq<Exchange>) returns (path: seq<real>)
    requires forall k :: 0 <= k < |draws| ==> draws[k].i < |values| && draws[k].j < |values|
    ensures multiset(path) == multiset(values)
  {
    var out := new real[|values|](k requires 0 <= k < |values| => values[k]);
    assert out[..] == values;
    var k := 0;
    while k < |draws|
      invariant 0 <= k <= |draws|
      invariant multiset(out[..]) == multiset(values)
    {
      var i, j := draws[k].i, draws[k].j;
      SwapKeeps(out[..], i, j);
      ghost var before := out[..];
      out[i], out[j] := out[j], out[i];
      assert out[..] == before[i := before[j]][j := before[i]];
      k := k + 1;
    }
    path := out[..];
  }

  /** Resampling with replacement: one draw per position. */
  method BootstrapSample(values: seq<real>, count: int, draws: seq<nat>) returns (path: seq<real>)
    requires |values| > 0 ==> |draws| >= count
    requires |values| > 0 ==> forall k :: 0 <= k < |draws| ==> draws[k] < |values|
    ensures |values| == 0 || count <= 0 ==> path == []
    ensures |values| > 0 && count > 0 ==>
              |path| == count && forall i :: 0 <= i < count ==> path[i] == values[draws[i]]
  {
    if |values| == 0 || count <= 0 {
      return [];
    }
    var out := new real[count];
    var i := 0;
    while i < count
      invariant 0 <= i <= count
      invariant forall k :: 0 <= k < i ==> out[k] == values[draws[k]]
    {
      out[i] := values[draws[i]];
      i := i + 1;
    }
    path := out[..];
  }

  method TotalReturn(trades: seq<real>) returns (total: real)
    ensures total == Sum(trades)
  {
    total := 0.0;
    var i := 0;
    while i < |trades|
      invariant 0 <= i <= |trades| && total == Sum(trades[..i])
    {
      assert trades[..i + 1][..i] == trades[..i];
      total := total + trades[i];
      i := i + 1;
    }
    assert trades[..i] == trades;
  }

  /** The drawdown of a path is the drawdown of its equity curve, from any capital. */
  method PathDrawdown(trades: seq<real>) returns (maxDD: real)
    ensures forall capital :: maxDD == DrawdownOf(Equity(capital, trades))
  {
    forall capital
      ensures DrawdownOf(Equity(capital, trades)) == DrawdownOf(Equity(0.0, trades))
    {
      DrawdownIgnoresCapital(capital, 0.0, trades);
    }
    maxDD := ZeroStartDrawdown(trades);
    MaxDrawdownUnique(Equity(0.0, trades), maxDD, DrawdownOf(Equity(0.0, trades)));
  }

  /** The loop itself: its curve starts at zero, and so does its peak. */
  method ZeroStartDrawdown(trades: seq<real>) returns (maxDD: real)
    ensures IsMaxDrawdown(Equity(0.0, trades), maxDD)
  {
    hide IsPeak, IsMaxDrawdown;
    FirstPoint(0.0);
    if |trades| == 0 {
      return 0.0;
    }
    var peak, equity := 0.0, 0.0;
    maxDD := 0.0;
    var i := 0;
    while i < |trades|
      invariant 0 <= i <= |trades|
      invariant equity == Equity(0.0, trades[..i])[i]
      invariant IsPeak(Equity(0.0, trades[..i]), peak)
      invariant IsMaxDrawdown(Equity(0.0, trades[..i]), maxDD)
    {
      ghost var before, peak0, dd0 := Equity(0.0, trades[..i]), peak, maxDD;
      equity := equity + trades[i];
      if equity > peak {
        peak := equity;
      }
      var dd := peak - equity;
      if dd > maxDD {
        maxDD := dd;
      }
      assert trades[..i + 1][..i] == trades[..i];
      DrawdownExtends(before, peak0, dd0, equity);
      i := i + 1;
    }
    assert trades[..i] == trades;
  }

  function Loss(x: real): real {
    Max(0.0, -x)
  }

  /** Estimated starting equity: the sum of magnitudes, or 1 when that is nothing. */
  method StartingCapital(trades: seq<real>) returns (capital: real)
    ensures capital == if Total(trades, Abs) <= 0.0 then 1.0 else Total(trades, Abs)
    ensures capital > 0.0
  {
    if |trades| == 0 {
      return 1.0;
    }
    var sumAbs, i := 0.0, 0;
    while i < |trades|
      invariant 0 <= i <= |trades| && sumAbs == Total(trades[..i], Abs)
    {
      assert trades[..i + 1][..i] == trades[..i];
      sumAbs := sumAbs + Abs(trades[i]);
      i := i + 1;
    }
    assert trades[..i] == trades;
    return if sumAbs <= 0.0 then 1.0 else sumAbs;
  }

  /** From a point to a later one, equity falls by no more than the losses on the way. */
  lemma {:induction false} DeclineBound(trades: seq<real>, i: nat, j: nat)
    requires i <= j <= |trades|
    ensures Sum(trades[..i]) - Sum(trades[..j]) <= Total(trades[..j], Loss) - Total(trades[..i], Loss)
  {
    if i < j {
      DeclineBound(trades, i, j - 1);
      assert trades[..j][..j - 1] == trades[..j - 1];
    }
  }

  lemma {:induction false} LossesGrow(trades: seq<real>, j: nat)
    requires j <= |trades|
    ensures 0.0 <= Total(trades[..j], Loss) <= Total(trades, Loss) <= Total(trades, Abs)
  {
    var n := |trades| - 1;
    if n >= 0 {
      if j <= n {
        LossesGrow(trades[..n], j);
        assert trades[..n][..j] == trades[..j];
      } else {
        LossesGrow(trades[..n], n);
        assert trades[..j] == trades && trades[..n][..n] == trades[..n];
      }
    }
  }

  lemma DeclineWithinLosses(trades: seq<real>, i: nat, j: nat)
    requires i <= j <= |trades|
    ensures Decline(Equity(0.0, trades), i, j) <= Total(trades, Loss)
  {
    DeclineBound(trades, i, j);
    EquityAt(0.0, trades, i);
    EquityAt(0.0, trades, j);
    LossesGrow(trades, i);
    LossesGrow(trades, j);
  }

  /**
    Bounds on one path: its drawdown is at least the net loss, at most the sum of the loss
    magnitudes, and at most the sum of all magnitudes.
   */
  lemma PathBounds(trades: seq<real>)
    ensures var d := DrawdownOf(Equity(0.0, trades));
            Max(0.0, -Sum(trades)) <= d <= Total(trades, Loss) <= Total(trades, Abs)
  {
    hide Equity, Sum, Total, Loss, Abs, DrawdownOf, Decline;
    var curve := Equity(0.0, trades);
    var d := DrawdownOf(curve);
    assert Decline(curve, 0, |trades|) <= d;
    WholeDecline(trades);
    var i: nat, j: nat :| i <= j < |curve| && Decline(curve, i, j) == d;
    DeclineWithinLosses(trades, i, j);
    LossesGrow(trades, 0);
  }

  lemma WholeDecline(trades: seq<real>)
    ensures |Equity(0.0, trades)| == |trades| + 1
    ensures Decline(Equity(0.0, trades), 0, 0) == 0.0
    ensures Decline(Equity(0.0, trades), 0, |trades|) == -Sum(trades)
  {
    EquityAt(0.0, trades, 0);
    EquityAt(0.0, trades, |trades|);
    assert trades[..|trades|] == trades && trades[..0] == [];
  }

  /**
    Every shuffled path keeps the total return of the trades it came from, and its drawdown
    lies between the net loss and the loss magnitudes of those trades: never above the
    estimated starting capital.
   */
  lemma ShuffledPathBounds(trades: seq<real>, path: seq<real>)
    requires multiset(path) == multiset(trades)
    ensures Sum(path) == Sum(trades)
    ensures var d := DrawdownOf(Equity(0.0, path));
            Max(0.0, -Sum(trades)) <= d <= Total(trades, Loss) <= Total(trades, Abs)
  {
    hide Equity, Sum, Total;
    SumPermutation(path, trades);
    TotalPermutation(path, trades, Loss);
    TotalPermutation(path, trades, Abs);
    PathBounds(path);
  }

  /** The largest loss among the trades, or nothing when none loses. */
  function WorstLoss(trades: seq<real>): (w: real)
    ensures w >= 0.0
    ensures forall i :: 0 <= i < |trades| ==> Loss(trades[i]) <= w
    ensures w > 0.0 ==> exists i :: 0 <= i < |trades| && Loss(trades[i]) == w
  {
    if trades == [] then 0.0 else Max(WorstLoss(trades[..|trades| - 1]), Loss(trades[|trades| - 1]))
  }

  function Times(n: nat, x: real): real {
    n as real * x
  }

  lemma TimesNext(n: nat, x: real)
    ensures Times(n + 1, x) == Times(n, x) + x && Times(0, x) == 0.0
  {
    assert (n + 1) as real * x == n as real * x + x;
  }

  /** Losses of at most `worst` add up to that many times `worst` only when all of them are. */
  lemma {:induction false} LossesWithinWorst(path: seq<real>, worst: real)
    requires forall i :: 0 <= i < |path| ==> Loss(path[i]) <= worst
    ensures Total(path, Loss) <= Times(|path|, worst)
    ensures Total(path, Loss) == Times(|path|, worst) <==> forall i :: 0 <= i < |path| ==> Loss(path[i]) == worst
  {
    hide Times, Loss;
    TimesNext(if path == [] then 0 else |path| - 1, worst);
    if path != [] {
      LossesWithinWorst(path[..|path| - 1], worst);
      assert forall i :: 0 <= i < |path| - 1 ==> path[..|path| - 1][i] == path[i];
    }
  }

  /** A path that resampling may draw: as long as the trades, each value one of theirs. */
  ghost predicate Resampled(path: seq<real>, trades: seq<real>) {
    |path| == |trades| && forall i :: 0 <= i < |path| ==> path[i] in trades
  }

  /**
    A resampled path can repeat a loss, so the loss magnitudes of the trades do not bound its
    drawdown; the worst loss taken at every step does.
   */
  lemma ResampledPathBounds(trades: seq<real>, path: seq<real>)
    requires Resampled(path, trades)
    ensures DrawdownOf(Equity(0.0, path)) <= Times(|trades|, WorstLoss(trades))
  {
    hide Equity, DrawdownOf, Total, Loss, WorstLoss, Sum, Times, Max;
    PathBounds(path);
    forall i | 0 <= i < |path|
      ensures Loss(path[i]) <= WorstLoss(trades)
    {
      var k :| 0 <= k < |trades| && trades[k] == path[i];
      assert Loss(trades[k]) <= WorstLoss(trades);
    }
    LossesWithinWorst(path, WorstLoss(trades));
  }

  lemma {:induction false} CopiesSum(n: nat, x: real)
    ensures Sum(seq(n, _ => x)) == Times(n, x)
  {
    hide Times;
    TimesNext(if n == 0 then 0 else n - 1, x);
    if n > 0 {
      var s := seq(n, _ => x);
      assert s[..n - 1] == seq(n - 1, _ => x);
      CopiesSum(n - 1, x);
    }
  }

  lemma TimesNegated(n: nat, x: real)
    ensures Times(n, -x) == -Times(n, x) && Times(n, 0.0) == 0.0
  {
  }

  /** Some resampled path has the worst loss at every step, or there is nothing to lose. */
  lemma WorstPath(trades: seq<real>) returns (path: seq<real>)
    ensures Resampled(path, trades)
    ensures DrawdownOf(Equity(0.0, path)) >= Times(|trades|, WorstLoss(trades))
  {
    hide Equity, DrawdownOf, Total, Sum, Times, WorstLoss;
    var w := WorstLoss(trades);
    if w == 0.0 {
      path := trades;
      TimesNegated(|trades|, 0.0);
    } else {
      var i :| 0 <= i < |trades| && Loss(trades[i]) == w;
      path := seq(|trades|, _ => trades[i]);
      CopiesSum(|trades|, trades[i]);
      TimesNegated(|trades|, w);
    }
    PathBounds(path);
  }

  /** Every resampled path stays within a bound exactly when the worst loss at every step does. */
  lemma ResampledWithinIff(trades: seq<real>, bound: real)
    ensures (forall path :: Resampled(path, trades) ==> DrawdownOf(Equity(0.0, path)) <= bound)
            <==> Times(|trades|, WorstLoss(trades)) <= bound
  {
    hide Equity, DrawdownOf, Times, WorstLoss, Resampled;
    var worst := WorstPath(trades);
    forall path | Resampled(path, trades)
      ensures DrawdownOf(Equity(0.0, path)) <= Times(|trades|, WorstLoss(trades))
    {
      ResampledPathBounds(trades, path);
    }
  }

  /**
    The bound of shuffled paths, the loss magnitudes of the trades, holds for all resampled paths
    exactly when every trade loses as much as the worst one.
   */
  lemma ResampledWithinLossesIff(trades: seq<real>)
    ensures (forall path :: Resampled(path, trades) ==> DrawdownOf(Equity(0.0, path)) <= Total(trades, Loss))
            <==> forall i :: 0 <= i < |trades| ==> Loss(trades[i]) == WorstLoss(trades)
  {
    hide Equity, DrawdownOf, Times, WorstLoss, Resampled, Total, Loss;
    ResampledWithinIff(trades, Total(trades, Loss));
    LossesWithinWorst(trades, WorstLoss(trades));
  }

  /** Where it fails: from a gain and a loss of 1 the loss may be drawn twice. */
  lemma ResampledBeyondLosses()
    ensures var trades, path := [1.0, -1.0], [-1.0, -1.0];
            && Resampled(path, trades)
            && DrawdownOf(Equity(0.0, path)) >= 2.0 > Total(trades, Loss)
  {
    var trades, path := [1.0, -1.0], [-1.0, -1.0];
    assert trades[..1] == [1.0] && trades[..1][..0] == [];
    assert path[..1] == [-1.0] && path[..1][..0] == [];
    assert Total(trades[..1], Loss) == 0.0;
    assert Sum(path[..1]) == -1.0;
    PathBounds(path);
  }

  datatype Outcome = Outcome(totalReturn: real, maxDrawdown: real)

  /** The draws of one simulation: a bootstrap uses the picks, a shuffle the exchanges. */
  datatype Draws = Draws(picks: seq<nat>, exchanges: seq<Exchange>)

  ghost predicate UsableDraws(d: Draws, n: nat) {
    && |d.picks| >= n && (forall k :: 0 <= k < |d.picks| ==> d.picks[k] < n)
    && (forall k :: 0 <= k < |d.exchanges| ==> d.exchanges[k].i < n && d.exchanges[k].j < n)
  }

  /** What holds of the outcome of a path, shuffled or resampled. */
  ghost predicate InBounds(trades: seq<real>, shuffled: bool, o: Outcome) {
    && Max(0.0, -o.totalReturn) <= o.maxDrawdown <= Times(|trades|, WorstLoss(trades))
    && (shuffled ==> o.totalReturn == Sum(trades) && o.maxDrawdown <= Total(trades, Loss) <= Total(trades, Abs))
  }

  /** One simulation: odd ones shuffle, even ones resample. */
  method Simulate(trades: seq<real>, shuffled: bool, draws: Draws) returns (o: Outcome)
    requires trades != [] && UsableDraws(draws, |trades|)
    ensures InBounds(trades, shuffled, o)
  {
    hide Total, Times, WorstLoss, Equity;
    var path;
    if shuffled {
      path := ShuffleOrder(trades, draws.exchanges);
      ShuffledPathBounds(trades, path);
      SameElements(path, trades);
      assert |multiset(path)| == |path| && |multiset(trades)| == |trades|;
    } else {
      path := BootstrapSample(trades, |trades|, draws.picks);
    }
    PathBounds(path);
    ResampledPathBounds(trades, path);
    var total := TotalReturn(path);
    var dd := PathDrawdown(path);
    assert dd == DrawdownOf(Equity(0.0, path));
    o := Outcome(total, dd);
  }

  /**
    A simulation run. Even paths resample and odd paths shuffle. Every path has a drawdown
    that covers its own net loss and stays within the worst loss at every step; every shuffled
    path keeps the total return of the trades and stays within their loss magnitudes.
   */
  method Run(trades: seq<real>, simulations: nat, rng: seq<Draws>) returns (outcomes: Option<seq<Outcome>>)
    requires |rng| >= simulations
    requires forall k :: 0 <= k < simulations ==> UsableDraws(rng[k], |trades|)
    ensures outcomes.None? <==> trades == []
    ensures outcomes.Some? ==> |outcomes.value| == simulations
    ensures outcomes.Some? ==> forall i :: 0 <= i < simulations ==>
              && outcomes.value[i].maxDrawdown >= Max(0.0, -outcomes.value[i].totalReturn)
              && outcomes.value[i].maxDrawdown <= Times(|trades|, WorstLoss(trades))
    ensures outcomes.Some? ==> forall i :: 0 <= i < simulations && i % 2 == 1 ==>
              && outcomes.value[i].totalReturn == Sum(trades)
              && outcomes.value[i].maxDrawdown <= Total(trades, Loss) <= Total(trades, Abs)
  {
    if |trades| == 0 {
      return None;
    }
    hide InBounds;
    var out: seq<Outcome> := [];
    var i := 0;
    while i < simulations
      invariant 0 <= i <= simulations && |out| == i
      invariant forall k :: 0 <= k < i ==> InBounds(trades, k % 2 == 1, out[k])
    {
      var o := Simulate(trades, i % 2 != 0, rng[i]);
      out := out + [o];
      i := i + 1;
    }
    AllInBounds(trades, out);
    return Some(out);
  }

  lemma AllInBounds(trades: seq<real>, out: seq<Outcome>)
    requires forall k :: 0 <= k < |out| ==> InBounds(trades, k % 2 == 1, out[k])
    ensures forall i :: 0 <= i < |out| ==>
              && out[i].maxDrawdown >= Max(0.0, -out[i].totalReturn)
              && out[i].maxDrawdown <= Times(|trades|, WorstLoss(trades))
    ensures forall i :: 0 <= i < |out| && i % 2 == 1 ==>
              && out[i].totalReturn == Sum(trades)
              && out[i].maxDrawdown <= Total(trades, Loss) <= Total(trades, Abs)
  {
    hide Total, Times, WorstLoss, Sum;
  }
}
