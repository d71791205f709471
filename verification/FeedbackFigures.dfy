/**
  What the figures of a feedback snapshot say, counted and added up over the inputs themselves.
 */
module FeedbackFigures {
  import opened Common
  import opened Feedback

  predicate Succeeded(x: Input) { x.outcome == "SUCCESS" }
  predicate HasFailed(x: Input) { x.outcome == "FAILED" }
  predicate HasExpired(x: Input) { x.outcome == "EXPIRED" }
  predicate StayedNeutral(x: Input) { x.outcome == "NEUTRAL" }

  /** A buying level that failed. */
  predicate BoughtAndFailed(x: Input) {
    x.outcome == "FAILED" && x.level in {"STRONG_BUY", "BUY"}
  }

  /** A level that holds back although the outcome was a success. */
  predicate HeldBackAndSucceeded(x: Input) {
    x.outcome == "SUCCESS" && x.level in {"WATCH", "AVOID"}
  }

  function ReturnIn(x: Input): real { x.returnPct }
  function QualityIn(x: Input): real { x.qualityScore }
  function ConfidenceIn(x: Input): real { x.confidence }
  function FavorableIn(x: Input): real { x.mfe }
  function AdverseIn(x: Input): real { x.mae }

  /** An input without a drawdown of its own counts with its adverse excursion. */
  function DrawdownIn(x: Input): real {
    if x.maxDrawdown != 0.0 then x.maxDrawdown else x.mae
  }

  /** How far a confidence agreed with the outcome. */
  function AgreementIn(x: Input): real {
    match x.outcome
    case "SUCCESS" => x.confidence
    case "FAILED" => 1.0 - x.confidence
    case _ => 0.5
  }

  function HoldingIn(x: Input): int { x.holdingMs }

  function Hits(history: seq<Input>, p: Input -> bool): nat {
    if history == [] then 0
    else Hits(history[..|history| - 1], p) + if p(history[|history| - 1]) then 1 else 0
  }

  function Added(history: seq<Input>, f: Input -> real): real {
    if history == [] then 0.0 else Added(history[..|history| - 1], f) + f(history[|history| - 1])
  }

  function AddedMs(history: seq<Input>): int {
    if history == [] then 0 else AddedMs(history[..|history| - 1]) + HoldingIn(history[|history| - 1])
  }

  ghost predicate CountsOf(t: Totals, history: seq<Input>) {
    && t.count == |history|
    && t.wins == t.successful == Hits(history, Succeeded)
    && t.losses == t.failed == Hits(history, HasFailed)
    && t.expired == Hits(history, HasExpired)
    && t.neutral == Hits(history, StayedNeutral)
    && t.falsePositives == Hits(history, BoughtAndFailed)
    && t.falseNegatives == Hits(history, HeldBackAndSucceeded)
  }

  ghost predicate AmountsOf(t: Totals, history: seq<Input>) {
    && t.totalReturn == Added(history, ReturnIn)
    && t.totalQuality == Added(history, QualityIn)
    && t.totalConfidence == Added(history, ConfidenceIn)
    && t.totalMFE == Added(history, FavorableIn)
    && t.totalMAE == Added(history, AdverseIn)
    && t.totalDrawdown == Added(history, DrawdownIn)
    && t.accuracy == Added(history, AgreementIn)
    && t.totalHoldingMs == AddedMs(history)
  }

  lemma {:induction false} TotalsMean(history: seq<Input>)
    ensures CountsOf(TotalsOf(history), history) && AmountsOf(TotalsOf(history), history)
  {
    if history != [] {
      TotalsMean(history[..|history| - 1]);
    }
  }

  /** An average is the share of each of `n` in a total; nothing has the average zero. */
  ghost predicate Shares(average: real, total: real, n: nat) {
    if n == 0 then average == 0.0 else average * n as real == total
  }

  /** A whole average is cut off toward zero. */
  ghost predicate SharesMs(average: int, total: int, n: nat) {
    if n == 0 then average == 0
    else if total >= 0 then average * n <= total < (average + 1) * n
    else (average - 1) * n < total <= average * n
  }

  lemma AverageShares(total: real, n: nat)
    ensures Shares(Average(total, n), total, n)
  {
  }

  lemma AverageMsShares(total: int, n: nat)
    ensures SharesMs(AverageMs(total, n), total, n)
  {
    if n > 0 && total < 0 {
      var q := -total / n;
      assert q * n <= -total < (q + 1) * n;
      assert (-q - 1) * n == -((q + 1) * n);
    }
  }

  ghost predicate StatisticsRead(s: Statistics, part: seq<Input>) {
    && Shares(s.successRate, Hits(part, Succeeded) as real, |part|)
    && Shares(s.averageReturn, Added(part, ReturnIn), |part|)
    && Shares(s.averageQuality, Added(part, QualityIn), |part|)
    && Shares(s.averageConfidence, Added(part, ConfidenceIn), |part|)
    && SharesMs(s.averageHoldingMs, AddedMs(part), |part|)
  }

  /** The win rate is taken over the inputs that won or lost alone. */
  ghost predicate WinRateReads(rate: real, part: seq<Input>) {
    Shares(rate, Hits(part, Succeeded) as real, Hits(part, Succeeded) + Hits(part, HasFailed))
  }

  ghost predicate OverallReads(o: Overall, history: seq<Input>) {
    && o.recommendations == |history|
    && o.successful == Hits(history, Succeeded) && o.failed == Hits(history, HasFailed)
    && o.expired == Hits(history, HasExpired) && o.neutral == Hits(history, StayedNeutral)
    && o.falsePositives == Hits(history, BoughtAndFailed)
    && o.falseNegatives == Hits(history, HeldBackAndSucceeded)
    && StatisticsRead(o.statistics, history) && WinRateReads(o.winRate, history)
    && Shares(o.averageMFE, Added(history, FavorableIn), |history|)
    && Shares(o.averageMAE, Added(history, AdverseIn), |history|)
    && Shares(o.averageDrawdown, Added(history, DrawdownIn), |history|)
    && Shares(o.confidenceAccuracy, Added(history, AgreementIn), |history|)
  }

  ghost predicate KeyReads(k: KeyStatistics, part: seq<Input>) {
    match k
    case StrategyStatistics(_, recommendations, wins, losses, expired, statistics, winRate) =>
      && recommendations == |part|
      && wins == Hits(part, Succeeded) && losses == Hits(part, HasFailed) && expired == Hits(part, HasExpired)
      && StatisticsRead(statistics, part) && WinRateReads(winRate, part)
    case SymbolStatistics(_, recommendations, wins, losses, averageReturn, averageQuality, averageConfidence, ms) =>
      && recommendations == |part| && wins == Hits(part, Succeeded) && losses == Hits(part, HasFailed)
      && Shares(averageReturn, Added(part, ReturnIn), |part|)
      && Shares(averageQuality, Added(part, QualityIn), |part|)
      && Shares(averageConfidence, Added(part, ConfidenceIn), |part|)
      && SharesMs(ms, AddedMs(part), |part|)
    case TimeframeStatistics(_, recommendations, averageReturn, averageQuality, ms, winRate) =>
      && recommendations == |part|
      && Shares(averageReturn, Added(part, ReturnIn), |part|)
      && Shares(averageQuality, Added(part, QualityIn), |part|)
      && SharesMs(ms, AddedMs(part), |part|) && WinRateReads(winRate, part)
  }

  /** The success rate of a bucket is taken over its successes and failures alone. */
  ghost predicate CalibrationReads(c: Calibration, part: seq<Input>) {
    && c.count == |part| && c.successes == Hits(part, Succeeded) && c.failures == Hits(part, HasFailed)
    && WinRateReads(c.successRate, part)
    && Shares(c.averageReturn, Added(part, ReturnIn), |part|)
    && Shares(c.averageQuality, Added(part, QualityIn), |part|)
    && SharesMs(c.averageHoldingMs, AddedMs(part), |part|)
  }

  lemma StatisticsMean(part: seq<Input>)
    ensures StatisticsRead(StatisticsOf(TotalsOf(part)), part)
  {
    hide Shares, SharesMs, Average, AverageMs, TotalsOf, Hits, Added, AddedMs;
    var t := TotalsOf(part);
    TotalsMean(part);
    AverageShares(t.successful as real, t.count);
    AverageShares(t.totalReturn, t.count);
    AverageShares(t.totalQuality, t.count);
    AverageShares(t.totalConfidence, t.count);
    AverageMsShares(t.totalHoldingMs, t.count);
  }

  lemma OverallMeans(history: seq<Input>)
    ensures OverallReads(OverallOf(TotalsOf(history)), history)
  {
    hide Shares, SharesMs, Average, AverageMs, TotalsOf, Hits, Added, AddedMs, StatisticsOf, StatisticsRead;
    var t := TotalsOf(history);
    TotalsMean(history);
    StatisticsMean(history);
    AverageShares(t.wins as real, t.wins + t.losses);
    AverageShares(t.totalMFE, t.count);
    AverageShares(t.totalMAE, t.count);
    AverageShares(t.totalDrawdown, t.count);
    AverageShares(t.accuracy, t.count);
  }

  lemma KeyStatisticsMean(d: Dimension, key: string, part: seq<Input>)
    ensures KeyReads(KeyStatisticsOf(d, key, TotalsOf(part)), part)
  {
    hide Shares, SharesMs, Average, AverageMs, TotalsOf, Hits, Added, AddedMs, StatisticsOf, StatisticsRead;
    var t := TotalsOf(part);
    TotalsMean(part);
    StatisticsMean(part);
    AverageShares(t.wins as real, t.wins + t.losses);
    AverageShares(t.totalReturn, t.count);
    AverageShares(t.totalQuality, t.count);
    AverageShares(t.totalConfidence, t.count);
    AverageMsShares(t.totalHoldingMs, t.count);
  }

  lemma CalibrationMeans(b: Bucket, part: seq<Input>)
    ensures CalibrationReads(CalibrationOf(b, TotalsOf(part)), part)
  {
    hide Shares, SharesMs, Average, AverageMs, TotalsOf, Hits, Added, AddedMs;
    var t := TotalsOf(part);
    TotalsMean(part);
    AverageShares(t.successful as real, t.successful + t.failed);
    AverageShares(t.totalReturn, t.count);
    AverageShares(t.totalQuality, t.count);
    AverageMsShares(t.totalHoldingMs, t.count);
  }

  lemma CalibrationBounds(b: Bucket, part: seq<Input>)
    ensures var c := CalibrationOf(b, TotalsOf(part));
            c.lower == b.lower && c.upper == b.upper
  {
  }

  /** The inputs filed under a key, which is the trimmed name, or "unknown" for a blank one. */
  predicate FiledUnder(name: string, key: string) {
    if TrimSpace(name) == "" then key == "unknown" else key == TrimSpace(name)
  }

  function NameIn(d: Dimension, x: Input): string {
    match d
    case ByStrategy => x.strategy
    case BySymbol => x.symbol
    case ByTimeframe => x.timeframe
  }

  lemma {:induction false} PartsMean(d: Dimension, history: seq<Input>, key: string)
    ensures Filter(history, HasKey(d, key)) == Filter(history, (x: Input) => FiledUnder(NameIn(d, x), key))
  {
    if history != [] {
      PartsMean(d, history[..|history| - 1], key);
    }
  }

  /** The bounds of the confidences in a bucket: only the lowest and the highest one are open. */
  predicate Within(thresholds: seq<real>, i: nat, confidence: real) {
    && (i < |thresholds| ==> confidence >= thresholds[|thresholds| - 1 - i])
    && (0 < i <= |thresholds| ==> confidence < thresholds[|thresholds| - i])
  }

  lemma {:induction false} BucketsMean(thresholds: seq<real>, history: seq<Input>, i: nat)
    requires Validated(thresholds) && i <= |thresholds|
    ensures Filter(history, InIndex(thresholds, i))
            == Filter(history, (x: Input) => Within(thresholds, i, x.confidence))
  {
    if history != [] {
      BucketsMean(thresholds, history[..|history| - 1], i);
      AboveBracket(thresholds, history[|history| - 1].confidence);
    }
  }

  ghost predicate ListReads(d: Dimension, list: seq<KeyStatistics>, history: seq<Input>) {
    forall k :: k in list ==> KeyReads(k, Filter(history, (x: Input) => FiledUnder(NameIn(d, x), k.key)))
  }

  lemma ListMeans(d: Dimension, list: seq<KeyStatistics>, history: seq<Input>)
    requires Lists(d, list, history)
    ensures ListReads(d, list, history)
  {
    hide KeyReads, KeyStatisticsOf, TotalsOf, Filter;
    forall k | k in list
      ensures KeyReads(k, Filter(history, (x: Input) => FiledUnder(NameIn(d, x), k.key)))
    {
      PartsMean(d, history, k.key);
      KeyStatisticsMean(d, k.key, Filter(history, HasKey(d, k.key)));
    }
  }

  ghost predicate CalibrationsRead(thresholds: seq<real>, list: seq<Calibration>, history: seq<Input>) {
    && |list| == |thresholds| + 1
    && forall i: nat :: i < |list| ==>
         && list[i].lower == (if i < |thresholds| then thresholds[|thresholds| - 1 - i] else 0.0)
         && list[i].upper == (if i > 0 then thresholds[|thresholds| - i] else 1.0)
         && CalibrationReads(list[i], Filter(history, (x: Input) => Within(thresholds, i, x.confidence)))
  }

  /** A window holds the last inputs, or all of them when there are fewer. */
  function LastInputs(history: seq<Input>, window: int): seq<Input> {
    if window <= 0 then [] else if window >= |history| then history else history[|history| - window..]
  }

  ghost predicate RollingReads(windows: seq<int>, rolling: seq<Statistics>, history: seq<Input>) {
    && |rolling| == |windows|
    && forall k :: 0 <= k < |windows| ==> StatisticsRead(rolling[k], LastInputs(history, windows[k]))
  }

  /**
    Every figure of a snapshot is counted, added up or averaged over the inputs it is about: all of
    them, those of a strategy, symbol or timeframe, those between two thresholds, or the latest.
   */
  lemma SnapshotMeans(a: Aggregator, s: Snapshot)
    requires a.Valid() && a.IsSnapshot(s)
    ensures OverallReads(s.overall, a.history)
    ensures ListReads(ByStrategy, s.strategies, a.history)
    ensures ListReads(BySymbol, s.symbols, a.history)
    ensures ListReads(ByTimeframe, s.timeframes, a.history)
    ensures CalibrationsRead(a.thresholds, s.calibration, a.history)
    ensures RollingReads(a.windows, s.rolling, a.history)
  {
    hide OverallReads, OverallOf, ListReads, Lists, CalibrationReads, CalibrationOf, StatisticsRead, StatisticsOf,
         TotalsOf, Filter, Splits, SplitsBuckets;
    OverallMeans(a.history);
    ListMeans(ByStrategy, s.strategies, a.history);
    ListMeans(BySymbol, s.symbols, a.history);
    ListMeans(ByTimeframe, s.timeframes, a.history);
    forall i: nat | i < |s.calibration|
      ensures s.calibration[i].lower == a.buckets[i].lower && s.calibration[i].upper == a.buckets[i].upper
      ensures CalibrationReads(s.calibration[i],
                               Filter(a.history, (x: Input) => Within(a.thresholds, i, x.confidence)))
    {
      BucketsMean(a.thresholds, a.history, i);
      CalibrationMeans(a.buckets[i], Filter(a.history, InIndex(a.thresholds, i)));
      CalibrationBounds(a.buckets[i], Filter(a.history, InIndex(a.thresholds, i)));
    }
    forall k | 0 <= k < |a.windows|
      ensures StatisticsRead(s.rolling[k], LastInputs(a.history, a.windows[k]))
    {
      StatisticsMean(LastInputs(a.history, a.windows[k]));
    }
  }
}
