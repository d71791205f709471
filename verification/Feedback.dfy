/**
  Feedback aggregation: running totals per dimension, confidence buckets, rolling windows.
 */
module Feedback {
  import opened Common
  import opened MapSum
  import Ranking

  datatype Input = Input(
    symbol: string,
    timeframe: string,
    strategy: string,
    level: string,
    confidence: real,
    outcome: string,
    qualityScore: real,
    returnPct: real,
    mfe: real,
    mae: real,
    maxDrawdown: real,
    holdingMs: int,
    evaluatedAt: Instant
  )

  datatype Totals = Totals(
    count: nat,
    wins: nat,
    losses: nat,
    successful: nat,
    failed: nat,
    expired: nat,
    neutral: nat,
    falsePositives: nat,
    falseNegatives: nat,
    totalReturn: real,
    totalQuality: real,
    totalConfidence: real,
    totalHoldingMs: int,
    totalMFE: real,
    totalMAE: real,
    totalDrawdown: real,
    accuracy: real
  )

  const ZERO := Totals(0, 0, 0, 0, 0, 0, 0, 0, 0, 0.0, 0.0, 0.0, 0, 0.0, 0.0, 0.0, 0.0)

  function One(b: bool): nat { if b then 1 else 0 }

  function Accuracy(x: Input): real {
    if x.outcome == "SUCCESS" then x.confidence
    else if x.outcome == "FAILED" then 1.0 - x.confidence
    else 0.5
  }

  predicate IsFalsePositive(x: Input) {
    x.outcome == "FAILED" && (x.level == "STRONG_BUY" || x.level == "BUY")
  }

  predicate IsFalseNegative(x: Input) {
    x.outcome == "SUCCESS" && (x.level == "WATCH" || x.level == "AVOID")
  }

  function DrawdownOf(x: Input): real {
    if x.maxDrawdown == 0.0 then x.mae else x.maxDrawdown
  }

  function Add(t: Totals, x: Input): Totals {
    Totals(t.count + 1,
           t.wins + One(x.outcome == "SUCCESS"), t.losses + One(x.outcome == "FAILED"),
           t.successful + One(x.outcome == "SUCCESS"), t.failed + One(x.outcome == "FAILED"),
           t.expired + One(x.outcome == "EXPIRED"), t.neutral + One(x.outcome == "NEUTRAL"),
           t.falsePositives + One(IsFalsePositive(x)), t.falseNegatives + One(IsFalseNegative(x)),
           t.totalReturn + x.returnPct, t.totalQuality + x.qualityScore,
           t.totalConfidence + x.confidence, t.totalHoldingMs + x.holdingMs,
           t.totalMFE + x.mfe, t.totalMAE + x.mae, t.totalDrawdown + DrawdownOf(x),
           t.accuracy + Accuracy(x))
  }

  function TotalsOf(history: seq<Input>): Totals {
    if history == [] then ZERO
    else Add(TotalsOf(history[..|history| - 1]), history[|history| - 1])
  }

  /** The accumulator of one dimension entry, updated in place. */
  class RunningTotals {
    var count: nat
    var wins: nat
    var losses: nat
    var successful: nat
    var failed: nat
    var expired: nat
    var neutral: nat
    var falsePositives: nat
    var falseNegatives: nat
    var totalReturn: real
    var totalQuality: real
    var totalConfidence: real
    var totalHoldingMs: int
    var totalMFE: real
    var totalMAE: real
    var totalDrawdown: real
    var accuracy: real

    constructor (t: Totals)
      ensures View() == t
    {
      count, wins, losses, successful, failed := t.count, t.wins, t.losses, t.successful, t.failed;
      expired, neutral := t.expired, t.neutral;
      falsePositives, falseNegatives := t.falsePositives, t.falseNegatives;
      totalReturn, totalQuality, totalConfidence := t.totalReturn, t.totalQuality, t.totalConfidence;
      totalHoldingMs, totalMFE, totalMAE := t.totalHoldingMs, t.totalMFE, t.totalMAE;
      totalDrawdown, accuracy := t.totalDrawdown, t.accuracy;
    }

    function View(): Totals
      reads this
    {
      Totals(count, wins, losses, successful, failed, expired, neutral, falsePositives, falseNegatives,
             totalReturn, totalQuality, totalConfidence, totalHoldingMs, totalMFE, totalMAE,
             totalDrawdown, accuracy)
    }

    method CountOutcome(outcome: string)
      modifies this`successful, this`wins, this`failed, this`losses, this`expired, this`neutral
      ensures successful == old(successful) + One(outcome == "SUCCESS")
      ensures wins == old(wins) + One(outcome == "SUCCESS")
      ensures failed == old(failed) + One(outcome == "FAILED")
      ensures losses == old(losses) + One(outcome == "FAILED")
      ensures expired == old(expired) + One(outcome == "EXPIRED")
      ensures neutral == old(neutral) + One(outcome == "NEUTRAL")
    {
      match outcome {
        case "SUCCESS" =>
          successful := successful + 1;
          wins := wins + 1;
        case "FAILED" =>
          failed := failed + 1;
          losses := losses + 1;
        case "EXPIRED" =>
          expired := expired + 1;
        case "NEUTRAL" =>
          neutral := neutral + 1;
        case _ =>
      }
    }

    method AddAmounts(x: Input)
      modifies this`totalReturn, this`totalQuality, this`totalConfidence, this`totalHoldingMs,
               this`totalMFE, this`totalMAE, this`totalDrawdown, this`accuracy
      ensures totalReturn == old(totalReturn) + x.returnPct
      ensures totalQuality == old(totalQuality) + x.qualityScore
      ensures totalConfidence == old(totalConfidence) + x.confidence
      ensures totalHoldingMs == old(totalHoldingMs) + x.holdingMs
      ensures totalMFE == old(totalMFE) + x.mfe && totalMAE == old(totalMAE) + x.mae
      ensures totalDrawdown == old(totalDrawdown) + DrawdownOf(x)
      ensures accuracy == old(accuracy) + Accuracy(x)
    {
      totalReturn := totalReturn + x.returnPct;
      totalQuality := totalQuality + x.qualityScore;
      totalConfidence := totalConfidence + x.confidence;
      totalHoldingMs := totalHoldingMs + x.holdingMs;
      totalMFE := totalMFE + x.mfe;
      totalMAE := totalMAE + x.mae;
      var drawdown := x.maxDrawdown;
      if drawdown == 0.0 {
        drawdown := x.mae;
      }
      totalDrawdown := totalDrawdown + drawdown;
      accuracy := accuracy + Accuracy(x);
    }

    method CountErrors(x: Input)
      modifies this`falsePositives, this`falseNegatives
      ensures falsePositives == old(falsePositives) + One(IsFalsePositive(x))
      ensures falseNegatives == old(falseNegatives) + One(IsFalseNegative(x))
    {
      if IsFalsePositive(x) {
        falsePositives := falsePositives + 1;
      }
      if IsFalseNegative(x) {
        falseNegatives := falseNegatives + 1;
      }
    }

    method AddInput(x: Input)
      modifies this
      ensures View() == Add(old(View()), x)
    {
      hide IsFalsePositive, IsFalseNegative, DrawdownOf, Accuracy, One;
      count := count + 1;
      CountOutcome(x.outcome);
      AddAmounts(x);
      CountErrors(x);
    }
  }

  // Confidence buckets.

  /** Configured thresholds: at least one, each in (0, 1], strictly increasing. */
  ghost predicate Validated(thresholds: seq<real>) {
    && thresholds != []
    && (forall i :: 0 <= i < |thresholds| ==> 0.0 < thresholds[i] <= 1.0)
    && (forall i, j :: 0 <= i < j < |thresholds| ==> thresholds[i] < thresholds[j])
  }

  datatype Bucket = Bucket(lower: real, upper: real, isBelow: bool)

  /** The buckets of the thresholds, from the highest down, with one below them all. */
  function BucketDefs(thresholds: seq<real>): seq<Bucket>
    requires thresholds != []
  {
    var n := |thresholds|;
    seq(n + 1, i requires 0 <= i <= n =>
      if i == n then Bucket(0.0, thresholds[0], true)
      else Bucket(thresholds[n - 1 - i], if i == 0 then 1.0 else thresholds[n - i], false))
  }

  method BuildBucketDefs(thresholds: seq<real>) returns (defs: seq<Bucket>)
    requires thresholds != []
    ensures defs == BucketDefs(thresholds)
  {
    defs := [];
    var n := |thresholds|;
    var i := n - 1;
    while i >= 0
      invariant -1 <= i < n && |defs| == n - 1 - i
      invariant forall k :: 0 <= k < |defs| ==> defs[k] == BucketDefs(thresholds)[k]
    {
      var lower := thresholds[i];
      var upper := 1.0;
      if i < n - 1 {
        upper := thresholds[i + 1];
      }
      defs := defs + [Bucket(lower, upper, false)];
      i := i - 1;
    }
    defs := defs + [Bucket(0.0, thresholds[0], true)];
  }

  /** How many thresholds lie above a confidence. */
  function ThresholdsAbove(thresholds: seq<real>, confidence: real): (n: nat)
    ensures n <= |thresholds|
  {
    if thresholds == [] then 0
    else
      ThresholdsAbove(thresholds[..|thresholds| - 1], confidence)
      + One(thresholds[|thresholds| - 1] > confidence)
  }

  lemma {:induction false} AboveSplits(thresholds: seq<real>, confidence: real, k: nat)
    requires k <= |thresholds|
    requires forall i :: 0 <= i < k ==> thresholds[i] <= confidence
    requires forall i :: k <= i < |thresholds| ==> thresholds[i] > confidence
    ensures ThresholdsAbove(thresholds, confidence) == |thresholds| - k
  {
    if thresholds != [] {
      var n := |thresholds| - 1;
      AboveSplits(thresholds[..n], confidence, if k <= n then k else n);
    }
  }

  predicate InBucket(b: Bucket, confidence: real) {
    if b.isBelow then confidence < b.upper
    else b.lower <= confidence && (confidence < b.upper || b.upper == 1.0)
  }

  /** The bucket of a confidence: never none for validated thresholds. */
  method BucketIndex(thresholds: seq<real>, buckets: seq<Bucket>, confidence: real) returns (index: int)
    requires Validated(thresholds) && buckets == BucketDefs(thresholds)
    ensures index == ThresholdsAbove(thresholds, confidence)
    ensures 0 <= index < |buckets| && InBucket(buckets[index], confidence)
  {
    var n, i := |thresholds|, 0;
    index := -1;
    while i < |buckets|
      invariant 0 <= i <= n
      invariant forall k :: n - i <= k < n ==> thresholds[k] > confidence
    {
      var bucket := buckets[i];
      if bucket.isBelow {
        if confidence < bucket.upper {
          AboveSplits(thresholds, confidence, 0);
          return i;
        }
        assert false;
      } else {
        if confidence >= bucket.lower && confidence < bucket.upper {
          AboveSplits(thresholds, confidence, n - i);
          return i;
        }
        if bucket.upper == 1.0 && confidence >= bucket.lower {
          AboveSplits(thresholds, confidence, n - i);
          return i;
        }
      }
      i := i + 1;
    }
  }

  /** The scan's test picks one bucket for a confidence: the one with as many thresholds above it. */
  ghost predicate OneBucket(thresholds: seq<real>, confidence: real)
    requires thresholds != []
  {
    forall i: nat :: i <= |thresholds| ==>
      (InBucket(BucketDefs(thresholds)[i], confidence) <==> i == ThresholdsAbove(thresholds, confidence))
  }

  /**
    The test of the scan holds for one bucket alone, except for a confidence of 1 or more under
    several thresholds of which the highest is 1: then the bucket below matches as well, and only
    the order of the scan decides.
   */
  lemma OneBucketEach(thresholds: seq<real>, confidence: real)
    requires Validated(thresholds)
    ensures OneBucket(thresholds, confidence)
            <==> |thresholds| == 1 || confidence < 1.0 || thresholds[|thresholds| - 1] < 1.0
  {
    AboveBracket(thresholds, confidence);
    var n := |thresholds|;
    if |thresholds| > 1 && confidence >= 1.0 && thresholds[n - 1] == 1.0 {
      assert BucketDefs(thresholds)[1] == Bucket(thresholds[n - 2], 1.0, false);
      assert InBucket(BucketDefs(thresholds)[1], confidence);
    }
  }

  /** Under thresholds 0.5 and 1 a confidence of 1 passes the test of the first two buckets. */
  lemma FullConfidenceInTwoBuckets()
    ensures var thresholds := [0.5, 1.0];
            && Validated(thresholds)
            && InBucket(BucketDefs(thresholds)[0], 1.0) && InBucket(BucketDefs(thresholds)[1], 1.0)
            && !OneBucket(thresholds, 1.0)
  {
    OneBucketEach([0.5, 1.0], 1.0);
  }

  /** The thresholds up to some place are at or below the confidence, the others above it. */
  lemma {:induction false} AboveBracket(thresholds: seq<real>, confidence: real)
    requires forall i, j :: 0 <= i < j < |thresholds| ==> thresholds[i] < thresholds[j]
    ensures var k := |thresholds| - ThresholdsAbove(thresholds, confidence);
            && (forall i :: 0 <= i < k ==> thresholds[i] <= confidence)
            && (forall i :: k <= i < |thresholds| ==> thresholds[i] > confidence)
  {
    if thresholds != [] {
      var n := |thresholds| - 1;
      AboveBracket(thresholds[..n], confidence);
      if thresholds[n] <= confidence {
        AboveSplits(thresholds[..n], confidence, n);
      }
    }
  }

  // Rolling windows.

  function Average(total: real, count: nat): real {
    if count == 0 then 0.0 else total / count as real
  }

  function AverageMs(total: int, count: nat): int {
    if count == 0 then 0 else Quotient(total, count)
  }

  datatype Statistics = Statistics(successRate: real, averageReturn: real, averageQuality: real,
                                   averageConfidence: real, averageHoldingMs: int)

  function StatisticsOf(t: Totals): Statistics {
    Statistics(Average(t.successful as real, t.count), Average(t.totalReturn, t.count),
               Average(t.totalQuality, t.count), Average(t.totalConfidence, t.count),
               AverageMs(t.totalHoldingMs, t.count))
  }

  function WindowStatistics(history: seq<Input>, window: int): Statistics {
    StatisticsOf(TotalsOf(if window <= 0 then [] else Tail(history, window)))
  }

  method TailEntries(history: seq<Input>, window: int) returns (entries: seq<Input>)
    ensures entries == if window <= 0 then [] else Tail(history, window)
  {
    if window <= 0 || |history| == 0 {
      return [];
    }
    if |history| <= window {
      return history;
    }
    return history[|history| - window..];
  }

  /** A window's statistics are those of its entries, accumulated afresh. */
  method BuildRollingStats(entries: seq<Input>) returns (s: Statistics)
    ensures s == StatisticsOf(TotalsOf(entries))
  {
    var t := new RunningTotals(ZERO);
    var i := 0;
    while i < |entries|
      invariant 0 <= i <= |entries|
      invariant t.View() == TotalsOf(entries[..i])
    {
      hide Add;
      assert entries[..i + 1][..i] == entries[..i];
      t.AddInput(entries[i]);
      i := i + 1;
    }
    assert entries[..i] == entries;
    s := StatisticsOf(t.View());
  }

  /** While the window covers the history, rolling statistics are the overall ones. */
  lemma WideWindow(history: seq<Input>, window: int)
    requires |history| <= window
    ensures WindowStatistics(history, window) == StatisticsOf(TotalsOf(history))
  {
  }

  // Calibration.

  datatype Calibration = Calibration(lower: real, upper: real, count: nat, successes: nat, failures: nat,
                                     successRate: real, averageReturn: real, averageQuality: real,
                                     averageHoldingMs: int)

  function CalibrationOf(b: Bucket, t: Totals): Calibration {
    Calibration(b.lower, b.upper, t.count, t.successful, t.failed,
                Average(t.successful as real, t.successful + t.failed), Average(t.totalReturn, t.count),
                Average(t.totalQuality, t.count), AverageMs(t.totalHoldingMs, t.count))
  }

  // The aggregator.

  datatype Dimension = ByStrategy | BySymbol | ByTimeframe

  function NormalizeKey(value: string, fallback: string): string {
    var key := TrimSpace(value);
    if key == "" then fallback else key
  }

  function KeyIn(d: Dimension, x: Input): string {
    match d
    case ByStrategy => NormalizeKey(x.strategy, "unknown")
    case BySymbol => NormalizeKey(x.symbol, "unknown")
    case ByTimeframe => NormalizeKey(x.timeframe, "unknown")
  }

  function HasKey(d: Dimension, key: string): Input -> bool {
    (x: Input) => KeyIn(d, x) == key
  }

  function InIndex(thresholds: seq<real>, i: nat): Input -> bool {
    (x: Input) => ThresholdsAbove(thresholds, x.confidence) == i
  }

  type ByKey = map<string, Totals>

  /** One entry per key that occurs, holding the totals of its part of the history. */
  ghost predicate Splits(d: Dimension, totals: ByKey, history: seq<Input>) {
    && (forall key :: key in totals <==> exists x :: x in history && KeyIn(d, x) == key)
    && (forall key :: key in totals ==> totals[key] == TotalsOf(Filter(history, HasKey(d, key))))
  }

  ghost predicate SplitsBuckets(thresholds: seq<real>, totals: seq<Totals>, history: seq<Input>) {
    && |totals| == |thresholds| + 1
    && forall i: nat :: i < |totals| ==> totals[i] == TotalsOf(Filter(history, InIndex(thresholds, i)))
  }

  // What a snapshot shows.

  datatype Overall = Overall(
    recommendations: nat, successful: nat, failed: nat, expired: nat, neutral: nat, statistics: Statistics,
    winRate: real, averageMFE: real, averageMAE: real, averageDrawdown: real, falsePositives: nat,
    falseNegatives: nat, confidenceAccuracy: real)

  function OverallOf(t: Totals): Overall {
    Overall(t.count, t.successful, t.failed, t.expired, t.neutral, StatisticsOf(t),
            Average(t.wins as real, t.wins + t.losses), Average(t.totalMFE, t.count), Average(t.totalMAE, t.count),
            Average(t.totalDrawdown, t.count), t.falsePositives, t.falseNegatives, Average(t.accuracy, t.count))
  }

  /** The figures of one strategy, symbol or timeframe; each kind shows its own. */
  datatype KeyStatistics =
    | StrategyStatistics(key: string, recommendations: nat, wins: nat, losses: nat, expired: nat,
                         statistics: Statistics, winRate: real)
    | SymbolStatistics(key: string, recommendations: nat, wins: nat, losses: nat, averageReturn: real,
                       averageQuality: real, averageConfidence: real, averageHoldingMs: int)
    | TimeframeStatistics(key: string, recommendations: nat, averageReturn: real, averageQuality: real,
                          averageHoldingMs: int, winRate: real)

  function KeyStatisticsOf(d: Dimension, key: string, t: Totals): (k: KeyStatistics)
    ensures k.key == key
  {
    var winRate := Average(t.wins as real, t.wins + t.losses);
    match d
    case ByStrategy => StrategyStatistics(key, t.count, t.wins, t.losses, t.expired, StatisticsOf(t), winRate)
    case BySymbol =>
      SymbolStatistics(key, t.count, t.wins, t.losses, Average(t.totalReturn, t.count),
                       Average(t.totalQuality, t.count), Average(t.totalConfidence, t.count),
                       AverageMs(t.totalHoldingMs, t.count))
    case ByTimeframe =>
      TimeframeStatistics(key, t.count, Average(t.totalReturn, t.count), Average(t.totalQuality, t.count),
                          AverageMs(t.totalHoldingMs, t.count), winRate)
  }

  datatype Snapshot = Snapshot(
    overall: Overall, strategies: seq<KeyStatistics>, symbols: seq<KeyStatistics>, timeframes: seq<KeyStatistics>,
    calibration: seq<Calibration>, rolling: seq<Statistics>, version: nat)

  ghost predicate InKeyOrder(list: seq<KeyStatistics>) {
    forall i, j :: 0 <= i < j < |list| ==> Ranking.Less(list[i].key, list[j].key)
  }

  /** One entry for each key that occurs, in the order of keys, over its part of the history. */
  ghost predicate Lists(d: Dimension, list: seq<KeyStatistics>, history: seq<Input>) {
    && InKeyOrder(list)
    && (forall k :: k in list ==>
          k == KeyStatisticsOf(d, k.key, TotalsOf(Filter(history, HasKey(d, k.key)))))
    && (forall key :: HasEntry(list, key) <==> exists x :: x in history && KeyIn(d, x) == key)
  }

  ghost predicate HasEntry(list: seq<KeyStatistics>, key: string) {
    exists k :: k in list && k.key == key
  }

  /** There is one such list. */
  lemma ListsUnique(d: Dimension, a: seq<KeyStatistics>, b: seq<KeyStatistics>, history: seq<Input>)
    requires Lists(d, a, history) && Lists(d, b, history)
    ensures a == b
  {
    hide KeyStatisticsOf, TotalsOf, Filter, KeyIn;
    forall k
      ensures k in a <==> k in b
    {
      if k in a {
        assert HasEntry(a, k.key) && HasEntry(b, k.key);
      }
      if k in b {
        assert HasEntry(b, k.key) && HasEntry(a, k.key);
      }
    }
    OrderDetermines(a, b);
  }

  lemma AfterAll(list: seq<KeyStatistics>, k: KeyStatistics)
    requires InKeyOrder(list) && k in list
    ensures k == list[|list| - 1] || Ranking.Less(k.key, list[|list| - 1].key)
    ensures k in list[..|list| - 1] <==> k != list[|list| - 1]
  {
    Ranking.LessIrreflexive(list[|list| - 1].key);
  }

  lemma NoEntries(list: seq<KeyStatistics>)
    requires forall k :: k !in list
    ensures list == []
  {
    var first := if |list| > 0 then list[0] else SymbolStatistics("", 0, 0, 0, 0.0, 0.0, 0.0, 0);
    assert |list| > 0 ==> first in list;
  }

  lemma {:induction false} OrderDetermines(a: seq<KeyStatistics>, b: seq<KeyStatistics>)
    requires InKeyOrder(a) && InKeyOrder(b) && forall k :: k in a <==> k in b
    ensures a == b
    decreases |a|
  {
    if a == [] {
      NoEntries(b);
    } else {
      var m, n := |a| - 1, |b| - 1;
      assert a[m] in b && b[n] in b;
      AfterAll(b, a[m]);
      AfterAll(a, b[n]);
      if a[m] != b[n] {
        Ranking.LessTransitive(a[m].key, b[n].key, a[m].key);
        Ranking.LessIrreflexive(a[m].key);
      }
      hide Ranking.Less;
      forall k
        ensures k in a[..m] <==> k in b[..n]
      {
        if k in a {
          AfterAll(a, k);
          AfterAll(b, k);
        }
      }
      assert InKeyOrder(a[..m]) && InKeyOrder(b[..n]);
      OrderDetermines(a[..m], b[..n]);
      assert a == a[..m] + [a[m]] && b == b[..n] + [b[n]];
    }
  }

  lemma InsertedInOrder(list: seq<KeyStatistics>, k: KeyStatistics, i: nat)
    requires InKeyOrder(list) && i <= |list| && forall l :: l in list ==> l.key != k.key
    requires forall j :: 0 <= j < i ==> Ranking.Less(list[j].key, k.key)
    requires i < |list| ==> !Ranking.Less(list[i].key, k.key)
    ensures InKeyOrder(list[..i] + [k] + list[i..])
  {
    hide Ranking.Less;
    forall j | i <= j < |list|
      ensures Ranking.Less(k.key, list[j].key)
    {
      assert list[i] in list;
      Ranking.LessTotal(k.key, list[i].key);
      if i < j {
        Ranking.LessTransitive(k.key, list[i].key, list[j].key);
      }
    }
  }

  method InsertByKey(list: seq<KeyStatistics>, k: KeyStatistics) returns (out: seq<KeyStatistics>)
    requires InKeyOrder(list) && forall l :: l in list ==> l.key != k.key
    ensures InKeyOrder(out) && forall l :: l in out <==> l in list || l == k
  {
    var i := 0;
    while i < |list| && Ranking.Less(list[i].key, k.key)
      invariant 0 <= i <= |list|
      invariant forall j :: 0 <= j < i ==> Ranking.Less(list[j].key, k.key)
    {
      i := i + 1;
    }
    InsertedInOrder(list, k, i);
    out := list[..i] + [k] + list[i..];
  }

  /** The entries of a map, collected in any order and sorted by key. */
  method ListByKey(d: Dimension, totals: ByKey) returns (list: seq<KeyStatistics>)
    ensures InKeyOrder(list)
    ensures forall k :: k in list <==> k.key in totals && k == KeyStatisticsOf(d, k.key, totals[k.key])
  {
    hide KeyStatisticsOf, Ranking.Less;
    list := [];
    var remaining := totals.Keys;
    while remaining != {}
      invariant remaining <= totals.Keys && InKeyOrder(list)
      invariant forall k :: k in list <==>
                  k.key in totals && k.key !in remaining && k == KeyStatisticsOf(d, k.key, totals[k.key])
      decreases |remaining|
    {
      var key :| key in remaining;
      remaining := remaining - {key};
      list := InsertByKey(list, KeyStatisticsOf(d, key, totals[key]));
    }
  }

  lemma ListedIsListing(d: Dimension, totals: ByKey, list: seq<KeyStatistics>, history: seq<Input>)
    requires Splits(d, totals, history) && InKeyOrder(list)
    requires forall k :: k in list <==> k.key in totals && k == KeyStatisticsOf(d, k.key, totals[k.key])
    ensures Lists(d, list, history)
  {
    hide KeyIn, TotalsOf, Filter, InKeyOrder;
    forall key
      ensures HasEntry(list, key) <==> exists x :: x in history && KeyIn(d, x) == key
    {
      if key in totals {
        assert KeyStatisticsOf(d, key, totals[key]) in list;
      }
    }
  }

  class Aggregator {
    const thresholds: seq<real>
    const buckets: seq<Bucket>
    const windows: seq<int>
    const overall: RunningTotals
    var strategies: ByKey
    var symbols: ByKey
    var timeframes: ByKey
    var bucketTotals: seq<Totals>
    var history: seq<Input>

    ghost function DimensionTotals(d: Dimension): ByKey
      reads this
    {
      match d
      case ByStrategy => strategies
      case BySymbol => symbols
      case ByTimeframe => timeframes
    }

    /** Everything the aggregator holds is determined by its history. */
    ghost predicate Valid()
      reads this, overall
    {
      && Validated(thresholds)
      && buckets == BucketDefs(thresholds)
      && overall.View() == TotalsOf(history)
      && (forall d :: Splits(d, DimensionTotals(d), history))
      && SplitsBuckets(thresholds, bucketTotals, history)
    }

    constructor (thresholds: seq<real>, windows: seq<int>)
      requires Validated(thresholds)
      ensures Valid() && history == [] && fresh(overall)
      ensures this.thresholds == thresholds && this.windows == windows
    {
      this.thresholds, this.windows := thresholds, windows;
      var defs := BuildBucketDefs(thresholds);
      buckets := defs;
      overall := new RunningTotals(ZERO);
      strategies, symbols, timeframes := map[], map[], map[];
      bucketTotals := seq(|thresholds| + 1, _ => ZERO);
      history := [];
    }

    method AddToBucket(x: Input) returns (after: seq<Totals>)
      requires Validated(thresholds) && buckets == BucketDefs(thresholds)
      requires SplitsBuckets(thresholds, bucketTotals, history)
      ensures SplitsBuckets(thresholds, after, history + [x])
    {
      var i := BucketIndex(thresholds, buckets, x.confidence);
      BucketsGrow(thresholds, bucketTotals, history, x);
      after := bucketTotals;
      if i >= 0 {
        var b := new RunningTotals(bucketTotals[i]);
        b.AddInput(x);
        after := bucketTotals[i := b.View()];
      }
    }

    /** The statistics of each configured window. */
    method RollingStatistics() returns (rolling: seq<Statistics>)
      requires Valid()
      ensures |rolling| == |windows|
      ensures forall k :: 0 <= k < |windows| ==> rolling[k] == WindowStatistics(history, windows[k])
      ensures forall k :: 0 <= k < |windows| && |history| <= windows[k] ==>
                rolling[k] == StatisticsOf(overall.View())
    {
      hide Splits, SplitsBuckets, Validated, WindowStatistics, StatisticsOf, TotalsOf;
      rolling := [];
      var k := 0;
      while k < |windows|
        invariant 0 <= k == |rolling| <= |windows|
        invariant forall j :: 0 <= j < k ==> rolling[j] == WindowStatistics(history, windows[j])
      {
        var entries := TailEntries(history, windows[k]);
        var r := BuildRollingStats(entries);
        assert r == WindowStatistics(history, windows[k]) by {
          WindowMeans(history, windows[k]);
        }
        rolling := rolling + [r];
        k := k + 1;
      }
      forall j | 0 <= j < |windows| && |history| <= windows[j]
        ensures rolling[j] == StatisticsOf(overall.View())
      {
        WideWindow(history, windows[j]);
      }
    }

    /** The statistics of each bucket, over its part of the history. */
    method CalibrationStatistics() returns (calibration: seq<Calibration>)
      requires Valid()
      ensures |calibration| == |buckets|
      ensures forall i: nat :: i < |buckets| ==>
                calibration[i] == CalibrationOf(buckets[i], TotalsOf(Filter(history, InIndex(thresholds, i))))
    {
      hide Splits, Validated, CalibrationOf, TotalsOf, ThresholdsAbove;
      calibration := [];
      var i := 0;
      while i < |buckets|
        invariant 0 <= i == |calibration| <= |buckets|
        invariant forall j: nat :: j < i ==>
                    calibration[j] == CalibrationOf(buckets[j], TotalsOf(Filter(history, InIndex(thresholds, j))))
      {
        calibration := calibration + [CalibrationOf(buckets[i], bucketTotals[i])];
        i := i + 1;
      }
    }

    method TakeSnapshot() returns (s: Snapshot)
      requires Valid()
      ensures IsSnapshot(s)
    {
      hide Splits, SplitsBuckets, Validated, WindowStatistics, StatisticsOf, TotalsOf, CalibrationOf, ThresholdsAbove,
           InKeyOrder, Lists, KeyStatisticsOf, BucketDefs;
      var strategies := ListByKey(ByStrategy, strategies);
      var symbols := ListByKey(BySymbol, symbols);
      var timeframes := ListByKey(ByTimeframe, timeframes);
      assert DimensionTotals(ByStrategy) == this.strategies && DimensionTotals(BySymbol) == this.symbols
             && DimensionTotals(ByTimeframe) == this.timeframes;
      ListedIsListing(ByStrategy, this.strategies, strategies, history);
      ListedIsListing(BySymbol, this.symbols, symbols, history);
      ListedIsListing(ByTimeframe, this.timeframes, timeframes, history);
      var calibration := CalibrationStatistics();
      var rolling := RollingStatistics();
      CountIsLength(history);
      s := Snapshot(OverallOf(overall.View()), strategies, symbols, timeframes, calibration, rolling, overall.count);
    }

    /** What a snapshot says, in terms of the history alone. */
    ghost predicate IsSnapshot(s: Snapshot)
      reads this
    {
      && s.version == |history| && s.overall == OverallOf(TotalsOf(history))
      && Lists(ByStrategy, s.strategies, history)
      && Lists(BySymbol, s.symbols, history)
      && Lists(ByTimeframe, s.timeframes, history)
      && |s.calibration| == |buckets|
      && (forall i: nat :: i < |buckets| ==>
            s.calibration[i] == CalibrationOf(buckets[i], TotalsOf(Filter(history, InIndex(thresholds, i)))))
      && |s.rolling| == |windows|
      && (forall k :: 0 <= k < |windows| ==> s.rolling[k] == WindowStatistics(history, windows[k]))
      && (forall k :: 0 <= k < |windows| && |history| <= windows[k] ==> s.rolling[k] == s.overall.statistics)
    }

    method Apply(x: Input) returns (s: Snapshot)
      requires Valid()
      modifies this, overall
      ensures Valid() && history == old(history) + [x]
      ensures IsSnapshot(s)
    {
      Accumulate(x);
      s := TakeSnapshot();
    }

    method Accumulate(x: Input)
      requires Valid()
      modifies this, overall
      ensures Valid() && history == old(history) + [x]
    {
      hide ThresholdsAbove, BucketDefs, Validated, NormalizeKey, KeyIn, Splits, SplitsBuckets, Add;
      assert Splits(ByStrategy, strategies, history) by {
        assert Splits(ByStrategy, DimensionTotals(ByStrategy), history);
      }
      assert Splits(BySymbol, symbols, history) by {
        assert Splits(BySymbol, DimensionTotals(BySymbol), history);
      }
      assert Splits(ByTimeframe, timeframes, history) by {
        assert Splits(ByTimeframe, DimensionTotals(ByTimeframe), history);
      }
      overall.AddInput(x);
      strategies := AddTo(ByStrategy, strategies, history, x);
      symbols := AddTo(BySymbol, symbols, history, x);
      timeframes := AddTo(ByTimeframe, timeframes, history, x);
      bucketTotals := AddToBucket(x);
      assert (history + [x])[..|history|] == history;
      history := history + [x];
      forall d
        ensures Splits(d, DimensionTotals(d), history)
      {
        match d {
          case ByStrategy =>
          case BySymbol =>
          case ByTimeframe =>
        }
      }
    }
  }

  lemma WindowMeans(history: seq<Input>, window: int)
    ensures WindowStatistics(history, window)
            == StatisticsOf(TotalsOf(if window <= 0 then [] else Tail(history, window)))
  {
  }

  lemma {:induction false} CountIsLength(history: seq<Input>)
    ensures TotalsOf(history).count == |history|
  {
    if history != [] {
      CountIsLength(history[..|history| - 1]);
    }
  }

  method AddTo(d: Dimension, totals: ByKey, ghost history: seq<Input>, x: Input) returns (after: ByKey)
    requires Splits(d, totals, history)
    ensures Splits(d, after, history + [x])
  {
    var key := KeyIn(d, x);
    var t := new RunningTotals(if key in totals then totals[key] else ZERO);
    t.AddInput(x);
    after := totals[key := t.View()];
    SplitsGrow(d, totals, history, x);
  }

  lemma TotalsGrow(history: seq<Input>, x: Input, p: Input -> bool)
    ensures TotalsOf(Filter(history + [x], p))
            == if p(x) then Add(TotalsOf(Filter(history, p)), x) else TotalsOf(Filter(history, p))
  {
  }

  lemma KeysGrow(d: Dimension, history: seq<Input>, x: Input, key: string)
    ensures (exists y :: y in history + [x] && KeyIn(d, y) == key)
            <==> KeyIn(d, x) == key || exists y :: y in history && KeyIn(d, y) == key
  {
    hide KeyIn;
    assert x in history + [x];
    assert forall y :: y in history ==> y in history + [x];
  }

  lemma SplitsGrow(d: Dimension, totals: ByKey, history: seq<Input>, x: Input)
    requires Splits(d, totals, history)
    ensures var key := KeyIn(d, x);
            Splits(d, totals[key := Add(if key in totals then totals[key] else ZERO, x)], history + [x])
  {
    hide Add, KeyIn, TotalsOf, Filter;
    var own := KeyIn(d, x);
    var after := totals[own := Add(if own in totals then totals[own] else ZERO, x)];
    forall key
      ensures key in after <==> exists y :: y in history + [x] && KeyIn(d, y) == key
      ensures key in after ==> after[key] == TotalsOf(Filter(history + [x], HasKey(d, key)))
    {
      KeysGrow(d, history, x, key);
      EntryGrows(d, totals, history, x, key);
    }
  }

  lemma EntryGrows(d: Dimension, totals: ByKey, history: seq<Input>, x: Input, key: string)
    requires Splits(d, totals, history)
    ensures var before := if key in totals then totals[key] else ZERO;
            TotalsOf(Filter(history + [x], HasKey(d, key)))
            == if key == KeyIn(d, x) then Add(before, x) else before
  {
    hide Add, KeyIn, TotalsOf, Filter;
    TotalsGrow(history, x, HasKey(d, key));
    if key !in totals {
      NoneWithKey(d, totals, history, key);
    }
  }

  lemma NoneWithKey(d: Dimension, totals: ByKey, history: seq<Input>, key: string)
    requires Splits(d, totals, history) && key !in totals
    ensures TotalsOf(Filter(history, HasKey(d, key))) == ZERO
  {
    FilterNothing(history, HasKey(d, key));
  }

  lemma BucketsGrow(thresholds: seq<real>, totals: seq<Totals>, history: seq<Input>, x: Input)
    requires SplitsBuckets(thresholds, totals, history)
    ensures var i := ThresholdsAbove(thresholds, x.confidence);
            SplitsBuckets(thresholds, totals[i := Add(totals[i], x)], history + [x])
  {
  }

  // Conservation.

  datatype Field =
    | Count | Wins | Losses | Successful | Failed | Expired | Neutral | FalsePositives | FalseNegatives
    | Return | Quality | Confidence | Holding | MFE | MAE | Drawdowns | Accuracies

  function Get(f: Field, t: Totals): real {
    match f
    case Count => t.count as real
    case Wins => t.wins as real
    case Losses => t.losses as real
    case Successful => t.successful as real
    case Failed => t.failed as real
    case Expired => t.expired as real
    case Neutral => t.neutral as real
    case FalsePositives => t.falsePositives as real
    case FalseNegatives => t.falseNegatives as real
    case Return => t.totalReturn
    case Quality => t.totalQuality
    case Confidence => t.totalConfidence
    case Holding => t.totalHoldingMs as real
    case MFE => t.totalMFE
    case MAE => t.totalMAE
    case Drawdowns => t.totalDrawdown
    case Accuracies => t.accuracy
  }

  /** What one input adds to a field, whatever the totals are. */
  function Measure(f: Field, x: Input): real {
    Get(f, Add(ZERO, x))
  }

  function FieldOf(f: Field, totals: ByKey): string -> real {
    key => if key in totals then Get(f, totals[key]) else 0.0
  }

  /** A field of the totals of one part of the history. */
  function PartField(f: Field, history: seq<Input>, p: Input -> bool): real {
    Get(f, TotalsOf(Filter(history, p)))
  }

  lemma PartGrows(f: Field, front: seq<Input>, x: Input, p: Input -> bool)
    ensures PartField(f, front + [x], p) == PartField(f, front, p) + if p(x) then Measure(f, x) else 0.0
  {
  }

  lemma WholeGrows(f: Field, front: seq<Input>, x: Input)
    ensures Get(f, TotalsOf(front + [x])) == Get(f, TotalsOf(front)) + Measure(f, x)
  {
  }

  lemma NoPart(f: Field, p: Input -> bool)
    ensures PartField(f, [], p) == 0.0
  {
  }

  function PartOf(f: Field, d: Dimension, history: seq<Input>): string -> real {
    key => PartField(f, history, HasKey(d, key))
  }

  ghost predicate Covers(d: Dimension, keys: set<string>, history: seq<Input>) {
    forall x :: x in history ==> KeyIn(d, x) in keys
  }

  lemma {:induction false} PartsSum(f: Field, d: Dimension, keys: set<string>, history: seq<Input>)
    requires Covers(d, keys, history)
    ensures SumOver(keys, PartOf(f, d, history)) == Get(f, TotalsOf(history))
  {
    hide Get, Add, KeyIn, PartField;
    if history == [] {
      GetZero(f);
      forall key
        ensures PartOf(f, d, [])(key) == 0.0
      {
        NoPart(f, HasKey(d, key));
      }
      SumZero(keys, PartOf(f, d, []));
    } else {
      var front, x := history[..|history| - 1], history[|history| - 1];
      assert history == front + [x];
      assert x in history;
      PartsSum(f, d, keys, front);
      PartsStep(f, d, keys, front, x);
      WholeGrows(f, front, x);
    }
  }

  lemma PartsStep(f: Field, d: Dimension, keys: set<string>, front: seq<Input>, x: Input)
    requires KeyIn(d, x) in keys
    ensures SumOver(keys, PartOf(f, d, front + [x])) == SumOver(keys, PartOf(f, d, front)) + Measure(f, x)
  {
    hide Get, Add, KeyIn, PartField, Measure;
    var own := KeyIn(d, x);
    forall key
      ensures PartOf(f, d, front + [x])(key)
              == PartOf(f, d, front)(key) + if key == own then Measure(f, x) else 0.0
    {
      PartGrows(f, front, x, HasKey(d, key));
    }
    SumChange(keys, PartOf(f, d, front), PartOf(f, d, front + [x]), own);
  }

  lemma GetZero(f: Field)
    ensures Get(f, ZERO) == 0.0
  {
  }

  /**
    Conservation: in each dimension every counter and every total, summed over the dimension's
    entries, is the overall one.
   */
  lemma DimensionsConserve(f: Field, d: Dimension, totals: ByKey, history: seq<Input>)
    requires Splits(d, totals, history)
    ensures SumOver(totals.Keys, FieldOf(f, totals)) == Get(f, TotalsOf(history))
  {
    hide Get, KeyIn;
    assert Covers(d, totals.Keys, history);
    PartsSum(f, d, totals.Keys, history);
    SumSame(totals.Keys, FieldOf(f, totals), PartOf(f, d, history));
  }

  function BucketPart(f: Field, thresholds: seq<real>, history: seq<Input>): nat -> real {
    (i: nat) => BucketValue(f, thresholds, history, i)
  }

  function BucketValue(f: Field, thresholds: seq<real>, history: seq<Input>, i: nat): real {
    PartField(f, history, InIndex(thresholds, i))
  }

  function FirstPlaces(n: nat): (places: set<nat>)
    ensures forall i: nat :: i in places <==> i < n
  {
    if n == 0 then {} else FirstPlaces(n - 1) + {n - 1}
  }

  lemma {:induction false} BucketPartsSum(f: Field, thresholds: seq<real>, history: seq<Input>)
    ensures SumOver(FirstPlaces(|thresholds| + 1), BucketPart(f, thresholds, history))
            == Get(f, TotalsOf(history))
  {
    hide Get, Add, PartField, ThresholdsAbove;
    if history == [] {
      GetZero(f);
      forall i: nat
        ensures BucketPart(f, thresholds, [])(i) == 0.0
      {
        NoPart(f, InIndex(thresholds, i));
      }
      SumZero(FirstPlaces(|thresholds| + 1), BucketPart(f, thresholds, []));
    } else {
      var front, x := history[..|history| - 1], history[|history| - 1];
      assert history == front + [x];
      BucketPartsSum(f, thresholds, front);
      BucketStep(f, thresholds, front, x);
      WholeGrows(f, front, x);
    }
  }

  lemma BucketStep(f: Field, thresholds: seq<real>, front: seq<Input>, x: Input)
    ensures var keys := FirstPlaces(|thresholds| + 1);
            SumOver(keys, BucketPart(f, thresholds, front + [x]))
            == SumOver(keys, BucketPart(f, thresholds, front)) + Measure(f, x)
  {
    hide Get, Add, PartField, Measure, ThresholdsAbove;
    var own := ThresholdsAbove(thresholds, x.confidence);
    var before, after := BucketPart(f, thresholds, front), BucketPart(f, thresholds, front + [x]);
    forall i: nat
      ensures BucketValue(f, thresholds, front + [x], i)
              == BucketValue(f, thresholds, front, i) + if i == own then Measure(f, x) else 0.0
    {
      PartGrows(f, front, x, InIndex(thresholds, i));
    }
    SumChange(FirstPlaces(|thresholds| + 1), before, after, own);
  }

  function BucketField(f: Field, totals: seq<Totals>): nat -> real {
    (i: nat) => if i < |totals| then Get(f, totals[i]) else 0.0
  }

  /** The confidence buckets partition the history, so they too sum to the overall totals. */
  lemma BucketsConserve(f: Field, thresholds: seq<real>, totals: seq<Totals>, history: seq<Input>)
    requires SplitsBuckets(thresholds, totals, history)
    ensures SumOver(FirstPlaces(|totals|), BucketField(f, totals)) == Get(f, TotalsOf(history))
  {
    hide Get, ThresholdsAbove;
    BucketPartsSum(f, thresholds, history);
    SumSame(FirstPlaces(|totals|), BucketField(f, totals), BucketPart(f, thresholds, history));
  }

  /** The four outcome counters add up to the count exactly when no outcome is unknown. */
  lemma {:induction false} OutcomesAddUp(history: seq<Input>)
    ensures var t := TotalsOf(history);
            && t.wins == t.successful && t.losses == t.failed
            && t.successful + t.failed + t.expired + t.neutral <= t.count == |history|
            && (t.successful + t.failed + t.expired + t.neutral == t.count <==>
                  forall x :: x in history ==> x.outcome in ["SUCCESS", "FAILED", "EXPIRED", "NEUTRAL"])
  {
    if history != [] {
      var front, x := history[..|history| - 1], history[|history| - 1];
      assert history == front + [x];
      OutcomesAddUp(front);
      OneOutcome(TotalsOf(front), x);
    }
  }

  lemma OneOutcome(t: Totals, x: Input)
    ensures var u := Add(t, x);
            && u.wins - t.wins == u.successful - t.successful
            && u.losses - t.losses == u.failed - t.failed
            && (u.successful + u.failed + u.expired + u.neutral)
               - (t.successful + t.failed + t.expired + t.neutral)
               == One(x.outcome in ["SUCCESS", "FAILED", "EXPIRED", "NEUTRAL"])
  {
  }

  /** A success rate is a rate. */
  lemma SuccessRateInRange(history: seq<Input>)
    ensures 0.0 <= StatisticsOf(TotalsOf(history)).successRate <= 1.0
  {
    OutcomesAddUp(history);
    var t := TotalsOf(history);
    if t.count > 0 {
      Fraction(t.successful, t.count);
    }
  }
}
