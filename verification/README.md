# Verified model of the trading-research platform

A Dafny model of the stateful components of the platform, and proofs about them: the trade
simulator with its statistics and validators, the candle aggregator, the delivery cache, the
recommendation lifecycle, the experiment scheduler and its ranking, the portfolio and performance
caches, the Monte Carlo statistics, feedback aggregation and alert cooldown.

`dafny verify dfyconfig.toml` checks the whole project.

## How the model is built

Each mutable component has two forms. One is a value with a step function that follows the Go code
branch by branch; invariants and theorems over whole runs are lemmas about it. The other is a class
whose fields are updated in place as the Go methods update theirs; its methods are proved to take
exactly the step of the value. Loops of the source are loops here, with the sums, sorts, maxima and
scans they compute stated without them.

- Prices and money are `real`; instants and durations are `int` nanoseconds since the epoch.
- A method guarded by a mutex is one atomic step. A map is visited in an arbitrary order.
- Strategies, random draws, ticks, reports and updates are arbitrary inputs.
- Goroutines of the scheduler are interleaved steps: each channel operation, each access to the
  running set and each callback is one step, and any enabled step may come next.
- Text that Go formats (dates, prices) is an arbitrary function, with the property used stated where
  it matters: a date of an identifier is made of digits.

The modules:

- `Common`, `MapSum`: optional values, sums, filters, sums over key sets.
- `Drawdown`, `MonteCarlo`, `Percentiles`: one reference drawdown for four implementations, path
  bounds, percentiles.
- `SimModel`, `SimProofs`, `SimTheorems`, `SimCounts`, `TradeCosts`, `Simulator`, `Statistics`,
  `RiskRatios`, `Validation`: the simulator as a state machine, its ledger, its counters, the money of a
  trade, its in-place form, the one-pass statistics, the validators.
- `CandleTime`, `CandleWidths`, `Bars`, `AggModel`, `AggCounts`, `AggSeries`, `AggBatch`, `AggPolicies`,
  `AggEviction`, `AggStale`, `RollUp`, `RollUpEviction`, `Aggregator`: buckets and how long they are, one
  bar, the aggregator, accounting, batch equality, policies, idle eviction, roll-up.
- `DeliveryTimeline`, `DeliveryBuilder`, `DeliveryFields`, `DeliveryIndex`, `DeliveryCache`: timelines,
  documents, where their fields come from, indexes, listings.
- `RecordIds`, `Lifecycle`, `LifecycleState`, `LifecycleCache`, `LifecycleLevels`: identifiers, one
  recommendation, the cache as a value, the cache in place, what runs of inputs make of it.
- `Scheduler`, `SchedulerRuns`, `SchedulerMachine`, `Ranking`, `RankingCache`: the protocol, what its
  runs guarantee, its fields, and the ranking of results.
- `Portfolio`, `PortfolioLaws`, `PortfolioMoney`, `Performance`: positions, conservation, the laws in
  prices and quantities, the second reconstruction.
- `Feedback`, `FeedbackFigures`, `Alerts`: partitions of a history, what the figures say, cooldown.

What a base function decides (a bucket's width, the side of a position, a status, an order, a weight) is
also stated without it: in nanoseconds, prices, quantities and texts.

## Where the code does something else than one would expect

- Candle aggregator, `internal/analytics/candle/aggregator.go:185-199`: under the stale policy the arm
  that tests for staleness shadows the one that rolls over. `AggPolicies.StaleNeverRolls`,
  `StaleIsBatchIff` and `StaleCounterexample` say what happens and exactly when it does not matter.
- Candle aggregator, `internal/analytics/candle/aggregator.go:223-245`: idle eviction may split a bucket
  into two candles, let an older tick in after an update that does not list the timeframe, or, under
  the stale policy, turn away a tick of the evicted bucket. `AggEviction.EvictionIsBatchIff`,
  `ListedIsBatchIff`, `AggStale.StaleEvictionIsBatchIff` and `RollUpEviction.CandlesRollUpIff` say
  exactly when it does not matter; `EvictionSplits`, `UnlistedGoesBack` and `EvictedMinuteLosesTick`
  show it.
- Candle aggregator, `internal/analytics/candle/aggregator.go:167-175`: an update that meets an
  unsupported timeframe drops the candles it has closed (`AggCounts.TickAccounting`,
  `FailedUpdateLosesCandle`).
- Timeframes, `internal/analytics/candle/timeframe.go:33-53`: before 1970 division toward zero moves
  some intraday buckets past the instants in them (`CandleTime.BucketContains` says which,
  `BucketAheadOfTick` gives one).
- Simulator, `internal/researchengine/simulator.go:312-324`: at 100 percent slippage or more, in either
  sign, a trade of either direction has a fill that is not positive (`Validation.FillsPositive`,
  `TradeSoundIff`, `SimulatedJournalSound`); with a negative slippage the cost identity changes sign
  (`TradeCosts.CostIdentity`, `NegativeSlippageGains`).
- Statistics, `internal/researchengine/statistics.go:167-188`: the downside deviation is taken about the
  mean of the losses, so the Sortino ratio is zero when there is one loss or all losses are equal
  (`RiskRatios.SortinoSign`).
- Recommendation cache, `internal/recommendationstate/cache.go:117-120`: the reactivation arm does not
  look at the capacity; it is unreachable because a closed recommendation stays closed. Any status text
  other than `REJECTED` updates a known recommendation, although only `VALID` creates one. A closed
  recommendation still takes confidence updates (`Lifecycle.ClosedTakesConfidence`).
- Scheduler, `internal/experiments/scheduler.go:97-102`: the claim on an id ends before its completion
  callback, so callbacks of two tickets of one id may cross (`SchedulerRuns.CallbacksMayCross`); they
  never do exactly with a single worker (`NoCrossingIff`). The comment on `ActiveWorkers` speaks of
  executing runs; it counts claims, waiting workers included (`ActiveIsExecutingIff`,
  `WaitingIsActive`).
- Portfolio, `internal/portfolio/cache.go:51-90`: an entry on an open key overwrites the position and
  loses its basis (`PortfolioLaws.OverwriteLoses`); an unknown action leaves the totals stale
  (`UnknownActionStale`, `UnknownActionLeavesStale`); `MarkToMarket` says what both do to the law over
  whole runs. An exit takes the open quantity and side, not the reported ones (`ExitTakesOpenIff`).
- Performance, `internal/analytics/performance/cache.go:48-69`: with two timeframes of a symbol profits
  are missed (`Performance.TwoTimeframesMiss`), and an equity point takes the unrealised profit of one
  symbol only (`EquityPointIsPartial`, `OtherSymbolLeftOut`).
- Experiment cache, `internal/experiments/cache.go:33-41`: registering a pending run again makes it
  queued and leaves it pending (`RankingCache.RegisterKeepsIff`, `InStepIff`, `RequeuedStaysPending`).
- Feedback, `internal/feedback/config.go:37-47` and `aggregator.go:102-118`: a highest threshold of 1 is
  accepted, and then a confidence of 1 or more passes the test of the two highest buckets; it is
  counted in the first (`Feedback.OneBucketEach`, `FullConfidenceInTwoBuckets`).
- Monte Carlo, `internal/montecarlo/statistics.go:15-36`: a negative confidence level gives a lower bound
  above the upper one (`Percentiles.BoundsInOrderIff`). `bootstrap.go:66-75`: a resampled path may lose
  more than all the trades together (`MonteCarlo.ResampledWithinLossesIff`, `ResampledBeyondLosses`).

## Model

| member | source | states |
|---|---|---|
| `Drawdown.MaxDrawdown` | internal/analytics/performance/metrics.go:36-51 | The batch loop returns the maximum of `curve[i] - curve[j]` over all `i <= j`; an empty curve gives zero. |
| `Drawdown.DrawdownState.Update` | internal/analytics/performance/metrics.go:61-71 | The whole new state after one equity value: running peak, maximum and current decline. |
| `Drawdown.IncrementalDrawdown` | internal/analytics/performance/metrics.go:54-71 | Folding the incremental state over any run of values gives the peak, the maximum drawdown and the current decline of the curve that starts at zero. |
| `Drawdown.IncrementalAgrees` | internal/analytics/performance/metrics.go:36-71 | On any ledger the incremental state reaches the drawdown of the equity curve, whatever the starting capital. |
| `Drawdown.DrawdownIgnoresCapital` | internal/researchengine/statistics.go:56-74 | Starting capital moves the equity curve and leaves its drawdown alone, which is why the four implementations can be compared. |
| `Drawdown.MaxDrawdownUnique` | internal/analytics/performance/metrics.go:36-51 | A curve has one maximum drawdown, so two implementations that meet the definition agree. |
| `MonteCarlo.ExtractTradeReturns` | internal/montecarlo/bootstrap.go:11-63 | A positive trade count gives that many values totalling the net PnL, first the whole number of winners nearest to the win rate's share, each side in equal parts, a winner with the average trade or twice the average share of the net PnL; otherwise the single fallback value, or none. |
| `MonteCarlo.ShuffleOrder` | internal/montecarlo/bootstrap.go:78-84 | Any exchanges the generator makes, in place on a copy, leave the multiset of returns as it was. |
| `MonteCarlo.BootstrapSample` | internal/montecarlo/bootstrap.go:66-75 | One draw per position, each an original value; nothing for an empty list or a count that is not positive. |
| `MonteCarlo.TotalReturn` | internal/montecarlo/statistics.go:60-66 | The accumulated return is the sum of the path. |
| `MonteCarlo.PathDrawdown` | internal/montecarlo/statistics.go:69-87 | The Monte Carlo loop finds the drawdown of the path's equity curve from any starting capital. |
| `MonteCarlo.StartingCapital` | internal/montecarlo/simulator.go:81-93 | The sum of magnitudes, or 1 when that is not positive; always positive. |
| `MonteCarlo.PathBounds` | internal/montecarlo/statistics.go:60-87 | A path's drawdown is at least the net loss, at most the sum of loss magnitudes, and at most the sum of all magnitudes. |
| `MonteCarlo.ShuffledPathBounds` | internal/montecarlo/bootstrap.go:77-84 | Every shuffled path keeps the total return, and its drawdown stays between the net loss and the loss magnitudes of the original trades. |
| `MonteCarlo.ResampledPathBounds` | internal/montecarlo/bootstrap.go:66-75 | A path drawn from the trades with repetition, as long as they are, has a drawdown of at most their number times the worst loss. |
| `MonteCarlo.ResampledWithinIff` | internal/montecarlo/bootstrap.go:66-75 | Every resampled path stays within a bound exactly when the number of trades times the worst loss does. |
| `MonteCarlo.ResampledWithinLossesIff` | internal/montecarlo/bootstrap.go:66-75 | The bound of shuffled paths holds for all resampled paths exactly when every trade loses as much as the worst one. |
| `MonteCarlo.ResampledBeyondLosses` | internal/montecarlo/bootstrap.go:66-75 | The failing half of `ResampledWithinLossesIff`: from a gain and a loss of 1 the loss can be drawn twice. |
| `MonteCarlo.Run` | internal/montecarlo/simulator.go:27-48 | No outcomes exactly for an empty trade list; otherwise one per simulation. Every drawdown covers the net loss of its path and is at most the worst loss at every step; odd (shuffled) ones keep the total return and stay within the loss magnitudes of the trades. |
| `Percentiles.PercentileRange` | internal/montecarlo/statistics.go:159-177 | No interpolated percentile leaves the range of the sorted samples. |
| `Percentiles.PercentileMonotone` | internal/montecarlo/statistics.go:159-177 | A percentile is monotone in `p`, across every floor and ceiling boundary and at both ends. |
| `Percentiles.AtBracket` | internal/montecarlo/statistics.go:168-176 | An interpolated value lies between the two samples around its position. |
| `Percentiles.PercentileShare` | internal/montecarlo/statistics.go:159-177 | Between two neighbouring samples a percentile runs in a straight line from the one to the other. |
| `Percentiles.Mean` | internal/montecarlo/statistics.go:135-144 | The accumulator loop computes sum over count, and zero for no samples. |
| `Percentiles.MeanInRange` | internal/montecarlo/statistics.go:135-144 | The mean lies between the smallest and the largest sample. |
| `Percentiles.ComputeConfidenceInterval` | internal/montecarlo/statistics.go:15-36 | Bounds and median are percentiles of the sorted samples, the mean is in range, and for a level that is not negative lower <= median <= upper. |
| `Percentiles.NegativeLevelReverses` | internal/montecarlo/statistics.go:15-36 | For a level that is not positive the bounds enclose the median in reverse order. |
| `Percentiles.BoundsInOrderIff` | internal/montecarlo/statistics.go:15-36 | Lower is at most upper for every list of samples exactly when the level is not negative; the failing half is shown on the samples 0 and 1. |
| `SimTheorems.Ledger` | internal/researchengine/simulator.go:45-194 | Every run ends flat with a chained ledger: entries at or after warmup, intervals sharing at most a reversal bar, each trade exactly the one its span stands for. |
| `SimProofs.AfterInv` | internal/researchengine/simulator.go:59-176 | After every bar the position, the journal and the equity test stand in the relation the ledger needs. |
| `SimTheorems.OpensEqualCloses` | internal/researchengine/simulator.go:45-194 | Opens equal closes equal journal length, at most one close is due to the end of data, and the signal counters count the signals given after warmup. |
| `SimTheorems.EquityStaysPositive` | internal/researchengine/simulator.go:222-228 | The equity curve is strictly positive at every point before its last one, because equity was positive at every open. |
| `SimTheorems.BarLaw` | internal/researchengine/simulator.go:111-175 | What one bar does to the direction held: a buy leaves it long unless initial capital and net profits come to nothing or less after closing the short, a sell mirrors it, an exit leaves it flat, anything else leaves it; a trade is booked exactly when a position is given up. |
| `SimCounts.BarTallies` | internal/researchengine/simulator.go:107-175 | What each bar after warmup adds to every counter, by its decision and what it did to the direction held: signals, ignored ones, opens by direction, closes. |
| `SimCounts.WarmupDropped` | internal/researchengine/simulator.go:59-99 | During warmup nothing is counted, opened or booked, whatever the strategy says. |
| `SimCounts.EndOfDataCloses` | internal/researchengine/simulator.go:178-192 | A run adds at its end exactly what its last bar left open: one trade that ends on the last bar with the end of data as its reason, one close, one end-of-data close. |
| `SimTheorems.RuinIsFinal` | internal/researchengine/simulator.go:222-228 | Once flat and without equity the account never opens again, on any further candles. |
| `SimTheorems.HistoryShown` | internal/researchengine/simulator.go:59-105 | The history given to the strategy on a bar is exactly the last earlier candles, up to 64 or three times the warmup when that is more; the time shown is the closing time or, without one, the opening. |
| `SimCounts.PositionShown` | internal/researchengine/simulator.go:59-105 | On every bar, with or without a store, the strategy is shown the bar, its number and the direction held when it arrives; with a store it is given no history. |
| `SimTheorems.NoLookAhead` | internal/researchengine/simulator.go:59-105 | Two candle sequences with a common prefix lead to the same state after that prefix. |
| `SimTheorems.JournalsShareBeginning` | internal/researchengine/simulator.go:45-194 | Two candle sequences that agree on their first `n` bars give journals that begin with the same trades; every further trade of either ends on bar `n` or later. |
| `TradeCosts.CostIdentity` | internal/researchengine/simulator.go:230-251 | Net profit is what the two closes differ by, less the reported slippage, twice the configured commission and the configured rate on a gain, exactly when slippage percentage and closes make slippage a cost at both fills. |
| `TradeCosts.TradeMoney` | internal/researchengine/simulator.go:206-336 | Every money field of a trade from the two closes: fills moved against the trader by the slippage percentage, gross profit by direction, two commissions, tax on a gain alone, net profit, slippage at both fills. |
| `TradeCosts.TradeShape` | internal/researchengine/simulator.go:230-299 | The remaining fields of a trade: times, bars held, duration, return in percent of the entry value, reward to risk, exit reason. |
| `TradeCosts.RunCharges` | internal/researchengine/simulator.go:45-300 | Over every run the journal's commissions are the configured commission times opens and closes, one for each fill, and its taxes the tax rate times the gross profit of the trades that gained. |
| `TradeCosts.NegativeSlippageGains` | internal/researchengine/simulator.go:302-324 | With slippage of -1 percent on closes of 100 and 110, a reported slippage of 2.1 is money gained: a long trade nets 12.1, a short one loses 7.9. |
| `SimTheorems.TradeExcursions` | internal/researchengine/simulator.go:302-352 | A trade's excursions are the maximum of zero and what the bars after entry, up to and including the exit, reached for and against it. |
| `TradeCosts.ExcursionsInPrices` | internal/researchengine/simulator.go:302-352 | No bar after the entry, up to the exit, goes further for or against a trade than its excursions: high and low count by direction, times the quantity. |
| `TradeCosts.ExcursionsReached` | internal/researchengine/simulator.go:302-352 | Each excursion that is not zero is reached on one of those bars. |
| `Simulator.Simulator.RunWithMetrics` | internal/researchengine/simulator.go:45-194 | The loop over candles, with its journal and optional metrics object, produces the state of the value-level run; no strategy or no candles gives an empty journal. |
| `Simulator.Simulator.HandleBar` | internal/researchengine/simulator.go:73-176 | One iteration: show the bar, move the excursions, act on the signal, extend the history. |
| `Simulator.Simulator.HandleSignal` | internal/researchengine/simulator.go:107-175 | The signal switch, branch by branch. |
| `Simulator.Simulator.CloseAtEnd` | internal/researchengine/simulator.go:178-192 | What is still open when the data ends is closed on the last bar. |
| `Simulator.Simulator.CanOpenNow` | internal/researchengine/simulator.go:222-228 | The equity test sums initial capital and the net profits of the journal. |
| `Statistics.ComputeStatistics` | internal/researchengine/statistics.go:42-153 | Every figure meets a definition that does not follow the pass: curve, drawdown, its percentage of the capital or, for a capital that is not positive, of the curve's peak, capped at 100, totals, extremes, longest streaks, calendar buckets, ratios, Sharpe and Sortino over any square root. |
| `Statistics.FiguresShare` | internal/researchengine/statistics.go:110-153 | Each ratio times what it is a ratio of gives back the total: win rate, expectancy, bars held, average win and loss, profit factor, recovery, Calmar, exposure, and the drawdown percentage up to its cap. |
| `Statistics.LongestExtends` | internal/researchengine/statistics.go:85-109 | The running-streak update computes the most wins (or losses) in any window that no opposite trade interrupts. |
| `Statistics.StreakIsSuffix` | internal/researchengine/statistics.go:85-109 | The running streak counts the hits of the longest unbroken window that ends the journal; trades at zero neither extend nor end it. |
| `Statistics.BucketsTotalNetProfit` | internal/researchengine/statistics.go:80-83 | Monthly and annual buckets total the net profit of the journal: nothing is lost between them. |
| `Statistics.CalendarConserves` | internal/researchengine/statistics.go:80-83 | Over any set of keys that covers the trades, bucket sums total the net profit. |
| `RiskRatios.ComputeSharpe` | internal/researchengine/statistics.go:155-207 | The loops compute mean over population deviation times the root of the count, and nothing for fewer than two returns or no deviation. |
| `RiskRatios.ComputeSortino` | internal/researchengine/statistics.go:167-207 | The same over the deviation of the losses about their own mean. |
| `RiskRatios.SharpeSign` | internal/researchengine/statistics.go:155-207 | The Sharpe ratio has the sign of the total return and is zero exactly for fewer than two returns, equal returns or a total of zero. |
| `RiskRatios.SortinoSign` | internal/researchengine/statistics.go:167-207 | The Sortino ratio has the sign of the total return and is zero exactly for fewer than two losses, equal losses or a total of zero. |
| `RiskRatios.SharpeSquared` | internal/researchengine/statistics.go:155-207 | Without roots: the squared Sharpe ratio times the squared distances of the returns from their mean is the squared total return; without a distance the ratio is zero. |
| `RiskRatios.SortinoSquared` | internal/researchengine/statistics.go:167-207 | The squared Sortino ratio times the squared distances of the losses from their own mean and the number of returns is the squared total return times the number of losses. |
| `RiskRatios.SharpeScales` | internal/researchengine/statistics.go:155-207 | Multiplying all returns by a positive factor leaves the Sharpe ratio as it is. |
| `Validation.ValidateJournal` | internal/researchengine/invariants.go:9-34 | Each problem of each trade is reported and nothing else; the validator is silent exactly for sound trades. |
| `Validation.SimulatedJournalSound` | internal/researchengine/invariants.go:9-34 | On candles in order with positive closes the validator has nothing to report on a simulated journal exactly when there is no trade or slippage stays strictly within 100 percent, whatever the strategy does. |
| `Validation.FillsPositive` | internal/researchengine/simulator.go:312-324 | All fills of a positive close are positive exactly when slippage stays strictly within 100 percent. |
| `Validation.TradeSoundIff` | internal/researchengine/simulator.go:302-352 | A simulated trade of either direction is sound exactly when slippage stays strictly within 100 percent. |
| `Validation.ValidateSimulationMetrics` | internal/researchengine/invariants.go:59-71 | The accounting validator is silent exactly when opens equal closes and opens imply signals. |
| `Validation.SimulatedMetricsSound` | internal/researchengine/invariants.go:59-71 | The accounting of every simulated run passes. |
| `Validation.ValidateStatistics` | internal/researchengine/invariants.go:36-56 | Each issue is raised exactly on its condition. |
| `Validation.ComputedStatisticsIssues` | internal/researchengine/invariants.go:36-56 | For computed statistics only the drawdown over twice the capital can be raised, and exactly when that is the drawdown. |
| `CandleTime.BucketContains` | internal/analytics/candle/timeframe.go:33-62 | A bar contains the instants put into it, except exactly where division toward zero moves an intraday bucket before 1970. |
| `CandleTime.BucketAheadOfTick` | internal/analytics/candle/timeframe.go:33-53 | Ninety seconds before the epoch a five-minute tick gets the bar that opens at the epoch. |
| `CandleTime.BucketIsFloor` | internal/analytics/candle/timeframe.go:33-53 | From the epoch on an intraday bucket is the floor of the instant to the width. |
| `CandleTime.BucketMonotone` | internal/analytics/candle/timeframe.go:33-53 | Later instants never fall into earlier buckets. |
| `CandleTime.BucketsNest` | internal/analytics/candle/timeframe.go:33-53 | When one width divides another, fine buckets lie inside coarse ones. |
| `CandleWidths.HourHolds` | internal/analytics/candle/timeframe.go:11-53 | From the epoch on each hour, counted in nanoseconds, holds 60, 20, 12, 4, 2 and 1 different buckets of the six intraday timeframes. |
| `CandleWidths.DayHolds` | internal/analytics/candle/timeframe.go:11-53 | The 86,400 seconds from a local midnight hold one daily bucket, and it opens at that midnight. |
| `CandleWidths.CandlesLastRight` | internal/analytics/candle/aggregator.go:148-276 | Over every run, under every policy and idle time, also with updates that fail: each candle emitted or in progress lasts 1, 3, 5, 15, 30 or 60 minutes or a day of nanoseconds, as its timeframe says. |
| `CandleWidths.TakenInside` | internal/analytics/candle/aggregator.go:168-219 | When older buckets are rejected, a tick of the epoch or later that is taken goes into a bar whose stretch holds the provider's time of the tick. |
| `CandleWidths.ClockDecides` | internal/analytics/candle/aggregator.go:148-156 | An update depends on the provider's time of its tick and not on the time of receipt, which stands in only where the provider gave none. |
| `Bars.BarBuilder.AddOne` | internal/analytics/candle/aggregator.go:60-92 | The builder's fields after one tick: prices, weight, VWAP sums, last volume and count. |
| `Bars.BarIsOHLC` | internal/analytics/candle/aggregator.go:60-92 | A bar has the first, last, highest and lowest price of its ticks and their number. |
| `Bars.VwapInRange` | internal/analytics/candle/aggregator.go:83-90 | Whenever a bar has volume its VWAP lies between its low and its high. |
| `Bars.VolumeContract` | internal/analytics/candle/aggregator.go:36-58 | Incremental: the sum of positive volumes. Cumulative: the sum of the last values of the maximal non-decreasing runs of positive volumes. |
| `Bars.VwapMeans` | internal/analytics/candle/aggregator.go:36-92 | Over any ticks and in both volume modes the volume is what the ticks add up to, and VWAP times volume is the money traded, each tick's price times what it added to the volume. |
| `AggModel.UpdateKeeps` | internal/analytics/candle/aggregator.go:148-245 | Every update, evicting or not, keeps order duplicate-free and equal, as a set, to the keys of bars and of last activity, and every bar in progress non-empty. |
| `AggCounts.RunInv` | internal/analytics/candle/aggregator.go:148-245 | The same over every run of updates. |
| `AggCounts.TickAccounting` | internal/analytics/candle/aggregator.go:148-276 | Over every run, under either policy, with or without eviction: ticks offered before an update ends or fails equal rejected ones plus those in emitted candles, in candles in progress and in candles that a failing update closed and did not return; with every timeframe supported all ticks are offered and no candle is lost. |
| `AggCounts.FailedUpdateLosesCandle` | internal/analytics/candle/aggregator.go:167-175 | An update that closes a candle and then meets an unsupported timeframe: the candle is lost. |
| `Aggregator.Aggregator.Update` | internal/analytics/candle/aggregator.go:148-221 | An update on the fields is the update on values; candles, rejections and the eviction count are returned, and on an unsupported timeframe no candles, the counts reached by then and the state as far as it came. |
| `Aggregator.Aggregator.Offer` | internal/analytics/candle/aggregator.go:168-219 | One tick in one timeframe: the switch, arm by arm, in the order the arms are tried. |
| `Aggregator.Aggregator.EvictIdle` | internal/analytics/candle/aggregator.go:223-245 | The sweep that compacts the key slice in place leaves what keeping and dropping keys one by one leaves. |
| `Aggregator.Aggregator.Flush` | internal/analytics/candle/aggregator.go:248-263 | Everything in progress, in order; afterwards the aggregator is as new. |
| `AggSeries.SeriesIndependent` | internal/analytics/candle/aggregator.go:148-245 | The candles and the bar of a series are those of its own machine, whatever other series receive. |
| `AggSeries.UpdatesThenFlush` | internal/analytics/candle/aggregator.go:148-262 | Updates and a final flush emit exactly what that machine emitted and holds. |
| `AggBatch.StreamingIsBatch` | internal/analytics/candle/aggregator.go:148-262 | Under the reject-older policy without eviction, for any tick order, each series' candles are the batch: strictly increasing open times, one candle per bucket with accepted ticks, each the fold of them. |
| `AggPolicies.BatchUnique` | internal/analytics/candle/aggregator.go:148-262 | The accepted ticks determine the batch completely. |
| `AggPolicies.StaleNeverRolls` | internal/analytics/candle/aggregator.go:185-199 | Under the stale policy without eviction updates emit nothing, because the stale arm comes before the roll-over arm. |
| `AggPolicies.StaleIsBatchIff` | internal/analytics/candle/aggregator.go:180-216 | A run under the stale policy, without eviction, gives the batch result for a series exactly when no tick of it falls into a later bucket than its first. |
| `AggPolicies.StaleCounterexample` | internal/analytics/candle/aggregator.go:180-216 | Two updates a minute apart: the run emits one candle for the one-minute series, and not the batch result. |
| `AggEviction.EvictionKeepsOrder` | internal/analytics/candle/aggregator.go:148-245 | When older buckets are rejected and every update lists the timeframe, eviction never makes open times go back. |
| `AggEviction.EvictionIsBatchIff` | internal/analytics/candle/aggregator.go:148-276 | When older buckets are rejected, for every idle time and any listing: a run gives the batch, and open times strictly increase, exactly when no tick resumes an evicted series in its last bucket or an earlier one; they never go back exactly when none resumes it in an earlier one. |
| `AggEviction.ListedIsBatchIff` | internal/analytics/candle/aggregator.go:148-276 | With every update listing the timeframe the condition is on neighbouring accepted ticks alone: none of one bucket are further apart than the idle time. |
| `AggEviction.LongIdleIsBatch` | internal/analytics/candle/aggregator.go:148-276 | From the epoch on, an idle time of at least the bar width gives the batch. |
| `AggEviction.EvictionSplits` | internal/analytics/candle/aggregator.go:223-245 | Two ticks thirty seconds apart with an idle time of ten seconds: one minute becomes two candles. |
| `AggEviction.UnlistedGoesBack` | internal/analytics/candle/aggregator.go:223-245 | An update that does not list the timeframe evicts the series, an older tick is taken, and open times go back. |
| `AggStale.StaleTimesIncrease` | internal/analytics/candle/aggregator.go:180-245 | Under the stale policy, for every idle time and any listing, the open times of a series strictly increase. |
| `AggStale.StaleEvictionIsBatchIff` | internal/analytics/candle/aggregator.go:180-245 | Under the stale policy, for every idle time, a run gives the batch exactly when no tick strays: swallowed by an older bar in progress, or turned away from the bar evicted last. |
| `AggStale.EvictedMinuteLosesTick` | internal/analytics/candle/aggregator.go:204-245 | Two ticks in order within a minute: the first is evicted and the second turned away. |
| `RollUp.RollUpConsistent` | internal/analytics/candle/aggregator.go:60-92 | For ticks in order from the epoch on, coarse summaries are the merges of the fine ones, bucket by bucket. |
| `RollUp.CandlesRollUp` | internal/analytics/candle/aggregator.go:60-92 | What a run and its flush emit: with older buckets rejected, no eviction, ticks in order and both timeframes listed equally often, the coarse candles of a symbol are the merges of its fine ones, with open, close, extremes, counts and, under incremental volume, volume and VWAP weight. |
| `RollUpEviction.CandlesRollUpIff` | internal/analytics/candle/aggregator.go:60-245 | With or without eviction, for ticks in order and two timeframes listed alike: emitted coarse candles are the merges of the fine ones exactly when no tick resumes the coarse series in the bucket of its evicted candle. |
| `DeliveryTimeline.AppendTimelineEntry` | internal/delivery/timeline.go:27-41 | The scan adds an entry unless it has no event or an entry equal in all five fields is there. |
| `DeliveryTimeline.SortTimeline` | internal/delivery/timeline.go:93-108 | The insertion sort, in place on a copy, is the sorting function. |
| `DeliveryTimeline.SortedIsStable` | internal/delivery/timeline.go:93-108 | Sorting orders by time and keeps the order of entries of one instant. |
| `DeliveryTimeline.StableSortUnique` | internal/delivery/timeline.go:93-108 | Order and stability leave only one result. |
| `DeliveryTimeline.SortedPermutes` | internal/delivery/timeline.go:93-108 | Sorting only rearranges. |
| `DeliveryTimeline.SortedOfSorted` | internal/delivery/timeline.go:93-108 | A timeline already in order is left as it is. |
| `DeliveryTimeline.PlacedKeeps` | internal/delivery/timeline.go:27-108 | Appending and sorting keeps a timeline ordered and free of repeats, loses nothing and adds only what was offered. |
| `DeliveryTimeline.PlacedIsBatch` | internal/delivery/timeline.go:27-108 | Sorting after every step ends in the same timeline as sorting once at the end. |
| `DeliveryBuilder.Builder.ApplyState` | internal/delivery/builder.go:32-73 | The stored document after a state update, field by field, in place. |
| `DeliveryBuilder.Builder.ApplyIntelligence` | internal/delivery/builder.go:76-97 | The stored document after an intelligence update; its timeline is untouched. |
| `DeliveryBuilder.Builder.ApplyQuality` | internal/delivery/builder.go:100-145 | The stored document after a quality update; the entry price is announced once. |
| `DeliveryBuilder.Builder.ApplyFeedback` | internal/delivery/builder.go:148-212 | The stored document after feedback; a document without id ignores it, and the timeline mentions it once. |
| `DeliveryBuilder.Builder.ApplyAlert` | internal/delivery/builder.go:215-229 | The stored document after an alert: history and timeline grow. |
| `DeliveryBuilder.TimelineIsBatch` | internal/delivery/builder.go:32-229 | After any run of updates the timeline is the stable sort of the first occurrences of the entries offered. |
| `DeliveryBuilder.RunKeeps` | internal/delivery/builder.go:32-229 | Over any run the timeline stays in order without repeats or empty events, and no entry, alert, id, creation time or closing is lost. |
| `DeliveryBuilder.ReplayAddsNothing` | internal/delivery/builder.go:70-73 | A state update replayed later, after any other updates, leaves the timeline as it is. |
| `DeliveryFields.FieldsFollow` | internal/delivery/builder.go:32-229 | Over every run of updates each field of a document is that of the last update that carries one, with what each kind of update carries written out: subject, confidence, level, status, label, price, closing; and the first for id and creation time. |
| `DeliveryFields.CachedFieldsFollow` | internal/delivery/cache.go:52-114 | The same for each document of a cache, whose own updates alone decide. |
| `DeliveryFields.TimelineTells` | internal/delivery/timeline.go:8-91 | Over every run the timeline holds exactly the latest entry of each state update, each evaluation and alert, the first positive entry price and the first feedback a document with an id receives. |
| `DeliveryIndex.UnindexedExact` | internal/delivery/cache.go:249-265 | Taking a document out leaves each index exact for the others, with no empty set behind. |
| `DeliveryIndex.IndexedExact` | internal/delivery/cache.go:231-247 | Filing it again makes each index exact for the new document. |
| `DeliveryIndex.ExactUnique` | internal/delivery/cache.go:231-291 | The documents determine an exact index. |
| `DeliveryIndex.ListingMeaning` | internal/delivery/cache.go:126-172 | A listing is newest first without repeats, within the limit, holds only what was asked for, and omits a match only when the limit was reached by documents at least as new. |
| `DeliveryIndex.ListedIff` | internal/delivery/cache.go:126-172 | A cached document is listed unless it fails one of the nine criteria, written out, or the limit was reached by others at least as new. |
| `DeliveryCache.Cache.Unindex` | internal/delivery/cache.go:249-265 | All eight indexes lose the id under the document's keys. |
| `DeliveryCache.Cache.AddToIndexes` | internal/delivery/cache.go:231-247 | All eight indexes gain the id under the document's keys. |
| `DeliveryCache.Cache.IndexesMean` | internal/delivery/cache.go:231-291 | Which documents each of the eight indexes holds under a key: those that carry it, with the range of each confidence bucket written out. |
| `DeliveryCache.Cache.Apply` | internal/delivery/cache.go:52-114 | A state, intelligence, quality or alert update changes its document and keeps every index exact; the result says whether the id was known. |
| `DeliveryCache.Cache.ApplyFeedback` | internal/delivery/cache.go:85-100 | Feedback reaches every document under an id, in any map order, and keeps every index exact. |
| `DeliveryCache.Cache.CandidateIds` | internal/delivery/cache.go:174-191 | The one index chosen misses no match. |
| `DeliveryCache.Cache.List` | internal/delivery/cache.go:126-172 | Listing through one index gives what filtering a full scan gives, newest first and cut at the limit. |
| `DeliveryCache.DocumentsIndependent` | internal/delivery/cache.go:52-114 | Over any run each document is what its own updates alone make of it. |
| `Lifecycle.StoredRecommendation.ApplyValidUpdate` | internal/recommendationstate/timeline.go:28-104 | Creation, or confidence then status, with the latest entry returned. |
| `Lifecycle.StoredRecommendation.ApplyRejection` | internal/recommendationstate/timeline.go:106-129 | A rejection closes an open recommendation, leaves a closed one, and ignores one without id. |
| `Lifecycle.StoredRecommendation.ApplyUpdate` | internal/recommendationstate/timeline.go:21-26 | Only the status REJECTED rejects; every other text is an update. |
| `Lifecycle.ClosedIsAbsorbing` | internal/recommendationstate/timeline.go:28-129 | A closed recommendation stays closed with the same closing time, and only confidence entries follow. |
| `Lifecycle.ClosedTakesConfidence` | internal/recommendationstate/timeline.go:27-106 | A closed recommendation ignores a rejection; any other update moves its confidence, with a timeline entry exactly when it differs, and leaves it closed. |
| `Lifecycle.RunFaithful` | internal/recommendationstate/timeline.go:21-129 | Over any run the timeline replays to the current status and confidence, has at most one closing entry followed by confidence entries only, and the closing time is set exactly while closed. |
| `Lifecycle.ReplayFollowsChain` | internal/recommendationstate/timeline.go:28-129 | Replaying is following an unbroken chain of previous and new values from CREATED, without self-loops. |
| `LifecycleLevels.LevelDecides` | internal/recommendationstate/timeline.go:28-142 | Over every run the level of the last input about a key decides the status until a rejection closes it: active for STRONG_BUY and BUY, exit recommended for AVOID, watched for anything else; the confidence is that of the last input that was not a rejection. |
| `LifecycleLevels.ClosedIffRejected` | internal/recommendationstate/timeline.go:21-129 | Over every run a key is closed exactly if an input rejected it while it was known. |
| `LifecycleLevels.TimelineCounts` | internal/recommendationstate/timeline.go:28-129 | Over every run the timeline has exactly one entry for each thing the inputs did: two at the opening, one for each confidence that rose or fell, one for each turn of an open recommendation to AVOID from another level, one for each other change between level classes, one for the rejection. |
| `LifecycleLevels.TimelineSays` | internal/recommendationstate/timeline.go:28-104 | Over every run each entry gives the reason of its event. |
| `LifecycleLevels.CreationWords` | internal/recommendationstate/timeline.go:33-39 | The creation entry names each of the four levels in lower case. |
| `LifecycleLevels.ClosingWords` | internal/recommendationstate/timeline.go:114-124 | The closing entry lists the reasons of the rejection, with a semicolon between them, or says that validation rejected. |
| `RecordIds.IdsDiffer` | internal/recommendationstate/cache.go:134-139 | Identifiers read the same only for the same date, symbol and number, even when symbols contain dashes and digits. |
| `RecordIds.IdsRead` | internal/recommendationstate/cache.go:134-139 | Recommendation and alert identifiers spell out date, symbol and number, the number in decimal with zeros up to six places. |
| `RecordIds.CountersDiffer` | internal/recommendationstate/cache.go:134-139 | The counter of one date and symbol is shared with no other. |
| `LifecycleState.RunInv` | internal/recommendationstate/cache.go:59-125 | Over every run the capacity holds, active and closed keys are disjoint and match the stored recommendations one to one, indexes are exact, timelines faithful. |
| `LifecycleState.KeyKeepsId` | internal/recommendationstate/cache.go:59-125 | Each key keeps one identifier for life, and stored recommendations only extend. |
| `LifecycleState.KeysKeepApart` | internal/recommendationstate/cache.go:59-125 | Two keys never share an identifier, then or later. |
| `LifecycleState.NextIdIsNew` | internal/recommendationstate/cache.go:134-139 | A new identifier is not in the cache. |
| `LifecycleLevels.NewIdNumbers` | internal/recommendationstate/cache.go:134-139 | Over every run a new recommendation gets the next number of its date and symbol, from one on. |
| `LifecycleState.CreatesIff` | internal/recommendationstate/cache.go:72-99 | A key becomes known exactly by a VALID input that finds room. |
| `LifecycleState.ClosesIff` | internal/recommendationstate/cache.go:101-120 | A known key is on the closed side exactly if it was, or the input is a rejection. |
| `LifecycleState.ReactivationUnreachable` | internal/recommendationstate/cache.go:117-120 | The reactivation arm is never taken. |
| `LifecycleState.ReactivationWouldOverflow` | internal/recommendationstate/cache.go:117-120 | Were it taken on a full cache, the capacity would be exceeded. |
| `LifecycleState.FullWithClosedKey` | internal/recommendationstate/cache.go:59-125 | At every capacity a full cache with a closed key is reachable, so the bound rests on that arm. |
| `LifecycleState.HistoryIsTail` | internal/recommendationstate/cache.go:127-132 | The history is the latest `maxHistory` reports of the whole run, in order. |
| `LifecycleLevels.DefaultBounds` | internal/recommendationstate/cache.go:41-57 | A cache made without a capacity of its own never holds more than ten thousand open recommendations, and its history is the latest ten thousand reports. |
| `LifecycleCache.Cache.ApplyValidated` | internal/recommendationstate/cache.go:59-125 | The maps after a call are those of the value-level step, and the result is its outcome. |
| `LifecycleLevels.OutcomeReads` | internal/recommendationstate/cache.go:59-125 | A call returns the recommendation of its key as it then stands, the newest entry of its timeline and whether the key was known before, or nothing exactly when the key stays unknown. |
| `LifecycleCache.Cache.Store` | internal/recommendationstate/cache.go:91-97 | A new recommendation gets its id and enters every map. |
| `LifecycleCache.Cache.MergeInto` | internal/recommendationstate/cache.go:101-124 | A known recommendation is updated and its key filed by its status. |
| `LifecycleCache.Cache.AddToIndexes` | internal/recommendationstate/cache.go:141-151 | Both indexes gain the id. |
| `LifecycleCache.Cache.AppendHistory` | internal/recommendationstate/cache.go:127-132 | The history keeps its latest entries. |
| `Scheduler.NewConfig` | internal/experiments/scheduler.go:24-37 | At least one worker and one slot, and a queue of four places per worker. |
| `Scheduler.NextKeeps` | internal/experiments/scheduler.go:40-121 | Every atomic step of any producer or worker keeps the whole invariant. |
| `SchedulerRuns.ExecutionInv` | internal/experiments/scheduler.go:40-121 | The invariant holds after every interleaving. |
| `SchedulerRuns.Safety` | internal/experiments/scheduler.go:80-121 | Semaphore occupancy is the number of workers inside and within its size; the running set has one id per claiming worker; no two workers inside run one id. |
| `SchedulerRuns.ExecuteTogetherIff` | internal/experiments/scheduler.go:24-105 | As many runs can execute at once as there are both workers and slots for: some interleaving reaches that number, and none exceeds it. |
| `SchedulerRuns.ActiveIsExecutingIff` | internal/experiments/scheduler.go:51-56 | The size of the running set is at least the number of executing workers, and equal to it exactly when every worker with a claim is executing. |
| `SchedulerRuns.WaitingIsActive` | internal/experiments/scheduler.go:51-56 | A run with one claim, waiting for a slot: one active, none executing. |
| `SchedulerRuns.Accounted` | internal/experiments/scheduler.go:40-105 | Every submitted ticket is in exactly one of blocked, queued, held, dropped, abandoned, completed. |
| `SchedulerRuns.CallbacksOnce` | internal/experiments/scheduler.go:91-102 | One start callback, then at most one completion callback, never the other way round. |
| `SchedulerRuns.WorkEnds` | internal/experiments/scheduler.go:71-105 | In every run the working steps after the last submission number at most eight per ticket, whatever cancelling, closing and stopping happens between them. |
| `SchedulerRuns.RestIsSettled` | internal/experiments/scheduler.go:71-105 | Without cancellation the scheduler comes to rest only with every ticket completed or dropped: no deadlock, no loss. |
| `SchedulerRuns.EveryIdCompletes` | internal/experiments/scheduler.go:71-115 | By then every submitted run id has been completed, although duplicates are dropped. |
| `SchedulerRuns.StopLeaksNothing` | internal/experiments/scheduler.go:71-136 | A cancelled or closed scheduler with nothing left to do has stopped every worker; no ticket, no claim on an id and no slot is still held. |
| `SchedulerRuns.CallbacksMayCross` | internal/experiments/scheduler.go:97-102 | With two workers: a run in which the second ticket of an id reports its start before the first reports its completion. |
| `SchedulerRuns.NoCrossingIff` | internal/experiments/scheduler.go:24-105 | Of two tickets of one id the first to start always completes before the other starts, in every run, exactly when at most one worker is asked for. |
| `SchedulerMachine.Dispatcher.TryStart` | internal/experiments/scheduler.go:107-115 | An id is claimed exactly if it was free. |
| `SchedulerMachine.Dispatcher.FinishRun` | internal/experiments/scheduler.go:117-121 | The claim is removed. |
| `SchedulerMachine.Dispatcher.Perform` | internal/experiments/scheduler.go:40-136 | One step on the scheduler's fields is one step of the machine. |
| `Ranking.LessMeaning` | internal/experiments/cache.go:96-101 | One text comes before another exactly if at the first place where they differ it ends or has the smaller character. |
| `Ranking.RankMeaning` | internal/experiments/cache.go:91-107 | Along a ranking scores never rise and ids ascend within a score; a rank is one more than the number of results with a higher score and of those with the same score and an earlier id. |
| `Ranking.RankingUnique` | internal/experiments/cache.go:91-107 | Whatever the map order, there is one ranking. |
| `Ranking.RankShift` | internal/experiments/cache.go:64-107 | In the ranking after a result is stored, every other result is one place lower exactly if the new result has a higher score, or the same score and an earlier id, and gets back the place that run's old result took from it. |
| `Ranking.SelectBest` | internal/walkforward/evaluator.go:11-26 | Nothing for no results; otherwise one of them: none scores higher, and of those with the same score its id comes first. |
| `Ranking.BestIsRankOne` | internal/walkforward/evaluator.go:11-26 | On any permutation of the ranked results, what scores highest with the earliest id is the first of the ranking and carries rank 1. |
| `RankingCache.Cache.RebuildRankings` | internal/experiments/cache.go:91-107 | The rankings are the completed results by falling score and ascending id, which carry their places as ranks. |
| `RankingCache.Cache.StoreResult` | internal/experiments/cache.go:64-89 | The result is recorded, its run completed and no longer pending, the ranking rebuilt, and the result returned with one more than the number of higher scores and of equal scores with earlier ids as its rank; an unknown run changes nothing. |
| `RankingCache.Cache.MarkRunning` | internal/experiments/cache.go:44-51 | A known run is running and pending. |
| `RankingCache.Cache.MarkFailed` | internal/experiments/cache.go:54-61 | A known run is failed; pending either way no more. |
| `RankingCache.Cache.Register` | internal/experiments/cache.go:33-41 | A registered run is queued, whatever it was before. |
| `RankingCache.MarksKeep` | internal/experiments/cache.go:44-61 | Marking runs running or failed keeps pending the same as running. |
| `RankingCache.RegisterKeepsIff` | internal/experiments/cache.go:33-41 | Pending stays the same as running exactly when the registered run was not pending. |
| `RankingCache.InStepIff` | internal/experiments/cache.go:33-89 | Over every run of calls, results included, the pending runs are exactly the running ones unless the last call about some run registered it while it was pending. |
| `RankingCache.RequeuedStaysPending` | internal/experiments/cache.go:33-51 | A run registered, marked running and registered again is queued and still pending. |
| `Portfolio.Cache.Apply` | internal/portfolio/cache.go:42-111 | The state and the update published for a report: an unknown action moves the reference price and nothing else. |
| `Portfolio.Cache.RecomputeAggregates` | internal/portfolio/cache.go:113-124 | The totals are sums over the open positions, in any map order. |
| `Portfolio.Cache.SymbolUnrealizedNow` | internal/portfolio/cache.go:126-139 | The symbol's value is the sum over its positions. |
| `PortfolioLaws.BasisStep` | internal/portfolio/pnl.go:5-32 | One report realises the cash it moves, plus the basis it adds, plus the basis it overwrites. |
| `PortfolioMoney.RoundTripGains` | internal/portfolio/pnl.go:5-32 | An entry and an exit of a key realise quantity times the price gained for a long position and times the price lost for a short one, and nothing for a quantity that is not positive. |
| `PortfolioMoney.OpenGains` | internal/portfolio/pnl.go:5-32 | An open position is worth at its symbol's price what leaving it there would realise, by side. |
| `PortfolioLaws.ExitTakesOpenIff` | internal/portfolio/pnl.go:5-32 | An exit realises what the reported side and quantity would exactly when these are the open ones, or the price is the average price. |
| `PortfolioLaws.RealizedConserved` | internal/portfolio/cache.go:42-111 | Whatever is reported, realised profit is cash flow plus open basis plus overwritten basis. |
| `PortfolioLaws.MarkToMarket` | internal/portfolio/cache.go:42-124 | Over every run, realised plus unrealised profit is cash flow plus holdings at market, plus what entries overwrote, less what unknown actions left drifted; so the law holds exactly when the two are equal. |
| `PortfolioMoney.MoneyBalances` | internal/portfolio/cache.go:42-124 | Mark to market in money, over every run: with cash of minus quantity times price for a long entry and plus for a short one, and holdings counted by side, realised plus unrealised profit is cash plus holdings, plus what entries overwrote, less what unknown actions left drifted. |
| `PortfolioMoney.FlatRunsBalance` | internal/portfolio/cache.go:42-124 | For known actions with entries on flat keys realised plus unrealised profit is cash plus holdings. |
| `PortfolioMoney.ExposureAdds` | internal/portfolio/cache.go:50-124 | After a known action the exposure is quantity times current price over all open positions where both are positive; an unknown action leaves it, and a report that is not filled leaves everything. |
| `PortfolioLaws.StoredLagsByDrift` | internal/portfolio/cache.go:51-124 | Over every run the stored unrealised total lags behind the marks by the drift: the value that price moves of unknown actions gave to open positions since the last known action. It is current exactly when the drift is zero. |
| `PortfolioLaws.OverwriteLoses` | internal/portfolio/cache.go:51-75 | Two long entries on one key: the basis of the first is lost and the law of mark to market fails. |
| `PortfolioLaws.FlatRunsConserve` | internal/portfolio/cache.go:42-124 | For known actions with entries on flat keys the law holds. |
| `PortfolioLaws.PricedRuns` | internal/portfolio/cache.go:50-124 | With positive fill prices every open position is marked at its symbol's latest price. |
| `PortfolioLaws.UnknownActionStale` | internal/portfolio/cache.go:51-91 | An unknown action leaves the stored total stale exactly when the price moved and the symbol's open quantities do not cancel. |
| `PortfolioLaws.UnknownActionDrifts` | internal/portfolio/cache.go:50-91 | After any run with positive fill prices an unknown action adds the symbol's net open quantity times the price move to the drift, so several may cancel. |
| `PortfolioLaws.UnknownActionLeavesStale` | internal/portfolio/cache.go:50-91 | A long entry at 1 and an unknown action at 2 leave the total stale and break the law of mark to market, although nothing was overwritten. |
| `PortfolioLaws.SymbolsSumToTotal` | internal/portfolio/cache.go:113-139 | Over every run the per-symbol unrealised values sum to the stored total plus the drift. |
| `Performance.Cache.Apply` | internal/analytics/performance/cache.go:44-76 | All counters, the curve and the drawdown state after an update. |
| `Performance.Cache.RecordTrade` | internal/analytics/performance/cache.go:78-93 | The counters after a trade; a trade at zero is neither won nor lost. |
| `Performance.AfterConsistent` | internal/analytics/performance/cache.go:44-93 | Counters are measures of the recorded trades and the drawdown state that of the curve, whatever arrives. |
| `Performance.GrossMatchesRealized` | internal/analytics/performance/cache.go:44-93 | Recorded and missed profits make up the realised profit; gross profit minus gross loss equals it exactly when nothing was missed. |
| `Performance.TradesAreRoundTrips` | internal/analytics/performance/cache.go:44-93 | With one timeframe per symbol the recorded trades are the portfolio's round trips, one for one. |
| `Performance.TwoTimeframesMiss` | internal/analytics/performance/cache.go:48-57 | With two timeframes of one symbol the second exit is missed. |
| `Performance.EquityPointIsPartial` | internal/analytics/performance/cache.go:59-69 | An equity point falls short of the portfolio's total by what the other symbols had unrealised before the report, so it is the total exactly when that cancels. |
| `Performance.OtherSymbolLeftOut` | internal/analytics/performance/cache.go:59-69 | X has gained 1 when Y is entered: the equity point leaves it out. |
| `Performance.PipelineDrawdown` | internal/analytics/performance/cache.go:64-69 | The drawdown kept step by step is that of the whole curve started at zero. |
| `Feedback.RunningTotals.AddInput` | internal/feedback/statistics.go:24-58 | All seventeen accumulators after one input. |
| `Feedback.BuildBucketDefs` | internal/feedback/aggregator.go:46-69 | The buckets of the thresholds from the highest down, with one below them all. |
| `Feedback.BucketIndex` | internal/feedback/aggregator.go:102-118 | For validated thresholds the scan always finds a bucket: the one with as many thresholds above the confidence as its index. |
| `Feedback.OneBucketEach` | internal/feedback/aggregator.go:102-118 | The scan's test holds for that bucket alone exactly when there is one threshold, the confidence is below 1 or the highest threshold is. |
| `Feedback.FullConfidenceInTwoBuckets` | internal/feedback/aggregator.go:102-118 | Under thresholds 0.5 and 1 a confidence of 1 passes the test of two buckets. |
| `Feedback.Aggregator.Apply` | internal/feedback/aggregator.go:72-100 | Every dimension and every bucket stays the totals of its part of the history, and the snapshot returned is that of the history. |
| `Feedback.Aggregator.TakeSnapshot` | internal/feedback/aggregator.go:120-168 | Overall figures, the lists per strategy, symbol and timeframe in key order, calibration per bucket and rolling windows, as functions of the history alone; windows that cover the history show the overall figures. |
| `FeedbackFigures.SnapshotMeans` | internal/feedback/statistics.go:24-248 | Every figure of a snapshot against the inputs themselves: counts of outcomes and of misjudged levels, and averages that, times their number, give the sum they are taken over, for all inputs, each strategy, symbol and timeframe, each confidence range and each window. |
| `Common.TrimTakesEnds` | internal/feedback/aggregator.go:180-186 | Trimming takes white space from the two ends of a text and nothing else. |
| `Common.SpacesAre` | internal/feedback/aggregator.go:180-186 | White space is the twenty-five code points that have the property in Unicode. |
| `Feedback.ListsUnique` | internal/feedback/aggregator.go:120-142 | The history determines the list of a dimension: one entry per key that occurs, in key order. |
| `Feedback.DimensionsConserve` | internal/feedback/aggregator.go:72-88 | In each dimension every counter and total, summed over its entries, is the overall one. |
| `Feedback.BucketsConserve` | internal/feedback/aggregator.go:90-95 | The confidence buckets sum to the overall totals as well. |
| `Feedback.OutcomesAddUp` | internal/feedback/statistics.go:24-37 | The four outcome counters add up to the count exactly when no outcome is unknown. |
| `Feedback.TailEntries` | internal/feedback/aggregator.go:170-178 | The last entries up to the window, none for a window that is not positive. |
| `Feedback.BuildRollingStats` | internal/feedback/statistics.go:235-248 | A window's statistics are those of its entries. |
| `Feedback.Aggregator.RollingStatistics` | internal/feedback/aggregator.go:149-153 | Each configured window gets the statistics of its last entries, which are the overall ones once the window covers the history. |
| `Feedback.SuccessRateInRange` | internal/feedback/statistics.go:156-165 | A success rate lies between zero and one. |
| `Alerts.Cache.MarkSeen` | internal/alerts/cache.go:45-53 | First exactly if the id was not seen; it is seen afterwards. |
| `Alerts.FirstExactlyOnce` | internal/alerts/cache.go:45-53 | Each id is reported first exactly once, at its first call. |
| `Alerts.Cache.ShouldEmit` | internal/alerts/cache.go:56-74 | Emits exactly outside the cooldown, and remembers the instant only then. |
| `Alerts.EmittedIff` | internal/alerts/cache.go:56-74 | Over every run a call is emitted exactly if it is the first of its fingerprint or comes at least a cooldown after the last one emitted. |
| `Alerts.EmissionsSpaced` | internal/alerts/cache.go:56-74 | Emissions of a fingerprint are a cooldown apart, even with timestamps out of order. |
| `Alerts.RateBound` | internal/alerts/cache.go:56-74 | Any interval holds at most one more emission than the cooldowns that fit into it. |
| `Alerts.SteadyCallsAllEmit` | internal/alerts/cache.go:56-74 | Calls one cooldown apart are all emitted, so the bound is reached. |
| `Alerts.Cache.NextAlertId` | internal/alerts/cache.go:77-84 | The counter of date and symbol goes up by one and the id carries it. |
| `Alerts.AlertIdsUnique` | internal/alerts/cache.go:77-84 | No two calls return the same id. |
| `Alerts.AlertNumbers` | internal/alerts/cache.go:77-84 | Alert ids are numbered from one on for each date and symbol. |
| `Alerts.Cache.Record` | internal/alerts/cache.go:87-94 | The history keeps its latest ten thousand alerts. |

## Left out

- Engines, event bus, JSON parsing, health reports, HTTP and WebSocket servers, Postgres, exports, prompts and report text: plumbing around the caches.
- Rounding of `float64`, NaN and infinities: prices and money are `real`.
- Overflow of `int64` and `uint64` (volumes, durations, nanosecond instants, sequence counters, saturation of `time.Time.Sub`): integers are unbounded.
- Time zones other than a fixed offset: a daily bucket across a clock change is not modelled.
- Market regime, strategy parameters and indicator values of a trade: copied, never examined.
- Document fields that are only copied (research text, scores, quality and feedback figures, validation results, scanner matches): no index, filter or timeline depends on them.
- The four-decimal text of the confidences in a recommendation's timeline entry: the entry holds the numbers.
- Bucket labels and the timestamp of a feedback snapshot: text and a copied instant.
- Probabilities of profit, loss and ruin and the distribution summary of Monte Carlo: counts and standard deviations of the samples.
- UUIDs, configuration defaults other than those of the modelled constructors, and logging.
- Enqueueing on a closed queue, which panics: sending requires the queue to be open.
- Fairness of the scheduler's goroutines: that enabled steps are eventually taken is not stated; what is proved is that they cannot go on for ever and cannot stop early.
- Snapshots, listings and statistics of the caches other than the delivery listing and the feedback snapshot: copies and filters.
- Candidate selection of alerts and the quality tracker: other components.
- The order of documents of one update time in a listing: the library sort may choose any, and so may the model.
- DeliveryBuilder.Builder.ApplyState: validation result, scanner matches, rank and component scores are copied by the source and not part of the document here.
- DeliveryBuilder.Builder.ApplyIntelligence: research texts, evidence and scores are copied by the source and not part of the document here.
- DeliveryBuilder.Builder.ApplyQuality: the quality evaluation and the prices other than the entry price are copied by the source and not part of the document here.
- DeliveryBuilder.Builder.ApplyFeedback: feedback metrics and historical performance are copied by the source and not part of the document here.
- Lifecycle.StoredRecommendation.ApplyValidUpdate: the four-decimal text of an entry's confidences is not modelled, the entry holds the numbers; levels are lower-cased letter by letter from A to Z only.
- SchedulerMachine.Dispatcher.Perform: the goroutine loop itself is not run; a caller chooses which enabled step comes next.
- RankingCache.Cache.MarkRunning: runs are values in a map, so sharing of a run object between callers is not captured.
- DeliveryCache.Cache.List: the filter copies documents, so aliasing of slices inside a returned document is not captured.
