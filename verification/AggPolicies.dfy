/**
  The batch result is unique, and what the stale policy does to the buckets of a series.
 */
module AggPolicies {
  import opened Common
  import opened CandleTime
  import opened Bars
  import opened AggModel
  import opened AggCounts
  import opened AggSeries
  import opened AggBatch

  // ----- The batch result is unique -----

  ghost predicate Ascending(a: seq<int>) {
    forall i, j :: 0 <= i < j < |a| ==> a[i] < a[j]
  }

  lemma LastIsMax(a: seq<int>, x: int)
    requires Ascending(a) && x in a
    ensures a != [] && x <= a[|a| - 1]
    ensures x in a[..|a| - 1] <==> x != a[|a| - 1]
  {
  }

  lemma NothingIn(s: seq<int>)
    requires forall x :: x !in s
    ensures |s| == 0
  {
    var x := if |s| > 0 then s[0] else 0;
    assert |s| > 0 ==> x in s;
  }

  /** An ascending list is determined by its elements. */
  lemma {:induction false} AscendingUnique(a: seq<int>, b: seq<int>)
    requires Ascending(a) && Ascending(b) && forall x :: x in a <==> x in b
    ensures a == b
    decreases |a|
  {
    hide Ascending;
    if a == [] {
      NothingIn(b);
    } else {
      var m, n := |a| - 1, |b| - 1;
      assert a[m] in a;
      LastIsMax(b, a[m]);
      assert b[n] in b;
      LastIsMax(a, b[n]);
      RestAgrees(a, b);
      AscendingUnique(a[..m], b[..n]);
      assert a == a[..m] + [a[m]] && b == b[..n] + [b[n]];
    }
  }

  lemma RestAgrees(a: seq<int>, b: seq<int>)
    requires Ascending(a) && Ascending(b) && forall x :: x in a <==> x in b
    requires a != [] && b != [] && a[|a| - 1] == b[|b| - 1]
    ensures var p, q := a[..|a| - 1], b[..|b| - 1];
            Ascending(p) && Ascending(q) && forall x :: x in p <==> x in q
  {
    var p, q := a[..|a| - 1], b[..|b| - 1];
    forall x
      ensures x in p <==> x in q
    {
      if x in a {
        LastIsMax(a, x);
        LastIsMax(b, x);
      }
    }
  }

  function Times(cs: seq<Candle>): (r: seq<int>)
    ensures |r| == |cs| && forall i :: 0 <= i < |cs| ==> r[i] == cs[i].openTime
  {
    seq(|cs|, i requires 0 <= i < |cs| => cs[i].openTime)
  }

  /** The open times of a batch are the buckets of its ticks. */
  lemma BatchTimes(o: Options, key: SeriesKey, a: seq<Candle>, ticks: seq<Tick>, x: int)
    requires Supported(key.timeframe) && IsBatch(o, key, a, ticks)
    ensures x in Times(a) <==> InBucket(o, key, ticks, x) != []
  {
    hide B, InBucket, BucketBar;
    EmptyBucket(o, key, ticks, x);
    if InBucket(o, key, ticks, x) != [] {
      var k :| 0 <= k < |ticks| && B(o, key, ticks[k]) == x;
      var i :| 0 <= i < |a| && a[i].openTime == x;
      assert Times(a)[i] == x;
    }
  }

  lemma TimesAscend(a: seq<Candle>)
    requires Increasing(a)
    ensures Ascending(Times(a))
  {
  }

  /** The ticks of a series determine its batch of candles completely. */
  lemma BatchUnique(o: Options, key: SeriesKey, a: seq<Candle>, b: seq<Candle>, ticks: seq<Tick>)
    requires Supported(key.timeframe) && IsBatch(o, key, a, ticks) && IsBatch(o, key, b, ticks)
    ensures a == b
  {
    TimesAscend(a);
    TimesAscend(b);
    forall x
      ensures x in Times(a) <==> x in Times(b)
    {
      BatchTimes(o, key, a, ticks, x);
      BatchTimes(o, key, b, ticks, x);
    }
    AscendingUnique(Times(a), Times(b));
    FoldedSame(o, key, a, b, ticks);
  }

  lemma FoldedSame(o: Options, key: SeriesKey, a: seq<Candle>, b: seq<Candle>, ticks: seq<Tick>)
    requires Supported(key.timeframe) && AllFolded(o, key, a, ticks) && AllFolded(o, key, b, ticks)
    requires Times(a) == Times(b)
    ensures a == b
  {
  }

  // ----- The stale policy never rolls over -----

  /** The ticks whose bucket is not before `b`. */
  function NotBefore(o: Options, key: SeriesKey, ticks: seq<Tick>, b: Instant): seq<Tick>
    requires Supported(key.timeframe)
  {
    if ticks == [] then []
    else
      var n := |ticks| - 1;
      var before := NotBefore(o, key, ticks[..n], b);
      if b <= B(o, key, ticks[n]) then before + [ticks[n]] else before
  }

  /** Everything from the first bucket on ends up in one bar. */
  ghost predicate OneBar(o: Options, key: SeriesKey, x: Series, ticks: seq<Tick>, b: Instant)
    requires Supported(key.timeframe)
  {
    && x.done == [] && x.closedAt == None
    && x.cur == Some(BarOf(key, b, b + Width(key.timeframe), NotBefore(o, key, ticks, b), o.mode))
    && x.cur.value.candle.openTime == b
  }

  lemma StaleStep(o: Options, key: SeriesKey, x: Series, ticks: seq<Tick>, t: Tick, b: Instant)
    requires Supported(key.timeframe) && o.policy.RejectStale? && OneBar(o, key, x, ticks, b)
    ensures OneBar(o, key, SeriesOffer(o, key, x, t), ticks + [t], b)
  {
  }

  lemma StaleFirst(o: Options, key: SeriesKey, t: Tick)
    requires Supported(key.timeframe)
    ensures OneBar(o, key, SeriesOffer(o, key, IDLE, t), [t], B(o, key, t))
  {
  }

  lemma {:induction false} StaleFeed(o: Options, key: SeriesKey, ticks: seq<Tick>)
    requires Supported(key.timeframe) && o.policy.RejectStale? && ticks != []
    ensures OneBar(o, key, Feed(o, key, ticks), ticks, B(o, key, ticks[0]))
  {
    hide OneBar, SeriesOffer, B;
    var n := |ticks| - 1;
    assert ticks == ticks[..n] + [ticks[n]];
    if n == 0 {
      StaleFirst(o, key, ticks[0]);
      assert Feed(o, key, ticks[..n]) == IDLE;
    } else {
      StaleFeed(o, key, ticks[..n]);
      StaleStep(o, key, Feed(o, key, ticks[..n]), ticks[..n], ticks[n], B(o, key, ticks[0]));
    }
  }

  /**
    Under the stale policy, without eviction, updates emit no candle at all: the case that
    tests for staleness comes before the one that rolls over, so every tick whose bucket is not
    before the first one is put into the first bar.
   */
  lemma StaleNeverRolls(o: Options, inputs: seq<Input>, key: SeriesKey)
    requires AllSupported(inputs) && Supported(key.timeframe)
    requires o.policy.RejectStale? && o.idleEvict <= 0 && TicksOf(key, inputs) != []
    ensures var r, ticks := Run(o, inputs), TicksOf(key, inputs);
            var b := B(o, key, ticks[0]);
            && OfKey(r.closed, key) == []
            && OfKey(r.closed + InProgress(r.state, |r.state.order|), key)
               == [BarOf(key, b, b + Width(key.timeframe), NotBefore(o, key, ticks, b), o.mode).candle]
  {
    hide Run, Feed, SeriesRun, OfKey, TicksOf, B, BarOf, InProgress, NotBefore, Inv, AllSupported;
    UpdatesThenFlush(o, inputs, key);
    SeriesIndependent(o, inputs, key);
    RunIsFeed(o, key, inputs);
    StaleFeed(o, key, TicksOf(key, inputs));
  }

  /** With no tick after the first bucket, what is accepted is what is in that bucket. */
  lemma {:induction false} OneBucket(o: Options, key: SeriesKey, ticks: seq<Tick>)
    requires Supported(key.timeframe) && ticks != []
    requires forall j :: 0 <= j < |ticks| ==> B(o, key, ticks[j]) <= B(o, key, ticks[0])
    ensures AllIn(o, key, ticks, Accepted(o, key, ticks), B(o, key, ticks[0]))
  {
    var n, b := |ticks| - 1, B(o, key, ticks[0]);
    if n == 0 {
      assert ticks == [ticks[0]];
      OnlyOne(o, key, ticks[0]);
      hide AllIn;
    } else {
      OneBucket(o, key, ticks[..n]);
      assert ticks == ticks[..n] + [ticks[n]];
      OneMore(o, key, ticks[..n], ticks[n], b);
      hide AllIn, B, Accepted;
    }
  }

  /** What was accepted is what is not before `b`, and all of it is in bucket `b`. */
  ghost predicate AllIn(o: Options, key: SeriesKey, ticks: seq<Tick>, acc: seq<Tick>, b: Instant)
    requires Supported(key.timeframe)
  {
    && acc != [] && acc == NotBefore(o, key, ticks, b) == InBucket(o, key, acc, b)
    && forall j :: 0 <= j < |acc| ==> B(o, key, acc[j]) == b
  }

  lemma OnlyOne(o: Options, key: SeriesKey, t: Tick)
    requires Supported(key.timeframe)
    ensures AllIn(o, key, [t], Accepted(o, key, [t]), B(o, key, t))
  {
  }

  lemma OneMore(o: Options, key: SeriesKey, ticks: seq<Tick>, t: Tick, b: Instant)
    requires Supported(key.timeframe) && ticks != [] && b == B(o, key, ticks[0]) && B(o, key, t) <= b
    requires forall j :: 0 <= j < |ticks| ==> B(o, key, ticks[j]) <= b
    requires AllIn(o, key, ticks, Accepted(o, key, ticks), b)
    ensures AllIn(o, key, ticks + [t], Accepted(o, key, ticks + [t]), b)
  {
  }

  /** Some accepted tick has the latest bucket. */
  lemma {:induction false} LatestAccepted(o: Options, key: SeriesKey, ticks: seq<Tick>) returns (k: nat)
    requires Supported(key.timeframe) && ticks != []
    ensures var acc := Accepted(o, key, ticks);
            k < |acc| && forall j :: 0 <= j < |ticks| ==> B(o, key, ticks[j]) <= B(o, key, acc[k])
  {
    hide B;
    var n := |ticks| - 1;
    if forall j :: 0 <= j < n ==> B(o, key, ticks[j]) <= B(o, key, ticks[n]) {
      k := |Accepted(o, key, ticks[..n])|;
    } else {
      k := LatestAccepted(o, key, ticks[..n]);
      var i :| 0 <= i < n && B(o, key, ticks[i]) > B(o, key, ticks[n]);
      assert ticks[..n][i] == ticks[i];
      assert forall j :: 0 <= j < n ==> ticks[..n][j] == ticks[j];
    }
  }

  lemma StaleFeedIsBatchIff(o: Options, key: SeriesKey, ticks: seq<Tick>)
    requires Supported(key.timeframe) && o.policy.RejectStale? && ticks != []
    ensures IsBatch(o, key, AllOf(Feed(o, key, ticks)), Accepted(o, key, ticks))
            <==> forall j :: 0 <= j < |ticks| ==> B(o, key, ticks[j]) <= B(o, key, ticks[0])
  {
    hide B, Feed, Accepted, NotBefore, InBucket;
    var x, b := Feed(o, key, ticks), B(o, key, ticks[0]);
    StaleFeed(o, key, ticks);
    if forall j :: 0 <= j < |ticks| ==> B(o, key, ticks[j]) <= b {
      OneBucket(o, key, ticks);
      OneBarIsBatch(o, key, x, ticks, b);
      hide AllIn, OneBar, IsBatch;
    } else {
      var k := LatestAccepted(o, key, ticks);
      LaterUnlisted(o, key, x, ticks, b, k);
      hide OneBar, IsBatch;
    }
  }

  /**
    When a run under the stale policy, without eviction, still gives the batch result for a
    series: exactly when no tick of the series falls into a later bucket than its first one.
   */
  lemma StaleIsBatchIff(o: Options, inputs: seq<Input>, key: SeriesKey)
    requires AllSupported(inputs) && Supported(key.timeframe)
    requires o.policy.RejectStale? && o.idleEvict <= 0 && TicksOf(key, inputs) != []
    ensures var r, ticks := Run(o, inputs), TicksOf(key, inputs);
            IsBatch(o, key, OfKey(r.closed + InProgress(r.state, |r.state.order|), key), Accepted(o, key, ticks))
            <==> forall j :: 0 <= j < |ticks| ==> B(o, key, ticks[j]) <= B(o, key, ticks[0])
  {
    hide Run, Feed, SeriesRun, OfKey, TicksOf, B, InProgress, IsBatch, Accepted, AllSupported;
    UpdatesThenFlush(o, inputs, key);
    RunIsFeed(o, key, inputs);
    StaleFeedIsBatchIff(o, key, TicksOf(key, inputs));
  }

  lemma OneBarIsBatch(o: Options, key: SeriesKey, x: Series, ticks: seq<Tick>, b: Instant)
    requires Supported(key.timeframe) && OneBar(o, key, x, ticks, b)
    requires AllIn(o, key, ticks, Accepted(o, key, ticks), b)
    ensures IsBatch(o, key, AllOf(x), Accepted(o, key, ticks))
  {
    hide B, BarOf, NotBefore, InBucket, Accepted;
    assert AllOf(x) == [x.cur.value.candle];
    assert AllOf(x)[0].openTime == b;
  }

  lemma LaterUnlisted(o: Options, key: SeriesKey, x: Series, ticks: seq<Tick>, b: Instant, k: nat)
    requires Supported(key.timeframe) && OneBar(o, key, x, ticks, b)
    requires k < |Accepted(o, key, ticks)| && B(o, key, Accepted(o, key, ticks)[k]) > b
    ensures !IsBatch(o, key, AllOf(x), Accepted(o, key, ticks))
  {
  }

  /** Two minutes of one-minute bars: the second minute is swallowed by the first bar. */
  lemma StaleCounterexample(o: Options, key: SeriesKey, first: Tick, second: Tick, inputs: seq<Input>)
    requires o == Options(VolumeCumulative, RejectStale, 0, 0) && key == SeriesKey("NIFTY", TF1m)
    requires first == Tick("NIFTY", 100.0, 10, 0, 0) && second == Tick("NIFTY", 105.0, 20, MINUTE, MINUTE)
    requires inputs == [Input(first, [TF1m]), Input(second, [TF1m])]
    ensures var r := Run(o, inputs);
            var emitted := OfKey(r.closed + InProgress(r.state, |r.state.order|), key);
            && |emitted| == 1
            && !IsBatch(o, key, emitted, Accepted(o, key, TicksOf(key, inputs)))
  {
    hide IsBatch, Feed, Accepted, NotBefore, BarOf, B, Run, OfKey, InProgress, TicksOf, SeriesRun;
    TwoTicks(key, first, second, inputs);
    FirstTwoMinutes(o, key, first, second);
    var ticks := TicksOf(key, inputs);
    assert ticks[0] == first && ticks[1] == second;
    StaleIsBatchIff(o, inputs, key);
    StaleNeverRolls(o, inputs, key);
  }

  lemma TwoTicks(key: SeriesKey, first: Tick, second: Tick, inputs: seq<Input>)
    requires first.symbol == key.symbol == second.symbol && key.timeframe == TF1m
    requires inputs == [Input(first, [TF1m]), Input(second, [TF1m])]
    ensures TicksOf(key, inputs) == [first, second]
  {
    assert inputs[..1] == [Input(first, [TF1m])] && inputs[..1][..0] == [];
    assert Listed([TF1m], TF1m, 1) == 1;
    assert Repeat(first, 1) == [first] && Repeat(second, 1) == [second];
    assert TicksOf(key, inputs[..1]) == [first];
  }

  lemma FirstTwoMinutes(o: Options, key: SeriesKey, first: Tick, second: Tick)
    requires o.utcOffset == 0 && key.timeframe == TF1m
    requires first.providerTS == 0 && second.providerTS == MINUTE
    ensures B(o, key, first) < B(o, key, second)
  {
  }
}
