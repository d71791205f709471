/**
  Roll-up under idle eviction: exactly when coarse candles are still merges of fine ones.
 */
module RollUpEviction {
  import opened Common
  import opened CandleTime
  import opened Bars
  import opened AggModel
  import opened AggCounts
  import opened AggSeries
  import opened AggBatch
  import opened AggPolicies
  import opened AggEviction
  import R = RollUp

  lemma PrefixInOrder(a: seq<Tick>, b: seq<Tick>)
    requires R.InOrder(a + b)
    ensures R.InOrder(a)
    ensures forall i :: 0 <= i < |b| ==> TimeOf(b[i]) >= 0 && (a != [] ==> TimeOf(a[|a| - 1]) <= TimeOf(b[i]))
  {
    assert forall i :: 0 <= i < |a| ==> (a + b)[i] == a[i];
    assert forall i :: 0 <= i < |b| ==> (a + b)[|a| + i] == b[i];
  }

  /** What one more input adds to the ticks of a series. */
  function Added(key: SeriesKey, x: Input): seq<Tick> {
    if x.tick.symbol != key.symbol then []
    else Repeat(x.tick, Listed(x.timeframes, key.timeframe, |x.timeframes|))
  }

  lemma TicksSnoc(key: SeriesKey, inputs: seq<Input>)
    requires inputs != []
    ensures TicksOf(key, inputs) == TicksOf(key, inputs[..|inputs| - 1]) + Added(key, inputs[|inputs| - 1])
  {
  }

  /** The memory of a series whose last tick is `last`. */
  ghost predicate RemembersTicks(m: Memory, ticks: seq<Tick>) {
    && (m.last == if ticks == [] then None else Some(ticks[|ticks| - 1]))
    && (ticks == [] ==> !m.evicted)
  }

  /** A tick that is not earlier than the last one is always recorded. */
  lemma InOrderInput(o: Options, key: SeriesKey, m: Memory, ticks: seq<Tick>, x: Input)
    requires Supported(key.timeframe) && RemembersTicks(m, ticks)
    requires R.InOrder(ticks + Added(key, x))
    ensures RemembersTicks(AfterInput(o, key, m, x), ticks + Added(key, x))
    ensures !Resumes(o, key, m, x, 0)
    ensures x.tick.symbol == key.symbol ==>
              AfterInput(o, key, m, x).evicted
              == (Listed(x.timeframes, key.timeframe, |x.timeframes|) == 0 && EvictedBy(o, m, x.tick))
  {
    PrefixInOrder(ticks, Added(key, x));
    var n := Listed(x.timeframes, key.timeframe, |x.timeframes|);
    if x.tick.symbol == key.symbol && n > 0 && ticks != [] {
      assert Added(key, x)[0] == x.tick;
      BucketMonotone(TimeOf(ticks[|ticks| - 1]), TimeOf(x.tick), key.timeframe, o.utcOffset);
    }
    hide Bucket, Listed;
  }

  lemma NestedBuckets(o: Options, fine: SeriesKey, coarse: SeriesKey, s: Tick, t: Tick)
    requires R.Nested(fine, coarse) && TimeOf(s) >= 0 && TimeOf(t) >= 0
    ensures B(o, fine, s) == B(o, fine, t) ==> B(o, coarse, s) == B(o, coarse, t)
  {
    BucketsNest(TimeOf(s), fine.timeframe, coarse.timeframe, o.utcOffset);
    BucketsNest(TimeOf(t), fine.timeframe, coarse.timeframe, o.utcOffset);
    hide Bucket;
  }

  /** With ticks in order, resuming a fine bucket resumes the coarse one around it. */
  lemma FineResumesCoarse(o: Options, fine: SeriesKey, coarse: SeriesKey, m: Memory, ticks: seq<Tick>, x: Input)
    requires R.Nested(fine, coarse) && fine.symbol == coarse.symbol && RemembersTicks(m, ticks)
    requires R.InOrder(ticks + Added(fine, x))
    requires x.tick.symbol == fine.symbol ==>
               Listed(x.timeframes, fine.timeframe, |x.timeframes|)
               == Listed(x.timeframes, coarse.timeframe, |x.timeframes|)
    ensures Resumes(o, fine, m, x, 1) ==> Resumes(o, coarse, m, x, 1)
  {
    if Resumes(o, fine, m, x, 1) {
      InOrderInput(o, fine, m, ticks, x);
      PrefixInOrder(ticks, Added(fine, x));
      assert Added(fine, x)[0] == x.tick;
      assert TimeOf(ticks[|ticks| - 1]) >= 0;
      hide B, Listed;
      NestedBuckets(o, fine, coarse, m.last.value, x.tick);
    }
  }

  /** Two series of a symbol that are listed alike remember the same, and neither ever goes back. */
  lemma {:induction false} RecallAlike(o: Options, fine: SeriesKey, coarse: SeriesKey, inputs: seq<Input>)
    requires R.Nested(fine, coarse) && fine.symbol == coarse.symbol
    requires R.ListedAlike(fine, coarse, inputs) && R.InOrder(TicksOf(fine, inputs))
    ensures Recall(o, fine, inputs) == Recall(o, coarse, inputs)
    ensures RemembersTicks(Recall(o, fine, inputs), TicksOf(fine, inputs))
    ensures NeverResumes(o, fine, inputs, 0)
    ensures NeverResumes(o, coarse, inputs, 1) ==> NeverResumes(o, fine, inputs, 1)
  {
    if inputs != [] {
      hide Listed, NeverResumes, Resumes, AfterInput, TicksOf, Added, RemembersTicks, R.InOrder, R.Nested;
      var n := |inputs| - 1;
      var front, x := inputs[..n], inputs[n];
      TicksSnoc(fine, inputs);
      PrefixInOrder(TicksOf(fine, front), Added(fine, x));
      RecallAlike(o, fine, coarse, front);
      var m, ticks := Recall(o, fine, front), TicksOf(fine, front);
      AlikeAt(fine, coarse, inputs);
      InOrderInput(o, fine, m, ticks, x);
      SameAdded(fine, coarse, x);
      InOrderInput(o, coarse, m, ticks, x);
      SameMemory(o, fine, coarse, m, ticks, x);
      FineResumesCoarse(o, fine, coarse, m, ticks, x);
      NeverSnoc(o, fine, inputs, 0);
      NeverSnoc(o, fine, inputs, 1);
      NeverSnoc(o, coarse, inputs, 1);
    }
  }

  lemma AlikeAt(fine: SeriesKey, coarse: SeriesKey, inputs: seq<Input>)
    requires inputs != [] && R.ListedAlike(fine, coarse, inputs)
    ensures var x := inputs[|inputs| - 1];
            x.tick.symbol == fine.symbol ==>
              Listed(x.timeframes, fine.timeframe, |x.timeframes|)
              == Listed(x.timeframes, coarse.timeframe, |x.timeframes|)
  {
  }

  lemma SameAdded(fine: SeriesKey, coarse: SeriesKey, x: Input)
    requires fine.symbol == coarse.symbol
    requires x.tick.symbol == fine.symbol ==>
               Listed(x.timeframes, fine.timeframe, |x.timeframes|)
               == Listed(x.timeframes, coarse.timeframe, |x.timeframes|)
    ensures Added(fine, x) == Added(coarse, x)
  {
  }

  lemma SameMemory(o: Options, fine: SeriesKey, coarse: SeriesKey, m: Memory, ticks: seq<Tick>, x: Input)
    requires Supported(fine.timeframe) && Supported(coarse.timeframe) && fine.symbol == coarse.symbol
    requires x.tick.symbol == fine.symbol ==>
               Listed(x.timeframes, fine.timeframe, |x.timeframes|)
               == Listed(x.timeframes, coarse.timeframe, |x.timeframes|)
    requires RemembersTicks(m, ticks) && R.InOrder(ticks + Added(fine, x))
    ensures AfterInput(o, fine, m, x) == AfterInput(o, coarse, m, x)
  {
    hide Listed, B, EvictedBy;
    SameAdded(fine, coarse, x);
    InOrderInput(o, fine, m, ticks, x);
    InOrderInput(o, coarse, m, ticks, x);
    hide AfterOffer;
  }

  ghost predicate TimesIncrease(s: seq<R.Summary>) {
    forall i, j :: 0 <= i < j < |s| ==> s[i].openTime < s[j].openTime
  }

  lemma GlueIncreases(bucket: Instant, coarse: seq<R.Summary>, f: R.Summary)
    requires TimesIncrease(coarse) && (coarse != [] ==> coarse[|coarse| - 1].openTime <= bucket)
    ensures var s := R.Glue(bucket, coarse, f);
            TimesIncrease(s) && s != [] && s[|s| - 1].openTime == bucket
  {
    R.MergeTime();
    hide R.Merge;
  }

  /** Merging fine candles in order gives one coarse candle for each bucket, in strict order. */
  lemma {:induction false} RolledIncreases(tf: Timeframe, utcOffset: int, fine: seq<R.Summary>)
    requires Supported(tf)
    requires forall i, j :: 0 <= i < j < |fine| ==> fine[i].openTime <= fine[j].openTime
    ensures var s := R.RolledUp(tf, utcOffset, fine);
            && TimesIncrease(s) && (s == [] <==> fine == [])
            && (s != [] ==> s[|s| - 1].openTime == Bucket(fine[|fine| - 1].openTime, tf, utcOffset))
  {
    if fine != [] {
      hide Bucket, R.Glue, TimesIncrease;
      var n := |fine| - 1;
      RolledIncreases(tf, utcOffset, fine[..n]);
      if n > 0 {
        BucketMonotone(fine[n - 1].openTime, fine[n].openTime, tf, utcOffset);
      }
      GlueIncreases(Bucket(fine[n].openTime, tf, utcOffset), R.RolledUp(tf, utcOffset, fine[..n]), fine[n]);
    } else {
      NoneIncrease();
    }
  }

  lemma NoneIncrease()
    ensures TimesIncrease([])
  {
  }

  lemma RolledAreStrict(o: Options, coarse: SeriesKey, fineCandles: seq<Candle>, coarseCandles: seq<Candle>)
    requires Supported(coarse.timeframe) && NonDecreasing(fineCandles) && !Increasing(coarseCandles)
    ensures R.Summaries(coarseCandles, o.mode)
            != R.RolledUp(coarse.timeframe, o.utcOffset, R.Summaries(fineCandles, o.mode))
  {
    var fine, all := R.Summaries(fineCandles, o.mode), R.Summaries(coarseCandles, o.mode);
    hide R.RolledUp;
    RolledIncreases(coarse.timeframe, o.utcOffset, fine);
    var i, j :| 0 <= i < j < |coarseCandles| && coarseCandles[i].openTime >= coarseCandles[j].openTime;
    assert all[i].openTime >= all[j].openTime;
  }

  lemma MergesWhileWhole(o: Options, fine: SeriesKey, coarse: SeriesKey, inputs: seq<Input>)
    requires R.Nested(fine, coarse) && o.policy.RejectOlder?
    requires TicksOf(fine, inputs) == TicksOf(coarse, inputs) && R.InOrder(TicksOf(fine, inputs))
    requires NeverResumes(o, fine, inputs, 1) && NeverResumes(o, coarse, inputs, 1)
    ensures R.Summaries(AllOf(SeriesRun(o, coarse, inputs)), o.mode)
            == R.RolledUp(coarse.timeframe, o.utcOffset, R.Summaries(AllOf(SeriesRun(o, fine, inputs)), o.mode))
  {
    hide SeriesRun, NeverResumes, TicksOf, Feed, R.RolledUp, R.Summaries, R.InOrder, AllOf;
    CandlesAsFed(o, fine, inputs);
    CandlesAsFed(o, coarse, inputs);
    R.SeriesRollUp(o, fine, coarse, TicksOf(fine, inputs));
  }

  /**
    Roll-up with or without idle eviction: for ticks in order and two timeframes listed alike, the
    coarse candles that a run and its flush emit are the merges of the fine ones exactly when no
    tick resumes the coarse series, after an eviction, in the bucket of its last candle.
   */
  lemma CandlesRollUpIff(o: Options, fine: SeriesKey, coarse: SeriesKey, inputs: seq<Input>)
    requires AllSupported(inputs) && R.Nested(fine, coarse) && fine.symbol == coarse.symbol
    requires o.policy.RejectOlder?
    requires R.ListedAlike(fine, coarse, inputs) && R.InOrder(TicksOf(fine, inputs))
    ensures var r := Run(o, inputs);
            var all := r.closed + InProgress(r.state, |r.state.order|);
            R.Summaries(OfKey(all, coarse), o.mode)
            == R.RolledUp(coarse.timeframe, o.utcOffset, R.Summaries(OfKey(all, fine), o.mode))
            <==> NeverResumes(o, coarse, inputs, 1)
  {
    hide Run, OfKey, InProgress, AllSupported, SeriesRun, NeverResumes, TicksOf, R.RolledUp, R.Summaries, Accepted,
         R.InOrder, R.ListedAlike, Increasing, NonDecreasing, IsBatch, AllOf, Recall, RemembersTicks;
    R.SameTicks(fine, coarse, inputs);
    RecallAlike(o, fine, coarse, inputs);
    UpdatesThenFlush(o, inputs, fine);
    UpdatesThenFlush(o, inputs, coarse);
    EvictionIsBatchIff(o, inputs, fine);
    EvictionIsBatchIff(o, inputs, coarse);
    if NeverResumes(o, coarse, inputs, 1) {
      MergesWhileWhole(o, fine, coarse, inputs);
    } else {
      RolledAreStrict(o, coarse, AllOf(SeriesRun(o, fine, inputs)), AllOf(SeriesRun(o, coarse, inputs)));
    }
  }
}
