/**
  Idle eviction under the policy that rejects older buckets: when a run with it is still the batch.
 */
module AggEviction {
  import opened Common
  import opened CandleTime
  import opened Bars
  import opened AggModel
  import opened AggCounts
  import opened AggSeries
  import opened AggBatch
  import opened AggPolicies

  /** Every update of the symbol lists the timeframe. */
  ghost predicate AlwaysListed(key: SeriesKey, inputs: seq<Input>) {
    forall i :: 0 <= i < |inputs| && inputs[i].tick.symbol == key.symbol ==>
      Listed(inputs[i].timeframes, key.timeframe, |inputs[i].timeframes|) > 0
  }

  ghost predicate NonDecreasing(cs: seq<Candle>) {
    forall i, j :: 0 <= i < j < |cs| ==> cs[i].openTime <= cs[j].openTime
  }

  // ----- What a series that rejects older buckets holds -----

  /** The bar in progress is that of the last accepted tick, and so is the last activity. */
  ghost predicate FollowsLast(o: Options, key: SeriesKey, x: Series, acc: seq<Tick>)
    requires Supported(key.timeframe)
  {
    && (acc == [] <==> x.cur.None?)
    && (acc != [] ==>
          && x.cur.value.candle.openTime == B(o, key, acc[|acc| - 1])
          && x.cur.value.candle.tradeCount > 0
          && x.active == Some(TimeOf(acc[|acc| - 1])))
  }

  predicate NotEarlier(o: Options, key: SeriesKey, x: Series, t: Tick)
    requires Supported(key.timeframe)
  {
    x.cur.None? || x.cur.value.candle.openTime <= B(o, key, t)
  }

  /** A tick is accepted exactly when its bucket is not before that of the bar in progress. */
  lemma AcceptedNext(o: Options, key: SeriesKey, ticks: seq<Tick>, t: Tick)
    requires Supported(key.timeframe) && o.policy.RejectOlder?
    ensures Accepted(o, key, ticks + [t])
            == if NotEarlier(o, key, Feed(o, key, ticks), t) then Accepted(o, key, ticks) + [t]
               else Accepted(o, key, ticks)
  {
    hide B, Feed, Accepted;
    AcceptedOrNot(o, key, ticks, t);
    FeedNewest(o, key, ticks);
  }

  lemma AcceptedOrNot(o: Options, key: SeriesKey, ticks: seq<Tick>, t: Tick)
    requires Supported(key.timeframe)
    ensures Accepted(o, key, ticks + [t])
            == if forall j :: 0 <= j < |ticks| ==> B(o, key, ticks[j]) <= B(o, key, t)
               then Accepted(o, key, ticks) + [t] else Accepted(o, key, ticks)
  {
    hide B;
    var all := ticks + [t];
    assert all[..|ticks|] == ticks && all[|ticks|] == t;
    assert forall j :: 0 <= j < |ticks| ==> all[j] == ticks[j];
  }

  lemma FeedNewest(o: Options, key: SeriesKey, ticks: seq<Tick>)
    requires Supported(key.timeframe) && o.policy.RejectOlder?
    ensures var x := Feed(o, key, ticks);
            && (x.cur.None? <==> ticks == [])
            && (x.cur.Some? ==>
                  var b := x.cur.value.candle.openTime;
                  && (forall j :: 0 <= j < |ticks| ==> B(o, key, ticks[j]) <= b)
                  && (exists j :: 0 <= j < |ticks| && B(o, key, ticks[j]) == b))
  {
    hide B, Feed, IsBatch, BucketBar, Accepted;
    FeedHolds(o, key, ticks);
  }

  lemma OfferFollows(o: Options, key: SeriesKey, x: Series, acc: seq<Tick>, t: Tick)
    requires Supported(key.timeframe) && o.policy.RejectOlder? && FollowsLast(o, key, x, acc)
    ensures FollowsLast(o, key, SeriesOffer(o, key, x, t), if NotEarlier(o, key, x, t) then acc + [t] else acc)
  {
    hide B;
    StartedAt(o, key, t);
    if x.cur.Some? {
      AddTickOwn(x.cur.value, t, o.mode);
      AddTickOpens(x.cur.value, t, o.mode);
    }
    hide AddTick, StartBar;
  }

  lemma StartedAt(o: Options, key: SeriesKey, t: Tick)
    requires Supported(key.timeframe)
    ensures var c := StartBar(o, key, t).candle; c.openTime == B(o, key, t) && c.tradeCount == 1
  {
  }

  lemma {:induction false} FeedFollows(o: Options, key: SeriesKey, ticks: seq<Tick>)
    requires Supported(key.timeframe) && o.policy.RejectOlder?
    ensures FollowsLast(o, key, Feed(o, key, ticks), Accepted(o, key, ticks))
  {
    if ticks != [] {
      hide Feed, Accepted, SeriesOffer, FollowsLast, NotEarlier;
      var front, t := ticks[..|ticks| - 1], ticks[|ticks| - 1];
      assert ticks == front + [t];
      FeedFollows(o, key, front);
      AcceptedNext(o, key, front, t);
      FeedSnoc(o, key, front, t);
      OfferFollows(o, key, Feed(o, key, front), Accepted(o, key, front), t);
    }
  }

  lemma FeedIsBatch(o: Options, key: SeriesKey, ticks: seq<Tick>)
    requires Supported(key.timeframe) && o.policy.RejectOlder?
    ensures IsBatch(o, key, AllOf(Feed(o, key, ticks)), Accepted(o, key, ticks))
  {
    hide IsBatch;
    FeedHolds(o, key, ticks);
  }

  // ----- What a series remembers -----

  /** The last tick put into a bar, and whether the bar has been evicted since. */
  datatype Memory = Memory(last: Option<Tick>, evicted: bool)

  /** Whether the series has been evicted once a tick of its symbol arrives. */
  predicate EvictedBy(o: Options, m: Memory, t: Tick) {
    m.evicted || (o.idleEvict > 0 && m.last.Some? && TimeOf(t) - TimeOf(m.last.value) > o.idleEvict)
  }

  /** A tick that is offered opens a new candle. */
  predicate Opens(o: Options, key: SeriesKey, m: Memory, t: Tick)
    requires Supported(key.timeframe)
  {
    m.last.None? || m.evicted || B(o, key, m.last.value) < B(o, key, t)
  }

  function AfterOffer(o: Options, key: SeriesKey, m: Memory, t: Tick): Memory
    requires Supported(key.timeframe)
  {
    if Opens(o, key, m, t) || B(o, key, m.last.value) == B(o, key, t) then Memory(Some(t), false) else m
  }

  function AfterInput(o: Options, key: SeriesKey, m: Memory, x: Input): Memory
    requires Supported(key.timeframe)
  {
    if x.tick.symbol != key.symbol then m
    else
      var woken := m.(evicted := EvictedBy(o, m, x.tick));
      if Listed(x.timeframes, key.timeframe, |x.timeframes|) == 0 then woken else AfterOffer(o, key, woken, x.tick)
  }

  function Recall(o: Options, key: SeriesKey, inputs: seq<Input>): Memory
    requires Supported(key.timeframe)
  {
    if inputs == [] then Memory(None, false)
    else AfterInput(o, key, Recall(o, key, inputs[..|inputs| - 1]), inputs[|inputs| - 1])
  }

  /**
    A tick resumes an evicted series less than `margin` after the open time of its last candle:
    in an earlier bucket for margin 0, in the same or an earlier one for margin 1.
   */
  predicate Resumes(o: Options, key: SeriesKey, m: Memory, x: Input, margin: nat)
    requires Supported(key.timeframe)
  {
    && x.tick.symbol == key.symbol && Listed(x.timeframes, key.timeframe, |x.timeframes|) > 0
    && m.last.Some? && EvictedBy(o, m, x.tick)
    && B(o, key, x.tick) < B(o, key, m.last.value) + margin
  }

  ghost predicate NeverResumes(o: Options, key: SeriesKey, inputs: seq<Input>, margin: nat)
    requires Supported(key.timeframe)
  {
    forall k :: 0 <= k < |inputs| ==> !Resumes(o, key, Recall(o, key, inputs[..k]), inputs[k], margin)
  }

  lemma NeverSnoc(o: Options, key: SeriesKey, inputs: seq<Input>, margin: nat)
    requires Supported(key.timeframe) && inputs != []
    ensures var n := |inputs| - 1;
            NeverResumes(o, key, inputs, margin)
            <==> NeverResumes(o, key, inputs[..n], margin)
                 && !Resumes(o, key, Recall(o, key, inputs[..n]), inputs[n], margin)
  {
    hide Resumes, Recall;
    var n := |inputs| - 1;
    assert forall k :: 0 <= k < n ==> inputs[..n][..k] == inputs[..k] && inputs[..n][k] == inputs[k];
    if NeverResumes(o, key, inputs, margin) {
      forall k | 0 <= k < n
        ensures !Resumes(o, key, Recall(o, key, inputs[..n][..k]), inputs[..n][k], margin)
      {
        assert !Resumes(o, key, Recall(o, key, inputs[..k]), inputs[k], margin);
      }
    } else {
      var k :| 0 <= k < |inputs| && Resumes(o, key, Recall(o, key, inputs[..k]), inputs[k], margin);
      if k < n {
        assert Resumes(o, key, Recall(o, key, inputs[..n][..k]), inputs[..n][k], margin);
      }
    }
  }

  // ----- The open times of a series -----

  ghost predicate Ticking(x: Series) {
    x.cur.Some? ==> x.cur.value.candle.tradeCount > 0
  }

  /** The memory of a series is right. */
  ghost predicate Agrees(o: Options, key: SeriesKey, x: Series, m: Memory)
    requires Supported(key.timeframe)
  {
    && Ticking(x)
    && (m.last.None? ==> x.cur.None? && x.done == [] && !m.evicted)
    && (m.last.Some? && !m.evicted ==>
          && x.cur.Some? && x.cur.value.candle.openTime == B(o, key, m.last.value)
          && x.active == Some(TimeOf(m.last.value)))
    && (m.last.Some? && m.evicted ==>
          && x.cur.None? && x.done != []
          && x.done[|x.done| - 1].openTime == B(o, key, m.last.value))
  }

  lemma EvictAgrees(o: Options, key: SeriesKey, x: Series, m: Memory, t: Tick)
    requires Supported(key.timeframe) && Agrees(o, key, x, m)
    ensures var y := SeriesEvict(o, x, TimeOf(t));
            Agrees(o, key, y, m.(evicted := EvictedBy(o, m, t))) && AllOf(y) == AllOf(x)
  {
    hide B;
  }

  /** A tick that is offered leaves the open times as they are, or appends its own. */
  lemma OfferAgrees(o: Options, key: SeriesKey, x: Series, m: Memory, t: Tick)
    requires Supported(key.timeframe) && o.policy.RejectOlder? && Agrees(o, key, x, m)
    ensures var y := SeriesOffer(o, key, x, t);
            && Agrees(o, key, y, AfterOffer(o, key, m, t))
            && Times(AllOf(y)) == Times(AllOf(x)) + if Opens(o, key, m, t) then [B(o, key, t)] else []
  {
    hide B;
    StartedAt(o, key, t);
    if x.cur.Some? {
      AddTickOwn(x.cur.value, t, o.mode);
      AddTickOpens(x.cur.value, t, o.mode);
    }
    hide AddTick, StartBar;
  }

  lemma OfferedAgain(o: Options, key: SeriesKey, m: Memory, t: Tick)
    requires Supported(key.timeframe)
    ensures var again := AfterOffer(o, key, m, t);
            AfterOffer(o, key, again, t) == again && !Opens(o, key, again, t)
  {
    hide B;
  }

  lemma {:induction false} OffersAgree(o: Options, key: SeriesKey, x: Series, m: Memory, t: Tick, n: nat)
    requires Supported(key.timeframe) && o.policy.RejectOlder? && Agrees(o, key, x, m) && n > 0
    ensures var y := Offers(o, key, x, t, n);
            && Agrees(o, key, y, AfterOffer(o, key, m, t))
            && Times(AllOf(y)) == Times(AllOf(x)) + if Opens(o, key, m, t) then [B(o, key, t)] else []
  {
    hide Agrees, SeriesOffer, Opens, AfterOffer, B, Times, AllOf;
    if n == 1 {
      assert Offers(o, key, x, t, 0) == x;
      OfferAgrees(o, key, x, m, t);
    } else {
      OffersAgree(o, key, x, m, t, n - 1);
      OfferedAgain(o, key, m, t);
      OfferAgrees(o, key, Offers(o, key, x, t, n - 1), AfterOffer(o, key, m, t), t);
    }
  }

  /** What an input does to the memory and to the open times. */
  lemma InputAgrees(o: Options, key: SeriesKey, x: Series, m: Memory, i: Input)
    requires Supported(key.timeframe) && o.policy.RejectOlder? && Agrees(o, key, x, m)
    ensures var y := SeriesUpdate(o, key, x, i.tick, i.timeframes);
            var n := Listed(i.timeframes, key.timeframe, |i.timeframes|);
            && Agrees(o, key, y, AfterInput(o, key, m, i))
            && Times(AllOf(y))
               == Times(AllOf(x))
                  + if i.tick.symbol == key.symbol && n > 0
                       && Opens(o, key, m.(evicted := EvictedBy(o, m, i.tick)), i.tick)
                    then [B(o, key, i.tick)] else []
  {
    hide Agrees, SeriesEvict, Opens, AfterOffer, B, Times, AllOf, Listed, EvictedBy;
    var n := Listed(i.timeframes, key.timeframe, |i.timeframes|);
    assert Times(AllOf(x)) + [] == Times(AllOf(x));
    if i.tick.symbol == key.symbol {
      EvictAgrees(o, key, x, m, i.tick);
      var woken := m.(evicted := EvictedBy(o, m, i.tick));
      if n > 0 {
        OffersAgree(o, key, SeriesEvict(o, x, TimeOf(i.tick)), woken, i.tick, n);
      } else {
        assert Offers(o, key, SeriesEvict(o, x, TimeOf(i.tick)), i.tick, 0) == SeriesEvict(o, x, TimeOf(i.tick));
      }
    }
  }

  /** The open times of a series end with the bucket it remembers. */
  lemma EndsRemembered(o: Options, key: SeriesKey, x: Series, m: Memory)
    requires Supported(key.timeframe) && Agrees(o, key, x, m)
    ensures var times := Times(AllOf(x));
            (times == [] <==> m.last.None?)
            && (m.last.Some? ==> times[|times| - 1] == B(o, key, m.last.value))
  {
    hide B;
  }

  /** Each value at least `margin` after every one before it. */
  ghost predicate Spaced(s: seq<int>, margin: nat) {
    forall i, j :: 0 <= i < j < |s| ==> s[i] + margin <= s[j]
  }

  lemma SpacedSnoc(s: seq<int>, x: int, margin: nat)
    ensures Spaced(s + [x], margin) <==> Spaced(s, margin) && (s != [] ==> s[|s| - 1] + margin <= x)
  {
    var next := s + [x];
    assert forall i :: 0 <= i < |s| ==> next[i] == s[i];
    if Spaced(next, margin) {
      assert s != [] ==> next[|s| - 1] + margin <= next[|s|];
      assert forall i, j :: 0 <= i < j < |s| ==> next[i] + margin <= next[j];
    }
  }

  /** An input keeps the spacing exactly when its tick does not resume the series too early. */
  lemma InputSpaced(o: Options, key: SeriesKey, x: Series, m: Memory, i: Input, margin: nat)
    requires Supported(key.timeframe) && o.policy.RejectOlder? && Agrees(o, key, x, m) && margin <= 1
    ensures Spaced(Times(AllOf(SeriesUpdate(o, key, x, i.tick, i.timeframes))), margin)
            <==> Spaced(Times(AllOf(x)), margin) && !Resumes(o, key, m, i, margin)
  {
    hide Agrees, SeriesUpdate, AfterInput, B, Times, AllOf, Listed, Spaced, EvictedBy;
    InputAgrees(o, key, x, m, i);
    EndsRemembered(o, key, x, m);
    NotEvictedYet(o, key, x, m, i.tick);
    SpacedSnoc(Times(AllOf(x)), B(o, key, i.tick), margin);
    assert Times(AllOf(x)) + [] == Times(AllOf(x));
  }

  lemma NotEvictedYet(o: Options, key: SeriesKey, x: Series, m: Memory, t: Tick)
    requires Supported(key.timeframe) && Agrees(o, key, x, m)
    ensures m.last.None? ==> !EvictedBy(o, m, t)
  {
  }

  lemma {:induction false} RunSpaced(o: Options, key: SeriesKey, inputs: seq<Input>, margin: nat)
    requires Supported(key.timeframe) && o.policy.RejectOlder? && margin <= 1
    ensures Agrees(o, key, SeriesRun(o, key, inputs), Recall(o, key, inputs))
    ensures Spaced(Times(AllOf(SeriesRun(o, key, inputs))), margin) <==> NeverResumes(o, key, inputs, margin)
  {
    if inputs == [] {
      NothingYet(o, key, margin);
    } else {
      hide Agrees, SeriesUpdate, AfterInput, Times, AllOf, Spaced, NeverResumes, Resumes;
      var n := |inputs| - 1;
      RunSpaced(o, key, inputs[..n], margin);
      var x, m := SeriesRun(o, key, inputs[..n]), Recall(o, key, inputs[..n]);
      InputAgrees(o, key, x, m, inputs[n]);
      InputSpaced(o, key, x, m, inputs[n], margin);
      NeverSnoc(o, key, inputs, margin);
    }
  }

  lemma NothingYet(o: Options, key: SeriesKey, margin: nat)
    requires Supported(key.timeframe)
    ensures Agrees(o, key, IDLE, Memory(None, false)) && Spaced(Times(AllOf(IDLE)), margin)
    ensures NeverResumes(o, key, [], margin)
  {
  }

  lemma SpacedMeans(cs: seq<Candle>)
    ensures Spaced(Times(cs), 1) <==> Increasing(cs)
    ensures Spaced(Times(cs), 0) <==> NonDecreasing(cs)
  {
    var times := Times(cs);
    assert forall i :: 0 <= i < |cs| ==> times[i] == cs[i].openTime;
    if Spaced(times, 1) {
      assert forall i, j :: 0 <= i < j < |cs| ==> times[i] + 1 <= times[j];
    }
    if Spaced(times, 0) {
      assert forall i, j :: 0 <= i < j < |cs| ==> times[i] + 0 <= times[j];
    }
  }

  // ----- While no bucket is resumed, the run is the batch -----

  function Evicted(x: Series): Series
    requires x.cur.Some?
  {
    CloseCur(x).(cur := None, active := None)
  }

  /** The series is what its ticks alone make of it, but for an eviction since. */
  ghost predicate AsFed(x: Series, fed: Series, m: Memory) {
    if m.evicted then fed.cur.Some? && x == Evicted(fed) else x == fed
  }

  lemma EvictAsFed(o: Options, key: SeriesKey, x: Series, fed: Series, m: Memory, t: Tick)
    requires Supported(key.timeframe) && Agrees(o, key, x, m) && AsFed(x, fed, m)
    ensures AsFed(SeriesEvict(o, x, TimeOf(t)), fed, m.(evicted := EvictedBy(o, m, t)))
  {
    hide B;
  }

  lemma OfferAsFed(o: Options, key: SeriesKey, x: Series, fed: Series, m: Memory, t: Tick)
    requires Supported(key.timeframe) && o.policy.RejectOlder? && Ticking(fed)
    requires Agrees(o, key, x, m) && AsFed(x, fed, m)
    requires m.evicted ==> B(o, key, m.last.value) < B(o, key, t)
    ensures SeriesOffer(o, key, x, t) == SeriesOffer(o, key, fed, t)
  {
    hide B, AddTick, StartBar;
    if m.evicted {
      assert x.done[|x.done| - 1] == fed.cur.value.candle;
    }
  }

  lemma {:induction false} OffersAsFed(o: Options, key: SeriesKey, x: Series, fed: Series, t: Tick, n: nat)
    requires Supported(key.timeframe) && n > 0 && SeriesOffer(o, key, x, t) == SeriesOffer(o, key, fed, t)
    ensures Offers(o, key, x, t, n) == Offers(o, key, fed, t, n)
  {
    hide SeriesOffer;
    if n > 1 {
      OffersAsFed(o, key, x, fed, t, n - 1);
    } else {
      assert Offers(o, key, x, t, 0) == x && Offers(o, key, fed, t, 0) == fed;
    }
  }

  lemma InputAsFed(o: Options, key: SeriesKey, x: Series, ticks: seq<Tick>, m: Memory, i: Input)
    requires Supported(key.timeframe) && o.policy.RejectOlder?
    requires Agrees(o, key, x, m) && AsFed(x, Feed(o, key, ticks), m)
    requires !Resumes(o, key, m, i, 1)
    ensures var n := if i.tick.symbol == key.symbol then Listed(i.timeframes, key.timeframe, |i.timeframes|) else 0;
            AsFed(SeriesUpdate(o, key, x, i.tick, i.timeframes), Feed(o, key, ticks + Repeat(i.tick, n)),
                  AfterInput(o, key, m, i))
  {
    hide Agrees, SeriesEvict, SeriesOffer, B, Listed, Feed, AsFed, EvictedBy, FollowsLast;
    assert ticks + Repeat(i.tick, 0) == ticks;
    var fed := Feed(o, key, ticks);
    FeedFollows(o, key, ticks);
    FedTicks(o, key, fed, Accepted(o, key, ticks));
    if i.tick.symbol == key.symbol {
      var woken, y := m.(evicted := EvictedBy(o, m, i.tick)), SeriesEvict(o, x, TimeOf(i.tick));
      EvictAgrees(o, key, x, m, i.tick);
      EvictAsFed(o, key, x, fed, m, i.tick);
      var n := Listed(i.timeframes, key.timeframe, |i.timeframes|);
      if n > 0 {
        LastKnown(o, key, y, woken);
        OfferAsFed(o, key, y, fed, woken, i.tick);
        OffersAsFed(o, key, y, fed, i.tick, n);
        FeedRepeats(o, key, ticks, i.tick, n);
        NotEvicted(o, key, woken, i.tick);
        FedPlainly(Feed(o, key, ticks + Repeat(i.tick, n)), AfterInput(o, key, m, i));
      } else {
        assert Offers(o, key, y, i.tick, 0) == y;
      }
    }
  }

  lemma FedTicks(o: Options, key: SeriesKey, x: Series, acc: seq<Tick>)
    requires Supported(key.timeframe) && FollowsLast(o, key, x, acc)
    ensures Ticking(x)
  {
  }

  lemma LastKnown(o: Options, key: SeriesKey, x: Series, m: Memory)
    requires Supported(key.timeframe) && Agrees(o, key, x, m)
    ensures m.evicted ==> m.last.Some?
  {
  }

  lemma NotEvicted(o: Options, key: SeriesKey, m: Memory, t: Tick)
    requires Supported(key.timeframe)
    ensures !AfterOffer(o, key, m, t).evicted
  {
  }

  lemma FedPlainly(x: Series, m: Memory)
    requires !m.evicted
    ensures AsFed(x, x, m)
  {
  }

  lemma {:induction false} RunAsFed(o: Options, key: SeriesKey, inputs: seq<Input>)
    requires Supported(key.timeframe) && o.policy.RejectOlder? && NeverResumes(o, key, inputs, 1)
    ensures AsFed(SeriesRun(o, key, inputs), Feed(o, key, TicksOf(key, inputs)), Recall(o, key, inputs))
  {
    if inputs != [] {
      hide SeriesUpdate, AfterInput, B, AsFed, NeverResumes, Listed, Repeat, Feed, Resumes;
      var n := |inputs| - 1;
      NeverSnoc(o, key, inputs, 1);
      RunAsFed(o, key, inputs[..n]);
      RunSpaced(o, key, inputs[..n], 1);
      var ticks := TicksOf(key, inputs[..n]);
      assert ticks + Repeat(inputs[n].tick, 0) == ticks by {
        assert Repeat(inputs[n].tick, 0) == [];
      }
      InputAsFed(o, key, SeriesRun(o, key, inputs[..n]), ticks, Recall(o, key, inputs[..n]), inputs[n]);
    } else {
      NothingFed(o, key);
    }
  }

  lemma NothingFed(o: Options, key: SeriesKey)
    requires Supported(key.timeframe)
    ensures AsFed(IDLE, Feed(o, key, []), Memory(None, false))
  {
  }

  lemma SameCandles(x: Series, fed: Series, m: Memory)
    requires AsFed(x, fed, m) && Ticking(fed)
    ensures AllOf(x) == AllOf(fed)
  {
  }

  /** While no bucket is resumed, the candles are those of the ticks alone. */
  lemma CandlesAsFed(o: Options, key: SeriesKey, inputs: seq<Input>)
    requires Supported(key.timeframe) && o.policy.RejectOlder? && NeverResumes(o, key, inputs, 1)
    ensures AllOf(SeriesRun(o, key, inputs)) == AllOf(Feed(o, key, TicksOf(key, inputs)))
  {
    hide Accepted, Feed, SeriesRun, TicksOf, NeverResumes, AsFed, AllOf, Recall, FollowsLast;
    var ticks := TicksOf(key, inputs);
    RunAsFed(o, key, inputs);
    FeedFollows(o, key, ticks);
    FedTicks(o, key, Feed(o, key, ticks), Accepted(o, key, ticks));
    SameCandles(SeriesRun(o, key, inputs), Feed(o, key, ticks), Recall(o, key, inputs));
  }

  /**
    Idle eviction, however often updates list the timeframe: the candles that a run and its flush
    emit for a series are the batch, and their open times strictly increase, exactly when no tick
    resumes the series after an eviction in its last bucket or an earlier one. The open times
    never go back exactly when none resumes it in an earlier one.
   */
  lemma EvictionIsBatchIff(o: Options, inputs: seq<Input>, key: SeriesKey)
    requires AllSupported(inputs) && Supported(key.timeframe) && o.policy.RejectOlder?
    ensures var r, acc := Run(o, inputs), Accepted(o, key, TicksOf(key, inputs));
            var emitted := OfKey(r.closed + InProgress(r.state, |r.state.order|), key);
            && (IsBatch(o, key, emitted, acc) <==> NeverResumes(o, key, inputs, 1))
            && (Increasing(emitted) <==> NeverResumes(o, key, inputs, 1))
            && (NonDecreasing(emitted) <==> NeverResumes(o, key, inputs, 0))
  {
    hide Run, Accepted, Feed, SeriesRun, OfKey, TicksOf, InProgress, AllSupported, Increasing, NonDecreasing, AllFolded,
         AllListed, NeverResumes, Agrees, AsFed, AllOf, Spaced, Recall, FollowsLast, Times;
    var ticks, x := TicksOf(key, inputs), SeriesRun(o, key, inputs);
    UpdatesThenFlush(o, inputs, key);
    RunSpaced(o, key, inputs, 0);
    RunSpaced(o, key, inputs, 1);
    SpacedMeans(AllOf(x));
    if NeverResumes(o, key, inputs, 1) {
      CandlesAsFed(o, key, inputs);
      FeedIsBatch(o, key, ticks);
    }
  }

  // ----- When every update lists the timeframe -----

  lemma {:induction false} NeverLeftEvicted(o: Options, key: SeriesKey, inputs: seq<Input>)
    requires Supported(key.timeframe) && AlwaysListed(key, inputs)
    ensures !Recall(o, key, inputs).evicted
  {
    if inputs != [] {
      hide B, EvictedBy, Listed;
      NeverLeftEvicted(o, key, inputs[..|inputs| - 1]);
    }
  }

  /** A tick that comes after an idle time is later than the last one, and so is its bucket. */
  lemma NeverEarlier(o: Options, key: SeriesKey, m: Memory, i: Input)
    requires Supported(key.timeframe) && !m.evicted
    ensures !Resumes(o, key, m, i, 0)
    ensures Resumes(o, key, m, i, 1) <==>
              && i.tick.symbol == key.symbol && Listed(i.timeframes, key.timeframe, |i.timeframes|) > 0
              && m.last.Some? && o.idleEvict > 0 && SplitAt(o, key, m.last.value, i.tick)
  {
    if m.last.Some? && TimeOf(m.last.value) <= TimeOf(i.tick) {
      BucketMonotone(TimeOf(m.last.value), TimeOf(i.tick), key.timeframe, o.utcOffset);
    }
    hide Bucket, Listed;
  }

  /**
    With idle eviction, as long as older buckets are rejected and every update lists the
    timeframe, the open times a series emits never go back.
   */
  lemma EvictionKeepsOrder(o: Options, inputs: seq<Input>, key: SeriesKey)
    requires AllSupported(inputs) && Supported(key.timeframe) && o.policy.RejectOlder?
    requires AlwaysListed(key, inputs)
    ensures var r := Run(o, inputs);
            NonDecreasing(OfKey(r.closed + InProgress(r.state, |r.state.order|), key))
  {
    hide Run, OfKey, InProgress, AllSupported, NonDecreasing, Increasing, IsBatch, Accepted, TicksOf, Resumes, Recall;
    EvictionIsBatchIff(o, inputs, key);
    forall k | 0 <= k < |inputs|
      ensures !Resumes(o, key, Recall(o, key, inputs[..k]), inputs[k], 0)
    {
      NeverLeftEvicted(o, key, inputs[..k]);
      NeverEarlier(o, key, Recall(o, key, inputs[..k]), inputs[k]);
    }
  }

  /** Two ticks of one bucket, later than each other by more than the idle time. */
  predicate SplitAt(o: Options, key: SeriesKey, a: Tick, b: Tick)
    requires Supported(key.timeframe)
  {
    B(o, key, a) == B(o, key, b) && TimeOf(b) - TimeOf(a) > o.idleEvict
  }

  /** No two neighbouring ticks of one bucket are further apart than the idle time. */
  ghost predicate Unsplit(o: Options, key: SeriesKey, acc: seq<Tick>)
    requires Supported(key.timeframe)
  {
    forall i :: 0 < i < |acc| ==> !SplitAt(o, key, acc[i - 1], acc[i])
  }

  lemma UnsplitSnoc(o: Options, key: SeriesKey, acc: seq<Tick>, t: Tick)
    requires Supported(key.timeframe)
    ensures Unsplit(o, key, acc + [t])
            <==> Unsplit(o, key, acc) && (acc != [] ==> !SplitAt(o, key, acc[|acc| - 1], t))
  {
    hide SplitAt;
    var next := acc + [t];
    assert forall i :: 0 <= i < |acc| ==> next[i] == acc[i];
    if Unsplit(o, key, next) {
      forall i | 0 < i < |acc|
        ensures !SplitAt(o, key, acc[i - 1], acc[i])
      {
        assert !SplitAt(o, key, next[i - 1], next[i]);
      }
      assert acc != [] ==> !SplitAt(o, key, next[|acc| - 1], next[|acc|]);
    }
  }

  lemma {:induction false} UnsplitRepeats(o: Options, key: SeriesKey, acc: seq<Tick>, t: Tick, n: nat)
    requires Supported(key.timeframe) && n > 0 && o.idleEvict > 0
    ensures Unsplit(o, key, acc + Repeat(t, n))
            <==> Unsplit(o, key, acc) && (acc != [] ==> !SplitAt(o, key, acc[|acc| - 1], t))
  {
    hide Unsplit, B;
    assert acc + Repeat(t, n) == acc + Repeat(t, n - 1) + [t];
    UnsplitSnoc(o, key, acc + Repeat(t, n - 1), t);
    if n > 1 {
      UnsplitRepeats(o, key, acc, t, n - 1);
    } else {
      assert acc + Repeat(t, 0) == acc;
    }
  }

  lemma {:induction false} AcceptedRepeats(o: Options, key: SeriesKey, ticks: seq<Tick>, t: Tick, n: nat)
    requires Supported(key.timeframe) && o.policy.RejectOlder? && n > 0
    ensures var acc := Accepted(o, key, ticks);
            Accepted(o, key, ticks + Repeat(t, n))
            == if acc == [] || B(o, key, acc[|acc| - 1]) <= B(o, key, t) then acc + Repeat(t, n) else acc
  {
    hide Accepted, Feed, B;
    assert ticks + Repeat(t, n) == ticks + Repeat(t, n - 1) + [t];
    AcceptedNext(o, key, ticks + Repeat(t, n - 1), t);
    FeedFollows(o, key, ticks + Repeat(t, n - 1));
    var acc := Accepted(o, key, ticks);
    assert acc + Repeat(t, n) == acc + Repeat(t, n - 1) + [t];
    if n > 1 {
      AcceptedRepeats(o, key, ticks, t, n - 1);
    } else {
      assert ticks + Repeat(t, 0) == ticks && acc + Repeat(t, 0) == acc;
    }
  }

  /** What is remembered while no bucket has split: the last accepted tick, and no eviction. */
  ghost predicate Tracks(m: Memory, acc: seq<Tick>) {
    !m.evicted && m.last == if acc == [] then None else Some(acc[|acc| - 1])
  }

  /** An input of the symbol keeps its buckets whole exactly when it does not resume one. */
  lemma InputSplits(o: Options, key: SeriesKey, m: Memory, ticks: seq<Tick>, i: Input)
    requires Supported(key.timeframe) && o.policy.RejectOlder? && o.idleEvict > 0
    requires Tracks(m, Accepted(o, key, ticks)) && i.tick.symbol == key.symbol
    requires Listed(i.timeframes, key.timeframe, |i.timeframes|) > 0
    ensures var acc := Accepted(o, key, ticks);
            var next := Accepted(o, key, ticks + Repeat(i.tick, Listed(i.timeframes, key.timeframe, |i.timeframes|)));
            && (Unsplit(o, key, next) <==> Unsplit(o, key, acc) && !Resumes(o, key, m, i, 1))
            && Tracks(AfterInput(o, key, m, i), next)
  {
    hide Accepted, Unsplit, Resumes, SplitAt, Listed, Repeat, B, EvictedBy, AfterOffer;
    var acc, n := Accepted(o, key, ticks), Listed(i.timeframes, key.timeframe, |i.timeframes|);
    NeverEarlier(o, key, m, i);
    AcceptedRepeats(o, key, ticks, i.tick, n);
    UnsplitRepeats(o, key, acc, i.tick, n);
    RemembersLast(o, key, m, acc, i.tick, n);
    NotEvicted(o, key, m.(evicted := EvictedBy(o, m, i.tick)), i.tick);
    SplitIsLater(o, key, m, i.tick);
  }

  lemma SplitIsLater(o: Options, key: SeriesKey, m: Memory, t: Tick)
    requires Supported(key.timeframe)
    ensures m.last.Some? && SplitAt(o, key, m.last.value, t) ==> B(o, key, m.last.value) <= B(o, key, t)
  {
  }

  lemma StillSplit(o: Options, key: SeriesKey, ticks: seq<Tick>, t: Tick, n: nat)
    requires Supported(key.timeframe) && o.policy.RejectOlder? && o.idleEvict > 0
    requires !Unsplit(o, key, Accepted(o, key, ticks))
    ensures !Unsplit(o, key, Accepted(o, key, ticks + Repeat(t, n)))
  {
    hide Accepted, Unsplit, B;
    if n > 0 {
      AcceptedRepeats(o, key, ticks, t, n);
      UnsplitRepeats(o, key, Accepted(o, key, ticks), t, n);
    } else {
      assert ticks + Repeat(t, n) == ticks;
    }
  }

  lemma {:induction false} ResumesIffSplit(o: Options, key: SeriesKey, inputs: seq<Input>)
    requires Supported(key.timeframe) && o.policy.RejectOlder? && o.idleEvict > 0 && AlwaysListed(key, inputs)
    ensures var acc := Accepted(o, key, TicksOf(key, inputs));
            && (NeverResumes(o, key, inputs, 1) <==> Unsplit(o, key, acc))
            && (Unsplit(o, key, acc) ==> Tracks(Recall(o, key, inputs), acc))
  {
    if inputs == [] {
      NothingSplit(o, key);
    } else {
      hide Accepted, NeverResumes, Unsplit, Resumes, Listed, Repeat, AfterInput, Tracks;
      var n := |inputs| - 1;
      var x, ticks := inputs[n], TicksOf(key, inputs[..n]);
      ResumesIffSplit(o, key, inputs[..n]);
      NeverSnoc(o, key, inputs, 1);
      if x.tick.symbol != key.symbol {
        ElseResumes(o, key, Recall(o, key, inputs[..n]), x);
      } else if Unsplit(o, key, Accepted(o, key, ticks)) {
        InputSplits(o, key, Recall(o, key, inputs[..n]), ticks, x);
      } else {
        StillSplit(o, key, ticks, x.tick, Listed(x.timeframes, key.timeframe, |x.timeframes|));
      }
    }
  }

  lemma ElseResumes(o: Options, key: SeriesKey, m: Memory, i: Input)
    requires Supported(key.timeframe) && i.tick.symbol != key.symbol
    ensures !Resumes(o, key, m, i, 1) && AfterInput(o, key, m, i) == m
  {
  }

  lemma NothingSplit(o: Options, key: SeriesKey)
    requires Supported(key.timeframe)
    ensures Accepted(o, key, TicksOf(key, [])) == [] && Unsplit(o, key, []) && NeverResumes(o, key, [], 1)
  {
  }

  /** The tick offered is remembered exactly when it is accepted. */
  lemma RemembersLast(o: Options, key: SeriesKey, m: Memory, acc: seq<Tick>, t: Tick, n: nat)
    requires Supported(key.timeframe) && n > 0 && !m.evicted
    requires m.last == if acc == [] then None else Some(acc[|acc| - 1])
    ensures var next := if acc == [] || B(o, key, acc[|acc| - 1]) <= B(o, key, t) then acc + Repeat(t, n) else acc;
            AfterOffer(o, key, m.(evicted := EvictedBy(o, m, t)), t).last
            == if next == [] then None else Some(next[|next| - 1])
  {
    if acc != [] && EvictedBy(o, m, t) {
      BucketMonotone(TimeOf(acc[|acc| - 1]), TimeOf(t), key.timeframe, o.utcOffset);
    }
    hide Bucket;
  }

  /**
    With every update listing the timeframe, the condition is on neighbouring ticks alone: the run
    is the batch, and open times strictly increase, exactly when no two neighbouring accepted ticks
    of one bucket are further apart than the idle time.
   */
  lemma ListedIsBatchIff(o: Options, inputs: seq<Input>, key: SeriesKey)
    requires AllSupported(inputs) && Supported(key.timeframe) && AlwaysListed(key, inputs)
    requires o.policy.RejectOlder? && o.idleEvict > 0
    ensures var r, acc := Run(o, inputs), Accepted(o, key, TicksOf(key, inputs));
            var emitted := OfKey(r.closed + InProgress(r.state, |r.state.order|), key);
            && (IsBatch(o, key, emitted, acc) <==> Unsplit(o, key, acc))
            && (Increasing(emitted) <==> Unsplit(o, key, acc))
  {
    hide Run, OfKey, InProgress, AllSupported, NonDecreasing, Increasing, IsBatch, Accepted, TicksOf, NeverResumes,
         Unsplit, AlwaysListed, Recall;
    EvictionIsBatchIff(o, inputs, key);
    ResumesIffSplit(o, key, inputs);
  }

  /** An idle time of at least the width of a bar never splits a bucket, from the epoch on. */
  lemma LongIdleUnsplit(o: Options, key: SeriesKey, acc: seq<Tick>)
    requires Supported(key.timeframe) && o.idleEvict >= Width(key.timeframe)
    requires forall i :: 0 <= i < |acc| ==> TimeOf(acc[i]) >= 0
    ensures Unsplit(o, key, acc)
  {
    hide Bucket, FloorTo;
    forall i | 0 < i < |acc|
      ensures !SplitAt(o, key, acc[i - 1], acc[i])
    {
      var s, t := TimeOf(acc[i - 1]), TimeOf(acc[i]);
      FloorNonNegative(s, MINUTE);
      FloorNonNegative(t, MINUTE);
      BucketContains(s, key.timeframe, o.utcOffset);
      BucketContains(t, key.timeframe, o.utcOffset);
    }
  }

  /** So with such an idle time a run is the batch. */
  lemma LongIdleIsBatch(o: Options, inputs: seq<Input>, key: SeriesKey)
    requires AllSupported(inputs) && Supported(key.timeframe) && AlwaysListed(key, inputs)
    requires o.policy.RejectOlder? && o.idleEvict >= Width(key.timeframe)
    requires forall i :: 0 <= i < |inputs| ==> TimeOf(inputs[i].tick) >= 0
    ensures var r, acc := Run(o, inputs), Accepted(o, key, TicksOf(key, inputs));
            IsBatch(o, key, OfKey(r.closed + InProgress(r.state, |r.state.order|), key), acc)
  {
    hide Run, Accepted, OfKey, TicksOf, InProgress, AllSupported, Unsplit, Increasing, AlwaysListed, IsBatch;
    var ticks := TicksOf(key, inputs);
    ListedIsBatchIff(o, inputs, key);
    AcceptedFrom(o, key, ticks);
    TicksFrom(key, inputs);
    var acc := Accepted(o, key, ticks);
    forall i | 0 <= i < |acc|
      ensures TimeOf(acc[i]) >= 0
    {
      assert acc[i] in acc;
      var k :| 0 <= k < |inputs| && inputs[k].tick == acc[i];
    }
    LongIdleUnsplit(o, key, acc);
  }

  /** The ticks of a series are ticks of the run. */
  lemma {:induction false} TicksFrom(key: SeriesKey, inputs: seq<Input>)
    ensures forall t :: t in TicksOf(key, inputs) ==> exists i :: 0 <= i < |inputs| && inputs[i].tick == t
  {
    hide Listed;
    if inputs != [] {
      var n := |inputs| - 1;
      TicksFrom(key, inputs[..n]);
      forall t | t in TicksOf(key, inputs)
        ensures exists i :: 0 <= i < |inputs| && inputs[i].tick == t
      {
        if t in TicksOf(key, inputs[..n]) {
          var i :| 0 <= i < n && inputs[..n][i].tick == t;
          assert inputs[i].tick == t;
        } else {
          assert inputs[n].tick == t;
        }
      }
    }
  }

  /** Thirty seconds apart in one minute, with an idle time of ten seconds: the minute is split. */
  lemma EvictionSplits(o: Options, key: SeriesKey, first: Tick, second: Tick, inputs: seq<Input>)
    requires o == Options(VolumeCumulative, RejectOlder, 10 * SECOND, 0) && key == SeriesKey("NIFTY", TF1m)
    requires first == Tick("NIFTY", 100.0, 10, 0, 0)
    requires second == Tick("NIFTY", 105.0, 20, 30 * SECOND, 30 * SECOND)
    requires inputs == [Input(first, [TF1m]), Input(second, [TF1m])]
    ensures var r, acc := Run(o, inputs), Accepted(o, key, TicksOf(key, inputs));
            var emitted := OfKey(r.closed + InProgress(r.state, |r.state.order|), key);
            !Increasing(emitted) && !IsBatch(o, key, emitted, acc)
  {
    hide Run, OfKey, InProgress, TicksOf, Increasing, IsBatch, Accepted, Unsplit, B;
    TwoTicks(key, first, second, inputs);
    BothAccepted(o, key, first, second);
    ListedIsBatchIff(o, inputs, key);
  }

  lemma BothAccepted(o: Options, key: SeriesKey, first: Tick, second: Tick)
    requires o.idleEvict == 10 * SECOND && key.timeframe == TF1m
    requires first.providerTS == 0 && second.providerTS == 30 * SECOND
    ensures Accepted(o, key, [first, second]) == [first, second]
    ensures !Unsplit(o, key, [first, second])
  {
    BucketIsFloor(0, TF1m, o.utcOffset);
    BucketIsFloor(30 * SECOND, TF1m, o.utcOffset);
    hide Bucket;
    var ticks := [first, second];
    assert ticks[..1] == [first] && ticks[..1][..0] == [];
    assert Accepted(o, key, [first]) == [first];
    assert SplitAt(o, key, ticks[0], ticks[1]);
  }

  /**
    An update that does not list the timeframe may evict the series, and then an older tick is
    taken: the open times go back by a minute.
   */
  lemma UnlistedGoesBack(o: Options, key: SeriesKey, a: Tick, b: Tick, c: Tick, inputs: seq<Input>)
    requires o == Options(VolumeCumulative, RejectOlder, 10 * SECOND, 0) && key == SeriesKey("NIFTY", TF1m)
    requires a == Tick("NIFTY", 100.0, 10, MINUTE, MINUTE) && b == Tick("NIFTY", 101.0, 20, 2 * MINUTE, 2 * MINUTE)
    requires c == Tick("NIFTY", 102.0, 30, 0, 0)
    requires inputs == [Input(a, [TF1m]), Input(b, [TF5m]), Input(c, [TF1m])]
    ensures var r := Run(o, inputs);
            !NonDecreasing(OfKey(r.closed + InProgress(r.state, |r.state.order|), key))
  {
    hide Run, OfKey, InProgress, NonDecreasing, Increasing, IsBatch, Accepted, TicksOf, B, NeverResumes, Bucket;
    EvictionIsBatchIff(o, inputs, key);
    MinuteOpens(1, 0);
    MinuteOpens(0, 0);
    BucketOf(o, key, a);
    BucketOf(o, key, c);
    ThirdResumes(o, key, a, b, c, inputs);
  }

  lemma BucketOf(o: Options, key: SeriesKey, t: Tick)
    requires Supported(key.timeframe)
    ensures B(o, key, t) == Bucket(TimeOf(t), key.timeframe, o.utcOffset)
  {
  }

  lemma ThirdResumes(o: Options, key: SeriesKey, a: Tick, b: Tick, c: Tick, inputs: seq<Input>)
    requires o.idleEvict == 10 * SECOND && key.timeframe == TF1m
    requires a.symbol == b.symbol == c.symbol == key.symbol
    requires a.providerTS == MINUTE && b.providerTS == 2 * MINUTE
    requires inputs == [Input(a, [TF1m]), Input(b, [TF5m]), Input(c, [TF1m])]
    requires B(o, key, c) < B(o, key, a)
    ensures !NeverResumes(o, key, inputs, 0)
  {
    hide B;
    assert inputs[..2][..1] == inputs[..1] && inputs[..1][..0] == [];
    assert Listed([TF1m], TF1m, 1) == 1 && Listed([TF5m], TF1m, 1) == 0;
    assert Recall(o, key, inputs[..1]) == Memory(Some(a), false);
    assert Recall(o, key, inputs[..2]) == Memory(Some(a), true);
    assert Resumes(o, key, Recall(o, key, inputs[..2]), inputs[2], 0);
  }
}
