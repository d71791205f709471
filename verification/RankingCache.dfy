/**
  The experiment cache: runs, their results, and a ranking rebuilt after every result.
 */
module RankingCache {
  import opened Common
  import opened Ranking

  datatype Status = Queued | Running | RunCompleted | Failed

  /** A run as registered. */
  datatype Run = Run(runId: string, status: Status, setup: Setup)

  datatype State = State(
    runs: map<string, Run>,
    pending: set<string>,
    completed: Completed,
    rankings: seq<Result>
  )

  const EMPTY := State(map[], {}, map[], [])

  ghost predicate Inv(s: State) {
    && Keyed(s.completed)
    && IsRanking(s.completed, s.rankings)
    && s.pending <= s.runs.Keys
    && s.completed.Keys <= s.runs.Keys
    && (forall r :: r in s.rankings ==> s.completed[r.runId] == r)
    && (forall id :: id in s.runs ==> s.runs[id].runId == id)
  }

  /** Pending runs are exactly the running ones. */
  ghost predicate PendingIsRunning(s: State) {
    forall id :: id in s.pending <==> IsRunning(s, id)
  }

  predicate IsRunning(s: State, id: string) {
    id in s.runs && s.runs[id].status == Running
  }

  function Registered(s: State, run: Run): State {
    s.(runs := s.runs[run.runId := run.(status := Queued)])
  }

  function MarkedRunning(s: State, id: string): State {
    if id in s.runs then
      s.(runs := s.runs[id := s.runs[id].(status := Running)], pending := s.pending + {id})
    else s
  }

  function MarkedFailed(s: State, id: string): State {
    var t := if id in s.runs then s.(runs := s.runs[id := s.runs[id].(status := Failed)]) else s;
    t.(pending := t.pending - {id})
  }

  /** What storing a result does apart from the ranking it leads to. */
  ghost predicate Stored(s: State, t: State, id: string, score: real, metrics: Metrics, at: Instant) {
    if id in s.runs then
      && t.runs == s.runs[id := s.runs[id].(status := RunCompleted)]
      && t.pending == s.pending - {id}
      && t.completed.Keys == s.completed.Keys + {id}
      && (forall k :: k in t.completed ==>
                        Completes(s.completed[id := Result(id, score, 0, at, s.runs[id].setup, metrics)],
                                  t.completed[k]))
    else t == s
  }

  /** Registering keeps pending and running in step only for runs that are not pending. */
  lemma RegisterKeepsIff(s: State, run: Run)
    requires PendingIsRunning(s)
    ensures PendingIsRunning(Registered(s, run)) <==> run.runId !in s.pending
  {
  }

  lemma MarksKeep(s: State, id: string)
    requires PendingIsRunning(s)
    ensures PendingIsRunning(MarkedRunning(s, id))
    ensures PendingIsRunning(MarkedFailed(s, id))
  {
  }

  // Runs of calls.

  datatype Call = RegisterRun(run: Run) | Begin(id: string) | Fail(id: string)
                | Store(id: string, score: real, metrics: Metrics, at: Instant)

  function Subject(c: Call): string {
    if c.RegisterRun? then c.run.runId else c.id
  }

  /** What each method does to the cache. */
  ghost predicate Does(s: State, c: Call, t: State) {
    match c
    case RegisterRun(run) => t == Registered(s, run)
    case Begin(id) => t == MarkedRunning(s, id)
    case Fail(id) => t == MarkedFailed(s, id)
    case Store(id, score, metrics, at) => Stored(s, t, id, score, metrics, at)
  }

  /** The states that a run of calls passes through, from an empty cache. */
  ghost predicate Trace(states: seq<State>, calls: seq<Call>) {
    && |states| == |calls| + 1 && states[0] == EMPTY
    && forall i :: 0 <= i < |calls| ==> Does(states[i], calls[i], states[i + 1])
  }

  /** The last of the first `n` calls about an id registered it while it was pending. */
  predicate Requeued(states: seq<State>, calls: seq<Call>, id: string, n: nat)
    requires n <= |calls| < |states|
  {
    n > 0
    && if Subject(calls[n - 1]) != id then Requeued(states, calls, id, n - 1)
       else calls[n - 1].RegisterRun? && id in states[n - 1].pending
  }

  lemma CallMoves(s: State, c: Call, t: State, id: string)
    requires Does(s, c, t)
    ensures Subject(c) != id ==> (id in t.pending <==> id in s.pending) && (IsRunning(t, id) <==> IsRunning(s, id))
    ensures Subject(c) == id && c.RegisterRun? ==> (id in t.pending <==> id in s.pending) && !IsRunning(t, id)
    ensures Subject(c) == id && !c.RegisterRun? && (id in s.pending ==> id in s.runs) ==>
              (id in t.pending <==> IsRunning(t, id))
    ensures (id in s.pending ==> id in s.runs) ==> (id in t.pending ==> id in t.runs)
  {
  }

  lemma {:induction false} PendingAfter(states: seq<State>, calls: seq<Call>, id: string, n: nat)
    requires Trace(states, calls) && n <= |calls|
    ensures var s := states[n];
            && (id in s.pending ==> id in s.runs)
            && (id in s.pending <==> IsRunning(s, id) || Requeued(states, calls, id, n))
            && !(IsRunning(s, id) && Requeued(states, calls, id, n))
  {
    hide Does, IsRunning;
    if n == 0 {
      NothingRuns(id);
    } else {
      PendingAfter(states, calls, id, n - 1);
      CallMoves(states[n - 1], calls[n - 1], states[n], id);
    }
  }

  lemma NothingRuns(id: string)
    ensures !IsRunning(EMPTY, id)
  {
  }

  /** What became of a run in the end: queued again, and still pending. */
  predicate LeftPending(states: seq<State>, calls: seq<Call>, id: string)
    requires |states| == |calls| + 1
  {
    Requeued(states, calls, id, |calls|)
  }

  /**
    Over every run of calls: the pending runs are exactly the running ones unless, for some run,
    the last call about it registered it again while it was pending.
   */
  lemma InStepIff(states: seq<State>, calls: seq<Call>)
    requires Trace(states, calls)
    ensures PendingIsRunning(states[|calls|]) <==> forall id :: !LeftPending(states, calls, id)
  {
    var s := states[|calls|];
    forall id
      ensures LeftPending(states, calls, id) <==> !(id in s.pending <==> IsRunning(s, id))
    {
      PendingAfter(states, calls, id, |calls|);
    }
    hide Does, LeftPending, Requeued;
    if id :| LeftPending(states, calls, id) {
      assert !(id in s.pending <==> IsRunning(s, id));
    }
  }

  /** Where it fails: a run that is registered, marked running and registered again. */
  lemma RequeuedStaysPending(run: Run)
    ensures var s := Registered(MarkedRunning(Registered(EMPTY, run), run.runId), run);
            && run.runId in s.pending && s.runs[run.runId].status == Queued
            && !PendingIsRunning(s)
  {
    var s := Registered(MarkedRunning(Registered(EMPTY, run), run.runId), run);
    assert run.runId in s.pending && !IsRunning(s, run.runId);
  }

  /** The sorted results with their ranks filled in, as far as `ranked` goes. */
  ghost predicate RankedSoFar(sorted: seq<Result>, ranked: seq<Result>) {
    |ranked| <= |sorted| && forall k :: 0 <= k < |ranked| ==> ranked[k] == sorted[k].(rank := k + 1)
  }

  ghost predicate Carried(completed: Completed, ranked: seq<Result>) {
    forall r :: r in ranked ==> r.runId in completed && completed[r.runId] == r
  }

  lemma StillCarried(before: Completed, sorted: seq<Result>, completed: Completed, ranked: seq<Result>,
                     r: Result)
    requires Drawn(before, sorted) && RankedSoFar(sorted, ranked) && Carried(completed, ranked)
    requires |ranked| < |sorted| && r == sorted[|ranked|].(rank := |ranked| + 1)
    ensures Carried(completed[r.runId := r], ranked + [r])
  {
    forall x | x in ranked
      ensures x.runId != r.runId
    {
      var k :| 0 <= k < |ranked| && ranked[k] == x;
      IdsDistinct(before, sorted, k, |ranked|);
    }
  }

  /** The loop's progress: the first ranks are given out, and only ranks have changed. */
  ghost predicate Ranked(before: Completed, sorted: seq<Result>, completed: Completed, ranked: seq<Result>) {
    && RankedSoFar(sorted, ranked)
    && Keyed(completed) && completed.Keys == before.Keys
    && Carried(completed, ranked)
    && (forall id :: id in completed ==> Completes(before, completed[id]))
  }

  lemma NoneRanked(before: Completed, sorted: seq<Result>)
    requires Keyed(before)
    ensures Ranked(before, sorted, before, [])
  {
  }

  lemma RankStep(before: Completed, sorted: seq<Result>, completed: Completed, ranked: seq<Result>, r: Result)
    requires Drawn(before, sorted) && Ranked(before, sorted, completed, ranked)
    requires |ranked| < |sorted| && r == sorted[|ranked|].(rank := |ranked| + 1)
    ensures Ranked(before, sorted, completed[r.runId := r], ranked + [r])
  {
    hide Carried, Beats;
    assert Completes(before, sorted[|ranked|]);
    StillCarried(before, sorted, completed, ranked, r);
  }

  lemma RankedMeans(before: Completed, sorted: seq<Result>, completed: Completed, ranked: seq<Result>)
    requires Ranked(before, sorted, completed, ranked)
    ensures Keyed(completed) && completed.Keys == before.Keys
    ensures forall r :: r in ranked ==> r.runId in completed && completed[r.runId] == r
    ensures forall id :: id in completed ==> Completes(before, completed[id])
  {
  }

  lemma AllRanked(before: Completed, sorted: seq<Result>, completed: Completed, ranked: seq<Result>)
    requires Drawn(before, sorted) && Ranked(before, sorted, completed, ranked) && |ranked| == |sorted|
    requires forall id :: id in before ==> Lists(sorted, id)
    ensures IsRanking(completed, ranked)
  {
  }

  lemma RankingByScore(completed: Completed, out: seq<Result>)
    requires IsRanking(completed, out)
    ensures ByScore(out)
  {
  }

  lemma RankOfListed(completed: Completed, out: seq<Result>, id: string)
    requires Keyed(completed) && IsRanking(completed, out) && id in completed
    requires forall r :: r in out ==> completed[r.runId] == r
    ensures completed[id].rank == 1 + |Higher(completed, completed[id])| + |TiedBefore(completed, completed[id])|
  {
    hide Beats;
    assert Lists(out, id);
    var i :| 0 <= i < |out| && out[i].runId == id;
    RankMeaning(completed, out, i);
  }

  class Cache {
    var runs: map<string, Run>
    var pending: set<string>
    var completed: Completed
    var rankings: seq<Result>

    ghost function View(): State
      reads this
    {
      State(runs, pending, completed, rankings)
    }

    ghost predicate Valid()
      reads this
    {
      Inv(View())
    }

    constructor ()
      ensures Valid() && View() == EMPTY
    {
      runs, pending, completed, rankings := map[], {}, map[], [];
    }

    method Register(run: Run)
      requires Valid()
      modifies this`runs
      ensures Valid() && View() == Registered(old(View()), run)
    {
      runs := runs[run.runId := run.(status := Queued)];
    }

    method MarkRunning(id: string)
      requires Valid()
      modifies this
      ensures Valid() && View() == MarkedRunning(old(View()), id)
    {
      if id in runs {
        runs := runs[id := runs[id].(status := Running)];
        pending := pending + {id};
      }
    }

    method MarkFailed(id: string)
      requires Valid()
      modifies this
      ensures Valid() && View() == MarkedFailed(old(View()), id)
    {
      if id in runs {
        runs := runs[id := runs[id].(status := Failed)];
      }
      pending := pending - {id};
    }

    /** The result is recorded, the ranking rebuilt, and the result returned with its rank. */
    method StoreResult(id: string, score: real, metrics: Metrics, at: Instant) returns (result: Option<Result>)
      requires Valid()
      modifies this
      ensures Valid()
      ensures Stored(old(View()), View(), id, score, metrics, at)
      ensures result.Some? <==> id in old(runs)
      ensures result.Some? ==> id in completed && result.value == completed[id]
                               && result.value.(rank := 0)
                                  == Result(id, score, 0, at, old(runs)[id].setup, metrics)
      ensures result.Some? ==> result.value.rank == 1 + |Higher(completed, result.value)|
                                                    + |TiedBefore(completed, result.value)|
    {
      hide ByScore, Higher, TiedBefore, IsRanking;
      if id !in runs {
        return None;
      }
      runs := runs[id := runs[id].(status := RunCompleted)];
      pending := pending - {id};
      completed := completed[id := Result(id, score, 0, at, runs[id].setup, metrics)];
      RebuildRankings();
      assert Completes(old(completed)[id := Result(id, score, 0, at, old(runs)[id].setup, metrics)], completed[id]);
      result := Some(completed[id]);
      RankOfListed(completed, rankings, id);
    }

    method RebuildRankings()
      requires Keyed(completed)
      modifies this`completed, this`rankings
      ensures Keyed(completed) && completed.Keys == old(completed).Keys
      ensures IsRanking(completed, rankings) && ByScore(rankings)
      ensures forall r :: r in rankings ==> completed[r.runId] == r
      ensures forall id :: id in completed ==> Completes(old(completed), completed[id])
    {
      hide Ranked, Drawn, Keyed, Completes, IsRanking, Lists;
      var sorted := Collect();
      ghost var before := completed;
      rankings := [];
      NoneRanked(before, sorted);
      var i := 0;
      while i < |sorted|
        invariant 0 <= i <= |sorted| && |rankings| == i
        invariant Ranked(before, sorted, completed, rankings)
      {
        var r := sorted[i].(rank := i + 1);
        RankStep(before, sorted, completed, rankings, r);
        completed := completed[r.runId := r];
        rankings := rankings + [r];
        i := i + 1;
      }
      AllRanked(before, sorted, completed, rankings);
      RankingByScore(completed, rankings);
      RankedMeans(before, sorted, completed, rankings);
    }

    /** The completed results, collected in any order and sorted. */
    method Collect() returns (sorted: seq<Result>)
      requires Keyed(completed)
      ensures Drawn(completed, sorted)
      ensures forall id :: id in completed ==> Lists(sorted, id)
    {
      sorted := [];
      var remaining := completed.Keys;
      while remaining != {}
        invariant remaining <= completed.Keys
        invariant Drawn(completed, sorted)
        invariant forall id :: id in completed && id !in remaining ==> Lists(sorted, id)
        invariant forall r :: r in sorted ==> r.runId !in remaining
        decreases |remaining|
      {
        var id :| id in remaining;
        remaining := remaining - {id};
        ghost var before := sorted;
        sorted := InsertRanked(sorted, completed[id]);
        InsertedDrawn(completed, before, completed[id], sorted);
      }
    }
  }

  lemma InsertedDrawn(completed: Completed, sorted: seq<Result>, r: Result, out: seq<Result>)
    requires Drawn(completed, sorted) && Completes(completed, r) && Ordered(out)
    requires forall x :: x in out <==> x == r || x in sorted
    ensures Drawn(completed, out)
    ensures forall id :: Lists(sorted, id) || id == r.runId ==> Lists(out, id)
  {
    forall i | 0 <= i < |out|
      ensures Completes(completed, out[i])
    {
      assert out[i] in out;
    }
    forall id | Lists(sorted, id) || id == r.runId
      ensures Lists(out, id)
    {
      if id == r.runId {
        assert r in out;
      } else {
        var i :| 0 <= i < |sorted| && sorted[i].runId == id;
        assert sorted[i] in out;
      }
    }
  }

  method InsertRanked(sorted: seq<Result>, r: Result) returns (out: seq<Result>)
    requires Ordered(sorted)
    requires forall x :: x in sorted ==> x.runId != r.runId
    ensures Ordered(out)
    ensures forall x :: x in out <==> x == r || x in sorted
  {
    var k := 0;
    while k < |sorted| && Beats(sorted[k], r)
      invariant 0 <= k <= |sorted|
      invariant forall j :: 0 <= j < k ==> Beats(sorted[j], r)
    {
      k := k + 1;
    }
    out := sorted[..k] + [r] + sorted[k..];
    InsertedOrdered(sorted, r, k);
  }

  lemma InsertedOrdered(sorted: seq<Result>, r: Result, k: nat)
    requires Ordered(sorted) && k <= |sorted|
    requires forall x :: x in sorted ==> x.runId != r.runId
    requires forall j :: 0 <= j < k ==> Beats(sorted[j], r)
    requires k < |sorted| ==> !Beats(sorted[k], r)
    ensures Ordered(sorted[..k] + [r] + sorted[k..])
  {
    hide Beats;
    forall j | k <= j < |sorted|
      ensures Beats(r, sorted[j])
    {
      BeatsOrder(r, sorted[k], sorted[j]);
      assert sorted[k] in sorted;
    }
  }
}
