/**
  The order of completed runs: by score, highest first, then by run id.
 */
module Ranking {
  import opened Common

  /** Text order by character code, which is also the order of the encoded bytes. */
  predicate Less(a: string, b: string) {
    if a == [] then b != []
    else b != [] && (a[0] < b[0] || (a[0] == b[0] && Less(a[1..], b[1..])))
  }

  /** The texts agree before place `k`; there the first one ends or has the smaller character. */
  predicate FirstDiffer(a: string, b: string, k: nat) {
    && k <= |a| && k < |b|
    && (forall j :: 0 <= j < k ==> a[j] == b[j])
    && (k == |a| || a[k] < b[k])
  }

  /** The first place where two texts differ decides their order. */
  lemma {:induction false} LessMeaning(a: string, b: string)
    ensures Less(a, b) <==> exists k: nat :: FirstDiffer(a, b, k)
  {
    if a == [] || b == [] || a[0] != b[0] {
      assert forall k: nat :: FirstDiffer(a, b, k) ==> k == 0;
      if Less(a, b) {
        assert FirstDiffer(a, b, 0);
      }
    } else {
      LessMeaning(a[1..], b[1..]);
      if Less(a, b) {
        var k: nat :| FirstDiffer(a[1..], b[1..], k);
        LaterDiffer(a, b, k);
      }
      if k: nat :| FirstDiffer(a, b, k) {
        LaterDiffer(a, b, k - 1);
      }
    }
  }

  lemma LaterDiffer(a: string, b: string, k: nat)
    requires a != [] && b != [] && a[0] == b[0]
    ensures FirstDiffer(a, b, k + 1) <==> FirstDiffer(a[1..], b[1..], k)
  {
    if FirstDiffer(a[1..], b[1..], k) {
      forall j | 0 <= j < k + 1
        ensures a[j] == b[j]
      {
        if j > 0 {
          assert a[1..][j - 1] == b[1..][j - 1];
        }
      }
    }
    if FirstDiffer(a, b, k + 1) {
      forall j | 0 <= j < k
        ensures a[1..][j] == b[1..][j]
      {
        assert a[j + 1] == b[j + 1];
      }
    }
  }

  lemma {:induction false} LessIrreflexive(a: string)
    ensures !Less(a, a)
  {
    if a != [] {
      LessIrreflexive(a[1..]);
    }
  }

  lemma {:induction false} LessTransitive(a: string, b: string, c: string)
    requires Less(a, b) && Less(b, c)
    ensures Less(a, c)
  {
    if a != [] && a[0] == b[0] && b[0] == c[0] {
      LessTransitive(a[1..], b[1..], c[1..]);
    }
  }

  lemma {:induction false} LessTotal(a: string, b: string)
    ensures Less(a, b) || a == b || Less(b, a)
  {
    if a != [] && b != [] && a[0] == b[0] {
      LessTotal(a[1..], b[1..]);
      assert a == [a[0]] + a[1..] && b == [b[0]] + b[1..];
    }
  }

  /** What a run is of. */
  datatype Setup = Setup(experimentId: string, strategy: string, parameters: map<string, string>)

  datatype Metrics = Metrics(
    totalTrades: int, netPnL: real, realizedPnL: real, winRate: real, profitFactor: real, averageTrade: real,
    expectancy: real, maxDrawdown: real, riskReward: real, sharpeRatio: real)

  datatype Result = Result(
    runId: string, score: real, rank: int, completedAt: Instant, setup: Setup, metrics: Metrics)

  predicate Beats(a: Result, b: Result) {
    a.score > b.score || (a.score == b.score && Less(a.runId, b.runId))
  }

  lemma BeatsOrder(a: Result, b: Result, c: Result)
    ensures !(Beats(a, b) && Beats(b, a))
    ensures Beats(a, b) && Beats(b, c) ==> Beats(a, c)
    ensures Beats(a, b) || Beats(b, a) || a.runId == b.runId
  {
    LessTotal(a.runId, b.runId);
    if Less(a.runId, b.runId) && Less(b.runId, a.runId) {
      LessTransitive(a.runId, b.runId, a.runId);
    }
    LessIrreflexive(a.runId);
    if Less(a.runId, b.runId) && Less(b.runId, c.runId) {
      LessTransitive(a.runId, b.runId, c.runId);
    }
  }

  type Completed = map<string, Result>

  ghost predicate Keyed(completed: Completed) {
    forall id :: id in completed ==> completed[id].runId == id
  }

  /** Whether `r` is a completed result, apart from the rank it carries. */
  predicate Completes(completed: Completed, r: Result) {
    r.runId in completed && completed[r.runId].(rank := r.rank) == r
  }

  ghost predicate Ordered(out: seq<Result>) {
    forall i, j :: 0 <= i < j < |out| ==> Beats(out[i], out[j])
  }

  ghost predicate Lists(out: seq<Result>, id: string) {
    exists i :: 0 <= i < |out| && out[i].runId == id
  }

  /** The ranking of a set of completed results. */
  ghost predicate IsRanking(completed: Completed, out: seq<Result>) {
    && Ordered(out)
    && (forall i :: 0 <= i < |out| ==> Completes(completed, out[i]) && out[i].rank == i + 1)
    && (forall id :: id in completed ==> Lists(out, id))
  }

  /** The results that come before `r`. */
  ghost function Better(completed: Completed, r: Result): set<string> {
    set id | id in completed && Beats(completed[id], r)
  }

  ghost function FirstIds(out: seq<Result>, n: nat): (ids: set<string>)
    requires n <= |out|
  {
    set i | 0 <= i < n :: out[i].runId
  }

  ghost predicate Drawn(completed: Completed, out: seq<Result>) {
    Ordered(out) && forall i :: 0 <= i < |out| ==> Completes(completed, out[i])
  }

  lemma IdsDistinct(completed: Completed, out: seq<Result>, i: nat, j: nat)
    requires Drawn(completed, out) && i < j < |out|
    ensures out[i].runId != out[j].runId
  {
    assert Beats(out[i], out[j]) && Completes(completed, out[i]) && Completes(completed, out[j]);
    LessIrreflexive(out[i].runId);
  }

  lemma {:induction false} FirstIdsCount(completed: Completed, out: seq<Result>, n: nat)
    requires n <= |out| && Drawn(completed, out)
    ensures |FirstIds(out, n)| == n
  {
    if n > 0 {
      FirstIdsCount(completed, out, n - 1);
      assert FirstIds(out, n) == FirstIds(out, n - 1) + {out[n - 1].runId};
      forall i: nat | i < n - 1
        ensures out[i].runId != out[n - 1].runId
      {
        IdsDistinct(completed, out, i, n - 1);
      }
    } else {
      assert FirstIds(out, n) == {};
    }
  }

  /** The results ahead of place `i` are those that beat it. */
  lemma BetterAreAhead(completed: Completed, out: seq<Result>, i: nat, id: string)
    requires Keyed(completed) && IsRanking(completed, out) && i < |out|
    ensures id in Better(completed, out[i]) <==> id in FirstIds(out, i)
  {
    hide Beats;
    assert Completes(completed, out[i]);
    if id in completed {
      assert Lists(out, id);
      var j :| 0 <= j < |out| && out[j].runId == id;
      assert Completes(completed, out[j]);
      SameBeats(completed[id], out[j], out[i]);
      BeatsOrder(out[i], out[j], out[i]);
      NotBeatenBySelf(out[i]);
      assert Beats(out[j], out[i]) <==> j < i;
    }
    if k: nat :| k < i && out[k].runId == id {
      assert Completes(completed, out[k]);
      SameBeats(completed[id], out[k], out[i]);
      assert Beats(out[k], out[i]);
    }
  }

  lemma SameBeats(a: Result, b: Result, c: Result)
    requires a.score == b.score && a.runId == b.runId
    ensures Beats(a, c) <==> Beats(b, c)
    ensures Beats(c, a) <==> Beats(c, b)
  {
  }

  lemma NotBeatenBySelf(a: Result)
    ensures !Beats(a, a)
  {
    LessIrreflexive(a.runId);
  }

  lemma RankCount(completed: Completed, out: seq<Result>, i: nat)
    requires Keyed(completed) && IsRanking(completed, out) && i < |out|
    ensures out[i].rank == 1 + |Better(completed, out[i])|
  {
    forall id
      ensures id in Better(completed, out[i]) <==> id in FirstIds(out, i)
    {
      BetterAreAhead(completed, out, i, id);
    }
    assert Better(completed, out[i]) == FirstIds(out, i);
    FirstIdsCount(completed, out, i);
  }

  ghost function Higher(completed: Completed, r: Result): set<string> {
    set id | id in completed && completed[id].score > r.score
  }

  ghost function TiedBefore(completed: Completed, r: Result): set<string> {
    set id | id in completed && completed[id].score == r.score && Less(id, r.runId)
  }

  /** Scores never rise along a list, and within one score the ids go up. */
  ghost predicate ByScore(out: seq<Result>) {
    forall i, j :: 0 <= i < j < |out| ==>
                     && out[i].score >= out[j].score
                     && (out[i].score == out[j].score ==> Less(out[i].runId, out[j].runId))
  }

  /**
    A ranking goes down in score and up in id within a score. A rank is one more than the number
    of results with a higher score and of those with the same score and an earlier id.
   */
  lemma RankMeaning(completed: Completed, out: seq<Result>, i: nat)
    requires Keyed(completed) && IsRanking(completed, out) && i < |out|
    ensures ByScore(out)
    ensures out[i].rank == 1 + |Higher(completed, out[i])| + |TiedBefore(completed, out[i])|
  {
    RankCount(completed, out, i);
    var r := out[i];
    assert Better(completed, r) == Higher(completed, r) + TiedBefore(completed, r);
  }

  /** Whatever order the results were collected in, there is one ranking. */
  lemma RankingUnique(completed: Completed, a: seq<Result>, b: seq<Result>)
    requires Keyed(completed) && IsRanking(completed, a) && IsRanking(completed, b)
    ensures a == b
  {
    RankingPrefix(completed, a, b);
    RankingPrefix(completed, b, a);
  }

  lemma RankingPrefix(completed: Completed, a: seq<Result>, b: seq<Result>)
    requires Keyed(completed) && IsRanking(completed, a) && IsRanking(completed, b)
    ensures |a| <= |b|
    ensures forall i {:trigger a[i]} :: 0 <= i < |a| ==> i < |b| && a[i] == b[i]
  {
    hide Beats;
    forall i: nat | i < |a|
      ensures i < |b| && a[i] == b[i]
    {
      assert Completes(completed, a[i]);
      assert Lists(b, a[i].runId);
      var j :| 0 <= j < |b| && b[j].runId == a[i].runId;
      assert Completes(completed, b[j]);
      SameBetter(completed, a[i], b[j]);
      RankCount(completed, a, i);
      RankCount(completed, b, j);
    }
    if |a| > 0 {
      var last := a[|a| - 1];
      assert |a| - 1 < |b|;
    }
  }

  lemma SameBetter(completed: Completed, r: Result, s: Result)
    requires r.score == s.score && r.runId == s.runId
    ensures Better(completed, r) == Better(completed, s)
  {
  }

  lemma BetterShift(before: Completed, x: Result, r: Result)
    ensures |Better(before[x.runId := x], r)|
            == |Better(before, r)|
               - (if x.runId in before && Beats(before[x.runId], r) then 1 else 0)
               + (if Beats(x, r) then 1 else 0)
  {
    hide Beats;
    var after, others := before[x.runId := x], Better(before, r) - {x.runId};
    assert Better(before, r) == if x.runId in before && Beats(before[x.runId], r) then others + {x.runId} else others;
    assert Better(after, r) == if Beats(x, r) then others + {x.runId} else others;
  }

  /** The results are the same but for the ranks they carry. */
  ghost predicate SameResults(a: Completed, b: Completed) {
    a.Keys == b.Keys && forall id :: id in a ==> Completes(a, b[id]) && b[id].runId == id
  }

  /**
    A new result moves down by one exactly those it beats, by a higher score or by an earlier id
    at the same score; a run that is scored again first gives back what its old result beat.
   */
  lemma RankShift(before: Completed, a: seq<Result>, x: Result, after: Completed, b: seq<Result>, i: nat, j: nat)
    requires Keyed(before) && IsRanking(before, a) && Keyed(after) && IsRanking(after, b)
    requires SameResults(before[x.runId := x], after)
    requires i < |a| && j < |b| && a[i].runId == b[j].runId != x.runId
    ensures var r := a[i];
            var gave := x.runId in before
                        && (before[x.runId].score > r.score
                            || (before[x.runId].score == r.score && Less(x.runId, r.runId)));
            var takes := x.score > r.score || (x.score == r.score && Less(x.runId, r.runId));
            b[j].rank == r.rank - (if gave then 1 else 0) + (if takes then 1 else 0)
  {
    RankCount(before, a, i);
    RankCount(after, b, j);
    BetterShift(before, x, a[i]);
    assert Completes(before, a[i]) && Completes(after, b[j]);
    SameShift(before[x.runId := x], after, a[i], b[j]);
  }

  lemma SameShift(a: Completed, b: Completed, r: Result, s: Result)
    requires SameResults(a, b) && Keyed(a)
    requires Completes(b, s) && r.runId == s.runId && r.runId in a && a[r.runId].score == r.score
    ensures Better(a, r) == Better(b, s)
  {
    forall id | id in a
      ensures a[id].score == b[id].score && b[id].runId == id
    {
      assert Completes(a, b[id]);
    }
  }

  /** The best of some results: none of them beats it. */
  ghost predicate IsBest(results: seq<Result>, best: Result) {
    best in results && forall r :: r in results ==> !Beats(r, best)
  }

  /** No result scores higher, and of those with the same score its id comes first. */
  ghost predicate ScoresBest(results: seq<Result>, best: Result) {
    && best in results
    && forall r :: r in results ==>
                     && r.score <= best.score
                     && (r.score == best.score ==> r.runId == best.runId || Less(best.runId, r.runId))
  }

  lemma BestMeaning(results: seq<Result>, best: Result)
    ensures IsBest(results, best) <==> ScoresBest(results, best)
  {
    forall r
      ensures !Beats(r, best) <==> r.score < best.score
                                   || (r.score == best.score && (r.runId == best.runId || Less(best.runId, r.runId)))
    {
      BeatsOrder(r, best, r);
      NotBeatenBySelf(best);
    }
  }

  /** The selector of the walk-forward study. */
  method SelectBest(results: seq<Result>) returns (best: Option<Result>)
    ensures best.None? <==> results == []
    ensures best.Some? ==> IsBest(results, best.value) && ScoresBest(results, best.value)
  {
    if |results| == 0 {
      return None;
    }
    var b := results[0];
    var i := 1;
    NotBeatenBySelf(b);
    while i < |results|
      invariant 1 <= i <= |results|
      invariant IsBest(results[..i], b)
    {
      var result := results[i];
      ghost var before := b;
      if result.score > b.score {
        b := result;
      } else if result.score == b.score && Less(result.runId, b.runId) {
        b := result;
      }
      StillBest(results[..i], before, result);
      assert results[..i + 1] == results[..i] + [result];
      i := i + 1;
    }
    assert results[..i] == results;
    best := Some(b);
    BestMeaning(results, b);
  }

  lemma StillBest(results: seq<Result>, b: Result, r: Result)
    requires IsBest(results, b)
    ensures IsBest(results + [r], if Beats(r, b) then r else b)
  {
    var c := if Beats(r, b) then r else b;
    forall x | x in results + [r]
      ensures !Beats(x, c)
    {
      BeatsOrder(x, r, b);
      NotBeatenBySelf(x);
    }
  }

  /** On the ranked results in any order the selector returns the one ranked first. */
  lemma BestIsRankOne(completed: Completed, out: seq<Result>, results: seq<Result>, best: Result)
    requires Keyed(completed) && IsRanking(completed, out)
    requires multiset(results) == multiset(out)
    requires ScoresBest(results, best)
    ensures out != [] && best == out[0] && best.rank == 1
  {
    BestMeaning(results, best);
    SameElements(results, out);
    assert best in out && out[0] in results;
    var k :| 0 <= k < |out| && out[k] == best;
    if k > 0 {
      assert Beats(out[0], out[k]);
    }
  }
}
