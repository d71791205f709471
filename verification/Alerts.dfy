/**
  The alert cache: first sightings, the cooldown, alert ids and a bounded history.
 */
module Alerts {
  import opened Common
  import opened RecordIds

  datatype Fingerprint = Fingerprint(
    recommendationId: string,
    alertType: string,
    currentStatus: string,
    reason: string
  )

  datatype Alert = Alert(alertId: string, fingerprint: Fingerprint, symbol: string, generatedAt: Instant)

  const DEFAULT_COOLDOWN: int := 5 * MINUTE
  const MAX_HISTORY := 10000

  type LastEmitted = map<Fingerprint, Instant>

  function Cooldown(configured: int): (c: int)
    ensures c > 0
    ensures configured > 0 ==> c == configured
    ensures configured <= 0 ==> c == 300_000_000_000
  {
    if configured <= 0 then DEFAULT_COOLDOWN else configured
  }

  predicate Emits(cooldown: int, last: LastEmitted, key: Fingerprint, at: Instant) {
    key in last ==> at - last[key] >= cooldown
  }

  class Cache {
    const cooldown: int
    const dateText: Instant -> string
    var seen: set<string>
    var lastEmitted: LastEmitted
    var counters: Counters
    var history: seq<Alert>

    constructor (configured: int, dateText: Instant -> string)
      ensures cooldown == Cooldown(configured) && this.dateText == dateText
      ensures seen == {} && lastEmitted == map[] && counters == map[] && history == []
    {
      cooldown, this.dateText := Cooldown(configured), dateText;
      seen, lastEmitted, counters, history := {}, map[], map[], [];
    }

    method MarkSeen(id: string) returns (first: bool)
      modifies this`seen
      ensures first <==> id !in old(seen)
      ensures seen == old(seen) + {id}
    {
      if id in seen {
        assert seen == seen + {id};
        return false;
      }
      seen := seen + {id};
      return true;
    }

    method ShouldEmit(key: Fingerprint, at: Instant) returns (emit: bool)
      modifies this`lastEmitted
      ensures emit <==> Emits(cooldown, old(lastEmitted), key, at)
      ensures lastEmitted == if emit then old(lastEmitted)[key := at] else old(lastEmitted)
    {
      if key in lastEmitted {
        if at - lastEmitted[key] < cooldown {
          return false;
        }
      }
      lastEmitted := lastEmitted[key := at];
      return true;
    }

    method NextAlertId(symbol: string, at: Instant) returns (id: string)
      modifies this`counters
      ensures (counters, id) == Issue(dateText, old(counters), symbol, at)
    {
      var key := CounterKey(dateText(at), symbol);
      var n := Count(counters, key) + 1;
      counters := counters[key := n];
      id := AlertText(dateText(at), symbol, n);
    }

    method Record(alert: Alert)
      modifies this`history
      ensures history == Tail(old(history) + [alert], 10000)
    {
      history := history + [alert];
      if |history| > MAX_HISTORY {
        history := history[|history| - MAX_HISTORY..];
      }
    }
  }

  // The cooldown over runs.

  datatype Call = Call(key: Fingerprint, at: Instant)

  function LastAfter(cooldown: int, calls: seq<Call>): LastEmitted {
    if calls == [] then map[]
    else
      var before, c := LastAfter(cooldown, calls[..|calls| - 1]), calls[|calls| - 1];
      if Emits(cooldown, before, c.key, c.at) then before[c.key := c.at] else before
  }

  /** The instants at which a fingerprint was emitted during a run of calls. */
  function EmittedAt(cooldown: int, calls: seq<Call>, key: Fingerprint): seq<Instant> {
    if calls == [] then []
    else
      var front, c := calls[..|calls| - 1], calls[|calls| - 1];
      var before := EmittedAt(cooldown, front, key);
      if c.key == key && Emits(cooldown, LastAfter(cooldown, front), c.key, c.at)
      then before + [c.at] else before
  }

  ghost predicate Spaced(times: seq<Instant>, gap: int) {
    forall i :: 0 < i < |times| ==> times[i] - times[i - 1] >= gap
  }

  /** Emissions of one fingerprint are spaced, whatever the order of the timestamps offered. */
  lemma {:induction false} EmissionsSpaced(cooldown: int, calls: seq<Call>, key: Fingerprint)
    ensures var times, last := EmittedAt(cooldown, calls, key), LastAfter(cooldown, calls);
            && Spaced(times, cooldown)
            && (key in last <==> times != [])
            && (times != [] ==> last[key] == times[|times| - 1])
  {
    if calls != [] {
      EmissionsSpaced(cooldown, calls[..|calls| - 1], key);
    }
  }

  /** A call is emitted exactly if it comes at least a cooldown after the last emission, or is the first one. */
  lemma EmittedIff(cooldown: int, calls: seq<Call>, c: Call)
    ensures var before, after := EmittedAt(cooldown, calls, c.key), EmittedAt(cooldown, calls + [c], c.key);
            after == if before == [] || c.at >= before[|before| - 1] + cooldown then before + [c.at] else before
  {
    assert (calls + [c])[..|calls|] == calls;
    EmissionsSpaced(cooldown, calls, c.key);
  }

  lemma {:induction false} SpacedSpan(times: seq<Instant>, gap: int)
    requires gap > 0 && Spaced(times, gap) && times != []
    ensures times[|times| - 1] - times[0] >= (|times| - 1) * gap
  {
    if |times| > 1 {
      var front := times[..|times| - 1];
      SpacedSpan(front, gap);
      assert (|times| - 1) * gap == (|front| - 1) * gap + gap;
    }
  }

  /** What is picked out of a spaced list by an interval is spaced, and ends no later. */
  lemma {:induction false} SpacedFilter(times: seq<Instant>, gap: int, p: Instant -> bool)
    requires gap > 0 && Spaced(times, gap)
    ensures var r := Filter(times, p);
            Spaced(r, gap) && (r != [] ==> r[|r| - 1] <= times[|times| - 1])
  {
    if times != [] {
      var front := times[..|times| - 1];
      SpacedFilter(front, gap, p);
      if front != [] {
        assert times[|times| - 1] - times[|front| - 1] >= gap;
      }
    }
  }

  /**
    The rate bound: in any closed interval of some length a fingerprint is emitted at most once
    more than the number of cooldowns that fit into it.
   */
  lemma RateBound(cooldown: int, calls: seq<Call>, key: Fingerprint, from: Instant, length: nat)
    requires cooldown > 0
    ensures |Filter(EmittedAt(cooldown, calls, key), (t: Instant) => from <= t <= from + length)|
            <= length / cooldown + 1
  {
    var times, inside := EmittedAt(cooldown, calls, key), (t: Instant) => from <= t <= from + length;
    var r := Filter(times, inside);
    EmissionsSpaced(cooldown, calls, key);
    SpacedFilter(times, cooldown, inside);
    if r != [] {
      SpacedSpan(r, cooldown);
      assert r[0] in r && r[|r| - 1] in r;
      FitsInto(|r| - 1, cooldown, length);
    }
  }

  lemma FitsInto(n: nat, gap: int, length: nat)
    requires gap > 0 && n * gap <= length
    ensures n <= length / gap
  {
    assert length == (length / gap) * gap + length % gap;
    if n > length / gap {
      Multiples(length / gap + 1, n, gap);
    }
  }

  lemma Multiples(a: nat, b: nat, gap: int)
    requires a <= b && gap > 0
    ensures a * gap <= b * gap
  {
  }

  /** Calls at every multiple of the cooldown. */
  function Steady(key: Fingerprint, from: Instant, cooldown: int, n: nat): seq<Call> {
    if n == 0 then [] else Steady(key, from, cooldown, n - 1) + [Call(key, from + (n - 1) * cooldown)]
  }

  /** The bound is reached: steady calls are all emitted. */
  lemma {:induction false} SteadyCallsAllEmit(key: Fingerprint, from: Instant, cooldown: int, n: nat)
    requires cooldown > 0
    ensures var times := EmittedAt(cooldown, Steady(key, from, cooldown, n), key);
            |times| == n && forall i :: 0 <= i < n ==> times[i] == from + i * cooldown
  {
    if n > 0 {
      var calls := Steady(key, from, cooldown, n);
      SteadyCallsAllEmit(key, from, cooldown, n - 1);
      assert calls[..|calls| - 1] == Steady(key, from, cooldown, n - 1);
      EmissionsSpaced(cooldown, Steady(key, from, cooldown, n - 1), key);
      if n > 1 {
        assert (n - 1) * cooldown - (n - 2) * cooldown == cooldown;
      }
    }
  }

  // First sightings.

  function SeenAfter(ids: seq<string>): set<string> {
    set id | id in ids
  }

  /** Whether each call of a run reported a first sighting. */
  function Firsts(ids: seq<string>): (r: seq<bool>)
    ensures |r| == |ids|
  {
    if ids == [] then []
    else Firsts(ids[..|ids| - 1]) + [ids[|ids| - 1] !in SeenAfter(ids[..|ids| - 1])]
  }

  /** No call before the `i`-th had the same id. */
  ghost predicate IsNew(ids: seq<string>, i: nat)
    requires i < |ids|
  {
    forall j :: 0 <= j < i ==> ids[j] != ids[i]
  }

  /** Each id is reported first exactly once, at its first call. */
  lemma {:induction false} FirstExactlyOnce(ids: seq<string>, i: nat)
    requires i < |ids|
    ensures Firsts(ids)[i] <==> IsNew(ids, i)
  {
    hide SeenAfter, IsNew;
    var n := |ids| - 1;
    NewMeansUnseen(ids, n);
    if i < n {
      FirstExactlyOnce(ids[..n], i);
      NewInFront(ids, n, i);
    }
  }

  lemma NewMeansUnseen(ids: seq<string>, n: nat)
    requires n < |ids|
    ensures ids[n] !in SeenAfter(ids[..n]) <==> IsNew(ids, n)
  {
  }

  lemma NewInFront(ids: seq<string>, n: nat, i: nat)
    requires i < n <= |ids|
    ensures IsNew(ids[..n], i) <==> IsNew(ids, i)
  {
    assert forall j :: 0 <= j < n ==> ids[..n][j] == ids[j];
  }

  // Alert ids.

  function Issue(dateText: Instant -> string, counters: Counters, symbol: string, at: Instant): (Counters, string) {
    var key := CounterKey(dateText(at), symbol);
    var n := Count(counters, key) + 1;
    (counters[key := n], AlertText(dateText(at), symbol, n))
  }

  function IssueAll(dateText: Instant -> string, calls: seq<(string, Instant)>): (Counters, seq<string>) {
    if calls == [] then (map[], [])
    else
      var (counters, ids) := IssueAll(dateText, calls[..|calls| - 1]);
      var (after, id) := Issue(dateText, counters, calls[|calls| - 1].0, calls[|calls| - 1].1);
      (after, ids + [id])
  }

  /** The calls about one date and symbol. */
  function CallsFor(dateText: Instant -> string, calls: seq<(string, Instant)>, date: string, symbol: string): nat {
    if calls == [] then 0
    else
      var (s, at) := calls[|calls| - 1];
      CallsFor(dateText, calls[..|calls| - 1], date, symbol) + if dateText(at) == date && s == symbol then 1 else 0
  }

  /** Ids are numbered from one on for each date and symbol: the next one counts the calls so far. */
  lemma {:induction false} AlertNumbers(dateText: Instant -> string, calls: seq<(string, Instant)>, symbol: string,
                                        at: Instant)
    requires forall t :: IsDigits(dateText(t))
    ensures var counters, date := IssueAll(dateText, calls).0, dateText(at);
            && Count(counters, CounterKey(date, symbol)) == CallsFor(dateText, calls, date, symbol)
            && Issue(dateText, counters, symbol, at).1
               == AlertText(date, symbol, CallsFor(dateText, calls, date, symbol) + 1)
  {
    hide CounterKey, AlertText;
    if calls != [] {
      var n := |calls| - 1;
      AlertNumbers(dateText, calls[..n], symbol, at);
      var (s, t) := calls[n];
      if CounterKey(dateText(t), s) == CounterKey(dateText(at), symbol) {
        CountersDiffer(dateText(t), s, dateText(at), symbol);
      }
    }
  }

  ghost predicate IssuedBy(counters: Counters, id: string) {
    exists date, symbol, n: nat ::
      IsDigits(date) && n <= Count(counters, CounterKey(date, symbol)) && id == AlertText(date, symbol, n)
  }

  lemma IssueStep(dateText: Instant -> string, counters: Counters, symbol: string, at: Instant, id: string)
    requires IsDigits(dateText(at)) && IssuedBy(counters, id)
    ensures IssuedBy(Issue(dateText, counters, symbol, at).0, id)
    ensures Issue(dateText, counters, symbol, at).1 != id
  {
    var date, s, n: nat :| IsDigits(date) && n <= Count(counters, CounterKey(date, s))
                           && id == AlertText(date, s, n);
    var after := Issue(dateText, counters, symbol, at).0;
    assert n <= Count(after, CounterKey(date, s));
    if AlertText(dateText(at), symbol, Count(counters, CounterKey(dateText(at), symbol)) + 1) == id {
      IdsDiffer(dateText(at), symbol, Count(counters, CounterKey(dateText(at), symbol)) + 1, date, s, n);
    }
  }

  /** No two calls return the same alert id. */
  lemma {:induction false} AlertIdsUnique(dateText: Instant -> string, calls: seq<(string, Instant)>)
    requires forall t :: IsDigits(dateText(t))
    ensures var (counters, ids) := IssueAll(dateText, calls);
            NoRepeats(ids) && forall id :: id in ids ==> IssuedBy(counters, id)
  {
    if calls != [] {
      var n := |calls| - 1;
      var before := IssueAll(dateText, calls[..n]);
      AlertIdsUnique(dateText, calls[..n]);
      hide Issue, IssuedBy;
      forall id | id in before.1
        ensures IssuedBy(Issue(dateText, before.0, calls[n].0, calls[n].1).0, id)
        ensures Issue(dateText, before.0, calls[n].0, calls[n].1).1 != id
      {
        IssueStep(dateText, before.0, calls[n].0, calls[n].1, id);
      }
      IssuedNow(dateText, before.0, calls[n].0, calls[n].1);
    }
  }

  lemma IssuedNow(dateText: Instant -> string, counters: Counters, symbol: string, at: Instant)
    requires IsDigits(dateText(at))
    ensures IssuedBy(Issue(dateText, counters, symbol, at).0, Issue(dateText, counters, symbol, at).1)
  {
  }
}
