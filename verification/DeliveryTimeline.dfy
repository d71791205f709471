/**
  The timeline of a delivery document: entries are added once each and kept in time order.
 */
module DeliveryTimeline {
  import opened Common

  datatype Entry = Entry(
    timestamp: Instant,
    event: string,
    reason: string,
    previousValue: string,
    newValue: string
  )

  function MapStateEvent(event: string): string {
    var name := TrimSpace(event);
    if name == "Recommendation Created" then "Created" else name
  }

  /** What the entry list becomes: an entry without an event, or already there, adds nothing. */
  function Appended(existing: seq<Entry>, entry: Entry): seq<Entry> {
    if entry.event == "" || entry in existing then existing else existing + [entry]
  }

  method AppendTimelineEntry(existing: seq<Entry>, entry: Entry) returns (r: seq<Entry>)
    ensures r == Appended(existing, entry)
  {
    if entry.event == "" {
      return existing;
    }
    var i := 0;
    while i < |existing|
      invariant 0 <= i <= |existing|
      invariant entry !in existing[..i]
    {
      var item := existing[i];
      if && item.event == entry.event
         && item.timestamp == entry.timestamp
         && item.previousValue == entry.previousValue
         && item.newValue == entry.newValue
         && item.reason == entry.reason {
        return existing;
      }
      i := i + 1;
    }
    assert existing[..|existing|] == existing;
    return existing + [entry];
  }

  ghost predicate InOrder(s: seq<Entry>) {
    forall i, j :: 0 <= i < j < |s| ==> s[i].timestamp <= s[j].timestamp
  }

  function AtTime(t: Instant): Entry -> bool {
    (e: Entry) => e.timestamp == t
  }

  /** The entries of one instant stand in the same order in both lists. */
  ghost predicate SameAt(a: seq<Entry>, b: seq<Entry>, t: Instant) {
    Filter(a, AtTime(t)) == Filter(b, AtTime(t))
  }

  ghost predicate Alike(a: seq<Entry>, b: seq<Entry>) {
    forall t :: SameAt(a, b, t)
  }

  ghost predicate IsStableSort(entries: seq<Entry>, out: seq<Entry>) {
    InOrder(out) && Alike(out, entries)
  }

  /** One insertion step: `e` goes behind every entry that is not later. */
  function Insert(s: seq<Entry>, e: Entry): (r: seq<Entry>)
    ensures |r| == |s| + 1
  {
    if s == [] || s[|s| - 1].timestamp <= e.timestamp then s + [e]
    else Insert(s[..|s| - 1], e) + [s[|s| - 1]]
  }

  function Sorted(s: seq<Entry>): (r: seq<Entry>)
    ensures |r| == |s|
  {
    if s == [] then [] else Insert(Sorted(s[..|s| - 1]), s[|s| - 1])
  }

  lemma {:induction false} InsertAdds(s: seq<Entry>, e: Entry)
    ensures multiset(Insert(s, e)) == multiset(s) + multiset{e}
  {
    if s == [] || s[|s| - 1].timestamp <= e.timestamp {
    } else {
      InsertAdds(s[..|s| - 1], e);
      assert s == s[..|s| - 1] + [s[|s| - 1]];
    }
  }

  /** Sorting only rearranges. */
  lemma {:induction false} SortedPermutes(s: seq<Entry>)
    ensures multiset(Sorted(s)) == multiset(s)
  {
    if s != [] {
      SortedPermutes(s[..|s| - 1]);
      InsertAdds(Sorted(s[..|s| - 1]), s[|s| - 1]);
      assert s == s[..|s| - 1] + [s[|s| - 1]];
    }
  }

  lemma {:induction false} InsertBounded(s: seq<Entry>, e: Entry, latest: Instant)
    requires e.timestamp <= latest && forall x :: x in s ==> x.timestamp <= latest
    ensures forall x :: x in Insert(s, e) ==> x.timestamp <= latest
  {
    if s == [] || s[|s| - 1].timestamp <= e.timestamp {
    } else {
      InsertBounded(s[..|s| - 1], e, latest);
    }
  }

  lemma {:induction false} InsertInOrder(s: seq<Entry>, e: Entry)
    requires InOrder(s)
    ensures InOrder(Insert(s, e))
  {
    if s == [] || s[|s| - 1].timestamp <= e.timestamp {
    } else {
      var n := |s| - 1;
      InsertInOrder(s[..n], e);
      InsertBounded(s[..n], e, s[n].timestamp);
    }
  }

  /** Only strictly later entries are passed over, so no instant sees its entries reordered. */
  lemma {:induction false} InsertStable(s: seq<Entry>, e: Entry, t: Instant)
    ensures Filter(Insert(s, e), AtTime(t)) == Filter(s + [e], AtTime(t))
  {
    if s == [] || s[|s| - 1].timestamp <= e.timestamp {
    } else {
      var n := |s| - 1;
      InsertStable(s[..n], e, t);
      FilterSnoc(Insert(s[..n], e), s[n], AtTime(t));
      FilterSnoc(s[..n], e, AtTime(t));
      FilterSnoc(s, e, AtTime(t));
    }
  }

  lemma InsertAlike(line: seq<Entry>, front: seq<Entry>, e: Entry)
    requires IsStableSort(front, line)
    ensures IsStableSort(front + [e], Insert(line, e))
  {
    InsertInOrder(line, e);
    forall t
      ensures SameAt(Insert(line, e), front + [e], t)
    {
      assert SameAt(line, front, t);
      InsertStable(line, e, t);
      FilterSnoc(line, e, AtTime(t));
      FilterSnoc(front, e, AtTime(t));
    }
  }

  lemma {:induction false} SortedIsStable(s: seq<Entry>)
    ensures IsStableSort(s, Sorted(s))
  {
    if s != [] {
      var front, e := s[..|s| - 1], s[|s| - 1];
      SortedIsStable(front);
      InsertAlike(Sorted(front), front, e);
      assert s == front + [e];
    }
  }

  /** The last entry of a timeline is no later than the last entry of one alike. */
  lemma LastNoLater(a: seq<Entry>, b: seq<Entry>)
    requires a != [] && InOrder(b) && Alike(a, b)
    ensures b != [] && a[|a| - 1].timestamp <= b[|b| - 1].timestamp
  {
    var x := a[|a| - 1];
    assert SameAt(a, b, x.timestamp);
    assert x in Filter(a, AtTime(x.timestamp));
    assert x in Filter(b, AtTime(x.timestamp));
    var k :| 0 <= k < |b| && b[k] == x;
  }

  lemma LastOfBoth(a: seq<Entry>, b: seq<Entry>)
    requires a != [] && b != [] && Alike(a, b)
    requires a[|a| - 1].timestamp == b[|b| - 1].timestamp
    ensures a[|a| - 1] == b[|b| - 1]
    ensures Alike(a[..|a| - 1], b[..|b| - 1])
  {
    var m, n := |a| - 1, |b| - 1;
    var p := AtTime(a[m].timestamp);
    assert SameAt(a, b, a[m].timestamp);
    assert Filter(a, p) == Filter(a[..m], p) + [a[m]];
    assert Filter(b, p) == Filter(b[..n], p) + [b[n]];
    assert a[m] == Filter(a, p)[|Filter(a, p)| - 1] == b[n];
    forall t
      ensures SameAt(a[..m], b[..n], t)
    {
      DropLast(a, b, t);
    }
  }

  lemma DropLast(a: seq<Entry>, b: seq<Entry>, t: Instant)
    requires a != [] && b != [] && a[|a| - 1] == b[|b| - 1]
    requires Alike(a, b)
    ensures SameAt(a[..|a| - 1], b[..|b| - 1], t)
  {
    assert SameAt(a, b, t);
    if a[|a| - 1].timestamp == t {
      var fa, fb := Filter(a[..|a| - 1], AtTime(t)), Filter(b[..|b| - 1], AtTime(t));
      assert fa == Filter(a, AtTime(t))[..|fa|];
      assert fb == Filter(b, AtTime(t))[..|fb|];
    }
  }

  lemma AlikeBack(a: seq<Entry>, b: seq<Entry>)
    requires Alike(a, b)
    ensures Alike(b, a)
  {
    forall t
      ensures SameAt(b, a, t)
    {
      assert SameAt(a, b, t);
    }
  }

  /** A stable sort is determined by its input: order and stability leave no choice. */
  lemma {:induction false} StableSortUnique(a: seq<Entry>, b: seq<Entry>)
    requires InOrder(a) && InOrder(b)
    requires Alike(a, b)
    ensures a == b
  {
    AlikeBack(a, b);
    if a == [] {
      if b != [] {
        LastNoLater(b, a);
      }
    } else {
      LastNoLater(a, b);
      LastNoLater(b, a);
      LastOfBoth(a, b);
      StableSortUnique(a[..|a| - 1], b[..|b| - 1]);
      assert a == a[..|a| - 1] + [a[|a| - 1]];
      assert b == b[..|b| - 1] + [b[|b| - 1]];
    }
  }

  lemma SortedOfSorted(s: seq<Entry>)
    requires InOrder(s)
    ensures Sorted(s) == s
  {
  }

  /** The place of a new entry: behind the last entry that is not later. */
  lemma {:induction false} InsertPlace(base: seq<Entry>, key: Entry, p: nat)
    requires p <= |base|
    requires p > 0 ==> base[p - 1].timestamp <= key.timestamp
    requires forall k :: p <= k < |base| ==> base[k].timestamp > key.timestamp
    ensures Insert(base, key) == base[..p] + [key] + base[p..]
  {
    if p == |base| {
      assert base[..p] == base;
    } else {
      var n := |base| - 1;
      InsertPlace(base[..n], key, p);
      assert base[..n][..p] == base[..p];
      assert base[p..] == base[..n][p..] + [base[n]];
    }
  }

  lemma InsertedAt(base: seq<Entry>, key: Entry, p: nat, out: seq<Entry>)
    requires p <= |base| == |out| - 1
    requires p > 0 ==> base[p - 1].timestamp <= key.timestamp
    requires forall k :: p <= k < |base| ==> base[k].timestamp > key.timestamp
    requires forall k :: 0 <= k < p ==> out[k] == base[k]
    requires out[p] == key
    requires forall k :: p < k < |out| ==> out[k] == base[k - 1]
    ensures out == Insert(base, key)
  {
    InsertPlace(base, key, p);
    assert out == base[..p] + [key] + base[p..];
  }

  /** The inner loop: entry `i` moves left past every later entry. */
  method InsertInPlace(a: array<Entry>, i: nat)
    requires i < a.Length
    modifies a
    ensures a[..i + 1] == Insert(old(a[..i]), old(a[i]))
    ensures forall k :: i < k < a.Length ==> a[k] == old(a[k])
  {
    var key := a[i];
    ghost var base := a[..i];
    var j := i - 1;
    while j >= 0 && a[j].timestamp > key.timestamp
      invariant -1 <= j < i
      invariant forall k :: 0 <= k <= j ==> a[k] == base[k]
      invariant forall k :: j + 1 < k <= i ==> a[k] == base[k - 1]
      invariant forall k :: i < k < a.Length ==> a[k] == old(a[k])
      invariant forall k :: j < k < i ==> base[k].timestamp > key.timestamp
    {
      a[j + 1] := a[j];
      j := j - 1;
    }
    a[j + 1] := key;
    InsertedAt(base, key, j + 1, a[..i + 1]);
  }

  /** The insertion sort of the package, in place on a copy of the entries. */
  method SortTimeline(entries: seq<Entry>) returns (out: seq<Entry>)
    ensures out == Sorted(entries)
  {
    if |entries| < 2 {
      SortedOfSorted(entries);
      return entries;
    }
    var a := new Entry[|entries|](k requires 0 <= k < |entries| => entries[k]);
    SortedOfSorted(entries[..1]);
    assert a[..1] == entries[..1];
    var i := 1;
    while i < a.Length
      invariant 1 <= i <= a.Length == |entries|
      invariant a[..i] == Sorted(entries[..i])
      invariant forall k :: i <= k < a.Length ==> a[k] == entries[k]
    {
      assert entries[..i + 1][..i] == entries[..i];
      InsertInPlace(a, i);
      i := i + 1;
    }
    assert entries[..a.Length] == entries;
    out := a[..];
  }

  /** What every timeline of a stored document satisfies. */
  ghost predicate Sound(timeline: seq<Entry>) {
    && InOrder(timeline)
    && NoRepeats(timeline)
    && forall e :: e in timeline ==> e.event != ""
  }

  /** Entries offered one after the other. */
  function AppendedAll(existing: seq<Entry>, offers: seq<Entry>): seq<Entry> {
    if offers == [] then existing
    else Appended(AppendedAll(existing, offers[..|offers| - 1]), offers[|offers| - 1])
  }

  lemma {:induction false} AppendedAllHolds(existing: seq<Entry>, offers: seq<Entry>)
    requires NoRepeats(existing)
    requires forall e :: e in existing ==> e.event != ""
    ensures NoRepeats(AppendedAll(existing, offers))
    ensures forall e :: e in AppendedAll(existing, offers) <==>
                        e in existing || (e in offers && e.event != "")
  {
    if offers != [] {
      var n := |offers| - 1;
      AppendedAllHolds(existing, offers[..n]);
      assert offers == offers[..n] + [offers[n]];
    }
  }

  lemma {:induction false} NothingNew(existing: seq<Entry>, offers: seq<Entry>)
    requires forall e :: e in offers ==> e in existing || e.event == ""
    ensures AppendedAll(existing, offers) == existing
  {
    if offers != [] {
      NothingNew(existing, offers[..|offers| - 1]);
    }
  }

  lemma {:induction false} AppendedAllConcat(existing: seq<Entry>, a: seq<Entry>, b: seq<Entry>)
    ensures AppendedAll(existing, a + b) == AppendedAll(AppendedAll(existing, a), b)
  {
    if b == [] {
      assert a + b == a;
    } else {
      assert (a + b)[..|a + b| - 1] == a + b[..|b| - 1];
      AppendedAllConcat(existing, a, b[..|b| - 1]);
    }
  }

  /** How every update of a document treats its timeline: offer the new entries, then sort. */
  function Placed(timeline: seq<Entry>, offers: seq<Entry>): seq<Entry> {
    Sorted(AppendedAll(timeline, offers))
  }

  /** Placing entries keeps the timeline sound, loses nothing and adds only what was offered. */
  lemma PlacedKeeps(timeline: seq<Entry>, offers: seq<Entry>)
    requires Sound(timeline)
    ensures Sound(Placed(timeline, offers))
    ensures forall e :: e in Placed(timeline, offers) <==>
                        e in timeline || (e in offers && e.event != "")
  {
    var bag := AppendedAll(timeline, offers);
    AppendedAllHolds(timeline, offers);
    SortedIsStable(bag);
    SortedPermutes(bag);
    SameElements(bag, Sorted(bag));
  }

  /** Offering again what a sound timeline already holds changes nothing. */
  lemma PlacedAgain(timeline: seq<Entry>, offers: seq<Entry>)
    requires Sound(timeline)
    requires forall e :: e in offers ==> e in timeline || e.event == ""
    ensures Placed(timeline, offers) == timeline
  {
    NothingNew(timeline, offers);
    SortedOfSorted(timeline);
  }

  lemma AlikeElements(a: seq<Entry>, b: seq<Entry>)
    requires Alike(a, b) || Alike(b, a)
    ensures forall e :: e in a <==> e in b
  {
    forall e
      ensures e in a <==> e in b
    {
      assert SameAt(a, b, e.timestamp) || SameAt(b, a, e.timestamp);
      assert e in a <==> e in Filter(a, AtTime(e.timestamp));
      assert e in b <==> e in Filter(b, AtTime(e.timestamp));
    }
  }

  lemma AppendAlike(a: seq<Entry>, b: seq<Entry>, e: Entry)
    requires Alike(a, b)
    ensures Alike(Appended(a, e), Appended(b, e))
  {
    AlikeElements(a, b);
    if e.event != "" && e !in a {
      forall t
        ensures SameAt(a + [e], b + [e], t)
      {
        assert SameAt(a, b, t);
        FilterSnoc(a, e, AtTime(t));
        FilterSnoc(b, e, AtTime(t));
      }
    }
  }

  lemma {:induction false} AppendAllAlike(a: seq<Entry>, b: seq<Entry>, offers: seq<Entry>)
    requires Alike(a, b)
    ensures Alike(AppendedAll(a, offers), AppendedAll(b, offers))
  {
    if offers != [] {
      var n := |offers| - 1;
      AppendAllAlike(a, b, offers[..n]);
      AppendAlike(AppendedAll(a, offers[..n]), AppendedAll(b, offers[..n]), offers[n]);
    }
  }

  lemma SortedAlike(a: seq<Entry>, b: seq<Entry>)
    requires Alike(a, b)
    ensures Sorted(a) == Sorted(b)
  {
    SortedIsStable(a);
    SortedIsStable(b);
    forall t
      ensures SameAt(Sorted(a), Sorted(b), t)
    {
      assert SameAt(Sorted(a), a, t);
      assert SameAt(Sorted(b), b, t);
      assert SameAt(a, b, t);
    }
    StableSortUnique(Sorted(a), Sorted(b));
  }

  /** Sorting after every step ends in the same timeline as sorting once at the end. */
  lemma PlacedIsBatch(existing: seq<Entry>, offers: seq<Entry>)
    ensures Placed(Sorted(existing), offers) == Placed(existing, offers)
  {
    SortedIsStable(existing);
    AppendAllAlike(Sorted(existing), existing, offers);
    SortedAlike(AppendedAll(Sorted(existing), offers), AppendedAll(existing, offers));
  }
}
