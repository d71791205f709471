/**
  Vocabulary shared by every component: optional values, instants, and finite sums.

  An instant is a number of nanoseconds since the Unix epoch. Go's zero time is the first
  instant of year 1, which is an ordinary instant to every comparison and is recognised only
  by `IsZero`.
 */
module Common {

  datatype Option<+T> = None | Some(value: T)

  type Instant = int

  const SECOND: int := 1_000_000_000
  const MINUTE: int := 60 * SECOND
  const ZERO_TIME: Instant := -62_135_596_800 * SECOND

  predicate IsZeroTime(t: Instant) {
    t == ZERO_TIME
  }

  function Max(a: real, b: real): real {
    if a < b then b else a
  }

  function Min(a: real, b: real): real {
    if b < a then b else a
  }

  function Abs(a: real): real {
    if a < 0.0 then -a else a
  }

  /** A secondary index: the ids filed under each key. */
  type Index = map<string, set<string>>

  function Held(index: Index, key: string): set<string> {
    if key in index then index[key] else {}
  }

  /** Go's integer division: toward zero. */
  function Quotient(a: int, b: int): int
    requires b > 0
  {
    if a >= 0 then a / b else -(-a / b)
  }

  /** A part of a count is a fraction of it. */
  lemma Fraction(a: nat, b: nat)
    requires a <= b && b > 0
    ensures 0.0 <= a as real / b as real <= 1.0
  {
  }

  /** White space, as Unicode defines it. */
  predicate IsSpace(c: char) {
    || '\t' <= c <= '\r'
    || c == ' '
    || c == '\U{0085}'
    || c == '\U{00A0}'
    || c == '\U{1680}'
    || '\U{2000}' <= c <= '\U{200A}'
    || c in "\U{2028}\U{2029}\U{202F}\U{205F}\U{3000}"
  }

  /** The text without white space at either end. */
  function TrimSpace(s: string): (r: string)
    ensures r != [] ==> !IsSpace(r[0]) && !IsSpace(r[|r| - 1])
    ensures r == [] <==> forall c :: c in s ==> IsSpace(c)
  {
    if s == [] then []
    else if IsSpace(s[0]) then
      assert s == [s[0]] + s[1..];
      TrimSpace(s[1..])
    else if IsSpace(s[|s| - 1]) then
      assert s[0] in s;
      assert s[0] in s[..|s| - 1];
      TrimSpace(s[..|s| - 1])
    else
      assert s[0] in s;
      s
  }

  lemma SpacesAre(c: char)
    ensures IsSpace(c) <==> c as int in {9, 10, 11, 12, 13, 32, 133, 160, 5760, 8192, 8193, 8194, 8195, 8196, 8197,
                                         8198, 8199, 8200, 8201, 8202, 8232, 8233, 8239, 8287, 12288}
  {
  }

  /** Trimming takes white space from the two ends and nothing else. */
  lemma {:induction false} TrimTakesEnds(s: string) returns (i: nat, j: nat)
    ensures i <= j <= |s| && TrimSpace(s) == s[i..j]
    ensures forall k :: 0 <= k < i || j <= k < |s| ==> IsSpace(s[k])
  {
    hide IsSpace;
    if s == [] {
      i, j := 0, 0;
    } else if IsSpace(s[0]) {
      var a, b := TrimTakesEnds(s[1..]);
      i, j := a + 1, b + 1;
      assert s[1..][a..b] == s[i..j];
      forall k | 0 <= k < i || j <= k < |s|
        ensures IsSpace(s[k])
      {
        if k > 0 {
          assert s[k] == s[1..][k - 1];
        }
      }
    } else if IsSpace(s[|s| - 1]) {
      i, j := TrimTakesEnds(s[..|s| - 1]);
      assert s[..|s| - 1][i..j] == s[i..j];
    } else {
      i, j := 0, |s|;
    }
  }

  /** Total of a sequence, taken from the left as an accumulator loop takes it. */
  function Sum(s: seq<real>): real {
    if s == [] then 0.0 else Sum(s[..|s| - 1]) + s[|s| - 1]
  }

  /** Total of a measure over a sequence. */
  function Total(s: seq<real>, f: real -> real): real {
    if s == [] then 0.0 else Total(s[..|s| - 1], f) + f(s[|s| - 1])
  }

  /** The last `n` elements, or everything when there are fewer. */
  function Tail<T>(s: seq<T>, n: nat): seq<T> {
    if |s| <= n then s else s[|s| - n..]
  }

  /** The elements that satisfy `p`, in their original order. */
  function Filter<T(!new)>(s: seq<T>, p: T -> bool): (r: seq<T>)
    ensures forall x :: x in r <==> x in s && p(x)
    ensures |r| <= |s|
  {
    if s == [] then []
    else
      var rest := Filter(s[..|s| - 1], p);
      if p(s[|s| - 1]) then rest + [s[|s| - 1]] else rest
  }

  lemma {:induction false} SumConcat(a: seq<real>, b: seq<real>)
    ensures Sum(a + b) == Sum(a) + Sum(b)
  {
    if b == [] {
      assert a + b == a;
    } else {
      assert (a + b)[..|a + b| - 1] == a + b[..|b| - 1];
      SumConcat(a, b[..|b| - 1]);
    }
  }

  lemma {:induction false} TotalConcat(a: seq<real>, b: seq<real>, f: real -> real)
    ensures Total(a + b, f) == Total(a, f) + Total(b, f)
  {
    if b == [] {
      assert a + b == a;
    } else {
      assert (a + b)[..|a + b| - 1] == a + b[..|b| - 1];
      TotalConcat(a, b[..|b| - 1], f);
    }
  }

  lemma TotalOne(x: real, f: real -> real)
    ensures Total([x], f) == f(x)
  {
    assert [x][..0] == [];
  }

  lemma TotalRemove(s: seq<real>, k: nat, f: real -> real)
    requires k < |s|
    ensures Total(s, f) == Total(s[..k] + s[k + 1..], f) + f(s[k])
  {
    hide Total;
    assert s == s[..k] + ([s[k]] + s[k + 1..]);
    TotalAround(s[..k], s[k], s[k + 1..], f);
  }

  lemma TotalAround(l: seq<real>, x: real, r: seq<real>, f: real -> real)
    ensures Total(l + ([x] + r), f) == Total(l + r, f) + f(x)
  {
    TotalConcat(l, [x] + r, f);
    TotalConcat([x], r, f);
    TotalConcat(l, r, f);
    TotalOne(x, f);
  }

  /** Dropping equal elements from two arrangements of one multiset keeps them arrangements. */
  lemma DropMatching<T>(a: seq<T>, b: seq<T>, k: nat)
    requires multiset(a) == multiset(b) && a != []
    requires k < |b| && b[k] == a[|a| - 1]
    ensures multiset(a[..|a| - 1]) == multiset(b[..k] + b[k + 1..])
  {
    var n := |a| - 1;
    PickOut(a, n);
    PickOut(b, k);
    assert a[..n] + a[n + 1..] == a[..n];
    assert multiset(a[..n]) == multiset(a) - multiset{a[n]};
  }

  lemma PickOut<T>(s: seq<T>, k: nat)
    requires k < |s|
    ensures multiset(s) == multiset(s[..k] + s[k + 1..]) + multiset{s[k]}
  {
    assert s == s[..k] + [s[k]] + s[k + 1..];
  }

  /** A total does not depend on the order, whatever is measured. */
  lemma {:induction false} TotalPermutation(a: seq<real>, b: seq<real>, f: real -> real)
    requires multiset(a) == multiset(b)
    ensures Total(a, f) == Total(b, f)
    decreases |a|
  {
    if a == [] {
      assert |multiset(b)| == 0;
    } else {
      var n := |a| - 1;
      assert a[n] in multiset(b);
      var k :| 0 <= k < |b| && b[k] == a[n];
      var c := b[..k] + b[k + 1..];
      DropMatching(a, b, k);
      TotalPermutation(a[..n], c, f);
      TotalRemove(b, k, f);
    }
  }

  lemma {:induction false} SumIsTotal(s: seq<real>)
    ensures Sum(s) == Total(s, x => x)
  {
    if s != [] {
      SumIsTotal(s[..|s| - 1]);
    }
  }

  lemma SumPermutation(a: seq<real>, b: seq<real>)
    requires multiset(a) == multiset(b)
    ensures Sum(a) == Sum(b)
  {
    SumIsTotal(a);
    SumIsTotal(b);
    TotalPermutation(a, b, x => x);
  }

  ghost predicate NoRepeats<T(!new)>(s: seq<T>) {
    forall i, j :: 0 <= i < j < |s| ==> s[i] != s[j]
  }

  lemma {:induction false} NoRepeatsByCount<T(!new)>(s: seq<T>)
    ensures NoRepeats(s) <==> forall x :: multiset(s)[x] <= 1
  {
    if s != [] {
      var n := |s| - 1;
      assert s == s[..n] + [s[n]];
      NoRepeatsByCount(s[..n]);
      assert multiset(s) == multiset(s[..n]) + multiset{s[n]};
      if NoRepeats(s) {
        assert s[n] !in s[..n];
        assert s[n] !in multiset(s[..n]);
        assert NoRepeats(s[..n]);
      }
      if forall x :: multiset(s)[x] <= 1 {
        forall x
          ensures multiset(s[..n])[x] <= 1
        {
          assert multiset(s)[x] <= 1;
        }
        assert multiset(s)[s[n]] <= 1;
        assert s[n] !in multiset(s[..n]);
        assert s[n] !in s[..n];
      }
    }
  }

  /** Rearranging keeps the elements, and keeps them free of repeats. */
  lemma SameElements<T(!new)>(a: seq<T>, b: seq<T>)
    requires multiset(a) == multiset(b)
    ensures forall x :: x in a <==> x in b
    ensures NoRepeats(a) <==> NoRepeats(b)
  {
    forall x
      ensures x in a <==> x in b
    {
      assert x in a <==> x in multiset(a);
      assert x in b <==> x in multiset(b);
    }
    NoRepeatsByCount(a);
    NoRepeatsByCount(b);
  }

  lemma {:induction false} FilterConcat<T(!new)>(a: seq<T>, b: seq<T>, p: T -> bool)
    ensures Filter(a + b, p) == Filter(a, p) + Filter(b, p)
  {
    if b == [] {
      assert a + b == a;
    } else {
      assert (a + b)[..|a + b| - 1] == a + b[..|b| - 1];
      FilterConcat(a, b[..|b| - 1], p);
    }
  }

  lemma {:induction false} FilterNothing<T(!new)>(s: seq<T>, p: T -> bool)
    requires forall x :: x in s ==> !p(x)
    ensures Filter(s, p) == []
  {
    if s != [] {
      FilterNothing(s[..|s| - 1], p);
    }
  }

  lemma FilterSnoc<T(!new)>(s: seq<T>, x: T, p: T -> bool)
    ensures Filter(s + [x], p) == if p(x) then Filter(s, p) + [x] else Filter(s, p)
  {
    assert (s + [x])[..|s|] == s;
  }
}
