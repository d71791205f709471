/**
  The text of a recommendation identifier, and why two different ones never read the same.
 */
module RecordIds {

  function Digit(n: nat): char
    requires n < 10
  {
    '0' + n as char
  }

  function Digits(n: nat): string {
    if n < 10 then [Digit(n)] else Digits(n / 10) + [Digit(n % 10)]
  }

  /** At least six digits, filled up with zeros. */
  function Padded(s: string): string
    decreases 6 - |s|
  {
    if |s| >= 6 then s else Padded("0" + s)
  }

  function NumberOf(s: string): int {
    if s == [] then 0 else 10 * NumberOf(s[..|s| - 1]) + (s[|s| - 1] as int - '0' as int)
  }

  predicate IsDigits(s: string) {
    forall c :: c in s ==> '0' <= c <= '9'
  }

  /** Reading the digits of a number gives the number back. */
  lemma {:induction false} DigitsRoundTrip(n: nat)
    ensures IsDigits(Digits(n)) && NumberOf(Digits(n)) == n
  {
    if n < 10 {
      assert Digits(n)[..0] == [];
    } else {
      DigitsRoundTrip(n / 10);
      assert Digits(n)[..|Digits(n)| - 1] == Digits(n / 10);
    }
  }

  lemma {:induction false} LeadingZero(s: string)
    ensures NumberOf("0" + s) == NumberOf(s)
  {
    if s == [] {
      assert ("0" + s)[..0] == [];
    } else {
      assert ("0" + s)[..|s|] == "0" + s[..|s| - 1];
      LeadingZero(s[..|s| - 1]);
    }
  }

  lemma {:induction false} PaddedRoundTrip(s: string)
    requires IsDigits(s)
    ensures IsDigits(Padded(s)) && NumberOf(Padded(s)) == NumberOf(s)
    decreases 6 - |s|
  {
    if |s| < 6 {
      LeadingZero(s);
      PaddedRoundTrip("0" + s);
    }
  }

  function SequenceText(n: nat): string {
    Padded(Digits(n))
  }

  function IdBody(date: string, symbol: string, n: nat): string {
    date + "-" + (symbol + "-" + SequenceText(n))
  }

  function IdText(date: string, symbol: string, n: nat): (id: string)
    ensures id != ""
  {
    "REC-" + IdBody(date, symbol, n)
  }

  function AlertText(date: string, symbol: string, n: nat): string {
    "ALT-" + IdBody(date, symbol, n)
  }

  function CounterKey(date: string, symbol: string): string {
    date + ":" + symbol
  }

  type Counters = map<string, nat>

  /** The value of a counter; one that was never used is at zero. */
  function Count(counters: Counters, key: string): nat {
    if key in counters then counters[key] else 0
  }

  lemma SplitFirst(a: string, c: char, x: string, b: string, y: string)
    requires c !in a && c !in b
    requires a + [c] + x == b + [c] + y
    ensures a == b && x == y
  {
    var s, t := a + [c] + x, b + [c] + y;
    assert s[|a|] == c && t[|b|] == c;
    assert forall k :: 0 <= k < |a| ==> s[k] in a;
    assert forall k :: 0 <= k < |b| ==> t[k] in b;
    assert |a| == |b|;
    assert a == s[..|a|] && b == t[..|b|];
    assert x == s[|a| + 1..] && y == t[|b| + 1..];
  }

  lemma SplitLast(a: string, c: char, x: string, b: string, y: string)
    requires c !in x && c !in y
    requires a + [c] + x == b + [c] + y
    ensures a == b && x == y
  {
    var s, t := a + [c] + x, b + [c] + y;
    assert s[|a|] == c && t[|b|] == c;
    assert forall k :: |a| < k < |s| ==> s[k] in x;
    assert forall k :: |b| < k < |t| ==> t[k] in y;
    assert |a| == |b|;
    assert a == s[..|a|] && b == t[..|b|];
    assert x == s[|a| + 1..] && y == t[|b| + 1..];
  }

  lemma BodiesDiffer(d1: string, s1: string, n1: nat, d2: string, s2: string, n2: nat)
    requires IsDigits(d1) && IsDigits(d2)
    requires IdBody(d1, s1, n1) == IdBody(d2, s2, n2)
    ensures d1 == d2 && s1 == s2 && n1 == n2
  {
    var t1, t2 := SequenceText(n1), SequenceText(n2);
    DigitsRoundTrip(n1);
    DigitsRoundTrip(n2);
    PaddedRoundTrip(Digits(n1));
    PaddedRoundTrip(Digits(n2));
    SplitFirst(d1, '-', s1 + "-" + t1, d2, s2 + "-" + t2);
    SplitLast(s1, '-', t1, s2, t2);
  }

  /**
    Identifiers read the same only when date, symbol and sequence number are the same, even
    for symbols that themselves contain dashes and digits.
   */
  lemma IdsDiffer(d1: string, s1: string, n1: nat, d2: string, s2: string, n2: nat)
    requires IsDigits(d1) && IsDigits(d2)
    requires IdText(d1, s1, n1) == IdText(d2, s2, n2) || AlertText(d1, s1, n1) == AlertText(d2, s2, n2)
    ensures d1 == d2 && s1 == s2 && n1 == n2
  {
    assert IdText(d1, s1, n1)[4..] == IdBody(d1, s1, n1) && IdText(d2, s2, n2)[4..] == IdBody(d2, s2, n2);
    assert AlertText(d1, s1, n1)[4..] == IdBody(d1, s1, n1) && AlertText(d2, s2, n2)[4..] == IdBody(d2, s2, n2);
    BodiesDiffer(d1, s1, n1, d2, s2, n2);
  }

  /** The decimal text of a number, with zeros in front up to six places and none beyond. */
  ghost predicate Numbers(text: string, n: nat) {
    IsDigits(text) && NumberOf(text) == n && |text| >= 6 && (|text| > 6 ==> text[0] != '0')
  }

  lemma {:induction false} FirstDigit(n: nat)
    ensures Digits(n)[0] == '0' <==> n == 0
  {
    if n >= 10 {
      FirstDigit(n / 10);
    }
  }

  lemma {:induction false} PaddedLength(s: string)
    ensures |Padded(s)| == if |s| < 6 then 6 else |s|
    decreases 6 - |s|
  {
    if |s| < 6 {
      PaddedLength("0" + s);
    }
  }

  lemma SequenceNumbers(n: nat)
    ensures Numbers(SequenceText(n), n)
  {
    DigitsRoundTrip(n);
    PaddedRoundTrip(Digits(n));
    PaddedLength(Digits(n));
    FirstDigit(n);
    if |Digits(n)| > 6 {
      assert Padded(Digits(n)) == Digits(n);
    }
  }

  /** Recommendation and alert ids spell out the date, the symbol and the number. */
  lemma IdsRead(date: string, symbol: string, n: nat)
    ensures exists text :: Numbers(text, n) && IdText(date, symbol, n) == "REC-" + date + "-" + symbol + "-" + text
                           && AlertText(date, symbol, n) == "ALT-" + date + "-" + symbol + "-" + text
  {
    hide Numbers;
    var text := SequenceText(n);
    SequenceNumbers(n);
    Spelled("REC-", date, symbol, text);
    Spelled("ALT-", date, symbol, text);
  }

  lemma Spelled(head: string, date: string, symbol: string, text: string)
    ensures head + (date + "-" + (symbol + "-" + text)) == head + date + "-" + symbol + "-" + text
  {
  }

  /** The counter of one date and symbol is shared with no other. */
  lemma CountersDiffer(d1: string, s1: string, d2: string, s2: string)
    requires IsDigits(d1) && IsDigits(d2)
    requires CounterKey(d1, s1) == CounterKey(d2, s2)
    ensures d1 == d2 && s1 == s2
  {
    SplitFirst(d1, ':', s1, d2, s2);
  }
}
