/**
  Peak-to-trough decline.

  The repository computes it four times: inside the research statistics, in the Monte Carlo
  package, and twice in the performance package (a batch function and an incremental state).
  All of them are measured here against one reference: the largest `curve[i] - curve[j]` with
  `i <= j`.
 */
module Drawdown {
  import opened Common

  /** The equity curve of a ledger: it starts at `start` and moves by one PnL per trade. */
  function Equity(start: real, pnls: seq<real>): (curve: seq<real>)
    ensures |curve| == |pnls| + 1
    ensures curve[0] == start
    ensures curve[|pnls|] == start + Sum(pnls)
  {
    if pnls == [] then [start]
    else
      var n := |pnls| - 1;
      var before := Equity(start, pnls[..n]);
      before + [before[n] + pnls[n]]
  }

  lemma {:induction false} EquityAt(start: real, pnls: seq<real>, k: nat)
    requires k <= |pnls|
    ensures Equity(start, pnls)[k] == start + Sum(pnls[..k])
  {
    if k == |pnls| {
      assert pnls[..k] == pnls;
    } else {
      EquityAt(start, pnls[..|pnls| - 1], k);
      assert pnls[..|pnls| - 1][..k] == pnls[..k];
    }
  }

  /** The curve of a prefix of the ledger is a prefix of the curve. */
  lemma {:induction false} EquityPrefix(start: real, pnls: seq<real>, k: nat)
    requires k <= |pnls|
    ensures Equity(start, pnls)[..k + 1] == Equity(start, pnls[..k])
  {
    if k == |pnls| {
      assert pnls[..k] == pnls;
    } else {
      EquityPrefix(start, pnls[..|pnls| - 1], k);
      assert pnls[..|pnls| - 1][..k] == pnls[..k];
    }
  }

  ghost predicate IsPeak(curve: seq<real>, p: real) {
    p in curve && forall i :: 0 <= i < |curve| ==> curve[i] <= p
  }

  /** The decline from point `i` to a later point `j`. */
  ghost function Decline(curve: seq<real>, i: nat, j: nat): real
    requires i <= j < |curve|
  {
    curve[i] - curve[j]
  }

  /** `d` is the maximum of `curve[i] - curve[j]` over all `i <= j`. */
  ghost predicate IsMaxDrawdown(curve: seq<real>, d: real) {
    && (forall i: nat, j: nat | i <= j < |curve| :: Decline(curve, i, j) <= d)
    && (exists i: nat, j: nat | i <= j < |curve| :: Decline(curve, i, j) == d)
  }

  lemma FirstPoint(x: real)
    ensures IsPeak([x], x) && IsMaxDrawdown([x], 0.0)
  {
    assert Decline([x], 0, 0) == 0.0;
  }

  lemma MaxDrawdownUnique(curve: seq<real>, d: real, e: real)
    requires IsMaxDrawdown(curve, d) && IsMaxDrawdown(curve, e)
    ensures d == e
  {
    var i: nat, j: nat :| i <= j < |curve| && Decline(curve, i, j) == d;
    var k: nat, l: nat :| k <= l < |curve| && Decline(curve, k, l) == e;
  }

  /** One more point on the curve: how the peak and the drawdown move. */
  lemma DrawdownExtends(curve: seq<real>, peak: real, dd: real, x: real)
    requires IsPeak(curve, peak) && IsMaxDrawdown(curve, dd)
    ensures IsPeak(curve + [x], Max(peak, x))
    ensures IsMaxDrawdown(curve + [x], Max(dd, Max(peak, x) - x))
    ensures dd >= 0.0
  {
    var n, next, p := |curve|, curve + [x], Max(peak, x);
    var k :| 0 <= k < |curve| && curve[k] == peak;
    assert Decline(curve, k, k) == 0.0;
    assert next[k] == peak && next[n] == x;
    var d := Max(dd, p - x);
    forall i: nat, j: nat | i <= j < |next|
      ensures Decline(next, i, j) <= d
    {
      if j < n {
        assert Decline(curve, i, j) <= dd;
      }
    }
    if d == dd {
      var i: nat, j: nat :| i <= j < |curve| && Decline(curve, i, j) == dd;
      assert Decline(next, i, j) == dd;
    } else {
      assert Decline(next, k, n) == d;
    }
  }

  /** The reference drawdown of a non-empty curve. */
  ghost function DrawdownOf(curve: seq<real>): (d: real)
    requires curve != []
    ensures IsMaxDrawdown(curve, d)
    ensures d >= 0.0
  {
    DrawdownExists(curve);
    var d :| IsMaxDrawdown(curve, d);
    assert Decline(curve, 0, 0) <= d;
    d
  }

  lemma {:induction false} DrawdownExists(curve: seq<real>)
    requires curve != []
    ensures exists d :: IsMaxDrawdown(curve, d)
    ensures exists p :: IsPeak(curve, p)
  {
    var n := |curve| - 1;
    if n == 0 {
      FirstPoint(curve[0]);
      assert curve == [curve[0]];
    } else {
      DrawdownExists(curve[..n]);
      var d :| IsMaxDrawdown(curve[..n], d);
      var p :| IsPeak(curve[..n], p);
      DrawdownExtends(curve[..n], p, d, curve[n]);
      assert curve[..n] + [curve[n]] == curve;
    }
  }

  /** Starting capital moves the curve up or down and leaves the drawdown alone. */
  lemma DrawdownIgnoresCapital(a: real, b: real, pnls: seq<real>)
    ensures DrawdownOf(Equity(a, pnls)) == DrawdownOf(Equity(b, pnls))
  {
    var ca, cb := Equity(a, pnls), Equity(b, pnls);
    forall k | 0 <= k < |ca|
      ensures ca[k] - a == cb[k] - b
    {
      EquityAt(a, pnls, k);
      EquityAt(b, pnls, k);
    }
    var d := DrawdownOf(ca);
    var i: nat, j: nat :| i <= j < |ca| && Decline(ca, i, j) == d;
    assert Decline(cb, i, j) == d;
    forall i: nat, j: nat | i <= j < |cb|
      ensures Decline(cb, i, j) <= d
    {
      assert Decline(ca, i, j) <= d;
    }
    MaxDrawdownUnique(cb, d, DrawdownOf(cb));
  }

  /** The batch function of the performance package. */
  method MaxDrawdown(equity: seq<real>) returns (maxDD: real)
    ensures equity == [] ==> maxDD == 0.0
    ensures equity != [] ==> IsMaxDrawdown(equity, maxDD)
  {
    if |equity| == 0 {
      return 0.0;
    }
    var peak := equity[0];
    maxDD := 0.0;
    var i := 0;
    while i < |equity|
      invariant 0 <= i <= |equity|
      invariant i == 0 ==> peak == equity[0] && maxDD == 0.0
      invariant i > 0 ==> IsPeak(equity[..i], peak) && IsMaxDrawdown(equity[..i], maxDD)
    {
      var value := equity[i];
      ghost var peak0, dd0 := peak, maxDD;
      if value > peak {
        peak := value;
      }
      var decline := peak - value;
      if decline > maxDD {
        maxDD := decline;
      }
      if i > 0 {
        DrawdownExtends(equity[..i], peak0, dd0, value);
        assert equity[..i] + [value] == equity[..i + 1];
      } else {
        FirstPoint(value);
        assert equity[..1] == [value];
      }
      i := i + 1;
    }
    assert equity[..|equity|] == equity;
  }

  /** The value of a drawdown state: the running peak, the maximum and the current decline. */
  datatype DrawdownView = DrawdownView(peak: real, maxDD: real, current: real)

  function Advance(v: DrawdownView, equity: real): DrawdownView {
    if equity > v.peak then DrawdownView(equity, v.maxDD, 0.0)
    else DrawdownView(v.peak, Max(v.maxDD, v.peak - equity), v.peak - equity)
  }

  /** The incremental state of the performance package. Its peak starts at zero. */
  class DrawdownState {
    var peakEquity: real
    var maxDrawdown: real
    var currentDrawdown: real

    ghost function View(): DrawdownView
      reads this
    {
      DrawdownView(peakEquity, maxDrawdown, currentDrawdown)
    }

    constructor ()
      ensures View() == DrawdownView(0.0, 0.0, 0.0)
    {
      peakEquity, maxDrawdown, currentDrawdown := 0.0, 0.0, 0.0;
    }

    method Update(equity: real)
      modifies this
      ensures View() == Advance(old(View()), equity)
    {
      if equity > peakEquity {
        peakEquity := equity;
        currentDrawdown := 0.0;
        return;
      }
      currentDrawdown := peakEquity - equity;
      if currentDrawdown > maxDrawdown {
        maxDrawdown := currentDrawdown;
      }
    }
  }

  /** The state after a run of equity values. */
  function AdvanceAll(values: seq<real>): DrawdownView {
    if values == [] then DrawdownView(0.0, 0.0, 0.0)
    else Advance(AdvanceAll(values[..|values| - 1]), values[|values| - 1])
  }

  /**
    Incremental equals batch: after any run of equity values the state holds the peak, the
    maximum drawdown and the current decline of the curve that starts at zero.
   */
  lemma {:induction false} IncrementalDrawdown(values: seq<real>)
    ensures var v, curve := AdvanceAll(values), [0.0] + values;
            && IsPeak(curve, v.peak)
            && IsMaxDrawdown(curve, v.maxDD)
            && v.current == v.peak - curve[|values|]
  {
    if values == [] {
      FirstPoint(0.0);
      assert [0.0] + values == [0.0];
    } else {
      var n := |values| - 1;
      IncrementalDrawdown(values[..n]);
      var v, curve := AdvanceAll(values[..n]), [0.0] + values[..n];
      assert curve + [values[n]] == [0.0] + values;
      DrawdownExtends(curve, v.peak, v.maxDD, values[n]);
    }
  }

  /**
    On the ledger of any run the incremental state, folded over the running totals, reaches
    the drawdown of the equity curve whatever the starting capital.
   */
  lemma IncrementalAgrees(capital: real, pnls: seq<real>)
    ensures AdvanceAll(Equity(0.0, pnls)[1..]).maxDD == DrawdownOf(Equity(capital, pnls))
  {
    var curve := Equity(0.0, pnls);
    IncrementalDrawdown(curve[1..]);
    assert [0.0] + curve[1..] == curve;
    MaxDrawdownUnique(curve, AdvanceAll(curve[1..]).maxDD, DrawdownOf(curve));
    DrawdownIgnoresCapital(0.0, capital, pnls);
  }
}
