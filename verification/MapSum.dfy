/**
  Totals over finite sets of keys, in whatever order they are visited.
 */
module MapSum {

  ghost function SumOver<K(!new)>(keys: set<K>, f: K -> real): real {
    if keys == {} then 0.0
    else
      var k :| k in keys;
      f(k) + SumOver(keys - {k}, f)
  }

  /** Any key may be taken out first: the order of a map iteration does not matter. */
  lemma {:induction false} SumTakeOut<K(!new)>(keys: set<K>, f: K -> real, k: K)
    requires k in keys
    ensures SumOver(keys, f) == f(k) + SumOver(keys - {k}, f)
    decreases |keys|
  {
    var j :| j in keys && SumOver(keys, f) == f(j) + SumOver(keys - {j}, f);
    if j != k {
      SumTakeOut(keys - {j}, f, k);
      SumTakeOut(keys - {k}, f, j);
      assert keys - {j} - {k} == keys - {k} - {j};
    }
  }

  lemma SumPutIn<K(!new)>(keys: set<K>, f: K -> real, k: K)
    requires k !in keys
    ensures SumOver(keys + {k}, f) == f(k) + SumOver(keys, f)
  {
    SumTakeOut(keys + {k}, f, k);
    assert keys + {k} - {k} == keys;
  }

  lemma SumOne<K(!new)>(f: K -> real, k: K)
    ensures SumOver({k}, f) == f(k)
  {
    SumPutIn({}, f, k);
    assert {} + {k} == {k};
  }

  lemma {:induction false} SumSame<K(!new)>(keys: set<K>, f: K -> real, g: K -> real)
    requires forall k :: k in keys ==> f(k) == g(k)
    ensures SumOver(keys, f) == SumOver(keys, g)
    decreases |keys|
  {
    if keys != {} {
      var k :| k in keys;
      SumTakeOut(keys, f, k);
      SumTakeOut(keys, g, k);
      SumSame(keys - {k}, f, g);
    }
  }

  /** Totals add up measure by measure. */
  lemma {:induction false} SumPlus<K(!new)>(keys: set<K>, f: K -> real, g: K -> real, h: K -> real)
    requires forall k :: k in keys ==> h(k) == f(k) + g(k)
    ensures SumOver(keys, h) == SumOver(keys, f) + SumOver(keys, g)
    decreases |keys|
  {
    if keys != {} {
      var k :| k in keys;
      SumTakeOut(keys, f, k);
      SumTakeOut(keys, g, k);
      SumTakeOut(keys, h, k);
      SumPlus(keys - {k}, f, g, h);
    }
  }

  /** Only the value at `k` differs between the two measures. */
  lemma SumChange<K(!new)>(keys: set<K>, f: K -> real, g: K -> real, k: K)
    requires k in keys
    requires forall j :: j in keys && j != k ==> f(j) == g(j)
    ensures SumOver(keys, g) == SumOver(keys, f) - f(k) + g(k)
  {
    SumTakeOut(keys, f, k);
    SumTakeOut(keys, g, k);
    SumSame(keys - {k}, f, g);
  }

  lemma {:induction false} SumZero<K(!new)>(keys: set<K>, f: K -> real)
    requires forall k :: k in keys ==> f(k) == 0.0
    ensures SumOver(keys, f) == 0.0
    decreases |keys|
  {
    if keys != {} {
      var k :| k in keys;
      SumTakeOut(keys, f, k);
      SumZero(keys - {k}, f);
    }
  }

  lemma {:induction false} SumUnion<K(!new)>(a: set<K>, b: set<K>, f: K -> real)
    requires a !! b
    ensures SumOver(a + b, f) == SumOver(a, f) + SumOver(b, f)
    decreases |b|
  {
    if b == {} {
      assert a + b == a;
    } else {
      var k :| k in b;
      SumUnion(a, b - {k}, f);
      SumPutIn(a + (b - {k}), f, k);
      SumTakeOut(b, f, k);
      assert a + (b - {k}) + {k} == a + b;
    }
  }

  function Scaled(a: real, factor: real): real {
    a * factor
  }

  lemma ScaledPlus(a: real, b: real, factor: real)
    ensures Scaled(a + b, factor) == Scaled(a, factor) + Scaled(b, factor)
  {
  }

  lemma {:induction false} SumScaled<K(!new)>(keys: set<K>, f: K -> real, g: K -> real, factor: real)
    requires forall k :: k in keys ==> g(k) == Scaled(f(k), factor)
    ensures SumOver(keys, g) == Scaled(SumOver(keys, f), factor)
    decreases |keys|
  {
    if keys != {} {
      hide Scaled;
      var k :| k in keys;
      SumTakeOut(keys, f, k);
      SumTakeOut(keys, g, k);
      SumScaled(keys - {k}, f, g, factor);
      ScaledPlus(f(k), SumOver(keys - {k}, f), factor);
    } else {
      assert Scaled(0.0, factor) == 0.0;
    }
  }
}
