/**
 The sum of the values of a finite map.
 */
module Sums {

  ghost function Sum(m: map<nat, nat>): nat
    decreases m.Keys
  {
    if m == map[] then 0
    else
      var k :| k in m;
      m[k] + Sum(m - {k})
  }

  lemma {:induction false} SumRemove(m: map<nat, nat>, k: nat)
    requires k in m
    ensures Sum(m) == m[k] + Sum(m - {k})
    decreases m.Keys
  {
    var j :| j in m && Sum(m) == m[j] + Sum(m - {j});
    if j != k {
      SumRemove(m - {j}, k);
      SumRemove(m - {k}, j);
      assert m - {j} - {k} == m - {k} - {j};
    }
  }

  lemma SumInsert(m: map<nat, nat>, k: nat, v: nat)
    requires k !in m
    ensures Sum(m[k := v]) == Sum(m) + v
  {
    SumRemove(m[k := v], k);
    assert m[k := v] - {k} == m;
  }

  lemma SumUpdate(m: map<nat, nat>, k: nat, v: nat)
    requires k in m
    ensures Sum(m[k := v]) + m[k] == Sum(m) + v
  {
    SumRemove(m, k);
    SumRemove(m[k := v], k);
    assert m[k := v] - {k} == m - {k};
  }

  lemma {:induction false} SumBelow(m: map<nat, nat>, m': map<nat, nat>)
    requires m'.Keys == m.Keys && forall k :: k in m ==> m'[k] <= m[k]
    ensures Sum(m') <= Sum(m)
    decreases m.Keys
  {
    if m != map[] {
      var k :| k in m;
      SumRemove(m, k);
      SumRemove(m', k);
      SumBelow(m - {k}, m' - {k});
    }
  }

  lemma {:induction false} SumBounded(m: map<nat, nat>, c: nat)
    requires forall k :: k in m ==> m[k] <= c
    ensures Sum(m) <= c * |m|
    decreases m.Keys
  {
    if m != map[] {
      var k :| k in m;
      SumRemove(m, k);
      assert m - {k} == map j | j in m.Keys - {k} :: m[j];
      assert |(m - {k}).Keys| == |m.Keys| - 1;
      SumBounded(m - {k}, c);
      assert c * |m| == c * (|m| - 1) + c;
    }
  }
}
