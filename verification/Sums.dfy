/** Sums over the values of a map, in no particular order. */
module Sums {

  ghost function Sum(m: map<string, nat>): nat
    decreases |m|
  {
    if m == map[] then 0 else var k :| k in m; m[k] + Sum(m - {k})
  }

  /** Any key may be taken first: iteration order does not matter. */
  lemma {:induction false} SumTake(m: map<string, nat>, k: string)
    requires k in m
    ensures Sum(m) == m[k] + Sum(m - {k})
    decreases |m|
  {
    var first :| first in m && Sum(m) == m[first] + Sum(m - {first});
    if first != k {
      SumTake(m - {first}, k);
      SumTake(m - {k}, first);
      assert m - {first} - {k} == m - {k} - {first};
    }
  }

  lemma SumPut(m: map<string, nat>, k: string, v: nat)
    ensures Sum(m[k := v]) + (if k in m then m[k] else 0) == Sum(m) + v
  {
    SumTake(m[k := v], k);
    if k in m {
      SumTake(m, k);
      assert m[k := v] - {k} == m - {k};
    } else {
      assert m[k := v] - {k} == m;
    }
  }

  ghost function SumReal(m: map<string, real>): real
    decreases |m|
  {
    if m == map[] then 0.0 else var k :| k in m; m[k] + SumReal(m - {k})
  }

  lemma {:induction false} SumRealTake(m: map<string, real>, k: string)
    requires k in m
    ensures SumReal(m) == m[k] + SumReal(m - {k})
    decreases |m|
  {
    var first :| first in m && SumReal(m) == m[first] + SumReal(m - {first});
    if first != k {
      SumRealTake(m - {first}, k);
      SumRealTake(m - {k}, first);
      assert m - {first} - {k} == m - {k} - {first};
    }
  }

  lemma SumRealPut(m: map<string, real>, k: string, v: real)
    ensures SumReal(m[k := v]) + (if k in m then m[k] else 0.0) == SumReal(m) + v
  {
    SumRealTake(m[k := v], k);
    if k in m {
      SumRealTake(m, k);
      assert m[k := v] - {k} == m - {k};
    } else {
      assert m[k := v] - {k} == m;
    }
  }
}
