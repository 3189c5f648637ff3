/** Totals over table columns. */
module Sums {
  ghost function Sum(m: map<nat, nat>): nat {
    if m == map[] then 0
    else
      var k :| k in m;
      m[k] + Sum(m - {k})
  }

  /** The total does not depend on the order of the rows. */
  lemma {:induction false} SumWithout(m: map<nat, nat>, k: nat)
    requires k in m
    ensures Sum(m) == m[k] + Sum(m - {k})
    decreases |m|
  {
    var first :| first in m && Sum(m) == m[first] + Sum(m - {first});
    if first != k {
      SumWithout(m - {first}, k);
      SumWithout(m - {k}, first);
      assert m - {first} - {k} == m - {k} - {first};
    }
  }

  lemma SumUpdate(m: map<nat, nat>, k: nat, v: nat)
    ensures Sum(m[k := v]) == Sum(m) + v - (if k in m then m[k] else 0)
  {
    SumWithout(m[k := v], k);
    assert m[k := v] - {k} == m - {k};
    if k in m {
      SumWithout(m, k);
    } else {
      assert m - {k} == m;
    }
  }

  lemma {:induction false} SumMonotone(m: map<nat, nat>, n: map<nat, nat>)
    requires m.Keys == n.Keys && forall k | k in m :: m[k] <= n[k]
    ensures Sum(m) <= Sum(n)
    decreases |m|
  {
    if m == map[] {
      assert n.Keys == {};
      assert n == map[];
    } else {
      var k :| k in m;
      SumWithout(m, k);
      SumWithout(n, k);
      SumMonotone(m - {k}, n - {k});
    }
  }
}
