/** Sums over the values of a map. */
module Sums {

  ghost function Sum(m: map<string, nat>): nat
    decreases |m|
  {
    if m == map[] then 0 else
      var k :| k in m;
      m[k] + Sum(m - {k})
  }

  lemma {:induction false} SumAt(m: map<string, nat>, k: string)
    requires k in m
    ensures Sum(m) == m[k] + Sum(m - {k})
    decreases |m|
  {
    var first :| first in m && Sum(m) == m[first] + Sum(m - {first});
    if first != k {
      SumAt(m - {first}, k);
      SumAt(m - {k}, first);
      assert m - {first} - {k} == m - {k} - {first};
    }
  }

  /** Setting one entry changes the sum by the difference. */
  lemma SumPut(m: map<string, nat>, k: string, v: nat)
    ensures Sum(m[k := v]) + (if k in m then m[k] else 0) == Sum(m) + v
  {
    SumAt(m[k := v], k);
    if k in m {
      SumAt(m, k);
      assert m[k := v] - {k} == m - {k};
    } else {
      assert m[k := v] - {k} == m;
    }
  }

  /** Raising one entry by `d` raises the sum by `d`. */
  lemma SumBump(m: map<string, nat>, n: map<string, nat>, k: string, d: nat)
    requires k in m && n.Keys == m.Keys
    requires forall p | p in m :: n[p] == if p == k then m[p] + d else m[p]
    ensures Sum(n) == Sum(m) + d
  {
    Bumped(m, n, k, d);
    SumPut(m, k, m[k] + d);
  }

  lemma Bumped(m: map<string, nat>, n: map<string, nat>, k: string, d: nat)
    requires k in m && n.Keys == m.Keys
    requires forall p | p in m :: n[p] == if p == k then m[p] + d else m[p]
    ensures n == m[k := m[k] + d]
  {
    forall p | p in n ensures p in m[k := m[k] + d] && m[k := m[k] + d][p] == n[p] {
      assert p in m.Keys;
    }
  }

  lemma {:induction false} AllZero(m: map<string, nat>)
    requires forall k | k in m :: m[k] == 0
    ensures Sum(m) == 0
    decreases |m|
  {
    if m != map[] {
      var k :| k in m;
      SumAt(m, k);
      AllZero(m - {k});
    }
  }
}
