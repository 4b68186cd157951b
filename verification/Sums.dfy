/** Totals of the non-negative values of a finite map, and the largest of a finite set. */
module Sums {

  ghost function Sum<K>(m: map<K, nat>): (total: nat)
    decreases m.Keys
  {
    if m == map[] then 0 else
      var k :| k in m;
      m[k] + Sum(m - {k})
  }

  /** The total does not depend on which key is taken out first. */
  lemma {:induction false} SumTakeOut<K>(m: map<K, nat>, k: K)
    requires k in m
    ensures Sum(m) == m[k] + Sum(m - {k})
    decreases m.Keys
  {
    var first :| first in m && Sum(m) == m[first] + Sum(m - {first});
    if first != k {
      SumTakeOut(m - {first}, k);
      SumTakeOut(m - {k}, first);
      assert m - {first} - {k} == m - {k} - {first};
    }
  }

  lemma SumInsert<K>(m: map<K, nat>, k: K, v: nat)
    requires k !in m
    ensures Sum(m[k := v]) == Sum(m) + v
  {
    SumTakeOut(m[k := v], k);
    assert m[k := v] - {k} == m;
  }

  lemma {:induction false} SumMonotone<K>(m: map<K, nat>, n: map<K, nat>)
    requires m.Keys <= n.Keys
    requires forall k :: k in m ==> m[k] <= n[k]
    ensures Sum(m) <= Sum(n)
    decreases m.Keys
  {
    if m != map[] {
      var k :| k in m && Sum(m) == m[k] + Sum(m - {k});
      SumTakeOut(n, k);
      SumMonotone(m - {k}, n - {k});
    }
  }

  lemma SumUpdate<K>(m: map<K, nat>, k: K, v: nat)
    ensures Sum(m[k := v]) == Sum(m) + v - (if k in m then m[k] else 0)
  {
    if k in m {
      SumTakeOut(m, k);
      SumTakeOut(m[k := v], k);
      assert m[k := v] - {k} == m - {k};
    } else {
      SumInsert(m, k, v);
    }
  }

  /** Raising one key by at most `rise` raises the total by at most `rise`. */
  lemma SumRise<K>(m: map<K, nat>, n: map<K, nat>, at: K, rise: nat)
    requires m.Keys <= n.Keys + {at}
    requires forall k :: k in m && k != at ==> m[k] <= n[k]
    requires at in m ==> m[at] <= (if at in n then n[at] else 0) + rise
    ensures Sum(m) <= Sum(n) + rise
  {
    var v := (if at in n then n[at] else 0) + rise;
    SumUpdate(n, at, v);
    SumMonotone(m, n[at := v]);
  }

  method Total<K(==)>(m: map<K, nat>) returns (total: nat)
    ensures total == Sum(m)
  {
    var rest := m;
    total := 0;
    while rest.Keys != {}
      invariant total + Sum(rest) == Sum(m)
      decreases rest.Keys
    {
      var k :| k in rest;
      SumTakeOut(rest, k);
      total := total + rest[k];
      rest := rest - {k};
    }
  }

  /** The greatest member, or zero of the empty set. */
  ghost function Largest(s: set<nat>): (top: nat)
    ensures s != {} ==> top in s
    ensures forall x :: x in s ==> x <= top
  {
    if s == {} then 0 else
      var x :| x in s;
      var rest := Largest(s - {x});
      assert forall y :: y in s ==> y == x || y in s - {x};
      if x < rest then rest else x
  }
}
