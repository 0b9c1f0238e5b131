/** Sums over the values of a finite map, independent of any order. */
module Totals {

  ghost function Any<K>(m: map<K, nat>): (k: K)
    requires m.Keys != {}
    ensures k in m
  {
    var k :| k in m; k
  }

  ghost function Total<K>(m: map<K, nat>): nat
    decreases m.Keys
  {
    if m.Keys == {} then 0 else m[Any(m)] + Total(m - {Any(m)})
  }

  /** Any key may be taken out first. */
  lemma {:induction false} TotalWithout<K>(m: map<K, nat>, k: K)
    requires k in m
    ensures Total(m) == m[k] + Total(m - {k})
    decreases m.Keys
  {
    var j := Any(m);
    if j != k {
      TotalWithout(m - {j}, k);
      TotalWithout(m - {k}, j);
      assert m - {j} - {k} == m - {k} - {j};
    }
  }

  lemma TotalEmpty<K>(m: map<K, nat>)
    requires m.Keys == {}
    ensures Total(m) == 0
  {
  }

  /** Setting one entry replaces its old amount by the new one. */
  lemma TotalSet<K>(m: map<K, nat>, k: K, x: nat)
    ensures Total(m[k := x]) == x + Total(m - {k})
    ensures k in m ==> Total(m[k := x]) + m[k] == Total(m) + x
    ensures k !in m ==> Total(m[k := x]) == Total(m) + x
  {
    TotalWithout(m[k := x], k);
    assert m[k := x] - {k} == m - {k};
    if k in m {
      TotalWithout(m, k);
    } else {
      assert m - {k} == m;
    }
  }

  /** A sum of sums, entry by entry. */
  lemma {:induction false} TotalAdds<K>(m: map<K, nat>, a: map<K, nat>, b: map<K, nat>)
    requires m.Keys == a.Keys == b.Keys
    requires forall k :: k in m ==> m[k] == a[k] + b[k]
    ensures Total(m) == Total(a) + Total(b)
    decreases m.Keys
  {
    if m.Keys == {} {
      TotalEmpty(m); TotalEmpty(a); TotalEmpty(b);
    } else {
      var k :| k in m;
      TotalWithout(m, k); TotalWithout(a, k); TotalWithout(b, k);
      TotalAdds(m - {k}, a - {k}, b - {k});
    }
  }

  /** Fewer entries, each no larger, sum to no more. */
  lemma {:induction false} TotalMonotone<K>(a: map<K, nat>, b: map<K, nat>)
    requires a.Keys <= b.Keys && forall k :: k in a ==> a[k] <= b[k]
    ensures Total(a) <= Total(b)
    decreases b.Keys
  {
    if b.Keys == {} {
      TotalEmpty(a);
    } else {
      var k :| k in b;
      TotalWithout(b, k);
      if k in a { TotalWithout(a, k); } else { assert a - {k} == a; }
      TotalMonotone(a - {k}, b - {k});
    }
  }

  /** The sum, taking the entries in any order. */
  method Sum<K(==)>(m: map<K, nat>) returns (sum: nat)
    ensures sum == Total(m)
  {
    sum := 0;
    var rest := m;
    while rest.Keys != {}
      invariant rest.Keys <= m.Keys && sum + Total(rest) == Total(m)
      decreases rest.Keys
    {
      var k :| k in rest.Keys;
      TotalWithout(rest, k);
      sum := sum + rest[k];
      rest := rest - {k};
    }
    TotalEmpty(rest);
  }
}
