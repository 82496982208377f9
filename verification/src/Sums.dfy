/** Finite sums over the entries of a map. */
module Sums {

  /** The sum of the weights of all entries, in whatever order they are met. */
  ghost function Total<K(!new), V>(m: map<K, V>, weight: V -> nat): nat {
    if m == map[] then 0
    else
      var k :| k in m;
      weight(m[k]) + Total(m - {k}, weight)
  }

  /** The sum may be taken from any key. */
  lemma {:induction false} TotalFrom<K(!new), V>(m: map<K, V>, weight: V -> nat, k: K)
    requires k in m
    ensures Total(m, weight) == weight(m[k]) + Total(m - {k}, weight)
    decreases |m|
  {
    var j :| j in m && Total(m, weight) == weight(m[j]) + Total(m - {j}, weight);
    if j != k {
      assert k in m - {j} && j in m - {k};
      assert m - {j} - {k} == m - {k} - {j};
      Smaller(m, j);
      Smaller(m, k);
      TotalFrom(m - {j}, weight, k);
      TotalFrom(m - {k}, weight, j);
    }
  }

  lemma {:induction false} Smaller<K, V>(m: map<K, V>, k: K)
    requires k in m
    ensures |m - {k}| < |m|
  {
    assert (m - {k}).Keys == m.Keys - {k};
    assert |(m - {k}).Keys| == |m - {k}| && |m.Keys| == |m|;
  }

  lemma {:induction false} TotalUpdate<K(!new), V>(m: map<K, V>, weight: V -> nat, k: K, v: V)
    ensures Total(m[k := v], weight) == weight(v) + Total(m, weight) - (if k in m then weight(m[k]) else 0)
  {
    TotalFrom(m[k := v], weight, k);
    assert m[k := v] - {k} == m - {k};
    if k in m {
      TotalFrom(m, weight, k);
    } else {
      assert m - {k} == m;
    }
  }

  lemma {:induction false} TotalMember<K(!new), V>(m: map<K, V>, weight: V -> nat, k: K)
    requires k in m
    ensures weight(m[k]) <= Total(m, weight)
  {
    TotalFrom(m, weight, k);
  }

  /** A bound on every entry bounds the sum. */
  lemma {:induction false} TotalAtMost<K(!new), V>(a: map<K, V>, b: map<K, V>, weight: V -> nat)
    requires a.Keys == b.Keys && forall k | k in a :: weight(a[k]) <= weight(b[k])
    ensures Total(a, weight) <= Total(b, weight)
    decreases |a|
  {
    if a != map[] {
      var k :| k in a;
      TotalFrom(a, weight, k);
      TotalFrom(b, weight, k);
      Smaller(a, k);
      TotalAtMost(a - {k}, b - {k}, weight);
    } else {
      assert b == map[];
    }
  }

  lemma {:induction false} TotalZero<K(!new), V>(m: map<K, V>, weight: V -> nat)
    requires forall k | k in m :: weight(m[k]) == 0
    ensures Total(m, weight) == 0
    decreases |m|
  {
    if m != map[] {
      var k :| k in m;
      TotalFrom(m, weight, k);
      Smaller(m, k);
      TotalZero(m - {k}, weight);
    }
  }
}
