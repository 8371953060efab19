/** Small shared vocabulary: optional values and finite-map / finite-set bookkeeping. */
module Basics {

  datatype Option<+T> = None | Some(value: T)

  function Min(a: real, b: real): real { if a <= b then a else b }

  function Max(a: real, b: real): real { if a >= b then a else b }

  /** A function `weight` summed over the keys of a finite map. */
  ghost function Total<K, V>(m: map<K, V>, weight: V -> int): int
  {
    if m == map[] then 0 else
      var k :| k in m;
      weight(m[k]) + Total(m - {k}, weight)
  }

  lemma {:induction false} TotalSplit<K, V>(m: map<K, V>, weight: V -> int, k: K)
    requires k in m
    ensures Total(m, weight) == weight(m[k]) + Total(m - {k}, weight)
    decreases |m|
  {
    var j :| j in m && Total(m, weight) == weight(m[j]) + Total(m - {j}, weight);
    if j != k {
      TotalSplit(m - {j}, weight, k);
      assert (m - {j}) - {k} == (m - {k}) - {j};
      TotalSplit(m - {k}, weight, j);
    }
  }

  /** Replacing or adding one entry moves the total by exactly that entry's change. */
  lemma {:induction false} TotalUpdate<K, V>(m: map<K, V>, weight: V -> int, k: K, v: V)
    ensures Total(m[k := v], weight)
         == Total(m, weight) + weight(v) - (if k in m then weight(m[k]) else 0)
  {
    TotalSplit(m[k := v], weight, k);
    assert m[k := v] - {k} == m - {k};
    if k in m {
      TotalSplit(m, weight, k);
    } else {
      assert m - {k} == m;
    }
  }

  lemma {:induction false} TotalNonNegative<K, V>(m: map<K, V>, weight: V -> int)
    requires forall k :: k in m ==> weight(m[k]) >= 0
    ensures Total(m, weight) >= 0
    decreases |m|
  {
    if m != map[] {
      var k :| k in m && Total(m, weight) == weight(m[k]) + Total(m - {k}, weight);
      TotalNonNegative(m - {k}, weight);
    }
  }

  /** A subset of a finite set is no larger, and is the whole set when it is as large. */
  lemma {:induction false} SubsetSize<T>(a: set<T>, b: set<T>)
    requires a <= b
    ensures |a| <= |b|
    ensures |a| == |b| ==> a == b
  {
    assert b == a + (b - a);
    assert |b| == |a| + |b - a|;
    if |a| == |b| {
      assert b - a == {};
    }
  }
}
