/** Totals over the rows of a table. Every table of the three services is a finite map
    from a row key to a row; the counters, queue lengths and quota amounts are totals of
    the weights that such a map gives to its keys. */
module Sums {

  ghost function Total<K>(weights: map<K, int>): int
    decreases |weights|
  {
    if weights == map[] then 0
    else
      var k :| k in weights;
      weights[k] + Total(weights - {k})
  }

  /** Any row may be taken out first. */
  lemma {:induction false} TotalSplit<K>(weights: map<K, int>, k: K)
    requires k in weights
    ensures Total(weights) == weights[k] + Total(weights - {k})
    decreases |weights|
  {
    var j :| j in weights && Total(weights) == weights[j] + Total(weights - {j});
    if j != k {
      TotalSplit(weights - {j}, k);
      TotalSplit(weights - {k}, j);
      assert weights - {j} - {k} == weights - {k} - {j};
    }
  }

  lemma TotalInsert<K>(weights: map<K, int>, k: K, weight: int)
    requires k !in weights
    ensures Total(weights[k := weight]) == Total(weights) + weight
  {
    TotalSplit(weights[k := weight], k);
    assert weights[k := weight] - {k} == weights;
  }

  lemma TotalUpdate<K>(weights: map<K, int>, k: K, weight: int)
    requires k in weights
    ensures Total(weights[k := weight]) == Total(weights) - weights[k] + weight
  {
    TotalSplit(weights, k);
    TotalSplit(weights[k := weight], k);
    assert weights[k := weight] - {k} == weights - {k};
  }

  lemma {:induction false} TotalNonNegative<K>(weights: map<K, int>)
    requires forall k :: k in weights ==> 0 <= weights[k]
    ensures 0 <= Total(weights)
    decreases |weights|
  {
    if weights != map[] {
      var k :| k in weights;
      TotalSplit(weights, k);
      TotalNonNegative(weights - {k});
    }
  }

  lemma TotalTwo<K>(weights: map<K, int>, k: K, j: K)
    requires k in weights && j in weights && k != j && forall i :: i in weights ==> 0 <= weights[i]
    ensures weights[k] + weights[j] <= Total(weights)
  {
    TotalSplit(weights, k);
    TotalSplit(weights - {k}, j);
    TotalNonNegative(weights - {k} - {j});
  }

  lemma {:induction false} TotalSum<K>(a: map<K, int>, b: map<K, int>, c: map<K, int>)
    requires a.Keys == b.Keys == c.Keys
    requires forall k :: k in a ==> c[k] == a[k] + b[k]
    ensures Total(c) == Total(a) + Total(b)
    decreases |a|
  {
    if a != map[] {
      var k :| k in a;
      TotalSplit(a, k);
      TotalSplit(b, k);
      TotalSplit(c, k);
      TotalSum(a - {k}, b - {k}, c - {k});
    } else {
      assert b == map[] && c == map[];
    }
  }

  /** Dropping rows and lowering weights lowers a total of non-negative weights. */
  lemma {:induction false} TotalSubset<K>(small: map<K, int>, large: map<K, int>)
    requires small.Keys <= large.Keys
    requires forall k :: k in large ==> 0 <= large[k]
    requires forall k :: k in small ==> small[k] <= large[k]
    ensures Total(small) <= Total(large)
    decreases |large|
  {
    if large != map[] {
      var k :| k in large;
      TotalSplit(large, k);
      if k in small {
        TotalSplit(small, k);
        TotalSubset(small - {k}, large - {k});
      } else {
        assert small - {k} == small;
        TotalSubset(small, large - {k});
      }
    } else {
      assert small == map[];
    }
  }
}
