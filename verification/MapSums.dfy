/** Sums over the values of a map. */
module MapSums {

  ghost function Sum<K>(m: map<K, int>): int
    decreases |m|
  {
    if m == map[] then 0
    else
      var k :| k in m;
      m[k] + Sum(m - {k})
  }

  lemma {:induction false} SumWithout<K>(m: map<K, int>, k: K)
    requires k in m
    ensures Sum(m) == m[k] + Sum(m - {k})
    decreases |m|
  {
    var j :| j in m && Sum(m) == m[j] + Sum(m - {j});
    if j != k {
      SumWithout(m - {j}, k);
      SumWithout(m - {k}, j);
      assert m - {j} - {k} == m - {k} - {j};
    }
  }

  function Get<K>(m: map<K, int>, k: K): int {
    if k in m then m[k] else 0
  }

  lemma SumUpdate<K>(m: map<K, int>, k: K, v: int)
    ensures Sum(m[k := v]) == Sum(m) - Get(m, k) + v
  {
    SumWithout(m[k := v], k);
    assert m[k := v] - {k} == m - {k};
    if k in m {
      SumWithout(m, k);
    } else {
      assert m - {k} == m;
    }
  }

  lemma SumWithoutMore(sum: int, rest: int, v: int, n: int, count: nat)
    requires sum == v + rest && n <= v && n * count <= rest
    ensures n * (count + 1) <= sum
  {
    assert n * (count + 1) == n * count + n;
  }

  /** If no value is negative and those of some keys are at least n, the sum is
      at least n for each of these keys. */
  lemma {:induction false} SumAtLeast<K>(m: map<K, int>, keys: set<K>, n: int)
    requires keys <= m.Keys
    requires forall k :: k in m ==> 0 <= m[k]
    requires forall k :: k in keys ==> n <= m[k]
    ensures n * |keys| <= Sum(m)
    decreases |keys|
  {
    if keys == {} {
      SumNotNegative(m);
    } else {
      var k :| k in keys;
      SumWithout(m, k);
      SumAtLeast(m - {k}, keys - {k}, n);
      SumWithoutMore(Sum(m), Sum(m - {k}), m[k], n, |keys - {k}|);
    }
  }

  lemma {:induction false} SumNotNegative<K>(m: map<K, int>)
    requires forall k :: k in m ==> 0 <= m[k]
    ensures 0 <= Sum(m)
    decreases |m|
  {
    if m != map[] {
      var k :| k in m && Sum(m) == m[k] + Sum(m - {k});
      SumNotNegative(m - {k});
    }
  }
}
