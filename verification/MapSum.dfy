/**
 Sums over finite maps, and maps that hold no zero entry (the way the stores keep
 balances, where a zero entry is deleted).
 */
module MapSum {

  /** A map without zero entries: a missing key stands for zero. */
  type Tally<!K> = m: map<K, nat> | forall k | k in m :: m[k] > 0 witness map[]

  function At<K(==)>(m: Tally<K>, k: K): nat {
    if k in m then m[k] else 0
  }

  function Put<K(==,!new)>(m: Tally<K>, k: K, v: nat): (r: Tally<K>)
    ensures forall j :: At(r, j) == if j == k then v else At(m, j)
  {
    if v == 0 then m - {k} else m[k := v]
  }

  /** Two tallies that agree at every key are the same map. */
  lemma Extensional<K(!new)>(m: Tally<K>, n: Tally<K>)
    requires forall k :: At(m, k) == At(n, k)
    ensures m == n
  {
    forall k | k in m
      ensures k in n && n[k] == m[k]
    {
      assert At(m, k) == At(n, k);
    }
    forall k | k in n
      ensures k in m
    {
      assert At(m, k) == At(n, k);
    }
  }

  ghost function Sum<K(!new)>(m: map<K, int>): int
    decreases |m|
  {
    if m == map[] then 0 else
      var k :| k in m;
      Smaller(m, k);
      m[k] + Sum(m - {k})
  }

  lemma Smaller<K, V>(m: map<K, V>, k: K)
    requires k in m
    ensures |m - {k}| < |m|
  {
    assert (m - {k}).Keys == m.Keys - {k};
  }

  /** The sum does not depend on which entry is taken out first. */
  lemma {:induction false} SumRemove<K(!new)>(m: map<K, int>, k: K)
    requires k in m
    ensures Sum(m) == m[k] + Sum(m - {k})
    decreases |m|
  {
    var j :| j in m && Sum(m) == m[j] + Sum(m - {j});
    if j != k {
      Smaller(m, j);
      SumRemove(m - {j}, k);
      Smaller(m, k);
      SumRemove(m - {k}, j);
      assert m - {j} - {k} == m - {k} - {j};
    }
  }

  lemma SumPut<K(!new)>(m: map<K, int>, k: K, v: int)
    ensures Sum(m[k := v]) == Sum(m) + v - if k in m then m[k] else 0
  {
    SumRemove(m[k := v], k);
    if k in m {
      SumRemove(m, k);
      assert m[k := v] - {k} == m - {k};
    } else {
      assert m[k := v] - {k} == m;
    }
  }

  /** Non-negative entries: each is at most the sum. */
  lemma {:induction false} SumBound<K(!new)>(m: map<K, int>)
    requires forall k | k in m :: m[k] >= 0
    ensures Sum(m) >= 0
    ensures forall k | k in m :: m[k] <= Sum(m)
    decreases |m|
  {
    forall k | k in m
      ensures m[k] <= Sum(m)
    {
      Smaller(m, k);
      SumBound(m - {k});
      SumRemove(m, k);
    }
    if m != map[] {
      var k :| k in m;
      assert m[k] <= Sum(m);
    }
  }

  /** Entry by entry less is less in all. */
  lemma {:induction false} SumMono<K(!new)>(m: map<K, int>, n: map<K, int>)
    requires m.Keys == n.Keys && forall k | k in m :: m[k] <= n[k]
    ensures Sum(m) <= Sum(n)
    decreases |m|
  {
    if m != map[] {
      var k :| k in m;
      SumRemove(m, k);
      SumRemove(n, k);
      Smaller(m, k);
      SumMono(m - {k}, n - {k});
    } else {
      assert n == map[];
    }
  }

  lemma SumEmpty<K(!new)>()
    ensures Sum<K>(map[]) == 0
  {
  }

  /** The entries of a map under some keys. */
  ghost function Restrict<K(!new)>(m: map<K, int>, keys: set<K>): map<K, int> {
    map k | k in m && k in keys :: m[k]
  }

  lemma SumRestrict<K(!new)>(m: map<K, int>, keys: set<K>, k: K)
    requires k in m && k !in keys
    ensures Sum(Restrict(m, keys + {k})) == Sum(Restrict(m, keys)) + m[k]
  {
    assert Restrict(m, keys + {k}) == Restrict(m, keys)[k := m[k]];
    SumPut(Restrict(m, keys), k, m[k]);
  }
}
