/** Finite maps of multisets, and what they hold in total. */
module Bags {

  /** The sum of all the values of a map. */
  ghost function Total<K, V>(m: map<K, multiset<V>>): multiset<V> {
    if m == map[] then multiset{}
    else
      var k :| k in m;
      m[k] + Total(m - {k})
  }

  lemma {:induction false} TotalRemove<K, V>(m: map<K, multiset<V>>, k: K)
    requires k in m
    ensures Total(m) == m[k] + Total(m - {k})
    decreases |m|
  {
    var j :| j in m && Total(m) == m[j] + Total(m - {j});
    if j != k {
      TotalRemove(m - {j}, k);
      TotalRemove(m - {k}, j);
      assert m - {j} - {k} == m - {k} - {j};
    }
  }

  /** Setting one entry: its old value leaves the total and its new value joins it. */
  lemma TotalUpdate<K, V>(m: map<K, multiset<V>>, k: K, v: multiset<V>)
    ensures Total(m[k := v]) == v + Total(m - {k})
  {
    TotalRemove(m[k := v], k);
    assert m[k := v] - {k} == m - {k};
  }

  /** Adding `extra` to one entry, absent entries counting as empty. */
  lemma TotalGrow<K, V>(m: map<K, multiset<V>>, k: K, extra: multiset<V>)
    ensures Total(m[k := (if k in m then m[k] else multiset{}) + extra]) == Total(m) + extra
  {
    TotalUpdate(m, k, (if k in m then m[k] else multiset{}) + extra);
    if k in m {
      TotalRemove(m, k);
    } else {
      assert m - {k} == m;
    }
  }

  lemma SameMap<K, V>(a: map<K, V>, b: map<K, V>)
    requires forall k :: k in a ==> k in b && a[k] == b[k]
    requires forall k :: k in b ==> k in a
    ensures a == b
  {
  }

  /** What one entry holds the total holds, and twice when two entries hold it. */
  lemma TotalHolds<K, V>(m: map<K, multiset<V>>, k: K, x: V)
    requires k in m && x in m[k]
    ensures x in Total(m)
    ensures forall j :: j in m && j != k && x in m[j] ==> Total(m)[x] >= 2
  {
    TotalRemove(m, k);
    forall j | j in m && j != k && x in m[j]
      ensures Total(m)[x] >= 2
    {
      TotalRemove(m - {k}, j);
    }
  }

  /** What the total holds some entry holds. */
  lemma {:induction false} TotalSource<K, V>(m: map<K, multiset<V>>, x: V) returns (k: K)
    requires x in Total(m)
    ensures k in m && x in m[k]
    decreases |m|
  {
    k :| k in m && Total(m) == m[k] + Total(m - {k});
    if x !in m[k] {
      k := TotalSource(m - {k}, x);
    }
  }

  /** A map that holds no more anywhere holds no more in total. */
  lemma {:induction false} TotalMonotone<K, V>(a: map<K, multiset<V>>, b: map<K, multiset<V>>)
    requires forall k :: k in a ==> a[k] <= if k in b then b[k] else multiset{}
    ensures Total(a) <= Total(b)
    decreases |a|
  {
    if a != map[] {
      hide Total;
      var k :| k in a;
      TotalMonotone(a - {k}, b - {k});
      TotalRemove(a, k);
      TotalTake(b, k);
      SumMonotone(a[k], if k in b then b[k] else multiset{}, Total(a - {k}), Total(b - {k}));
    } else {
      assert Total(a) == multiset{};
    }
  }

  lemma TotalTake<K, V>(m: map<K, multiset<V>>, k: K)
    ensures Total(m) == (if k in m then m[k] else multiset{}) + Total(m - {k})
  {
    if k in m {
      TotalRemove(m, k);
    } else {
      assert m - {k} == m;
    }
  }

  lemma SumMonotone<V>(a: multiset<V>, b: multiset<V>, c: multiset<V>, d: multiset<V>)
    requires a <= b && c <= d
    ensures a + c <= b + d
  {
  }
}
