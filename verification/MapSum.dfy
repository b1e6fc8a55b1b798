/** Finite sums over the values of a map, used for every "sum of quantities" in the ledgers. */
module MapSum {
  ghost function Sum<K>(m: map<K, int>): int
    decreases m.Keys
  {
    if m == map[] then 0
    else
      var k :| k in m;
      m[k] + Sum(m - {k})
  }

  /** The choice of key inside Sum does not matter. */
  lemma {:induction false} SumRemove<K>(m: map<K, int>, k: K)
    requires k in m
    ensures Sum(m) == m[k] + Sum(m - {k})
    decreases m.Keys
  {
    var c :| c in m && Sum(m) == m[c] + Sum(m - {c});
    if c != k {
      SumRemove(m - {c}, k);
      SumRemove(m - {k}, c);
      assert m - {c} - {k} == m - {k} - {c};
    }
  }

  lemma SumPut<K>(m: map<K, int>, k: K, v: int)
    ensures Sum(m[k := v]) == Sum(m) - (if k in m then m[k] else 0) + v
  {
    SumRemove(m[k := v], k);
    assert m[k := v] - {k} == m - {k};
    if k in m {
      SumRemove(m, k);
    } else {
      assert m - {k} == m;
    }
  }

  lemma {:induction false} SumUnion<K>(a: map<K, int>, b: map<K, int>)
    requires a.Keys !! b.Keys
    ensures Sum(a + b) == Sum(a) + Sum(b)
    decreases a.Keys
  {
    if a == map[] {
      assert a + b == b;
    } else {
      var k :| k in a;
      SumUnion(a - {k}, b);
      SumRemove(a, k);
      SumRemove(a + b, k);
      assert (a + b) - {k} == (a - {k}) + b;
    }
  }

  lemma {:induction false} SumNonNegative<K>(m: map<K, int>)
    requires forall k :: k in m ==> m[k] >= 0
    ensures Sum(m) >= 0
    decreases m.Keys
  {
    if m != map[] {
      var k :| k in m;
      SumRemove(m, k);
      SumNonNegative(m - {k});
    }
  }

  lemma SumAtLeast<K>(m: map<K, int>, k: K)
    requires forall x :: x in m ==> m[x] >= 0
    requires k in m
    ensures Sum(m) >= m[k]
  {
    SumRemove(m, k);
    SumNonNegative(m - {k});
  }

  /** Renaming the keys keeps the sum. */
  lemma {:induction false} SumRekey<K, L>(a: map<K, int>, b: map<L, int>, f: K -> L)
    requires forall k :: k in a ==> f(k) in b && b[f(k)] == a[k]
    requires forall j, k :: j in a && k in a && f(j) == f(k) ==> j == k
    requires b.Keys == set k | k in a :: f(k)
    ensures Sum(a) == Sum(b)
    decreases a.Keys
  {
    if a == map[] {
      assert b == map[];
    } else {
      var k :| k in a;
      SumRemove(a, k);
      SumRemove(b, f(k));
      SumRekey(a - {k}, b - {f(k)}, f);
    }
  }

  /** Keys with value zero do not count. */
  lemma {:induction false} SumDropZeros<K>(m: map<K, int>, keys: set<K>)
    requires forall k :: k in keys && k in m ==> m[k] == 0
    ensures Sum(m - keys) == Sum(m)
    decreases keys
  {
    if keys == {} {
      assert m - keys == m;
    } else {
      var k :| k in keys;
      SumDropZeros(m - {k}, keys - {k});
      assert m - keys == m - {k} - (keys - {k});
      if k in m {
        SumRemove(m, k);
      } else {
        assert m - {k} == m;
      }
    }
  }
}
