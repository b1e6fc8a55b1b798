/** Small facts about map updates that are used where whole states are compared. */
module Maps {
  /** b is a, except perhaps at key k. */
  predicate Touches<K, V(==)>(a: map<K, V>, b: map<K, V>, k: K) {
    b == a || b == a - {k} || (k in b && b == a[k := b[k]])
  }

  lemma TouchesOnly<K, V>(a: map<K, V>, b: map<K, V>, k: K)
    requires Touches(a, b, k)
    ensures forall x :: x != k ==> (x in a <==> x in b) && (x in a ==> a[x] == b[x])
  {
  }

  lemma PutSame<K, V>(m: map<K, V>, k: K, v: V)
    requires k in m && m[k] == v
    ensures m[k := v] == m
  {
  }

  lemma DelAbsent<K, V>(m: map<K, V>, k: K)
    requires k !in m
    ensures m - {k} == m
  {
  }

  lemma PutDel<K, V>(m: map<K, V>, k: K, v: V)
    ensures m[k := v] - {k} == m - {k}
  {
  }

  lemma PutPut<K, V>(m: map<K, V>, k: K, u: V, v: V)
    ensures m[k := u][k := v] == m[k := v]
  {
  }
}
