/**
 * Iterating over a Go map visits its keys in an unspecified order. What such a
 * loop accumulates is described, independently of the order, as the multiset
 * union over the keys visited so far.
 */
module MapCollect {

  /** The union, over `keys`, of what `f` makes of each key and its list. */
  ghost function Collect<K, V, W>(m: map<K, seq<V>>, keys: set<K>, f: (K, seq<V>) -> multiset<W>): multiset<W>
    requires keys <= m.Keys
    decreases keys
  {
    if keys == {} then multiset{}
    else
      var k :| k in keys;
      f(k, m[k]) + Collect(m, keys - {k}, f)
  }

  /** Any key can be taken out first: the union does not depend on the visiting order. */
  lemma {:induction false} CollectRemove<K, V, W>(m: map<K, seq<V>>, keys: set<K>, f: (K, seq<V>) -> multiset<W>, k: K)
    requires keys <= m.Keys && k in keys
    ensures Collect(m, keys, f) == f(k, m[k]) + Collect(m, keys - {k}, f)
    decreases keys
  {
    var j :| j in keys && Collect(m, keys, f) == f(j, m[j]) + Collect(m, keys - {j}, f);
    if j != k {
      CollectRemove(m, keys - {j}, f, k);
      CollectRemove(m, keys - {k}, f, j);
      assert keys - {j} - {k} == keys - {k} - {j};
    }
  }

  /** An element is collected exactly when some key's share holds it. */
  lemma {:induction false} CollectMember<K, V, W>(m: map<K, seq<V>>, keys: set<K>, f: (K, seq<V>) -> multiset<W>, x: W)
    requires keys <= m.Keys
    ensures x in Collect(m, keys, f) <==> exists k :: k in keys && x in f(k, m[k])
    decreases keys
  {
    if keys != {} {
      var k :| k in keys && Collect(m, keys, f) == f(k, m[k]) + Collect(m, keys - {k}, f);
      CollectMember(m, keys - {k}, f, x);
    }
  }
}
