/** Small facts about finite sets and maps. */
module Sets {

  lemma NoElement(s: set<int>)
    requires forall k :: k !in s
    ensures s == {}
  {
    forall k ensures k in s <==> k in {} {
    }
  }

  lemma SomeElement(s: set<int>)
    requires s != {}
    ensures exists k :: k in s
  {
    if forall k :: k !in s {
      NoElement(s);
      assert false;
    }
  }

  lemma Rewrite<K, V>(m: map<K, V>, k: K)
    requires k in m
    ensures m[k := m[k]] == m
  {
  }

  lemma Overwrite<K, V>(m: map<K, V>, k: K, a: V, b: V)
    ensures m[k := a][k := b] == m[k := b]
  {
  }

  /** f applied to every entry of a map. */
  function Each<K, V>(m: map<K, V>, f: V -> V): map<K, V> {
    map k | k in m :: f(m[k])
  }

  /** f applied to every entry outside a set of keys that are still to be visited. */
  function Visited<K, V>(m: map<K, V>, todo: set<K>, f: V -> V): map<K, V> {
    map k | k in m :: if k in todo then m[k] else f(m[k])
  }

  lemma NoneVisited<K, V>(m: map<K, V>, f: V -> V)
    ensures Visited(m, m.Keys, f) == m
  {
  }

  lemma AllVisited<K, V>(m: map<K, V>, f: V -> V)
    ensures Visited(m, {}, f) == Each(m, f)
  {
  }

  lemma Visit<K, V>(m: map<K, V>, todo: set<K>, f: V -> V, k: K)
    requires k in todo && todo <= m.Keys
    ensures var v := Visited(m, todo, f); k in v && v[k := f(v[k])] == Visited(m, todo - {k}, f)
  {
  }

  lemma EachKeys<K, V>(m: map<K, V>, f: V -> V)
    ensures Each(m, f).Keys == m.Keys
  {
  }

  lemma EachUpdate<K, V>(m: map<K, V>, k: K, v: V, f: V -> V)
    ensures Each(m[k := v], f) == Each(m, f)[k := f(v)]
  {
  }
}
