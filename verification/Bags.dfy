/** The bag union of all values of a map, and how it changes when the map does. */
module Bags {
  import opened Distinct

  ghost function Union<K, T>(m: map<K, multiset<T>>): multiset<T>
    decreases |m|
  {
    if m == map[] then multiset{}
    else
      var k :| k in m;
      Union(m - {k}) + m[k]
  }

  /** Any entry may be taken out first. */
  lemma {:induction false} UnionTake<K, T>(m: map<K, multiset<T>>, k: K)
    requires k in m
    ensures Union(m) == Union(m - {k}) + m[k]
    decreases |m|
  {
    var j :| j in m && Union(m) == Union(m - {j}) + m[j];
    if j != k {
      UnionTake(m - {j}, k);
      UnionTake(m - {k}, j);
      assert m - {j} - {k} == m - {k} - {j};
    }
  }

  lemma UnionPut<K, T>(m: map<K, multiset<T>>, k: K, bag: multiset<T>)
    requires k !in m
    ensures Union(m[k := bag]) == Union(m) + bag
  {
    UnionTake(m[k := bag], k);
    assert m[k := bag] - {k} == m;
  }

  /** When every bag has `x` as often as its key has places, the union has it as often as there are places in all. */
  lemma {:induction false} UnionPlaces<K, P, T>(m: map<K, multiset<T>>, x: T, places: K -> set<P>)
    requires forall k | k in m :: m[k][x] == |places(k)|
    ensures Union(m)[x] == |KeyedPlaces(m.Keys, places)|
    decreases |m|
  {
    if m == map[] {
      assert KeyedPlaces(m.Keys, places) == {};
    } else {
      var k :| k in m;
      UnionTake(m, k);
      UnionPlaces(m - {k}, x, places);
      assert (m - {k}).Keys == m.Keys - {k};
      KeyedPlacesTake(m.Keys, k, places);
    }
  }

  /** When some bags have `x` once and the others not at all, the union has it as often as there are such bags. */
  lemma {:induction false} UnionOnce<K, T>(m: map<K, multiset<T>>, x: T, hits: set<K>)
    requires hits <= m.Keys
    requires forall k | k in m :: m[k][x] == if k in hits then 1 else 0
    ensures Union(m)[x] == |hits|
    decreases |m|
  {
    if m == map[] {
      assert hits == {};
    } else {
      var k :| k in m;
      UnionTake(m, k);
      UnionOnce(m - {k}, x, hits - {k});
    }
  }
}
