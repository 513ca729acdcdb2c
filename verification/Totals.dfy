/** Sums of valued items by key: order does not matter, and summing in two steps is summing at once. */
module Totals {

  function Concat<T>(parts: seq<seq<T>>): seq<T>
  {
    if parts == [] then []
    else Concat(parts[..|parts| - 1]) + parts[|parts| - 1]
  }

  lemma ConcatSnoc<T>(parts: seq<seq<T>>, part: seq<T>)
    ensures Concat(parts + [part]) == Concat(parts) + part
  {
    assert (parts + [part])[..|parts|] == parts;
  }

  lemma ConcatAfter<T>(before: seq<T>, parts: seq<seq<T>>, part: seq<T>)
    ensures before + Concat(parts + [part]) == before + Concat(parts) + part
  {
    ConcatSnoc(parts, part);
    assert before + (Concat(parts) + part) == before + Concat(parts) + part;
  }

  datatype Item<K> = Item(key: K, value: int)

  /** The sum of the values of the items under one key. */
  function Total<K(==)>(items: seq<Item<K>>, key: K): int
  {
    if items == [] then 0
    else
      var n := |items| - 1;
      Total(items[..n], key) + (if items[n].key == key then items[n].value else 0)
  }

  function Keys<K>(items: seq<Item<K>>): set<K>
  {
    set i | 0 <= i < |items| :: items[i].key
  }

  /** All sums; a key is there as soon as one item has it, whatever its sum. */
  function TotalsOf<K>(items: seq<Item<K>>): map<K, int>
  {
    map k | k in Keys(items) :: Total(items, k)
  }

  function Bump<K>(m: map<K, int>, key: K, value: int): map<K, int>
  {
    m[key := (if key in m then m[key] else 0) + value]
  }

  lemma {:induction false} TotalOfAbsent<K>(items: seq<Item<K>>, key: K)
    requires key !in Keys(items)
    ensures Total(items, key) == 0
  {
    if items != [] {
      var n := |items| - 1;
      assert items[n].key in Keys(items);
      forall k | k in Keys(items[..n])
        ensures k in Keys(items)
      {
        var i :| 0 <= i < n && items[..n][i].key == k;
        assert items[i].key == k;
      }
      TotalOfAbsent(items[..n], key);
    }
  }

  lemma KeysSnoc<K>(items: seq<Item<K>>, item: Item<K>)
    ensures Keys(items + [item]) == Keys(items) + {item.key}
  {
    var more := items + [item];
    forall k | k in Keys(items) + {item.key}
      ensures k in Keys(more)
    {
      if k in Keys(items) {
        var i :| 0 <= i < |items| && items[i].key == k;
        assert more[i].key == k;
      } else {
        assert more[|items|].key == k;
      }
    }
  }

  /** Adding one more item adds its value under its key. */
  lemma TotalsSnoc<K>(items: seq<Item<K>>, item: Item<K>)
    ensures TotalsOf(items + [item]) == Bump(TotalsOf(items), item.key, item.value)
  {
    var more := items + [item];
    assert more[..|items|] == items;
    KeysSnoc(items, item);
    if item.key !in Keys(items) {
      TotalOfAbsent(items, item.key);
    }
  }

  lemma {:induction false} TotalConcat<K>(a: seq<Item<K>>, b: seq<Item<K>>, key: K)
    ensures Total(a + b, key) == Total(a, key) + Total(b, key)
  {
    if b == [] {
      assert a + b == a;
    } else {
      var n := |b| - 1;
      assert (a + b)[..|a| + n] == a + b[..n];
      TotalConcat(a, b[..n], key);
    }
  }

  lemma KeysConcat<K>(a: seq<Item<K>>, b: seq<Item<K>>)
    ensures Keys(a + b) == Keys(a) + Keys(b)
  {
    forall k | k in Keys(a) + Keys(b)
      ensures k in Keys(a + b)
    {
      if k in Keys(a) {
        var i :| 0 <= i < |a| && a[i].key == k;
        assert (a + b)[i].key == k;
      } else {
        var i :| 0 <= i < |b| && b[i].key == k;
        assert (a + b)[|a| + i].key == k;
      }
    }
  }

  function Without<T>(s: seq<T>, i: nat): seq<T>
    requires i < |s|
  {
    s[..i] + s[i + 1..]
  }

  lemma {:induction false} TotalWithout<K>(items: seq<Item<K>>, i: nat, key: K)
    requires i < |items|
    ensures Total(items, key) == Total(Without(items, i), key) + (if items[i].key == key then items[i].value else 0)
  {
    var n := |items| - 1;
    if i == n {
      assert Without(items, n) == items[..n];
    } else {
      var w := Without(items, i);
      assert w[|w| - 1] == items[n];
      assert w[..|w| - 1] == Without(items[..n], i);
      TotalWithout(items[..n], i, key);
    }
  }

  lemma BagWithout<T>(s: seq<T>, i: nat)
    requires i < |s|
    ensures multiset(Without(s, i)) == multiset(s) - multiset{s[i]}
  {
    assert s == s[..i] + ([s[i]] + s[i + 1..]);
    assert multiset(s) == multiset(s[..i]) + (multiset{s[i]} + multiset(s[i + 1..]));
    assert multiset(Without(s, i)) == multiset(s[..i]) + multiset(s[i + 1..]);
  }

  /** The sums do not depend on the order of the items. */
  lemma {:induction false} TotalPermuted<K>(a: seq<Item<K>>, b: seq<Item<K>>, key: K)
    requires multiset(a) == multiset(b)
    ensures Total(a, key) == Total(b, key)
    decreases |a|
  {
    if a == [] {
      assert |b| == |multiset(b)| == 0;
    } else {
      assert a[0] in multiset(b);
      var i :| 0 <= i < |b| && b[i] == a[0];
      BagWithout(a, 0);
      BagWithout(b, i);
      TotalPermuted(Without(a, 0), Without(b, i), key);
      TotalWithout(a, 0, key);
      TotalWithout(b, i, key);
    }
  }

  lemma TotalsPermuted<K>(a: seq<Item<K>>, b: seq<Item<K>>)
    requires multiset(a) == multiset(b)
    ensures TotalsOf(a) == TotalsOf(b)
  {
    forall k
      ensures k in Keys(a) <==> k in Keys(b)
    {
      if k in Keys(a) {
        var i :| 0 <= i < |a| && a[i].key == k;
        assert a[i] in multiset(b);
      }
      if k in Keys(b) {
        var i :| 0 <= i < |b| && b[i].key == k;
        assert b[i] in multiset(a);
      }
    }
    forall k | k in Keys(a)
      ensures Total(a, k) == Total(b, k)
    {
      TotalPermuted(a, b, k);
    }
  }

  // ---------- Coarser keys ----------

  function Rekey<K, L>(items: seq<Item<K>>, f: K -> L): seq<Item<L>>
  {
    seq(|items|, i requires 0 <= i < |items| => Item(f(items[i].key), items[i].value))
  }

  lemma RekeySnoc<K, L>(items: seq<Item<K>>, item: Item<K>, f: K -> L)
    ensures Rekey(items + [item], f) == Rekey(items, f) + [Item(f(item.key), item.value)]
  {
  }

  lemma {:induction false} RekeyPermuted<K, L>(a: seq<Item<K>>, b: seq<Item<K>>, f: K -> L)
    requires multiset(a) == multiset(b)
    ensures multiset(Rekey(a, f)) == multiset(Rekey(b, f))
    decreases |a|
  {
    if a == [] {
      assert |b| == |multiset(b)| == 0;
    } else {
      assert a[0] in multiset(b);
      var i :| 0 <= i < |b| && b[i] == a[0];
      BagWithout(a, 0);
      BagWithout(b, i);
      RekeyPermuted(Without(a, 0), Without(b, i), f);
      RekeyWithout(a, 0, f);
      RekeyWithout(b, i, f);
    }
  }

  lemma RekeyWithout<K, L>(a: seq<Item<K>>, i: nat, f: K -> L)
    requires i < |a|
    ensures multiset(Rekey(a, f)) == multiset(Rekey(Without(a, i), f)) + multiset{Item(f(a[i].key), a[i].value)}
  {
    assert Rekey(Without(a, i), f) == Without(Rekey(a, f), i);
    BagWithout(Rekey(a, f), i);
    assert Rekey(a, f)[i] in multiset(Rekey(a, f));
  }

  lemma {:induction false} DistinctOnce<T>(s: seq<T>, x: T)
    requires forall i, j :: 0 <= i < j < |s| ==> s[i] != s[j]
    ensures multiset(s)[x] == if x in s then 1 else 0
  {
    if s != [] {
      var n := |s| - 1;
      assert s == s[..n] + [s[n]];
      DistinctOnce(s[..n], x);
    }
  }

  /** Two lists without repetition and with the same elements are permutations of each other. */
  lemma DistinctSameBag<T>(a: seq<T>, b: seq<T>)
    requires forall i, j :: 0 <= i < j < |a| ==> a[i] != a[j]
    requires forall i, j :: 0 <= i < j < |b| ==> b[i] != b[j]
    requires forall x :: x in a <==> x in b
    ensures multiset(a) == multiset(b)
  {
    forall x
      ensures multiset(a)[x] == multiset(b)[x]
    {
      DistinctOnce(a, x);
      DistinctOnce(b, x);
    }
  }

  /** The sum of the entries of `m` whose key goes to `l`. */
  ghost function SumInto<K, L>(m: map<K, int>, f: K -> L, l: L): int
    decreases |m|
  {
    if m == map[] then 0
    else
      var k :| k in m;
      (if f(k) == l then m[k] else 0) + SumInto(m - {k}, f, l)
  }

  lemma {:induction false} SumIntoTake<K, L>(m: map<K, int>, f: K -> L, l: L, k: K)
    requires k in m
    ensures SumInto(m, f, l) == (if f(k) == l then m[k] else 0) + SumInto(m - {k}, f, l)
    decreases |m|
  {
    var j :| j in m && SumInto(m, f, l) == (if f(j) == l then m[j] else 0) + SumInto(m - {j}, f, l);
    if j != k {
      SumIntoTake(m - {j}, f, l, k);
      SumIntoTake(m - {k}, f, l, j);
      assert m - {j} - {k} == m - {k} - {j};
    }
  }

  lemma SumIntoBump<K, L>(m: map<K, int>, f: K -> L, l: L, k: K, v: int)
    ensures SumInto(Bump(m, k, v), f, l) == SumInto(m, f, l) + (if f(k) == l then v else 0)
  {
    var after := Bump(m, k, v);
    SumIntoTake(after, f, l, k);
    assert after - {k} == m - {k};
    if k in m {
      SumIntoTake(m, f, l, k);
    } else {
      assert m - {k} == m;
    }
  }

  /** Sums by a fine key add up to the sums by any coarser key. */
  lemma {:induction false} FineSumsToCoarse<K, L>(items: seq<Item<K>>, f: K -> L, l: L)
    ensures SumInto(TotalsOf(items), f, l) == Total(Rekey(items, f), l)
  {
    if items == [] {
      assert TotalsOf(items) == map[];
    } else {
      var n := |items| - 1;
      var init, last := items[..n], items[n];
      assert items == init + [last];
      FineSumsToCoarse(init, f, l);
      TotalsSnoc(init, last);
      RekeySnoc(init, last, f);
      SumIntoBump(TotalsOf(init), f, l, last.key, last.value);
      assert Rekey(items, f)[..n] == Rekey(init, f);
    }
  }

  lemma KeysRekey<K, L>(items: seq<Item<K>>, f: K -> L)
    ensures Keys(Rekey(items, f)) == set k | k in Keys(items) :: f(k)
  {
    var r := Rekey(items, f);
    forall l | l in Keys(r)
      ensures l in set k | k in Keys(items) :: f(k)
    {
      var i :| 0 <= i < |r| && r[i].key == l;
      assert items[i].key in Keys(items);
    }
    forall k | k in Keys(items)
      ensures f(k) in Keys(r)
    {
      var i :| 0 <= i < |items| && items[i].key == k;
      assert r[i].key == f(k);
    }
  }

  // ---------- Grouping ----------

  /** `rows` is `items` grouped by key and summed, in some order. */
  ghost predicate Groups<K>(rows: seq<Item<K>>, items: seq<Item<K>>)
  {
    && (forall i, j :: 0 <= i < j < |rows| ==> rows[i].key != rows[j].key)
    && Keys(rows) == Keys(items)
    && forall i :: 0 <= i < |rows| ==> rows[i].value == Total(items, rows[i].key)
  }

  lemma {:induction false} TotalOfDistinct<K>(rows: seq<Item<K>>, i: nat)
    requires i < |rows|
    requires forall a, b :: 0 <= a < b < |rows| ==> rows[a].key != rows[b].key
    ensures Total(rows, rows[i].key) == rows[i].value
  {
    var n := |rows| - 1;
    if i == n {
      TotalOfAbsent(rows[..n], rows[n].key);
    } else {
      TotalOfDistinct(rows[..n], i);
    }
  }

  lemma GroupsSameTotals<K>(rows: seq<Item<K>>, items: seq<Item<K>>)
    requires Groups(rows, items)
    ensures TotalsOf(rows) == TotalsOf(items)
  {
    forall k | k in Keys(rows)
      ensures Total(rows, k) == Total(items, k)
    {
      var i :| 0 <= i < |rows| && rows[i].key == k;
      TotalOfDistinct(rows, i);
    }
  }

  /** Grouping by a fine key first and then summing by a coarser key is summing by the coarser key. */
  lemma GroupsThenCoarse<K, L>(rows: seq<Item<K>>, items: seq<Item<K>>, f: K -> L)
    requires Groups(rows, items)
    ensures TotalsOf(Rekey(rows, f)) == TotalsOf(Rekey(items, f))
  {
    GroupsSameTotals(rows, items);
    KeysRekey(rows, f);
    KeysRekey(items, f);
    forall l | l in Keys(Rekey(items, f))
      ensures Total(Rekey(rows, f), l) == Total(Rekey(items, f), l)
    {
      FineSumsToCoarse(rows, f, l);
      FineSumsToCoarse(items, f, l);
    }
  }

  /** Every list of items has a grouping. */
  lemma GroupsExist<K>(items: seq<Item<K>>) returns (rows: seq<Item<K>>)
    ensures Groups(rows, items)
  {
    rows := EnumerateTotals(items, Keys(items));
  }

  lemma {:induction false} EnumerateTotals<K>(items: seq<Item<K>>, keys: set<K>) returns (rows: seq<Item<K>>)
    ensures forall i, j :: 0 <= i < j < |rows| ==> rows[i].key != rows[j].key
    ensures Keys(rows) == keys
    ensures forall i :: 0 <= i < |rows| ==> rows[i].value == Total(items, rows[i].key)
    decreases keys
  {
    rows := [];
    if keys != {} {
      var k :| k in keys;
      var rest := EnumerateTotals(items, keys - {k});
      rows := rest + [Item(k, Total(items, k))];
      KeysSnoc(rest, Item(k, Total(items, k)));
      forall i | 0 <= i < |rest|
        ensures rest[i].key != k
      {
        assert rest[i].key in Keys(rest);
      }
    }
  }
}
