/** Lists without repetition: how long they can be, and those of a set. */
module Distinct {

  ghost predicate NoRepeats<T>(s: seq<T>)
  {
    forall i, j :: 0 <= i < j < |s| ==> s[i] != s[j]
  }

  function UpTo(n: nat): (r: set<nat>)
    ensures |r| == n && forall x: nat :: x in r <==> x < n
  {
    if n == 0 then {} else UpTo(n - 1) + {n - 1}
  }

  function Elements(s: seq<nat>): (r: set<nat>)
    ensures forall x: nat :: x in r <==> x in s
    ensures NoRepeats(s) ==> |r| == |s|
  {
    if s == [] then {}
    else
      var n := |s| - 1;
      assert s == s[..n] + [s[n]];
      Elements(s[..n]) + {s[n]}
  }

  lemma ElementsBelow(s: seq<nat>, n: nat)
    requires forall x | x in s :: x < n
    ensures Elements(s) <= UpTo(n) && |Elements(s)| <= n
  {
    SubsetSize(Elements(s), UpTo(n));
  }

  lemma SubsetSize(a: set<nat>, b: set<nat>)
    requires a <= b
    ensures |a| <= |b| && (|a| == |b| ==> a == b)
  {
    assert b == a + (b - a);
  }

  lemma AllWhenFull(s: seq<nat>, n: nat)
    requires NoRepeats(s) && |s| == n && forall x | x in s :: x < n
    ensures forall x: nat | x < n :: x in s
  {
    ElementsBelow(s, n);
    SubsetSize(Elements(s), UpTo(n));
    assert forall x: nat | x < n :: x in UpTo(n);
  }

  lemma FullWhenAll(s: seq<nat>, n: nat)
    requires NoRepeats(s) && (forall x | x in s :: x < n) && forall x: nat | x < n :: x in s
    ensures |s| == n
  {
    assert Elements(s) == UpTo(n);
  }

  /** A list of different numbers below n has at most n of them, and n exactly when it has all. */
  lemma FewWithoutRepeats(s: seq<nat>, n: nat)
    requires NoRepeats(s) && forall x | x in s :: x < n
    ensures |s| <= n
    ensures |s| == n <==> forall x: nat | x < n :: x in s
  {
    ElementsBelow(s, n);
    if |s| == n {
      AllWhenFull(s, n);
    } else if forall x: nat | x < n :: x in s {
      FullWhenAll(s, n);
    }
  }

  ghost function Paired<S, T>(d: S, places: set<T>): set<(S, T)>
  {
    set c | c in places :: (d, c)
  }

  lemma {:induction false} PairedSize<S, T>(d: S, places: set<T>)
    ensures |Paired(d, places)| == |places|
    decreases |places|
  {
    if places == {} {
      assert Paired(d, places) == {};
    } else {
      var c :| c in places;
      PairedSize(d, places - {c});
      assert Paired(d, places) == Paired(d, places - {c}) + {(d, c)};
      assert (d, c) !in Paired(d, places - {c});
    }
  }

  /** What the items of a list have, each with the position of its item. */
  ghost function Places<C, T>(items: seq<C>, has: C -> set<T>): set<(int, T)>
  {
    set i, x | 0 <= i < |items| && x in has(items[i]) :: (i, x)
  }

  lemma PlacesMore<C, T>(items: seq<C>, item: C, has: C -> set<T>)
    ensures |Places(items + [item], has)| == |Places(items, has)| + |has(item)|
  {
    var n := |items|;
    PairedSize(n, has(item));
    assert Places(items + [item], has) == Places(items, has) + Paired(n, has(item));
    assert Places(items, has) !! Paired(n, has(item));
  }

  /** The positions of those items of a list that satisfy a test. */
  ghost function Indices<C>(items: seq<C>, test: C -> bool): set<int>
  {
    set i | 0 <= i < |items| && test(items[i])
  }

  lemma IndicesMore<C>(items: seq<C>, item: C, test: C -> bool)
    ensures |Indices(items + [item], test)| == |Indices(items, test)| + if test(item) then 1 else 0
  {
    var n := |items|;
    assert Indices(items + [item], test) == Indices(items, test) + if test(item) then {n} else {};
    assert n !in Indices(items, test);
  }

  /** What all keys have, each with its key. */
  ghost function KeyedPlaces<K, T>(keys: set<K>, has: K -> set<T>): set<(K, T)>
  {
    set k, x | k in keys && x in has(k) :: (k, x)
  }

  lemma KeyedPlacesTake<K, T>(keys: set<K>, k: K, has: K -> set<T>)
    requires k in keys
    ensures |KeyedPlaces(keys, has)| == |KeyedPlaces(keys - {k}, has)| + |has(k)|
  {
    PairedSize(k, has(k));
    assert KeyedPlaces(keys, has) == KeyedPlaces(keys - {k}, has) + Paired(k, has(k));
    assert KeyedPlaces(keys - {k}, has) !! Paired(k, has(k));
  }

  lemma {:induction false} KeyedPlacesAsMany<K, S, T>(keys: set<K>, f: K -> set<S>, g: K -> set<T>)
    requires forall k | k in keys :: |f(k)| == |g(k)|
    ensures |KeyedPlaces(keys, f)| == |KeyedPlaces(keys, g)|
    decreases |keys|
  {
    if keys == {} {
      assert KeyedPlaces(keys, f) == {} && KeyedPlaces(keys, g) == {};
    } else {
      var k :| k in keys;
      KeyedPlacesTake(keys, k, f);
      KeyedPlacesTake(keys, k, g);
      KeyedPlacesAsMany(keys - {k}, f, g);
    }
  }

  /** All elements of a set, each once. */
  ghost predicate Lists<T(!new)>(order: seq<T>, all: set<T>)
  {
    NoRepeats(order) && forall x :: x in order <==> x in all
  }

  /** A set in an order of the runtime's choosing. */
  method AnyOrder<T(==, !new)>(all: set<T>) returns (order: seq<T>)
    ensures Lists(order, all)
  {
    order := [];
    var todo := all;
    while todo != {}
      invariant todo <= all && Lists(order, all - todo)
      decreases |todo|
    {
      var k :| k in todo;
      todo := todo - {k};
      order := order + [k];
    }
  }
}
