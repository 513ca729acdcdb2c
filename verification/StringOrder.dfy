/** Lexicographic order of strings, and the keys of a map in that order. */
module StringOrder {

  predicate Leq(a: string, b: string)
  {
    a == "" || (b != "" && (a[0] < b[0] || (a[0] == b[0] && Leq(a[1..], b[1..]))))
  }

  lemma {:induction false} LeqTotal(a: string, b: string)
    ensures Leq(a, b) || Leq(b, a)
    ensures Leq(a, b) && Leq(b, a) ==> a == b
  {
    if a != "" && b != "" {
      LeqTotal(a[1..], b[1..]);
      assert a == [a[0]] + a[1..] && b == [b[0]] + b[1..];
    }
  }

  lemma {:induction false} LeqTransitive(a: string, b: string, c: string)
    requires Leq(a, b) && Leq(b, c)
    ensures Leq(a, c)
  {
    if a != "" && a[0] == b[0] && b[0] == c[0] {
      LeqTransitive(a[1..], b[1..], c[1..]);
    }
  }

  predicate IsFirst(k: string, keys: set<string>)
  {
    k in keys && forall x :: x in keys ==> Leq(k, x)
  }

  lemma {:induction false} FirstExists(keys: set<string>)
    requires keys != {}
    ensures exists k :: IsFirst(k, keys)
    ensures forall a, b :: IsFirst(a, keys) && IsFirst(b, keys) ==> a == b
    decreases |keys|
  {
    forall a, b | IsFirst(a, keys) && IsFirst(b, keys)
      ensures a == b
    {
      LeqTotal(a, b);
    }
    var k :| k in keys;
    LeqTotal(k, k);
    if keys == {k} {
      assert IsFirst(k, keys);
    } else {
      var rest := keys - {k};
      FirstExists(rest);
      var f :| IsFirst(f, rest);
      LeqTotal(k, f);
      if Leq(k, f) {
        forall x | x in rest
          ensures Leq(k, x)
        {
          LeqTransitive(k, f, x);
        }
        assert IsFirst(k, keys);
      } else {
        assert IsFirst(f, keys);
      }
    }
  }

  /** The keys in ascending order. */
  function SortedKeys(keys: set<string>): (r: seq<string>)
    ensures |r| == |keys|
    ensures forall k :: k in r <==> k in keys
    decreases |keys|
  {
    if keys == {} then []
    else
      FirstExists(keys);
      var k :| IsFirst(k, keys);
      [k] + SortedKeys(keys - {k})
  }

  lemma {:induction false} SortedKeysAscend(keys: set<string>, i: nat, j: nat)
    requires i < j < |keys|
    ensures Leq(SortedKeys(keys)[i], SortedKeys(keys)[j]) && SortedKeys(keys)[i] != SortedKeys(keys)[j]
    decreases |keys|
  {
    var r := SortedKeys(keys);
    var rest := keys - {r[0]};
    assert r[1..] == SortedKeys(rest);
    if i == 0 {
      assert r[j] == r[1..][j - 1] && r[1..][j - 1] in rest;
    } else {
      SortedKeysAscend(rest, i - 1, j - 1);
    }
  }
}
