/**
  The transform of the informer in front of the metric store: it trims every object to the fields
  that the metrics read.
 */
module CrdInformer {
  import opened Wrappers
  import opened Unstructured
  import opened CrdHelpers
  import opened CrdMetrics

  // ---------- Trimming ----------

  /** A fresh object with the identity fields of `obj`, written one after the other. */
  function WithIdentity(obj: Fields): Fields
  {
    var named := SetString(map[], GetName(obj), NAME);
    var placed := SetString(named, GetNamespace(obj), NAMESPACE);
    var identified := SetString(placed, GetUID(obj), UID);
    var versioned := SetString(identified, GetResourceVersion(obj), RESOURCE_VERSION);
    SetInt(versioned, GetGeneration(obj), GENERATION)
  }

  function CopyNestedField(src: Fields, dst: Fields, path: string): Fields
  {
    if path == "" then dst
    else match NestedField(src, Split(path))
      case Found(v) => SetOrKeep(dst, v, Split(path))
      case _ => dst
  }

  /** Copying a path without a dot copies the field of that name. */
  lemma CopyField(src: Fields, dst: Fields, a: string)
    requires a != "" && '.' !in a
    ensures CopyNestedField(src, dst, a) == if a in src then dst[a := src[a]] else dst
  {
    ReadDotted(src, a, "");
    SplitFirst(a, "");
  }

  /**
    Copying a path with a dot copies into the object under what stands before the first dot, which is
    made if there is none; nothing is copied when there is nothing to copy or something else stands there.
   */
  lemma CopyWithin(src: Fields, dst: Fields, a: string, b: string)
    requires '.' !in a && b != ""
    ensures var from, into := if a in src && src[a].Obj? then src[a].fields else map[],
                              if a in dst && dst[a].Obj? then dst[a].fields else map[];
            var copied := CopyNestedField(from, into, b);
            CopyNestedField(src, dst, a + "." + b)
            == if copied == into || (a in dst && !dst[a].Obj?) then dst else dst[a := Obj(copied)]
  {
    ReadDotted(src, a, b);
    SplitFirst(a, b);
    var path := [a] + Split(b);
    assert path[0] == a && path[1..] == Split(b);
    assert a in dst && dst[a].Obj? ==> dst[a := Obj(dst[a].fields)] == dst;
  }

  function CopyPaths(src: Fields, dst: Fields, paths: seq<string>): Fields
  {
    if paths == [] then dst
    else CopyNestedField(src, CopyPaths(src, dst, paths[..|paths| - 1]), paths[|paths| - 1])
  }

  function Trim(obj: Fields, paths: seq<string>): Fields
  {
    CopyPaths(obj, WithIdentity(obj), paths)
  }

  /** What the informer's cache and handlers see of an object: without paths nothing is trimmed. */
  function Seen(obj: Fields, paths: seq<string>): Fields
  {
    if paths == [] then obj else Trim(obj, paths)
  }

  // ----- The identity fields -----

  function UnderMetadata(m: Fields): Fields
  {
    if m == map[] then map[] else map["metadata" := Obj(m)]
  }

  function PutString(m: Fields, key: string, s: string): Fields
  {
    if s == "" then m else m[key := Str(s)]
  }

  function IdentityOf(obj: Fields): Fields
  {
    var m := PutString(PutString(PutString(PutString(map[], "name", GetName(obj)), "namespace", GetNamespace(obj)),
                       "uid", GetUID(obj)), "resourceVersion", GetResourceVersion(obj));
    if GetGeneration(obj) == 0 then m else m["generation" := Int(GetGeneration(obj))]
  }

  lemma PutUnderMetadata(m: Fields, key: string, v: Json)
    ensures SetOrKeep(UnderMetadata(m), v, ["metadata", key]) == UnderMetadata(m[key := v])
    ensures key !in m ==> RemoveNestedField(UnderMetadata(m), ["metadata", key]) == UnderMetadata(m)
  {
    var path := ["metadata", key];
    assert path[1..] == [key];
    assert SetNestedField(m, v, [key]) == Some(m[key := v]);
    assert key in m[key := v];
    assert key !in m ==> m - {key} == m;
  }

  lemma StringUnderMetadata(m: Fields, key: string, s: string)
    requires key !in m
    ensures SetString(UnderMetadata(m), s, ["metadata", key]) == UnderMetadata(PutString(m, key, s))
  {
    PutUnderMetadata(m, key, Str(s));
  }

  lemma WithIdentityShape(obj: Fields)
    ensures WithIdentity(obj) == UnderMetadata(IdentityOf(obj))
  {
    var m0: Fields := map[];
    var m1 := PutString(m0, "name", GetName(obj));
    var m2 := PutString(m1, "namespace", GetNamespace(obj));
    var m3 := PutString(m2, "uid", GetUID(obj));
    var m4 := PutString(m3, "resourceVersion", GetResourceVersion(obj));
    StringUnderMetadata(m0, "name", GetName(obj));
    StringUnderMetadata(m1, "namespace", GetNamespace(obj));
    StringUnderMetadata(m2, "uid", GetUID(obj));
    StringUnderMetadata(m3, "resourceVersion", GetResourceVersion(obj));
    PutUnderMetadata(m4, "generation", Int(GetGeneration(obj)));
  }

  /** Every entry of `m` is a field of the object's metadata. */
  ghost predicate FromMetadata(m: Fields, obj: Fields)
  {
    forall k :: k in m ==> NestedField(obj, ["metadata", k]) == Found(m[k])
  }

  lemma PutFromMetadata(m: Fields, obj: Fields, key: string)
    requires FromMetadata(m, obj)
    ensures FromMetadata(PutString(m, key, StringAt(obj, ["metadata", key])), obj)
  {
  }

  lemma IdentityFromMetadata(obj: Fields)
    ensures FromMetadata(IdentityOf(obj), obj)
  {
    var m0: Fields := map[];
    PutFromMetadata(m0, obj, "name");
    var m1 := PutString(m0, "name", GetName(obj));
    PutFromMetadata(m1, obj, "namespace");
    var m2 := PutString(m1, "namespace", GetNamespace(obj));
    PutFromMetadata(m2, obj, "uid");
    var m3 := PutString(m2, "uid", GetUID(obj));
    PutFromMetadata(m3, obj, "resourceVersion");
  }

  lemma ReadUnderMetadata(m: Fields, k: string)
    ensures NestedField(UnderMetadata(m), ["metadata", k]) == if k in m then Found(m[k]) else Absent
  {
    ReadUnder(UnderMetadata(m), "metadata", k);
  }

  lemma UnderMetadataPart(m: Fields, obj: Fields)
    requires FromMetadata(m, obj)
    ensures PartOf(Obj(UnderMetadata(m)), Obj(obj))
  {
    forall k | k in m
      ensures "metadata" in obj && obj["metadata"].Obj?
      ensures k in obj["metadata"].fields && obj["metadata"].fields[k] == m[k]
      ensures PartOf(m[k], obj["metadata"].fields[k])
    {
      ReadUnder(obj, "metadata", k);
      assert NestedField(obj, ["metadata", k]) == Found(m[k]);
      PartOfItself(m[k]);
    }
  }

  lemma IdentityFields(obj: Fields)
    ensures PartOf(Obj(WithIdentity(obj)), Obj(obj))
    ensures FromMetadata(IdentityOf(obj), obj)
    ensures forall k :: NestedField(WithIdentity(obj), ["metadata", k])
                     == if k in IdentityOf(obj) then Found(IdentityOf(obj)[k]) else Absent
  {
    WithIdentityShape(obj);
    IdentityFromMetadata(obj);
    UnderMetadataPart(IdentityOf(obj), obj);
    forall k
      ensures NestedField(WithIdentity(obj), ["metadata", k])
           == if k in IdentityOf(obj) then Found(IdentityOf(obj)[k]) else Absent
    {
      ReadUnderMetadata(IdentityOf(obj), k);
    }
  }

  /** A string field that survives in a part whenever it is set reads the same in both. */
  lemma PartSameString(part: Fields, whole: Fields, path: seq<string>)
    requires PartOf(Obj(part), Obj(whole))
    requires StringAt(whole, path) != "" ==> NestedField(part, path) == NestedField(whole, path)
    ensures StringAt(part, path) == StringAt(whole, path)
  {
    if NestedField(part, path).Found? {
      PartOfReads(Obj(part), Obj(whole), path);
    }
  }

  lemma PartSameInt(part: Fields, whole: Fields, path: seq<string>)
    requires PartOf(Obj(part), Obj(whole))
    requires IntAt(whole, path) != 0 ==> NestedField(part, path) == NestedField(whole, path)
    ensures IntAt(part, path) == IntAt(whole, path)
  {
    if NestedField(part, path).Found? {
      PartOfReads(Obj(part), Obj(whole), path);
    }
  }

  // ----- Copying path after path -----

  lemma CopyOne(src: Fields, dst: Fields, path: string)
    requires PartOf(Obj(dst), Obj(src))
    ensures PartOf(Obj(CopyNestedField(src, dst, path)), Obj(src))
    ensures path != "" ==> SameAt(CopyNestedField(src, dst, path), src, Split(path))
  {
    var after := CopyNestedField(src, dst, path);
    if path != "" {
      if NestedField(src, Split(path)).Found? {
        CopyIntoPart(dst, src, Split(path));
      } else if NestedField(after, Split(path)).Found? {
        PartOfReads(Obj(after), Obj(src), Split(path));
      }
    }
  }

  lemma CopyOneKeeps(src: Fields, dst: Fields, path: string, other: seq<string>)
    requires PartOf(Obj(dst), Obj(src))
    requires SameAt(dst, src, other)
    ensures SameAt(CopyNestedField(src, dst, path), src, other)
  {
    CopyOne(src, dst, path);
    var after := CopyNestedField(src, dst, path);
    if NestedField(src, other).Found? {
      if path != "" && NestedField(src, Split(path)).Found? {
        CopyKeepsExact(dst, src, Split(path), other);
      }
    } else if NestedField(after, other).Found? {
      PartOfReads(Obj(after), Obj(src), other);
    }
  }

  /** Whatever the order and overlap of the paths, each ends up reading the same as in the source. */
  lemma {:induction false} CopyPathsExact(src: Fields, dst: Fields, paths: seq<string>)
    requires PartOf(Obj(dst), Obj(src))
    ensures PartOf(Obj(CopyPaths(src, dst, paths)), Obj(src))
    ensures forall p :: p in paths && p != "" ==> SameAt(CopyPaths(src, dst, paths), src, Split(p))
  {
    if paths != [] {
      var init, last := paths[..|paths| - 1], paths[|paths| - 1];
      var before := CopyPaths(src, dst, init);
      CopyPathsExact(src, dst, init);
      CopyOne(src, before, last);
      forall p | p in paths && p != ""
        ensures SameAt(CopyPaths(src, dst, paths), src, Split(p))
      {
        if p != last {
          assert p in init;
          CopyOneKeeps(src, before, last, Split(p));
        }
      }
    }
  }

  lemma {:induction false} CopyPathsKeeps(src: Fields, dst: Fields, paths: seq<string>, other: seq<string>)
    requires PartOf(Obj(dst), Obj(src))
    requires SameAt(dst, src, other)
    ensures SameAt(CopyPaths(src, dst, paths), src, other)
  {
    if paths != [] {
      var init := paths[..|paths| - 1];
      CopyPathsExact(src, dst, init);
      CopyPathsKeeps(src, dst, init, other);
      CopyOneKeeps(src, CopyPaths(src, dst, init), paths[|paths| - 1], other);
    }
  }

  // ----- What trimming keeps -----

  lemma TrimKeepsString(obj: Fields, paths: seq<string>, key: string)
    requires key in ["name", "namespace", "uid", "resourceVersion"]
    ensures StringAt(Trim(obj, paths), ["metadata", key]) == StringAt(obj, ["metadata", key])
  {
    var path := ["metadata", key];
    IdentityFields(obj);
    CopyPathsExact(obj, WithIdentity(obj), paths);
    if StringAt(obj, path) != "" {
      assert key in IdentityOf(obj);
      CopyPathsKeeps(obj, WithIdentity(obj), paths, path);
    }
    PartSameString(Trim(obj, paths), obj, path);
  }

  /** Name, namespace, UID, resource version and generation survive any trimming. */
  lemma TrimKeepsIdentity(obj: Fields, paths: seq<string>)
    ensures GetName(Trim(obj, paths)) == GetName(obj)
    ensures GetNamespace(Trim(obj, paths)) == GetNamespace(obj)
    ensures GetUID(Trim(obj, paths)) == GetUID(obj)
    ensures GetResourceVersion(Trim(obj, paths)) == GetResourceVersion(obj)
    ensures GetGeneration(Trim(obj, paths)) == GetGeneration(obj)
    ensures ResourceKey(Trim(obj, paths)) == ResourceKey(obj)
  {
    TrimKeepsString(obj, paths, "name");
    TrimKeepsString(obj, paths, "namespace");
    TrimKeepsString(obj, paths, "uid");
    TrimKeepsString(obj, paths, "resourceVersion");
    IdentityFields(obj);
    CopyPathsExact(obj, WithIdentity(obj), paths);
    if GetGeneration(obj) != 0 {
      assert "generation" in IdentityOf(obj);
      CopyPathsKeeps(obj, WithIdentity(obj), paths, GENERATION);
    }
    PartSameInt(Trim(obj, paths), obj, GENERATION);
  }

  /** Trimming to all paths the metrics read, in any order and with any overlap, changes no metric. */
  lemma TrimKeepsMetrics(schema: Schema, obj: Fields, paths: seq<string>)
    requires forall p :: schema.Reads(p) && p != "" ==> p in paths
    ensures schema.Derive(Trim(obj, paths)) == schema.Derive(obj)
    ensures schema.Derive(Seen(obj, paths)) == schema.Derive(obj)
  {
    IdentityFields(obj);
    CopyPathsExact(obj, WithIdentity(obj), paths);
    SameReadsSameDerived(schema, Trim(obj, paths), obj);
  }

  /** Trimming a trimmed object again changes nothing. */
  lemma TrimTwice(obj: Fields, paths: seq<string>)
    ensures Trim(Trim(obj, paths), paths) == Trim(obj, paths)
  {
    var once := Trim(obj, paths);
    TrimKeepsIdentity(obj, paths);
    IdentityFields(obj);
    CopyPathsExact(obj, WithIdentity(obj), paths);
    CopyPathsSame(once, obj, WithIdentity(obj), paths);
  }

  lemma {:induction false} CopyPathsSame(a: Fields, b: Fields, dst: Fields, paths: seq<string>)
    requires forall p :: p in paths && p != "" ==> SameAt(a, b, Split(p))
    ensures CopyPaths(a, dst, paths) == CopyPaths(b, dst, paths)
  {
    if paths != [] {
      CopyPathsSame(a, b, dst, paths[..|paths| - 1]);
    }
  }

  // ----- What trimming leaves out -----

  /** A leaf is either under a listed path or an identity field. */
  predicate Covered(leaf: seq<string>, paths: seq<string>)
  {
    || (exists i | 0 <= i < |paths| :: paths[i] != "" && Split(paths[i]) <= leaf)
    || (exists k | k in ["name", "namespace", "uid", "resourceVersion", "generation"] :: ["metadata", k] <= leaf)
  }

  lemma {:induction false} SetAddsOnlyBelow(obj: Fields, value: Json, path: seq<string>, leaf: seq<string>)
    requires path != []
    requires SetNestedField(obj, value, path).Some?
    requires NestedField(SetNestedField(obj, value, path).value, leaf).Found?
    requires !NestedField(SetNestedField(obj, value, path).value, leaf).value.Obj?
    ensures path <= leaf || NestedField(obj, leaf) == NestedField(SetNestedField(obj, value, path).value, leaf)
    decreases |path|
  {
    var k := path[0];
    assert leaf == [leaf[0]] + leaf[1..] && path == [k] + path[1..];
    if leaf[0] == k && |path| > 1 {
      var inner := if k in obj then obj[k].fields else map[];
      SetAddsOnlyBelow(inner, value, path[1..], leaf[1..]);
      assert k !in obj ==> !NestedField(inner, leaf[1..]).Found?;
    }
  }

  lemma {:induction false} CopyPathsAddOnlyCovered(src: Fields, dst: Fields, paths: seq<string>, leaf: seq<string>)
    requires NestedField(CopyPaths(src, dst, paths), leaf).Found?
    requires !NestedField(CopyPaths(src, dst, paths), leaf).value.Obj?
    ensures NestedField(dst, leaf) == NestedField(CopyPaths(src, dst, paths), leaf) || Covered(leaf, paths)
  {
    if paths != [] {
      var init, last := paths[..|paths| - 1], paths[|paths| - 1];
      var before := CopyPaths(src, dst, init);
      if last != "" && Split(last) <= leaf {
        assert paths[|paths| - 1] == last;
      } else {
        if last != "" && NestedField(src, Split(last)).Found? {
          var v := NestedField(src, Split(last)).value;
          if SetNestedField(before, v, Split(last)).Some? {
            SetAddsOnlyBelow(before, v, Split(last), leaf);
          }
        }
        CopyPathsAddOnlyCovered(src, dst, init, leaf);
        assert forall i :: 0 <= i < |init| ==> init[i] == paths[i];
      }
    }
  }

  /** Trimming keeps nothing else: every leaf left is under a listed path or an identity field. */
  lemma TrimKeepsOnly(obj: Fields, paths: seq<string>, leaf: seq<string>)
    requires NestedField(Trim(obj, paths), leaf).Found?
    requires !NestedField(Trim(obj, paths), leaf).value.Obj?
    ensures Covered(leaf, paths)
    ensures NestedField(obj, leaf) == NestedField(Trim(obj, paths), leaf)
  {
    IdentityFields(obj);
    CopyPathsExact(obj, WithIdentity(obj), paths);
    PartOfReads(Obj(Trim(obj, paths)), Obj(obj), leaf);
    CopyPathsAddOnlyCovered(obj, WithIdentity(obj), paths, leaf);
    if NestedField(WithIdentity(obj), leaf).Found? && !NestedField(WithIdentity(obj), leaf).value.Obj? {
      WithIdentityShape(obj);
      LeafUnderMetadata(IdentityOf(obj), leaf);
      assert leaf[1] in ["name", "namespace", "uid", "resourceVersion", "generation"];
    }
  }

  lemma LeafUnderMetadata(m: Fields, leaf: seq<string>)
    requires NestedField(UnderMetadata(m), leaf).Found? && !NestedField(UnderMetadata(m), leaf).value.Obj?
    ensures |leaf| >= 2 && leaf[1] in m && ["metadata", leaf[1]] <= leaf
  {
    assert leaf[0] == "metadata";
    assert NestedField(UnderMetadata(m), leaf) == NestedValue(Obj(m), leaf[1..]);
  }
}
