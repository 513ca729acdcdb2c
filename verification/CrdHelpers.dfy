/** What a configured path reads from an object, and the sorted label maps of a CRD config. */
module CrdHelpers {
  import opened Unstructured
  import opened StringOrder

  // ---------- Reading a configured path ----------

  function ExtractFieldString(obj: Fields, path: string): string
  {
    if path == "" then "" else StringAt(obj, Split(path))
  }

  function ExtractFieldFloat(obj: Fields, path: string): Num
  {
    if path == "" then Whole(0)
    else match NestedField(obj, Split(path))
      case Found(v) => ToFloat64(v)
      case _ => Whole(0)
  }

  function ExtractFieldMap(obj: Fields, path: string): Fields
  {
    if path == "" then map[]
    else match NestedField(obj, Split(path))
      case Found(Obj(m)) => m
      case _ => map[]
  }

  function ExtractFieldSlice(obj: Fields, path: string): seq<Json>
  {
    if path == "" then []
    else match NestedField(obj, Split(path))
      case Found(Arr(items)) => items
      case _ => []
  }

  /**
    A sample value. Parsed(s) stands for whatever number the platform's float parser makes of s,
    so two samples with the same Parsed text have the same value.
   */
  datatype Num = Whole(i: int) | Frac(r: real) | Parsed(text: string)

  function ToFloat64(v: Json): Num
  {
    match v
    case Float(r) => Frac(r)
    case Int(i) => Whole(i)
    case Bool(b) => Whole(if b then 1 else 0)
    case Str(s) => Parsed(s)
    case _ => Whole(0)
  }

  /** One part can stand in for the whole at `path`: it has the field exactly when the whole does. */
  ghost predicate SameAt(part: Fields, whole: Fields, path: seq<string>)
  {
    && (NestedField(part, path).Found? <==> NestedField(whole, path).Found?)
    && (NestedField(whole, path).Found? ==> NestedField(part, path) == NestedField(whole, path))
  }

  lemma SameAtSameExtracts(part: Fields, whole: Fields, path: string)
    requires path != "" ==> SameAt(part, whole, Split(path))
    ensures ExtractFieldString(part, path) == ExtractFieldString(whole, path)
    ensures ExtractFieldFloat(part, path) == ExtractFieldFloat(whole, path)
    ensures ExtractFieldMap(part, path) == ExtractFieldMap(whole, path)
    ensures ExtractFieldSlice(part, path) == ExtractFieldSlice(whole, path)
  {
  }

  // ---------- What a dotted path reads ----------

  /** The value at a path: the field it names, or the one within the field named before the first dot. */
  lemma ReadDotted(obj: Fields, a: string, b: string)
    requires '.' !in a
    ensures NestedField(obj, Split(a)) == if a in obj then Found(obj[a]) else Absent
    ensures a in obj && obj[a].Obj? ==> NestedField(obj, Split(a + "." + b)) == NestedField(obj[a].fields, Split(b))
    ensures !(a in obj && obj[a].Obj?) ==> !NestedField(obj, Split(a + "." + b)).Found?
  {
    SplitFirst(a, b);
    var path := [a] + Split(b);
    assert path[0] == a && path[1..] == Split(b);
    assert [a][1..] == [];
    if a in obj {
      assert NestedField(obj, [a]) == NestedValue(obj[a], []);
      assert NestedField(obj, path) == NestedValue(obj[a], Split(b));
    }
  }

  /** A path without a dot reads the field of that name: a text, a number, an object or a list, and otherwise nothing. */
  lemma ExtractField(obj: Fields, a: string)
    requires a != "" && '.' !in a
    ensures ExtractFieldString(obj, a) == if a in obj && obj[a].Str? then obj[a].s else ""
    ensures ExtractFieldFloat(obj, a) == if a in obj then ToFloat64(obj[a]) else Whole(0)
    ensures ExtractFieldMap(obj, a) == if a in obj && obj[a].Obj? then obj[a].fields else map[]
    ensures ExtractFieldSlice(obj, a) == if a in obj && obj[a].Arr? then obj[a].items else []
  {
    ReadDotted(obj, a, "");
  }

  /** A path with a dot reads in the object under what stands before the first dot; without that object, nothing. */
  lemma ExtractWithin(obj: Fields, a: string, b: string)
    requires '.' !in a && b != ""
    ensures var path, inner := a + "." + b, if a in obj && obj[a].Obj? then obj[a].fields else map[];
            && ExtractFieldString(obj, path) == ExtractFieldString(inner, b)
            && ExtractFieldFloat(obj, path) == ExtractFieldFloat(inner, b)
            && ExtractFieldMap(obj, path) == ExtractFieldMap(inner, b)
            && ExtractFieldSlice(obj, path) == ExtractFieldSlice(inner, b)
  {
    ReadDotted(obj, a, b);
  }

  /** After a final dot stands the field with the empty name. */
  lemma ExtractTrailingDot(obj: Fields, a: string)
    requires '.' !in a
    ensures var path, inner := a + ".", if a in obj && obj[a].Obj? then obj[a].fields else map[];
            && ExtractFieldString(obj, path) == (if "" in inner && inner[""].Str? then inner[""].s else "")
            && ExtractFieldFloat(obj, path) == (if "" in inner then ToFloat64(inner[""]) else Whole(0))
            && ExtractFieldMap(obj, path) == (if "" in inner && inner[""].Obj? then inner[""].fields else map[])
            && ExtractFieldSlice(obj, path) == (if "" in inner && inner[""].Arr? then inner[""].items else [])
  {
    assert a + "." + "" == a + ".";
    ReadDotted(obj, a, "");
    ReadDotted(if a in obj && obj[a].Obj? then obj[a].fields else map[], "", "");
  }

  /** Numbers stand for themselves, a truth value for 1 or 0, a text for what the float parser makes of it. */
  lemma NumberRead(i: int, r: real, s: string, items: seq<Json>, fields: Fields)
    ensures ToFloat64(Int(i)) == Whole(i) && ToFloat64(Float(r)) == Frac(r) && ToFloat64(Str(s)) == Parsed(s)
    ensures ToFloat64(Bool(true)) == Whole(1) && ToFloat64(Bool(false)) == Whole(0)
    ensures ToFloat64(Null) == ToFloat64(Arr(items)) == ToFloat64(Obj(fields)) == Whole(0)
  {
  }

  /** The metadata of an object: texts and a number in the object under "metadata". */
  lemma MetadataFields(obj: Fields)
    ensures var meta := if "metadata" in obj && obj["metadata"].Obj? then obj["metadata"].fields else map[];
            && GetName(obj) == (if "name" in meta && meta["name"].Str? then meta["name"].s else "")
            && GetNamespace(obj) == (if "namespace" in meta && meta["namespace"].Str? then meta["namespace"].s else "")
            && GetUID(obj) == (if "uid" in meta && meta["uid"].Str? then meta["uid"].s else "")
            && GetResourceVersion(obj)
               == (if "resourceVersion" in meta && meta["resourceVersion"].Str? then meta["resourceVersion"].s else "")
            && GetGeneration(obj) == (if "generation" in meta && meta["generation"].Int? then meta["generation"].i else 0)
  {
    ReadUnder(obj, "metadata", "name");
    ReadUnder(obj, "metadata", "namespace");
    ReadUnder(obj, "metadata", "uid");
    ReadUnder(obj, "metadata", "resourceVersion");
    ReadUnder(obj, "metadata", "generation");
  }

  lemma ReadUnder(obj: Fields, a: string, b: string)
    ensures NestedField(obj, [a, b])
         == if a in obj && obj[a].Obj? && b in obj[a].fields then Found(obj[a].fields[b])
            else if a in obj && !obj[a].Obj? && !obj[a].Null? then NotAMap else Absent
  {
    assert [a, b][1..] == [b] && [b][1..] == [];
    if a in obj {
      assert NestedField(obj, [a, b]) == NestedValue(obj[a], [b]);
      if obj[a].Obj? && b in obj[a].fields {
        assert NestedValue(obj[a], [b]) == NestedValue(obj[a].fields[b], []);
      }
    }
  }

  // ---------- Sorted label maps ----------

  function SortedValues(m: map<string, string>): (r: seq<string>)
    ensures |r| == |m|
    ensures forall i :: 0 <= i < |r| ==> SortedKeys(m.Keys)[i] in m && r[i] == m[SortedKeys(m.Keys)[i]]
  {
    var keys := SortedKeys(m.Keys);
    assert forall i :: 0 <= i < |keys| ==> keys[i] in m;
    seq(|m|, i requires 0 <= i < |keys| && keys[i] in m => m[keys[i]])
  }
}
