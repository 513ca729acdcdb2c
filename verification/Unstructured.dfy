/**
  Kubernetes unstructured objects: nested string-keyed maps of JSON values, read and written by
  dotted field paths. This is the vocabulary of the CRD collector and its informer transform.
 */
module Unstructured {
  import opened Wrappers

  datatype Json =
    | Null
    | Bool(b: bool)
    | Int(i: int)
    | Float(r: real)
    | Str(s: string)
    | Arr(items: seq<Json>)
    | Obj(fields: Fields)

  type Fields = map<string, Json>

  /** What a nested read yields: a value, nothing on the way, or a non-map value on the way. */
  datatype Lookup = Found(value: Json) | Absent | NotAMap

  // ---------- Dotted paths ----------

  function Split(path: string): (parts: seq<string>)
    ensures |parts| >= 1
  {
    if path == "" then [""]
    else
      var rest := Split(path[1..]);
      if path[0] == '.' then [""] + rest else [[path[0]] + rest[0]] + rest[1..]
  }

  /** Parts joined by dots. */
  function Join(parts: seq<string>): string
    requires parts != []
  {
    if |parts| == 1 then parts[0] else parts[0] + "." + Join(parts[1..])
  }

  /** No part of a path has a dot in it, and joined by dots the parts are the path. */
  lemma {:induction false} JoinSplit(path: string)
    ensures Join(Split(path)) == path
    ensures forall part | part in Split(path) :: '.' !in part
  {
    if path != "" {
      var parts, rest := Split(path), Split(path[1..]);
      JoinSplit(path[1..]);
      assert path == [path[0]] + path[1..];
      assert parts[1..] == if path[0] == '.' then rest else rest[1..];
      assert rest[0] in rest;
      forall part | part in parts
        ensures '.' !in part
      {
        assert part == "" || part in rest || part == [path[0]] + rest[0];
      }
    }
  }

  /** Up to its first dot a path names one field, and after that one within it. */
  lemma {:induction false} SplitFirst(a: string, b: string)
    requires '.' !in a
    ensures Split(a) == [a]
    ensures Split(a + "." + b) == [a] + Split(b)
  {
    var path := a + "." + b;
    if a == "" {
      assert path[1..] == b;
    } else {
      SplitFirst(a[1..], b);
      assert a == [a[0]] + a[1..] && a[0] in a;
      assert path[1..] == a[1..] + "." + b && path[0] == a[0];
    }
  }

  // ---------- Reading ----------

  function NestedValue(v: Json, path: seq<string>): Lookup
  {
    if path == [] then Found(v)
    else match v
      case Null => Absent
      case Obj(m) => if path[0] in m then NestedValue(m[path[0]], path[1..]) else Absent
      case _ => NotAMap
  }

  function NestedField(obj: Fields, path: seq<string>): Lookup
  {
    NestedValue(Obj(obj), path)
  }

  /** A string field, or "" when it is missing, not a string, or behind a non-map. */
  function StringAt(obj: Fields, path: seq<string>): string
  {
    match NestedField(obj, path)
    case Found(Str(s)) => s
    case _ => ""
  }

  /** An integer field, or 0 when it is missing, not an integer, or behind a non-map. */
  function IntAt(obj: Fields, path: seq<string>): int
  {
    match NestedField(obj, path)
    case Found(Int(i)) => i
    case _ => 0
  }

  const NAME := ["metadata", "name"]
  const NAMESPACE := ["metadata", "namespace"]
  const UID := ["metadata", "uid"]
  const RESOURCE_VERSION := ["metadata", "resourceVersion"]
  const GENERATION := ["metadata", "generation"]

  function GetName(obj: Fields): string { StringAt(obj, NAME) }

  function GetNamespace(obj: Fields): string { StringAt(obj, NAMESPACE) }

  function GetUID(obj: Fields): string { StringAt(obj, UID) }

  function GetResourceVersion(obj: Fields): string { StringAt(obj, RESOURCE_VERSION) }

  function GetGeneration(obj: Fields): int { IntAt(obj, GENERATION) }

  // ---------- Writing ----------

  /** Writes `value` at `path`, making the maps on the way; None when a non-map is in the way. */
  function SetNestedField(obj: Fields, value: Json, path: seq<string>): Option<Fields>
    requires path != []
    decreases |path|
  {
    if |path| == 1 then Some(obj[path[0] := value])
    else if path[0] !in obj then
      var inner := SetNestedField(map[], value, path[1..]);
      if inner.Some? then Some(obj[path[0] := Obj(inner.value)]) else None
    else match obj[path[0]]
      case Obj(m) =>
        var inner := SetNestedField(m, value, path[1..]);
        if inner.Some? then Some(obj[path[0] := Obj(inner.value)]) else None
      case _ => None
  }

  /** The same write when a failure is ignored, as the metadata setters do. */
  function SetOrKeep(obj: Fields, value: Json, path: seq<string>): Fields
    requires path != []
  {
    match SetNestedField(obj, value, path)
    case Some(r) => r
    case None => obj
  }

  function RemoveNestedField(obj: Fields, path: seq<string>): Fields
    requires path != []
    decreases |path|
  {
    if |path| == 1 then obj - {path[0]}
    else if path[0] in obj && obj[path[0]].Obj? then
      obj[path[0] := Obj(RemoveNestedField(obj[path[0]].fields, path[1..]))]
    else obj
  }

  function SetString(obj: Fields, s: string, path: seq<string>): Fields
    requires path != []
  {
    if s == "" then RemoveNestedField(obj, path) else SetOrKeep(obj, Str(s), path)
  }

  function SetInt(obj: Fields, i: int, path: seq<string>): Fields
    requires path != []
  {
    if i == 0 then RemoveNestedField(obj, path) else SetOrKeep(obj, Int(i), path)
  }

  // ---------- Parts of an object ----------

  /** `part` is `whole` with some map entries, at any depth, left out. */
  ghost predicate PartOf(part: Json, whole: Json)
    decreases part
  {
    match part
    case Obj(m) =>
      && whole.Obj?
      && forall k :: k in m ==> k in whole.fields && PartOf(m[k], whole.fields[k])
    case _ => part == whole
  }

  lemma {:induction false} PartOfItself(v: Json)
    ensures PartOf(v, v)
    decreases v
  {
    if v.Obj? {
      forall k | k in v.fields
        ensures PartOf(v.fields[k], v.fields[k])
      {
        PartOfItself(v.fields[k]);
      }
    }
  }

  /** What a part has, the whole has, and a leaf has the same value in both. */
  lemma {:induction false} PartOfReads(part: Json, whole: Json, path: seq<string>)
    requires PartOf(part, whole)
    requires NestedValue(part, path).Found?
    ensures NestedValue(whole, path).Found?
    ensures PartOf(NestedValue(part, path).value, NestedValue(whole, path).value)
    decreases |path|
  {
    if path != [] {
      PartOfReads(part.fields[path[0]], whole.fields[path[0]], path[1..]);
    }
  }

  /** Copying a field of the whole into a part always succeeds, lands, and keeps it a part. */
  lemma {:induction false} CopyIntoPart(part: Fields, whole: Fields, path: seq<string>)
    requires path != []
    requires PartOf(Obj(part), Obj(whole))
    requires NestedField(whole, path).Found?
    ensures SetNestedField(part, NestedField(whole, path).value, path).Some?
    ensures var r := SetNestedField(part, NestedField(whole, path).value, path).value;
            PartOf(Obj(r), Obj(whole)) && NestedField(r, path) == NestedField(whole, path)
    decreases |path|
  {
    var k, v := path[0], NestedField(whole, path).value;
    if |path| == 1 {
      assert NestedValue(whole[k], path[1..]) == Found(whole[k]);
      PartOfItself(v);
    } else {
      assert NestedField(whole, path) == NestedValue(whole[k], path[1..]);
      var inner := if k in part then part[k].fields else map[];
      CopyIntoPart(inner, whole[k].fields, path[1..]);
    }
  }

  lemma {:induction false} CopyOverItself(obj: Fields, path: seq<string>)
    requires path != []
    requires NestedField(obj, path).Found?
    ensures SetNestedField(obj, NestedField(obj, path).value, path) == Some(obj)
    decreases |path|
  {
    var k := path[0];
    if |path| == 1 {
      assert NestedValue(obj[k], path[1..]) == Found(obj[k]);
      assert obj[k := obj[k]] == obj;
    } else {
      assert NestedField(obj, path) == NestedValue(obj[k], path[1..]);
      CopyOverItself(obj[k].fields, path[1..]);
      assert obj[k := obj[k]] == obj;
    }
  }

  /** A field already equal to the whole's stays so when any other field is copied over. */
  lemma {:induction false} CopyKeepsExact(part: Fields, whole: Fields, path: seq<string>, other: seq<string>)
    requires path != []
    requires PartOf(Obj(part), Obj(whole))
    requires NestedField(whole, path).Found?
    requires NestedField(part, other).Found? && NestedField(part, other) == NestedField(whole, other)
    ensures SetNestedField(part, NestedField(whole, path).value, path).Some?
    ensures NestedField(SetNestedField(part, NestedField(whole, path).value, path).value, other)
         == NestedField(whole, other)
    decreases |path|
  {
    CopyIntoPart(part, whole, path);
    var k := path[0];
    if other == [] {
      CopyOverItself(whole, path);
    } else if |path| == 1 {
      assert NestedValue(whole[k], path[1..]) == Found(whole[k]);
    } else if k in part && other[0] == k {
      assert NestedField(whole, path) == NestedValue(whole[k], path[1..]);
      CopyKeepsExact(part[k].fields, whole[k].fields, path[1..], other[1..]);
    }
  }
}
