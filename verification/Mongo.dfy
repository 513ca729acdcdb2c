/**
  BSON values and the aggregation stages the billing collector sends to MongoDB, with what each
  stage does to the documents it is given.
 */
module Mongo {
  import opened Wrappers
  import opened StringOrder
  import opened Totals

  /** Times are milliseconds. A document is a map, since its keys are distinct and never ordered by. */
  datatype Value =
    | Null
    | Int(i: int)
    | Str(s: string)
    | Date(ms: int)
    | Arr(items: seq<Value>)
    | Doc(fields: Document)

  type Document = map<string, Value>

  // ---------- Expressions ----------

  datatype Expr =
    | Field(path: seq<string>)
    | IfNull(e: Expr, fallback: Expr)
    | EmptyDocument
    | ObjectToArray(e: Expr)

  /** An expression yields a value, nothing, or an error that fails the whole aggregation. */
  datatype Evaluated = Got(value: Value) | Missing | Failed

  /** A path goes through documents, and through arrays into those elements that are documents. */
  function ReadPath(doc: Document, path: seq<string>): Evaluated
    requires path != []
    decreases |path|, 1, 0
  {
    if path[0] !in doc then Missing
    else if |path| == 1 then Got(doc[path[0]])
    else match doc[path[0]]
      case Doc(inner) => ReadPath(inner, path[1..])
      case Arr(items) => Got(Arr(ReadEach(items, path[1..])))
      case _ => Missing
  }

  function ReadEach(items: seq<Value>, path: seq<string>): seq<Value>
    requires path != []
    decreases |path|, 2, |items|
  {
    if items == [] then []
    else
      var rest := ReadEach(items[1..], path);
      match items[0]
      case Doc(inner) => (match ReadPath(inner, path) case Got(v) => [v] + rest case _ => rest)
      case _ => rest
  }

  function KeyValue(k: string, v: Value): Value
  {
    Doc(map["k" := Str(k), "v" := v])
  }

  function KeyValues(keys: seq<string>, fields: Document): seq<Value>
    requires forall k :: k in keys ==> k in fields
  {
    seq(|keys|, i requires 0 <= i < |keys| => KeyValue(keys[i], fields[keys[i]]))
  }

  function Eval(e: Expr, doc: Document): Evaluated
  {
    match e
    case Field(path) => if path == [] then Missing else ReadPath(doc, path)
    case IfNull(inner, fallback) =>
      (match Eval(inner, doc)
       case Failed => Failed
       case Missing => Eval(fallback, doc)
       case Got(v) => if v.Null? then Eval(fallback, doc) else Got(v))
    case EmptyDocument => Got(Doc(map[]))
    case ObjectToArray(inner) =>
      (match Eval(inner, doc)
       case Failed => Failed
       case Missing => Got(Null)
       case Got(Null) => Got(Null)
       case Got(Doc(fields)) => Got(Arr(KeyValues(SortedKeys(fields.Keys), fields)))
       case Got(_) => Failed)
  }

  // ---------- Stages ----------

  datatype Projection = Include | Exclude | Compute(e: Expr)

  datatype Stage =
    | Match(typ: int, after: int, upTo: int)
    | Project(fields: map<string, Projection>)
    | Unwind(field: string)
    | Group(id: map<string, Expr>, sum: string, summed: Expr)

  type Pipeline = seq<Stage>

  predicate Matches(doc: Document, typ: int, after: int, upTo: int)
  {
    && "type" in doc && doc["type"] == Int(typ)
    && "time" in doc && doc["time"].Date? && after < doc["time"].ms <= upTo
  }

  /** A projection keeps the included fields, adds the computed ones, and keeps _id unless excluded. */
  function Projected(fields: map<string, Projection>, doc: Document): Option<Document>
  {
    if exists f | f in fields :: fields[f].Compute? && Eval(fields[f].e, doc).Failed? then None
    else Some(Included(fields, doc) + Computed(fields, doc) + IdKept(fields, doc))
  }

  function Included(fields: map<string, Projection>, doc: Document): Document
  {
    map f | f in fields && fields[f].Include? && f in doc :: doc[f]
  }

  function Computed(fields: map<string, Projection>, doc: Document): Document
  {
    map f | f in fields && fields[f].Compute? && Eval(fields[f].e, doc).Got? :: Eval(fields[f].e, doc).value
  }

  function IdKept(fields: map<string, Projection>, doc: Document): Document
  {
    if "_id" !in fields && "_id" in doc then map["_id" := doc["_id"]] else map[]
  }

  /** One document per array element; none for a missing, null or empty field; else the document itself. */
  function Unwound(field: string, doc: Document): seq<Document>
  {
    if field !in doc then []
    else match doc[field]
      case Null => []
      case Arr(items) => seq(|items|, i requires 0 <= i < |items| => doc[field := items[i]])
      case _ => [doc]
  }

  /** What a stage other than $group makes of one document. */
  function PerDocument(stage: Stage, doc: Document): Option<seq<Document>>
    requires !stage.Group?
  {
    match stage
    case Match(typ, after, upTo) => Some(if Matches(doc, typ, after, upTo) then [doc] else [])
    case Unwind(field) => Some(Unwound(field, doc))
    case Project(fields) =>
      (match Projected(fields, doc)
       case Some(d) => Some([d])
       case None => None)
  }

  function EachDocument(stage: Stage, docs: seq<Document>): Option<seq<Document>>
    requires !stage.Group?
  {
    if docs == [] then Some([])
    else match (PerDocument(stage, docs[0]), EachDocument(stage, docs[1..]))
      case (Some(a), Some(b)) => Some(a + b)
      case _ => None
  }

  /** The id of a document's group; fields that yield nothing are left out of it. */
  function GroupId(id: map<string, Expr>, doc: Document): Document
  {
    map f | f in id && Eval(id[f], doc).Got? :: Eval(id[f], doc).value
  }

  /** $sum counts only numbers. */
  function Number(v: Value): int
  {
    if v.Int? then v.i else 0
  }

  function Summand(e: Expr, doc: Document): int
  {
    match Eval(e, doc)
    case Got(v) => Number(v)
    case _ => 0
  }

  function GroupItems(id: map<string, Expr>, summed: Expr, docs: seq<Document>): seq<Item<Document>>
  {
    seq(|docs|, i requires 0 <= i < |docs| => Item(GroupId(id, docs[i]), Summand(summed, docs[i])))
  }

  function GroupDocument(sum: string, row: Item<Document>): Document
  {
    map["_id" := Doc(row.key)][sum := Int(row.value)]
  }

  function GroupDocuments(rows: seq<Item<Document>>, sum: string): seq<Document>
  {
    seq(|rows|, i requires 0 <= i < |rows| => GroupDocument(sum, rows[i]))
  }

  /** The documents of a $group are one per id with its sum, in an order of the server's choosing. */
  ghost predicate Grouped(stage: Stage, docs: seq<Document>, out: seq<Document>)
    requires stage.Group?
  {
    exists rows: seq<Item<Document>> ::
      && Groups(rows, GroupItems(stage.id, stage.summed, docs))
      && out == GroupDocuments(rows, stage.sum)
  }

  /** `out` is a possible outcome of a stage. */
  ghost predicate Step(stage: Stage, docs: seq<Document>, out: seq<Document>)
  {
    if stage.Group? then Grouped(stage, docs, out) else EachDocument(stage, docs) == Some(out)
  }

  /** `out` is a possible outcome of a pipeline. */
  ghost predicate Runs(pipeline: Pipeline, docs: seq<Document>, out: seq<Document>)
  {
    if pipeline == [] then out == docs
    else exists between :: Step(pipeline[0], docs, between) && Runs(pipeline[1..], between, out)
  }
}
