/**
  The pipelines against the direct aggregation: whatever order the server groups in, folding the
  returned rows gives the totals of the documents that match.
 */
module BillingPipelines {
  import opened Wrappers
  import opened StringOrder
  import opened Totals
  import opened Mongo
  import opened Billing

  // ---------- Running stages that treat documents one by one ----------

  predicate NoGroup(pipeline: Pipeline)
  {
    forall i :: 0 <= i < |pipeline| ==> !pipeline[i].Group?
  }

  function RunEach(pipeline: Pipeline, docs: seq<Document>): Option<seq<Document>>
    requires NoGroup(pipeline)
  {
    if pipeline == [] then Some(docs)
    else match EachDocument(pipeline[0], docs)
      case Some(between) => RunEach(pipeline[1..], between)
      case None => None
  }

  function Both(a: Option<seq<Document>>, b: Option<seq<Document>>): Option<seq<Document>>
  {
    if a.Some? && b.Some? then Some(a.value + b.value) else None
  }

  lemma BothAssociative(x: Option<seq<Document>>, y: Option<seq<Document>>, z: Option<seq<Document>>)
    ensures Both(x, Both(y, z)) == Both(Both(x, y), z)
  {
    if x.Some? && y.Some? && z.Some? {
      assert x.value + (y.value + z.value) == (x.value + y.value) + z.value;
    }
  }

  lemma BothNothing(x: Option<seq<Document>>)
    ensures Both(Some([]), x) == x
  {
    if x.Some? {
      assert [] + x.value == x.value;
    }
  }

  lemma EachFirst(stage: Stage, docs: seq<Document>)
    requires !stage.Group? && docs != []
    ensures EachDocument(stage, docs) == Both(PerDocument(stage, docs[0]), EachDocument(stage, docs[1..]))
  {
  }

  lemma {:induction false} EachConcat(stage: Stage, a: seq<Document>, b: seq<Document>)
    requires !stage.Group?
    ensures EachDocument(stage, a + b) == Both(EachDocument(stage, a), EachDocument(stage, b))
  {
    if a == [] {
      assert a + b == b;
      BothNothing(EachDocument(stage, b));
    } else {
      assert (a + b)[1..] == a[1..] + b;
      EachConcat(stage, a[1..], b);
      EachFirst(stage, a + b);
      EachFirst(stage, a);
      BothAssociative(PerDocument(stage, a[0]), EachDocument(stage, a[1..]), EachDocument(stage, b));
    }
  }

  lemma {:induction false} RunConcat(pipeline: Pipeline, a: seq<Document>, b: seq<Document>)
    requires NoGroup(pipeline)
    ensures RunEach(pipeline, a + b) == Both(RunEach(pipeline, a), RunEach(pipeline, b))
    decreases |pipeline|
  {
    if pipeline != [] {
      EachConcat(pipeline[0], a, b);
      var x, y := EachDocument(pipeline[0], a), EachDocument(pipeline[0], b);
      if x.Some? && y.Some? {
        RunConcat(pipeline[1..], x.value, y.value);
      }
    }
  }

  /** A pipeline that starts with such stages has the outcomes of the rest on what they leave. */
  lemma {:induction false} RunsSplit(first: Pipeline, rest: Pipeline, docs: seq<Document>, out: seq<Document>)
    requires NoGroup(first)
    ensures Runs(first + rest, docs, out)
        <==> RunEach(first, docs).Some? && Runs(rest, RunEach(first, docs).value, out)
    decreases |first|
  {
    if first == [] {
      assert first + rest == rest;
    } else {
      var all := first + rest;
      assert all[0] == first[0] && all[1..] == first[1..] + rest;
      if EachDocument(first[0], docs).Some? {
        var between := EachDocument(first[0], docs).value;
        RunsSplit(first[1..], rest, between, out);
        assert Step(all[0], docs, between);
      }
    }
  }

  // ---------- Documents ----------

  /** What unwinding app_costs yields: the elements of an array, or a value that is no array by itself. */
  function Costs(doc: Document): seq<Value>
  {
    if "app_costs" !in doc then []
    else match doc["app_costs"]
      case Null => []
      case Arr(items) => items
      case v => [v]
  }

  function UsedFields(cost: Value, field: string): Document
  {
    if cost.Doc? && field in cost.fields && cost.fields[field].Doc? then cost.fields[field].fields else map[]
  }

  /** The used field of a cost is a document, null or absent. */
  predicate GoodCost(cost: Value, field: string)
  {
    && !cost.Arr?
    && (cost.Doc? && field in cost.fields ==> cost.fields[field].Null? || cost.fields[field].Doc?)
  }

  predicate GoodDocument(doc: Document, field: string)
  {
    && StringOrNothing(doc, "owner")
    && StringOrNothing(doc, "namespace")
    && forall c | c in Costs(doc) :: GoodCost(c, field)
  }

  // ---------- One document through the stages ----------

  /** The fields that every projection keeps. */
  function Kept(doc: Document, owners: bool): Document
  {
    map f | f in doc && (f == "_id" || (owners && (f == "owner" || f == "namespace"))) :: doc[f]
  }

  predicate FreshField(out: string)
  {
    out != "_id" && out != "owner" && out != "namespace" && out != "app_costs"
  }

  lemma AllIncluded(fields: map<string, Projection>, doc: Document, names: set<string>)
    requires fields.Keys == names && "_id" !in names && forall f | f in fields :: fields[f].Include?
    ensures Projected(fields, doc) == Some(map f | f in doc && (f in names || f == "_id") :: doc[f])
  {
    assert Computed(fields, doc) == map[];
    assert Included(fields, doc) + map[] + IdKept(fields, doc) == map f | f in doc && (f in names || f == "_id") :: doc[f];
  }

  lemma CostsKept(doc: Document, owners: bool)
    ensures Projected(WithOwners(map["app_costs" := Include], owners, Include, Include), doc)
         == Some(if "app_costs" in doc then Kept(doc, owners)["app_costs" := doc["app_costs"]] else Kept(doc, owners))
  {
    var names := if owners then {"app_costs", "owner", "namespace"} else {"app_costs"};
    var fields := WithOwners(map["app_costs" := Include], owners, Include, Include);
    AllIncluded(fields, doc, names);
    var want := if "app_costs" in doc then Kept(doc, owners)["app_costs" := doc["app_costs"]] else Kept(doc, owners);
    assert want == map f | f in doc && (f in names || f == "_id") :: doc[f];
  }

  function Unwinding(base: Document, costs: seq<Value>): seq<Document>
  {
    seq(|costs|, i requires 0 <= i < |costs| => base["app_costs" := costs[i]])
  }

  lemma CostsUnwound(doc: Document, base: Document)
    requires "app_costs" !in base
    ensures Unwound("app_costs", if "app_costs" in doc then base["app_costs" := doc["app_costs"]] else base)
         == Unwinding(base, Costs(doc))
  {
    if "app_costs" in doc && doc["app_costs"].Arr? {
      forall i | 0 <= i < |Costs(doc)|
        ensures base["app_costs" := doc["app_costs"]]["app_costs" := Costs(doc)[i]] == base["app_costs" := Costs(doc)[i]]
      {
      }
    }
  }

  /** The used fields of a cost as the pipeline lists them. */
  function UsedArray(cost: Value, field: string): Value
  {
    Arr(KeyValues(SortedKeys(UsedFields(cost, field).Keys), UsedFields(cost, field)))
  }

  /** An expression that lists the used fields of every good cost. */
  ghost predicate Lists(e: Expr, field: string)
  {
    forall doc: Document | "app_costs" in doc && GoodCost(doc["app_costs"], field) ::
      Eval(e, doc) == Got(UsedArray(doc["app_costs"], field))
  }

  lemma UsedListed(field: string)
    ensures Lists(UsedList(field), field)
  {
    forall doc: Document | "app_costs" in doc && GoodCost(doc["app_costs"], field)
      ensures Eval(UsedList(field), doc) == Got(UsedArray(doc["app_costs"], field))
    {
      var cost := doc["app_costs"];
      var path := ["app_costs", field];
      assert path[1..] == [field];
      assert ReadPath(doc, path)
          == (if cost.Doc? && field in cost.fields then Got(cost.fields[field]) else Missing);
      assert Eval(Field(path), doc) == ReadPath(doc, path);
      assert Eval(IfNull(Field(path), EmptyDocument), doc) == Got(Doc(UsedFields(cost, field)));
    }
  }

  lemma Listed(e: Expr, base: Document, cost: Value, field: string)
    requires GoodCost(cost, field) && Lists(e, field)
    ensures Eval(e, base["app_costs" := cost]) == Got(UsedArray(cost, field))
  {
  }

  lemma KeptAgain(doc: Document, owners: bool, cost: Value, out: string, names: set<string>)
    requires FreshField(out)
    requires names == if owners then {out, "owner", "namespace"} else {out}
    ensures var from := Kept(doc, owners)["app_costs" := cost];
            (map f | f in from && f != out && (f in names || f == "_id") :: from[f]) == Kept(doc, owners)
  {
    var from := Kept(doc, owners)["app_costs" := cost];
    var again := map f | f in from && f != out && (f in names || f == "_id") :: from[f];
    assert again.Keys == Kept(doc, owners).Keys;
  }

  lemma ProjectKept(doc: Document, owners: bool, cost: Value, e: Expr, out: string)
    requires FreshField(out)
    requires Eval(e, Kept(doc, owners)["app_costs" := cost]).Got?
    ensures Projected(WithOwners(map[out := Compute(e)], owners, Include, Include),
                      Kept(doc, owners)["app_costs" := cost])
         == Some(Kept(doc, owners)[out := Eval(e, Kept(doc, owners)["app_costs" := cost]).value])
  {
    var fields := WithOwners(map[out := Compute(e)], owners, Include, Include);
    assert fields.Keys == if owners then {out, "owner", "namespace"} else {out};
    ProjectOne(fields, Kept(doc, owners)["app_costs" := cost], e, out);
    KeptAgain(doc, owners, cost, out, fields.Keys);
  }

  /** Projecting one computed field next to included ones. */
  lemma ProjectOne(fields: map<string, Projection>, doc: Document, e: Expr, out: string)
    requires out in fields && fields[out] == Compute(e) && Eval(e, doc).Got?
    requires forall f | f in fields && f != out :: fields[f].Include?
    requires "_id" !in fields
    ensures Projected(fields, doc)
         == Some((map f | f in doc && f != out && (f in fields.Keys || f == "_id") :: doc[f])[out := Eval(e, doc).value])
  {
    assert Computed(fields, doc) == map[out := Eval(e, doc).value];
    IncludedOthers(fields, doc, out);
    var kept := map f | f in doc && f != out && (f in fields.Keys || f == "_id") :: doc[f];
    OneMoreField(Included(fields, doc), IdKept(fields, doc), kept, out, Eval(e, doc).value);
  }

  lemma IncludedOthers(fields: map<string, Projection>, doc: Document, out: string)
    requires out in fields && !fields[out].Include? && "_id" !in fields
    requires forall f | f in fields && f != out :: fields[f].Include?
    ensures Included(fields, doc) + IdKept(fields, doc)
         == map f | f in doc && f != out && (f in fields.Keys || f == "_id") :: doc[f]
  {
  }

  lemma OneMoreField(a: Document, b: Document, both: Document, out: string, v: Value)
    requires a + b == both && out !in b
    ensures a + map[out := v] + b == both[out := v]
  {
  }

  lemma EachOne(stage: Stage, doc: Document)
    requires !stage.Group?
    ensures EachDocument(stage, [doc]) == PerDocument(stage, doc)
  {
    assert [doc][1..] == [];
    if PerDocument(stage, doc).Some? {
      assert PerDocument(stage, doc).value + [] == PerDocument(stage, doc).value;
    }
  }

  /** Projecting and then unwinding one document. */
  lemma RunOne(project: Stage, unwind: Stage, rest: Pipeline, doc: Document, projected: Document)
    requires project.Project? && unwind.Unwind? && NoGroup(rest)
    requires Projected(project.fields, doc) == Some(projected)
    ensures NoGroup([project, unwind] + rest)
    ensures RunEach([project, unwind] + rest, [doc]) == RunEach(rest, Unwound(unwind.field, projected))
  {
    EachOne(project, doc);
    EachOne(unwind, projected);
    var all := [project, unwind] + rest;
    assert all[1..] == [unwind] + rest && all[1..][1..] == rest;
  }

  /** One document for every used entry of a cost. */
  function EntryDocs(base: Document, cost: Value, field: string, out: string): seq<Document>
  {
    var used := UsedFields(cost, field);
    var keys := SortedKeys(used.Keys);
    seq(|keys|, i requires 0 <= i < |keys| => base[out := KeyValue(keys[i], used[keys[i]])])
  }

  function CostsParts(base: Document, costs: seq<Value>, field: string, out: string): seq<seq<Document>>
  {
    seq(|costs|, i requires 0 <= i < |costs| => EntryDocs(base, costs[i], field, out))
  }

  lemma ArrayUnwound(base: Document, items: seq<Value>, out: string)
    ensures Unwound(out, base[out := Arr(items)]) == seq(|items|, i requires 0 <= i < |items| => base[out := items[i]])
  {
    forall i | 0 <= i < |items|
      ensures base[out := Arr(items)][out := items[i]] == base[out := items[i]]
    {
    }
  }

  lemma ListUnwound(base: Document, cost: Value, field: string, out: string)
    ensures Unwound(out, base[out := UsedArray(cost, field)]) == EntryDocs(base, cost, field, out)
  {
    ArrayUnwound(base, UsedArray(cost, field).items, out);
  }

  lemma ListRun(project: Stage, from: Document, base: Document, cost: Value, field: string, out: string)
    requires project.Project? && Projected(project.fields, from) == Some(base[out := UsedArray(cost, field)])
    ensures RunEach([project, Unwind(out)], [from]) == Some(EntryDocs(base, cost, field, out))
  {
    ListUnwound(base, cost, field, out);
    RunOne(project, Unwind(out), [], from, base[out := UsedArray(cost, field)]);
    assert [project, Unwind(out)] == [project, Unwind(out)] + [];
  }

  lemma CostRun(doc: Document, owners: bool, cost: Value, field: string, e: Expr, out: string)
    requires FreshField(out)
    requires Eval(e, Kept(doc, owners)["app_costs" := cost]) == Got(UsedArray(cost, field))
    ensures RunEach(ListStages(owners, e, out), [Kept(doc, owners)["app_costs" := cost]])
         == Some(EntryDocs(Kept(doc, owners), cost, field, out))
  {
    ProjectKept(doc, owners, cost, e, out);
    ListRun(ListStages(owners, e, out)[0], Kept(doc, owners)["app_costs" := cost], Kept(doc, owners), cost, field, out);
  }

  /** Documents that run to parts run together to the parts one after another. */
  lemma {:induction false} RunParts(stages: Pipeline, docs: seq<Document>, parts: seq<seq<Document>>)
    requires NoGroup(stages) && |parts| == |docs|
    requires forall i | 0 <= i < |docs| :: RunEach(stages, [docs[i]]) == Some(parts[i])
    ensures RunEach(stages, docs) == Some(Concat(parts))
  {
    if docs == [] {
      NothingRuns(stages);
    } else {
      var n := |docs| - 1;
      var first, last := docs[..n], [docs[n]];
      assert forall i | 0 <= i < n :: first[i] == docs[i] && parts[..n][i] == parts[i];
      RunParts(stages, first, parts[..n]);
      RunConcat(stages, first, last);
      assert docs == first + last && RunEach(stages, last) == Some(parts[n]);
    }
  }

  lemma {:induction false} NothingRuns(pipeline: Pipeline)
    requires NoGroup(pipeline)
    ensures RunEach(pipeline, []) == Some([])
    decreases |pipeline|
  {
    if pipeline != [] {
      NothingRuns(pipeline[1..]);
    }
  }

  lemma UnwoundRuns(rest: Pipeline, doc: Document, owners: bool)
    requires NoGroup(rest)
    ensures NoGroup([Project(WithOwners(map["app_costs" := Include], owners, Include, Include)), Unwind("app_costs")]
                    + rest)
    ensures RunEach([Project(WithOwners(map["app_costs" := Include], owners, Include, Include)), Unwind("app_costs")]
                    + rest, [doc])
         == RunEach(rest, Unwinding(Kept(doc, owners), Costs(doc)))
  {
    var project := Project(WithOwners(map["app_costs" := Include], owners, Include, Include));
    var kept := if "app_costs" in doc then Kept(doc, owners)["app_costs" := doc["app_costs"]] else Kept(doc, owners);
    CostsKept(doc, owners);
    CostsUnwound(doc, Kept(doc, owners));
    RunOne(project, Unwind("app_costs"), rest, doc, kept);
  }

  lemma DocumentRun(doc: Document, owners: bool, field: string, e: Expr, out: string)
    requires FreshField(out) && Lists(e, field)
    requires forall c | c in Costs(doc) :: GoodCost(c, field)
    ensures RunEach(CostStages(owners, e, out), [doc]) == Some(Concat(CostsParts(Kept(doc, owners), Costs(doc), field, out)))
  {
    var costs := Costs(doc);
    forall i | 0 <= i < |costs|
      ensures RunEach(ListStages(owners, e, out), [Unwinding(Kept(doc, owners), costs)[i]])
           == Some(EntryDocs(Kept(doc, owners), costs[i], field, out))
    {
      Listed(e, Kept(doc, owners), costs[i], field);
      CostRun(doc, owners, costs[i], field, e, out);
    }
    RunParts(ListStages(owners, e, out), Unwinding(Kept(doc, owners), costs), CostsParts(Kept(doc, owners), costs, field, out));
    UnwoundRuns(ListStages(owners, e, out), doc, owners);
  }

  function DocsParts(docs: seq<Document>, owners: bool, field: string, out: string): seq<seq<Document>>
  {
    seq(|docs|, i requires 0 <= i < |docs| => Concat(CostsParts(Kept(docs[i], owners), Costs(docs[i]), field, out)))
  }

  lemma DocumentsRun(docs: seq<Document>, owners: bool, field: string, e: Expr, out: string)
    requires FreshField(out) && Lists(e, field)
    requires forall d, c | d in docs && c in Costs(d) :: GoodCost(c, field)
    ensures RunEach(CostStages(owners, e, out), docs) == Some(Concat(DocsParts(docs, owners, field, out)))
  {
    forall i | 0 <= i < |docs|
      ensures RunEach(CostStages(owners, e, out), [docs[i]]) == Some(DocsParts(docs, owners, field, out)[i])
    {
      DocumentRun(docs[i], owners, field, e, out);
    }
    RunParts(CostStages(owners, e, out), docs, DocsParts(docs, owners, field, out));
  }

  // ---------- Grouping ----------

  /** The origin a group id stands for. */
  function OriginOf(id: Document): Origin
  {
    Origin(StringField(id, "owner"), StringField(id, "namespace"), StringField(id, "resource"))
  }

  function OriginOrEnum(owners: bool): Origin -> Origin
  {
    (o: Origin) => if owners then o else Origin("", "", o.enum)
  }

  predicate GoodId(id: Document, owners: bool)
  {
    && StringOrNothing(id, "owner") && StringOrNothing(id, "namespace") && StringOrNothing(id, "resource")
    && (owners || ("owner" !in id && "namespace" !in id))
  }

  lemma EntrySummed(base: Document, k: string, v: Value, out: string)
    ensures Eval(Field([out, "k"]), base[out := KeyValue(k, v)]) == Got(Str(k))
    ensures Eval(Field([out, "v"]), base[out := KeyValue(k, v)]) == Got(v)
  {
    var doc, inner := base[out := KeyValue(k, v)], map["k" := Str(k), "v" := v];
    assert [out, "k"][1..] == ["k"] && [out, "v"][1..] == ["v"];
    assert ReadPath(inner, ["k"]) == Got(Str(k)) && ReadPath(inner, ["v"]) == Got(v);
    assert ReadPath(doc, [out, "k"]) == ReadPath(inner, ["k"]);
    assert ReadPath(doc, [out, "v"]) == ReadPath(inner, ["v"]);
  }

  lemma EntryGrouped(doc: Document, owners: bool, k: string, v: Value, out: string)
    requires FreshField(out) && StringOrNothing(doc, "owner") && StringOrNothing(doc, "namespace")
    ensures var id := GroupId(GroupKey(owners, out), Kept(doc, owners)[out := KeyValue(k, v)]);
            && GoodId(id, owners)
            && OriginOf(id)
            == OriginOrEnum(owners)(Origin(StringField(doc, "owner"), StringField(doc, "namespace"), k))
  {
    var entry := Kept(doc, owners)[out := KeyValue(k, v)];
    var key := GroupKey(owners, out);
    EntrySummed(Kept(doc, owners), k, v, out);
    var id := GroupId(key, entry);
    assert key.Keys == if owners then {"resource", "owner", "namespace"} else {"resource"};
    assert "resource" in id && id["resource"] == Str(k);
    if owners {
      TextGrouped(doc, key, entry, "owner");
      TextGrouped(doc, key, entry, "namespace");
    } else {
      assert "owner" !in id && "namespace" !in id;
    }
  }

  lemma TextGrouped(doc: Document, key: map<string, Expr>, entry: Document, name: string)
    requires name in key && key[name] == Field([name])
    requires name in doc <==> name in entry
    requires name in doc ==> entry[name] == doc[name]
    requires StringOrNothing(doc, name)
    ensures StringOrNothing(GroupId(key, entry), name)
    ensures StringField(GroupId(key, entry), name) == StringField(doc, name)
  {
    assert Eval(key[name], entry) == if name in doc then Got(doc[name]) else Missing;
  }

  /** The items that one document's costs bill once unwound. */
  function UnwoundItems(doc: Document, field: string): seq<Item<Origin>>
  {
    CostsItems(StringField(doc, "owner"), StringField(doc, "namespace"), Costs(doc), field, Number)
  }

  /** What the pipeline bills for a list of documents. */
  function PipelineItems(docs: seq<Document>, field: string): seq<Item<Origin>>
  {
    Concat(seq(|docs|, i requires 0 <= i < |docs| => UnwoundItems(docs[i], field)))
  }

  /** The items a $group sums, with the origins its ids stand for. */
  function OriginItems(docs: seq<Document>, owners: bool, out: string): seq<Item<Origin>>
  {
    Rekey(GroupItems(GroupKey(owners, out), Field([out, "v"]), docs), OriginOf)
  }

  ghost predicate GoodIds(docs: seq<Document>, owners: bool, out: string)
  {
    forall d | d in docs :: GoodId(GroupId(GroupKey(owners, out), d), owners)
  }

  /** Documents stand for items: their ids are good and their origins and values are those of the items. */
  ghost predicate StandFor(docs: seq<Document>, items: seq<Item<Origin>>, owners: bool, out: string)
  {
    GoodIds(docs, owners, out) && OriginItems(docs, owners, out) == Rekey(items, OriginOrEnum(owners))
  }

  lemma EntriesStandFor(doc: Document, owners: bool, cost: Value, field: string, out: string)
    requires FreshField(out) && StringOrNothing(doc, "owner") && StringOrNothing(doc, "namespace")
    requires GoodCost(cost, field)
    ensures StandFor(EntryDocs(Kept(doc, owners), cost, field, out),
                     CostItems(StringField(doc, "owner"), StringField(doc, "namespace"), cost, field, Number), owners, out)
  {
    var owner, namespace := StringField(doc, "owner"), StringField(doc, "namespace");
    var docs, items := EntryDocs(Kept(doc, owners), cost, field, out), CostItems(owner, namespace, cost, field, Number);
    var used := UsedFields(cost, field);
    var keys := SortedKeys(used.Keys);
    if cost.Doc? {
      assert UsedMap(cost.fields, field, Number).Keys == used.Keys;
    }
    assert |docs| == |items|;
    forall i | 0 <= i < |docs|
      ensures GoodId(GroupId(GroupKey(owners, out), docs[i]), owners)
      ensures OriginItems(docs, owners, out)[i] == Rekey(items, OriginOrEnum(owners))[i]
    {
      assert keys[i] in keys;
      EntryGrouped(doc, owners, keys[i], used[keys[i]], out);
      EntrySummed(Kept(doc, owners), keys[i], used[keys[i]], out);
    }
  }

  lemma {:induction false} PartsStandFor(docs: seq<seq<Document>>, items: seq<seq<Item<Origin>>>, owners: bool,
                                         out: string)
    requires |docs| == |items|
    requires forall i | 0 <= i < |docs| :: StandFor(docs[i], items[i], owners, out)
    ensures StandFor(Concat(docs), Concat(items), owners, out)
  {
    if docs != [] {
      var n := |docs| - 1;
      PartsStandFor(docs[..n], items[..n], owners, out);
      BothStandFor(Concat(docs[..n]), docs[n], Concat(items[..n]), items[n], owners, out);
    }
  }

  lemma BothStandFor(a: seq<Document>, b: seq<Document>, x: seq<Item<Origin>>, y: seq<Item<Origin>>, owners: bool,
                     out: string)
    requires StandFor(a, x, owners, out) && StandFor(b, y, owners, out)
    ensures StandFor(a + b, x + y, owners, out)
  {
    assert OriginItems(a + b, owners, out) == OriginItems(a, owners, out) + OriginItems(b, owners, out);
    assert Rekey(x + y, OriginOrEnum(owners)) == Rekey(x, OriginOrEnum(owners)) + Rekey(y, OriginOrEnum(owners));
  }

  lemma DocumentStandsFor(doc: Document, owners: bool, field: string, out: string)
    requires FreshField(out) && GoodDocument(doc, field)
    ensures StandFor(Concat(CostsParts(Kept(doc, owners), Costs(doc), field, out)), UnwoundItems(doc, field), owners, out)
  {
    var owner, namespace, costs := StringField(doc, "owner"), StringField(doc, "namespace"), Costs(doc);
    forall i | 0 <= i < |costs|
      ensures StandFor(CostsParts(Kept(doc, owners), costs, field, out)[i],
                       CostItems(owner, namespace, costs[i], field, Number), owners, out)
    {
      EntriesStandFor(doc, owners, costs[i], field, out);
    }
    PartsStandFor(CostsParts(Kept(doc, owners), costs, field, out),
                  CostParts(owner, namespace, costs, field, Number), owners, out);
  }

  lemma DocumentsStandFor(docs: seq<Document>, owners: bool, field: string, out: string)
    requires FreshField(out) && forall d | d in docs :: GoodDocument(d, field)
    ensures StandFor(Concat(DocsParts(docs, owners, field, out)), PipelineItems(docs, field), owners, out)
  {
    forall i | 0 <= i < |docs|
      ensures StandFor(DocsParts(docs, owners, field, out)[i], UnwoundItems(docs[i], field), owners, out)
    {
      DocumentStandsFor(docs[i], owners, field, out);
    }
    PartsStandFor(DocsParts(docs, owners, field, out),
                  seq(|docs|, i requires 0 <= i < |docs| => UnwoundItems(docs[i], field)), owners, out);
  }

  // ---------- Rows ----------

  /** A field computed from the group id is that field of the id. */
  lemma FieldComputed(row: Item<Document>, out: string, name: string)
    requires out != "_id"
    ensures Eval(Field(["_id", name]), GroupDocument(out, row))
         == if name in row.key then Got(row.key[name]) else Missing
  {
    var grouped := GroupDocument(out, row);
    assert ["_id", name][1..] == [name];
    assert ReadPath(grouped, ["_id", name]) == ReadPath(row.key, [name]);
  }

  predicate ComputedFromId(fields: map<string, Projection>, row: Item<Document>, out: string, name: string)
  {
    && name != out && name != "_id"
    && (if name in fields then fields[name] == Compute(Field(["_id", name])) else name !in row.key)
  }

  lemma FieldReturned(fields: map<string, Projection>, row: Item<Document>, out: string, name: string)
    requires out != "_id" && ComputedFromId(fields, row, out, name)
    requires StringOrNothing(row.key, name)
    requires Projected(fields, GroupDocument(out, row)).Some?
    ensures var returned := Projected(fields, GroupDocument(out, row)).value;
            StringOrNothing(returned, name) && StringField(returned, name) == StringField(row.key, name)
  {
    FieldComputed(row, out, name);
  }

  lemma SumReturned(fields: map<string, Projection>, row: Item<Document>, out: string)
    requires out != "_id" && out in fields && fields[out] == Include
    requires Projected(fields, GroupDocument(out, row)).Some?
    ensures var returned := Projected(fields, GroupDocument(out, row)).value;
            out in returned && returned[out] == Int(row.value)
  {
  }

  /** A returned document for one group, and the row decoded from it. */
  lemma RowDecoded(row: Item<Document>, owners: bool, out: string)
    requires FreshField(out) && out != "resource" && GoodId(row.key, owners)
    ensures var returned := Projected(RowFields(owners, out), GroupDocument(out, row));
            && returned.Some?
            && DecodeRow(returned.value, out) == Some(Item(OriginOf(row.key), row.value))
  {
    var fields, grouped := RowFields(owners, out), GroupDocument(out, row);
    FieldsOfRow(row, owners, out);
    forall f | f in fields && fields[f].Compute?
      ensures !Eval(fields[f].e, grouped).Failed?
    {
      FieldComputed(row, out, f);
    }
    assert Projected(fields, grouped).Some?;
    FieldReturned(fields, row, out, "resource");
    FieldReturned(fields, row, out, "owner");
    FieldReturned(fields, row, out, "namespace");
    SumReturned(fields, row, out);
  }

  lemma FieldsOfRow(row: Item<Document>, owners: bool, out: string)
    requires FreshField(out) && out != "resource" && GoodId(row.key, owners)
    ensures var fields := RowFields(owners, out);
            && ComputedFromId(fields, row, out, "resource")
            && ComputedFromId(fields, row, out, "owner")
            && ComputedFromId(fields, row, out, "namespace")
            && out in fields && fields[out] == Include
            && forall f | f in fields && fields[f].Compute? :: fields[f] == Compute(Field(["_id", f]))
  {
    var fields := RowFields(owners, out);
    assert fields.Keys == {"_id", "resource", out} + if owners then {"owner", "namespace"} else {};
  }

  lemma {:induction false} EachProjected(project: Stage, docs: seq<Document>, returned: seq<Document>)
    requires project.Project? && |docs| == |returned|
    requires forall i | 0 <= i < |docs| :: Projected(project.fields, docs[i]) == Some(returned[i])
    ensures EachDocument(project, docs) == Some(returned)
  {
    if docs != [] {
      EachProjected(project, docs[1..], returned[1..]);
      assert returned == [returned[0]] + returned[1..];
    }
  }

  lemma {:induction false} EachDecoded(returned: seq<Document>, out: string, items: seq<Item<Origin>>)
    requires |returned| == |items|
    requires forall i | 0 <= i < |items| :: DecodeRow(returned[i], out) == Some(items[i])
    ensures DecodeRows(returned, out) == Some(items)
  {
    if returned != [] {
      EachDecoded(returned[1..], out, items[1..]);
      assert items == [items[0]] + items[1..];
    }
  }

  /** The rows decoded from what the server returns for its groups. */
  lemma RowsDecoded(rows: seq<Item<Document>>, owners: bool, out: string)
    requires FreshField(out) && out != "resource"
    requires forall i | 0 <= i < |rows| :: GoodId(rows[i].key, owners)
    ensures var returned := EachDocument(Project(RowFields(owners, out)), GroupDocuments(rows, out));
            returned.Some? && DecodeRows(returned.value, out) == Some(Rekey(rows, OriginOf))
  {
    var fields, docs := RowFields(owners, out), GroupDocuments(rows, out);
    forall i | 0 <= i < |rows|
      ensures Projected(fields, docs[i]).Some?
      ensures DecodeRow(Projected(fields, docs[i]).value, out) == Some(Rekey(rows, OriginOf)[i])
    {
      RowDecoded(rows[i], owners, out);
    }
    var returned := seq(|rows|, i requires 0 <= i < |rows| => Projected(fields, docs[i]).value);
    EachProjected(Project(fields), docs, returned);
    EachDecoded(returned, out, Rekey(rows, OriginOf));
  }

  // ---------- The whole pipeline ----------

  function Matching(docs: seq<Document>, windowStart: int, windowEnd: int): seq<Document>
  {
    if docs == [] then []
    else
      (if Matches(docs[0], CONSUMPTION, windowStart, windowEnd) then [docs[0]] else [])
      + Matching(docs[1..], windowStart, windowEnd)
  }

  lemma {:induction false} MatchRuns(docs: seq<Document>, windowStart: int, windowEnd: int)
    ensures EachDocument(Match(CONSUMPTION, windowStart, windowEnd), docs)
         == Some(Matching(docs, windowStart, windowEnd))
  {
    if docs != [] {
      MatchRuns(docs[1..], windowStart, windowEnd);
    }
  }

  function BillingPipeline(windowStart: int, windowEnd: int, owners: bool, field: string, out: string): Pipeline
  {
    AggregatePipeline(windowStart, windowEnd, CostStages(owners, UsedList(field), out) + GroupStages(owners, out))
  }

  /** The stages up to the grouping leave one document for every used entry of a matching document. */
  lemma PipelineGroups(docs: seq<Document>, windowStart: int, windowEnd: int, owners: bool, field: string, out: string,
                       result: seq<Document>)
    requires FreshField(out)
    requires forall d | d in Matching(docs, windowStart, windowEnd) :: GoodDocument(d, field)
    ensures Runs(BillingPipeline(windowStart, windowEnd, owners, field, out), docs, result)
        <==> Runs(GroupStages(owners, out),
                  Concat(DocsParts(Matching(docs, windowStart, windowEnd), owners, field, out)), result)
  {
    var matching, costs, groups := Match(CONSUMPTION, windowStart, windowEnd), CostStages(owners, UsedList(field), out),
      GroupStages(owners, out);
    MatchRuns(docs, windowStart, windowEnd);
    UsedListed(field);
    DocumentsRun(Matching(docs, windowStart, windowEnd), owners, field, UsedList(field), out);
    RunsSplit([matching], costs + groups, docs, result);
    RunsSplit(costs, groups, Matching(docs, windowStart, windowEnd), result);
  }

  lemma GroupOutcome(docs: seq<Document>, owners: bool, out: string, result: seq<Document>)
    returns (rows: seq<Item<Document>>)
    requires FreshField(out) && out != "resource" && GoodIds(docs, owners, out)
    requires Runs(GroupStages(owners, out), docs, result)
    ensures Groups(rows, GroupItems(GroupKey(owners, out), Field([out, "v"]), docs))
    ensures DecodeRows(result, out) == Some(Rekey(rows, OriginOf))
  {
    var stages := GroupStages(owners, out);
    var grouped :| Step(stages[0], docs, grouped) && Runs(stages[1..], grouped, result);
    rows :| && Groups(rows, GroupItems(stages[0].id, stages[0].summed, docs)) && grouped == GroupDocuments(rows, out);
    var returned :| Step(stages[1..][0], grouped, returned) && Runs(stages[1..][1..], returned, result);
    IdsOfGroups(rows, docs, owners, out);
    RowsDecoded(rows, owners, out);
  }

  lemma IdsOfGroups(rows: seq<Item<Document>>, docs: seq<Document>, owners: bool, out: string)
    requires GoodIds(docs, owners, out)
    requires Groups(rows, GroupItems(GroupKey(owners, out), Field([out, "v"]), docs))
    ensures forall i | 0 <= i < |rows| :: GoodId(rows[i].key, owners)
  {
    var items := GroupItems(GroupKey(owners, out), Field([out, "v"]), docs);
    forall i | 0 <= i < |rows|
      ensures GoodId(rows[i].key, owners)
    {
      assert rows[i].key in Keys(rows);
      var j :| 0 <= j < |items| && items[j].key == rows[i].key;
      assert docs[j] in docs;
    }
  }

  lemma RekeyTwice<K(!new), L, M>(items: seq<Item<K>>, f: K -> L, g: L -> M, both: K -> M)
    requires forall k :: both(k) == g(f(k))
    ensures Rekey(Rekey(items, f), g) == Rekey(items, both)
  {
    var a, b := Rekey(Rekey(items, f), g), Rekey(items, both);
    forall i | 0 <= i < |items|
      ensures a[i] == b[i]
    {
      assert Rekey(items, f)[i].key == f(items[i].key);
    }
  }

  /** Summing the rows by any key is summing the items they were grouped from. */
  lemma GroupedTotals<K>(rows: seq<Item<Document>>, docs: seq<Document>, items: seq<Item<Origin>>, owners: bool,
                         out: string, key: Origin -> K)
    requires Groups(rows, GroupItems(GroupKey(owners, out), Field([out, "v"]), docs))
    requires StandFor(docs, items, owners, out)
    ensures TotalsOf(Rekey(Rekey(rows, OriginOf), key)) == TotalsOf(Rekey(Rekey(items, OriginOrEnum(owners)), key))
  {
    var grouped := GroupItems(GroupKey(owners, out), Field([out, "v"]), docs);
    var both := (d: Document) => key(OriginOf(d));
    RekeyTwice(rows, OriginOf, key, both);
    RekeyTwice(grouped, OriginOf, key, both);
    GroupsThenCoarse(rows, grouped, both);
  }

  /** A key that owners and namespaces have no part in, unless they are grouped by. */
  ghost predicate KeyFits<K(!new)>(key: Origin -> K, owners: bool)
  {
    owners || forall o :: key(o) == key(Origin("", "", o.enum))
  }

  lemma SameKeys<K(!new)>(items: seq<Item<Origin>>, owners: bool, key: Origin -> K)
    requires KeyFits(key, owners)
    ensures Rekey(Rekey(items, OriginOrEnum(owners)), key) == Rekey(items, key)
  {
    RekeyTwice(items, OriginOrEnum(owners), key, key);
  }

  /** Whatever the server returns, folding the rows gives the totals of the matching documents. */
  lemma PipelineTotals<K(!new)>(docs: seq<Document>, windowStart: int, windowEnd: int, owners: bool, field: string,
                                out: string, result: seq<Document>, key: Origin -> K)
    requires FreshField(out) && out != "resource" && KeyFits(key, owners)
    requires forall d | d in Matching(docs, windowStart, windowEnd) :: GoodDocument(d, field)
    requires Runs(BillingPipeline(windowStart, windowEnd, owners, field, out), docs, result)
    ensures DecodeRows(result, out).Some?
    ensures TotalsOf(Rekey(DecodeRows(result, out).value, key))
         == TotalsOf(Rekey(PipelineItems(Matching(docs, windowStart, windowEnd), field), key))
  {
    var matching := Matching(docs, windowStart, windowEnd);
    var entries, items := Concat(DocsParts(matching, owners, field, out)), PipelineItems(matching, field);
    PipelineGroups(docs, windowStart, windowEnd, owners, field, out, result);
    DocumentsStandFor(matching, owners, field, out);
    var rows := GroupOutcome(entries, owners, out, result);
    GroupedTotals(rows, entries, items, owners, out, key);
    SameKeys(items, owners, key);
  }

  /** The pipeline does not fail on such documents. */
  lemma PipelineSucceeds(docs: seq<Document>, windowStart: int, windowEnd: int, owners: bool, field: string, out: string)
    returns (result: seq<Document>)
    requires FreshField(out) && out != "resource"
    requires forall d | d in Matching(docs, windowStart, windowEnd) :: GoodDocument(d, field)
    ensures Runs(BillingPipeline(windowStart, windowEnd, owners, field, out), docs, result)
  {
    var matching := Matching(docs, windowStart, windowEnd);
    var entries := Concat(DocsParts(matching, owners, field, out));
    DocumentsStandFor(matching, owners, field, out);
    var stages := GroupStages(owners, out);
    var rows := GroupsExist(GroupItems(stages[0].id, stages[0].summed, entries));
    IdsOfGroups(rows, entries, owners, out);
    RowsDecoded(rows, owners, out);
    var grouped := GroupDocuments(rows, out);
    result := EachDocument(stages[1], grouped).value;
    assert Step(stages[0], entries, grouped);
    assert Step(stages[1..][0], grouped, result) && Runs(stages[1..][1..], result, result);
    assert Runs(stages[1..], grouped, result);
    PipelineGroups(docs, windowStart, windowEnd, owners, field, out, result);
  }
}
