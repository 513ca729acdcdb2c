/**
  The billing aggregation: the two pipelines sent to the database, the fold over the rows they
  return, and the direct aggregation over whole documents.
 */
module Billing {
  import opened Wrappers
  import opened Decimal
  import opened Distinct
  import opened StringOrder
  import opened Totals
  import opened Mongo

  // ---------- Snapshots ----------

  datatype PropertyInfo = PropertyInfo(name: string, unit: string)

  datatype ResourceKey = ResourceKey(resource: string, unit: string, owner: string, namespace: string)

  datatype AmountKey = AmountKey(resource: string, owner: string, namespace: string)

  datatype Snapshot = Snapshot(
    resources: map<ResourceKey, int>,
    ownerResources: map<ResourceKey, int>,
    amounts: map<AmountKey, int>,
    ownerAmounts: map<AmountKey, int>)

  type Properties = map<string, PropertyInfo>

  function PropertyOf(enum: string, properties: Properties): PropertyInfo
  {
    if enum in properties then properties[enum] else PropertyInfo("resource_unknown_" + enum, "1")
  }

  /** Where a billed value comes from. */
  datatype Origin = Origin(owner: string, namespace: string, enum: string)

  function ClusterResource(properties: Properties): Origin -> ResourceKey
  {
    (o: Origin) => ResourceKey(PropertyOf(o.enum, properties).name, PropertyOf(o.enum, properties).unit, "", "")
  }

  function OwnerResource(properties: Properties): Origin -> ResourceKey
  {
    (o: Origin) => ResourceKey(PropertyOf(o.enum, properties).name, PropertyOf(o.enum, properties).unit, o.owner, o.namespace)
  }

  function ClusterAmount(properties: Properties): Origin -> AmountKey
  {
    (o: Origin) => AmountKey(PropertyOf(o.enum, properties).name, "", "")
  }

  function OwnerAmount(properties: Properties): Origin -> AmountKey
  {
    (o: Origin) => AmountKey(PropertyOf(o.enum, properties).name, o.owner, o.namespace)
  }

  function SnapshotOf(used: seq<Item<Origin>>, amounts: seq<Item<Origin>>, properties: Properties, owners: bool)
    : Snapshot
  {
    Snapshot(
      TotalsOf(Rekey(used, ClusterResource(properties))),
      if owners then TotalsOf(Rekey(used, OwnerResource(properties))) else map[],
      TotalsOf(Rekey(amounts, ClusterAmount(properties))),
      if owners then TotalsOf(Rekey(amounts, OwnerAmount(properties))) else map[])
  }

  // ---------- The pipelines ----------

  const CONSUMPTION := 0

  function AggregatePipeline(windowStart: int, windowEnd: int, stages: Pipeline): Pipeline
  {
    [Match(CONSUMPTION, windowStart, windowEnd)] + stages
  }

  function WithOwners(fields: map<string, Projection>, owners: bool, owner: Projection, namespace: Projection)
    : map<string, Projection>
  {
    if owners then fields["owner" := owner]["namespace" := namespace] else fields
  }

  /** The used field of an unwound cost as a list of keys and values. */
  function UsedList(field: string): Expr
  {
    ObjectToArray(IfNull(Field(["app_costs", field]), EmptyDocument))
  }

  /** One document for every cost, then one for every used enum of it. */
  function CostStages(owners: bool, used: Expr, out: string): Pipeline
  {
    [Project(WithOwners(map["app_costs" := Include], owners, Include, Include)), Unwind("app_costs")]
    + ListStages(owners, used, out)
  }

  function ListStages(owners: bool, used: Expr, out: string): Pipeline
  {
    [Project(WithOwners(map[out := Compute(used)], owners, Include, Include)), Unwind(out)]
  }

  function GroupKey(owners: bool, out: string): map<string, Expr>
  {
    var resource := map["resource" := Field([out, "k"])];
    if owners then resource["owner" := Field(["owner"])]["namespace" := Field(["namespace"])] else resource
  }

  /** The fields of a returned row. */
  function RowFields(owners: bool, out: string): map<string, Projection>
  {
    WithOwners(map["_id" := Exclude, "resource" := Compute(Field(["_id", "resource"])), out := Include],
               owners, Compute(Field(["_id", "owner"])), Compute(Field(["_id", "namespace"])))
  }

  function GroupStages(owners: bool, out: string): Pipeline
  {
    [Group(GroupKey(owners, out), out, Field([out, "v"])), Project(RowFields(owners, out))]
  }

  function UsageStages(owners: bool): Pipeline
  {
    CostStages(owners, UsedList("used"), "used") + GroupStages(owners, "used")
  }

  function AmountStages(owners: bool): Pipeline
  {
    CostStages(owners, UsedList("used_amount"), "amount") + GroupStages(owners, "amount")
  }

  // ---------- Rows ----------

  function StringField(doc: Document, name: string): string
  {
    if name in doc && doc[name].Str? then doc[name].s else ""
  }

  /** A number, or a text that is one; anything else counts as nothing. */
  function Int64Value(v: Value): int
  {
    match v
    case Int(i) => i
    case Str(s) => (match Atoi(s) case Some(i) => i case None => 0)
    case _ => 0
  }

  predicate StringOrNothing(doc: Document, name: string)
  {
    name in doc ==> doc[name].Str? || doc[name].Null?
  }

  /** Decoding a returned document: its text fields must be text, null or absent. */
  function DecodeRow(doc: Document, out: string): Option<Item<Origin>>
  {
    if StringOrNothing(doc, "owner") && StringOrNothing(doc, "namespace") && StringOrNothing(doc, "resource") then
      Some(Item(Origin(StringField(doc, "owner"), StringField(doc, "namespace"), StringField(doc, "resource")),
                if out in doc then Int64Value(doc[out]) else 0))
    else None
  }

  function DecodeRows(docs: seq<Document>, out: string): Option<seq<Item<Origin>>>
  {
    if docs == [] then Some([])
    else match (DecodeRow(docs[0], out), DecodeRows(docs[1..], out))
      case (Some(row), Some(rows)) => Some([row] + rows)
      case _ => None
  }

  method AggregateBillingRows(rows: seq<Item<Origin>>, amounts: seq<Item<Origin>>, properties: Properties, owners: bool)
    returns (snapshot: Snapshot)
    ensures snapshot == SnapshotOf(rows, amounts, properties, owners)
  {
    var cluster, byOwner := FoldRows(rows, ClusterResource(properties), OwnerResource(properties), owners);
    var clusterAmounts, amountsByOwner := FoldRows(amounts, ClusterAmount(properties), OwnerAmount(properties), owners);
    snapshot := Snapshot(cluster, byOwner, clusterAmounts, amountsByOwner);
  }

  method FoldRows<K>(rows: seq<Item<Origin>>, key: Origin -> K, ownerKey: Origin -> K, owners: bool)
    returns (totals: map<K, int>, ownerTotals: map<K, int>)
    ensures totals == TotalsOf(Rekey(rows, key))
    ensures ownerTotals == if owners then TotalsOf(Rekey(rows, ownerKey)) else map[]
  {
    ownerTotals := map[];
    assert [] + rows == rows;
    totals := AddItems(map[], rows, key, []);
    if owners {
      ownerTotals := AddItems(map[], rows, ownerKey, []);
    }
  }

  /** Adds every item's value to the total under its key. */
  method AddItems<K>(start: map<K, int>, items: seq<Item<Origin>>, key: Origin -> K, ghost before: seq<Item<Origin>>)
    returns (totals: map<K, int>)
    requires start == TotalsOf(Rekey(before, key))
    ensures totals == TotalsOf(Rekey(before + items, key))
  {
    totals := start;
    assert before + items[..0] == before;
    for i := 0 to |items|
      invariant totals == TotalsOf(Rekey(before + items[..i], key))
    {
      TotalsMore(before + items[..i], items[i], key);
      assert before + items[..i + 1] == before + items[..i] + [items[i]];
      var k := key(items[i].key);
      totals := totals[k := (if k in totals then totals[k] else 0) + items[i].value];
    }
    assert items[..|items|] == items;
  }

  lemma TotalsMore<K>(items: seq<Item<Origin>>, item: Item<Origin>, key: Origin -> K)
    ensures TotalsOf(Rekey(items + [item], key)) == Bump(TotalsOf(Rekey(items, key)), key(item.key), item.value)
  {
    RekeySnoc(items, item, key);
    TotalsSnoc(Rekey(items, key), Item(key(item.key), item.value));
  }

  // ---------- Whole documents ----------

  /** The entries of a used map, by a reading of their values. */
  function UsedMap(cost: Document, field: string, read: Value -> int): map<string, int>
  {
    if field in cost && cost[field].Doc? then
      var fields := cost[field].fields;
      map k | k in fields :: read(fields[k])
    else map[]
  }

  function UsedItems(owner: string, namespace: string, used: map<string, int>): seq<Item<Origin>>
  {
    EntryItems(owner, namespace, used, SortedKeys(used.Keys))
  }

  function EntryItems(owner: string, namespace: string, used: map<string, int>, keys: seq<string>): seq<Item<Origin>>
    requires forall k :: k in keys ==> k in used
  {
    seq(|keys|, i requires 0 <= i < |keys| => Item(Origin(owner, namespace, keys[i]), used[keys[i]]))
  }

  /** What one element of app_costs bills; only documents bill anything. */
  function CostItems(owner: string, namespace: string, cost: Value, field: string, read: Value -> int)
    : seq<Item<Origin>>
  {
    match cost
    case Doc(fields) => UsedItems(owner, namespace, UsedMap(fields, field, read))
    case _ => []
  }

  function CostParts(owner: string, namespace: string, costs: seq<Value>, field: string, read: Value -> int)
    : seq<seq<Item<Origin>>>
  {
    seq(|costs|, i requires 0 <= i < |costs| => CostItems(owner, namespace, costs[i], field, read))
  }

  function CostsItems(owner: string, namespace: string, costs: seq<Value>, field: string, read: Value -> int)
    : seq<Item<Origin>>
  {
    Concat(CostParts(owner, namespace, costs, field, read))
  }

  function ArrayField(doc: Document, name: string): seq<Value>
  {
    if name in doc && doc[name].Arr? then doc[name].items else []
  }

  /** What the costs of one document bill if they are an array. */
  function ArrayItems(doc: Document, field: string, read: Value -> int): seq<Item<Origin>>
  {
    CostsItems(StringField(doc, "owner"), StringField(doc, "namespace"), ArrayField(doc, "app_costs"), field, read)
  }

  /** What one document bills, taken directly. */
  function DocumentItems(doc: Document, field: string): seq<Item<Origin>>
  {
    ArrayItems(doc, field, Int64Value)
  }

  function DocumentParts(docs: seq<Document>, field: string): seq<seq<Item<Origin>>>
  {
    seq(|docs|, i requires 0 <= i < |docs| => DocumentItems(docs[i], field))
  }

  function DocumentsItems(docs: seq<Document>, field: string): seq<Item<Origin>>
  {
    Concat(DocumentParts(docs, field))
  }

  lemma OneMoreDocument(docs: seq<Document>, i: nat, field: string)
    requires i < |docs|
    ensures DocumentsItems(docs[..i + 1], field) == DocumentsItems(docs[..i], field) + DocumentItems(docs[i], field)
  {
    assert DocumentParts(docs[..i + 1], field) == DocumentParts(docs[..i], field) + [DocumentItems(docs[i], field)];
    ConcatSnoc(DocumentParts(docs[..i], field), DocumentItems(docs[i], field));
  }

  method AggregateBillingDocuments(docs: seq<Document>, properties: Properties) returns (snapshot: Snapshot)
    ensures snapshot == SnapshotOf(DocumentsItems(docs, "used"), DocumentsItems(docs, "used_amount"), properties, true)
  {
    snapshot := Snapshot(map[], map[], map[], map[]);
    for i := 0 to |docs|
      invariant snapshot == SnapshotOf(DocumentsItems(docs[..i], "used"), DocumentsItems(docs[..i], "used_amount"),
                                       properties, true)
    {
      OneMoreDocument(docs, i, "used");
      OneMoreDocument(docs, i, "used_amount");
      snapshot := AddDocument(snapshot, docs[i], properties,
                              DocumentsItems(docs[..i], "used"), DocumentsItems(docs[..i], "used_amount"));
    }
    assert docs[..|docs|] == docs;
  }

  method AddDocument(start: Snapshot, doc: Document, properties: Properties,
                     ghost used: seq<Item<Origin>>, ghost amounts: seq<Item<Origin>>)
    returns (snapshot: Snapshot)
    requires start == SnapshotOf(used, amounts, properties, true)
    ensures snapshot == SnapshotOf(used + DocumentItems(doc, "used"), amounts + DocumentItems(doc, "used_amount"),
                                   properties, true)
  {
    snapshot := start;
    var owner, namespace := StringField(doc, "owner"), StringField(doc, "namespace");
    var costs := ArrayField(doc, "app_costs");
    assert used + CostsItems(owner, namespace, costs[..0], "used", Int64Value) == used;
    assert amounts + CostsItems(owner, namespace, costs[..0], "used_amount", Int64Value) == amounts;
    for i := 0 to |costs|
      invariant snapshot == SnapshotOf(used + CostsItems(owner, namespace, costs[..i], "used", Int64Value),
                                       amounts + CostsItems(owner, namespace, costs[..i], "used_amount", Int64Value),
                                       properties, true)
    {
      ghost var u := used + CostsItems(owner, namespace, costs[..i], "used", Int64Value);
      ghost var a := amounts + CostsItems(owner, namespace, costs[..i], "used_amount", Int64Value);
      snapshot := AddCost(snapshot, owner, namespace, costs[i], properties, u, a);
      OneMoreCost(used, owner, namespace, costs, i, "used");
      OneMoreCost(amounts, owner, namespace, costs, i, "used_amount");
    }
    assert costs[..|costs|] == costs;
  }

  lemma OneMoreCost(before: seq<Item<Origin>>, owner: string, namespace: string, costs: seq<Value>, i: nat,
                    field: string)
    requires i < |costs|
    ensures before + CostsItems(owner, namespace, costs[..i + 1], field, Int64Value)
         == before + CostsItems(owner, namespace, costs[..i], field, Int64Value) + CostItems(owner, namespace, costs[i], field, Int64Value)
  {
    OneMorePart(owner, namespace, costs, i, field);
    ConcatAfter(before, CostParts(owner, namespace, costs[..i], field, Int64Value), CostItems(owner, namespace, costs[i], field, Int64Value));
  }

  lemma OneMorePart(owner: string, namespace: string, costs: seq<Value>, i: nat, field: string)
    requires i < |costs|
    ensures CostParts(owner, namespace, costs[..i + 1], field, Int64Value)
         == CostParts(owner, namespace, costs[..i], field, Int64Value) + [CostItems(owner, namespace, costs[i], field, Int64Value)]
  {
  }

  method AddCost(start: Snapshot, owner: string, namespace: string, cost: Value, properties: Properties,
                 ghost used: seq<Item<Origin>>, ghost amounts: seq<Item<Origin>>)
    returns (snapshot: Snapshot)
    requires start == SnapshotOf(used, amounts, properties, true)
    ensures snapshot == SnapshotOf(used + CostItems(owner, namespace, cost, "used", Int64Value),
                                   amounts + CostItems(owner, namespace, cost, "used_amount", Int64Value), properties, true)
  {
    if !cost.Doc? {
      assert used + CostItems(owner, namespace, cost, "used", Int64Value) == used;
      assert amounts + CostItems(owner, namespace, cost, "used_amount", Int64Value) == amounts;
      return start;
    }
    var r, o := AddUsed(start.resources, start.ownerResources, owner, namespace, UsedMap(cost.fields, "used", Int64Value),
                        ClusterResource(properties), OwnerResource(properties), used);
    var ra, oa := AddUsed(start.amounts, start.ownerAmounts, owner, namespace, UsedMap(cost.fields, "used_amount", Int64Value),
                          ClusterAmount(properties), OwnerAmount(properties), amounts);
    snapshot := Snapshot(r, o, ra, oa);
  }

  /** Entries taken in any order make the same bag of items. */
  lemma SameEntriesSameBag(owner: string, namespace: string, used: map<string, int>, order: seq<string>)
    requires Lists(order, used.Keys)
    ensures multiset(EntryItems(owner, namespace, used, order)) == multiset(UsedItems(owner, namespace, used))
  {
    var items, keys, all :=
      EntryItems(owner, namespace, used, order), SortedKeys(used.Keys), UsedItems(owner, namespace, used);
    forall i, j | 0 <= i < j < |all|
      ensures all[i] != all[j]
    {
      SortedKeysAscend(used.Keys, i, j);
    }
    forall x
      ensures x in items <==> x in all
    {
      if x in items {
        var i :| 0 <= i < |items| && items[i] == x;
        assert order[i] in order && order[i] in keys;
        var j :| 0 <= j < |keys| && keys[j] == order[i];
        assert all[j] == x;
      }
      if x in all {
        var j :| 0 <= j < |all| && all[j] == x;
        assert keys[j] in order;
        var i :| 0 <= i < |order| && order[i] == keys[j];
        assert items[i] == x;
      }
    }
    DistinctSameBag(items, all);
  }

  lemma PermutedTotals<K>(before: seq<Item<Origin>>, a: seq<Item<Origin>>, b: seq<Item<Origin>>, key: Origin -> K)
    requires multiset(a) == multiset(b)
    ensures TotalsOf(Rekey(before + a, key)) == TotalsOf(Rekey(before + b, key))
  {
    RekeyPermuted(before + a, before + b, key);
    TotalsPermuted(Rekey(before + a, key), Rekey(before + b, key));
  }

  /** Adds a used map to the totals, taking its entries in no particular order. */
  method AddUsed<K>(start: map<K, int>, ownerStart: map<K, int>, owner: string, namespace: string,
                    used: map<string, int>, key: Origin -> K, ownerKey: Origin -> K, ghost before: seq<Item<Origin>>)
    returns (totals: map<K, int>, ownerTotals: map<K, int>)
    requires start == TotalsOf(Rekey(before, key)) && ownerStart == TotalsOf(Rekey(before, ownerKey))
    ensures totals == TotalsOf(Rekey(before + UsedItems(owner, namespace, used), key))
    ensures ownerTotals == TotalsOf(Rekey(before + UsedItems(owner, namespace, used), ownerKey))
  {
    var order := AnyOrder(used.Keys);
    var items := EntryItems(owner, namespace, used, order);
    totals := AddItems(start, items, key, before);
    ownerTotals := AddItems(ownerStart, items, ownerKey, before);
    SameEntriesSameBag(owner, namespace, used, order);
    PermutedTotals(before, items, UsedItems(owner, namespace, used), key);
    PermutedTotals(before, items, UsedItems(owner, namespace, used), ownerKey);
  }
}
