/**
  What the totals of a snapshot are sums of, in terms of the configured properties, and which entries
  of which documents are billed.
 */
module BillingSums {
  import opened Decimal
  import opened Distinct
  import opened StringOrder
  import opened Totals
  import opened Mongo
  import opened Billing
  import opened BillingPipelines

  // ---------- What is summed ----------

  /** The sum of the values whose origins satisfy `counts`. */
  function SumWhere<K>(items: seq<Item<K>>, counts: K -> bool): int
  {
    if items == [] then 0
    else
      var n := |items| - 1;
      SumWhere(items[..n], counts) + (if counts(items[n].key) then items[n].value else 0)
  }

  predicate SomeWhere<K>(items: seq<Item<K>>, counts: K -> bool)
  {
    exists i :: 0 <= i < |items| && counts(items[i].key)
  }

  /** Summing by a key is summing what has that key. */
  lemma {:induction false} TotalWhere<K, L>(items: seq<Item<K>>, f: K -> L, l: L, counts: K -> bool)
    requires forall k :: counts(k) <==> f(k) == l
    ensures l in TotalsOf(Rekey(items, f)) <==> SomeWhere(items, counts)
    ensures l in TotalsOf(Rekey(items, f)) ==> TotalsOf(Rekey(items, f))[l] == SumWhere(items, counts)
  {
    var r := Rekey(items, f);
    if SomeWhere(items, counts) {
      var i :| 0 <= i < |items| && counts(items[i].key);
      assert r[i].key == l;
    }
    if l in Keys(r) {
      var i :| 0 <= i < |r| && r[i].key == l;
      assert counts(items[i].key);
    }
    TotalIsSum(items, f, l, counts);
  }

  lemma {:induction false} TotalIsSum<K, L>(items: seq<Item<K>>, f: K -> L, l: L, counts: K -> bool)
    requires forall k :: counts(k) <==> f(k) == l
    ensures Total(Rekey(items, f), l) == SumWhere(items, counts)
  {
    if items != [] {
      var n := |items| - 1;
      TotalIsSum(items[..n], f, l, counts);
      assert Rekey(items, f)[..n] == Rekey(items[..n], f);
    }
  }

  /** Origins billed under a name: the configured one of the enum, or one that says it is unknown. */
  function Under(properties: Properties, name: string): Origin -> bool
  {
    (o: Origin) =>
      if o.enum in properties then properties[o.enum].name == name else name == "resource_unknown_" + o.enum
  }

  /** Origins billed under a name and in a unit; what is unknown is billed in ones. */
  function UnderIn(properties: Properties, name: string, unit: string): Origin -> bool
  {
    (o: Origin) => if o.enum in properties then properties[o.enum] == PropertyInfo(name, unit)
                   else name == "resource_unknown_" + o.enum && unit == "1"
  }

  /** Those of one owner in one namespace. */
  function OwnedBy(owner: string, namespace: string, counts: Origin -> bool): Origin -> bool
  {
    (o: Origin) => o.owner == owner && o.namespace == namespace && counts(o)
  }

  /**
    The cluster's resources: the sum over everything used under a name and in a unit. They have no owner
    and no namespace, and are there as soon as something was used, if only nothing of it.
   */
  lemma ResourceSums(used: seq<Item<Origin>>, amounts: seq<Item<Origin>>, properties: Properties, owners: bool,
                     name: string, unit: string)
    ensures var resources, key, counts := SnapshotOf(used, amounts, properties, owners).resources,
              ResourceKey(name, unit, "", ""), UnderIn(properties, name, unit);
            && (key in resources <==> SomeWhere(used, counts))
            && (key in resources ==> resources[key] == SumWhere(used, counts))
  {
    TotalWhere(used, ClusterResource(properties), ResourceKey(name, unit, "", ""), UnderIn(properties, name, unit));
  }

  /** The resources by owner, if asked for: the same sums over what one owner used in one namespace. */
  lemma OwnerResourceSums(used: seq<Item<Origin>>, amounts: seq<Item<Origin>>, properties: Properties, owners: bool,
                          key: ResourceKey)
    ensures var resources, counts := SnapshotOf(used, amounts, properties, owners).ownerResources,
              OwnedBy(key.owner, key.namespace, UnderIn(properties, key.resource, key.unit));
            && (key in resources <==> owners && SomeWhere(used, counts))
            && (key in resources ==> resources[key] == SumWhere(used, counts))
  {
    TotalWhere(used, OwnerResource(properties), key,
               OwnedBy(key.owner, key.namespace, UnderIn(properties, key.resource, key.unit)));
  }

  /** The cluster's amounts: the sum over everything charged under a name, whatever its unit. */
  lemma AmountSums(used: seq<Item<Origin>>, amounts: seq<Item<Origin>>, properties: Properties, owners: bool,
                   name: string)
    ensures var sums, key, counts := SnapshotOf(used, amounts, properties, owners).amounts, AmountKey(name, "", ""),
              Under(properties, name);
            && (key in sums <==> SomeWhere(amounts, counts))
            && (key in sums ==> sums[key] == SumWhere(amounts, counts))
  {
    TotalWhere(amounts, ClusterAmount(properties), AmountKey(name, "", ""), Under(properties, name));
  }

  /** The amounts by owner, if asked for. */
  lemma OwnerAmountSums(used: seq<Item<Origin>>, amounts: seq<Item<Origin>>, properties: Properties, owners: bool,
                        key: AmountKey)
    ensures var sums, counts := SnapshotOf(used, amounts, properties, owners).ownerAmounts,
              OwnedBy(key.owner, key.namespace, Under(properties, key.resource));
            && (key in sums <==> owners && SomeWhere(amounts, counts))
            && (key in sums ==> sums[key] == SumWhere(amounts, counts))
  {
    TotalWhere(amounts, OwnerAmount(properties), key,
               OwnedBy(key.owner, key.namespace, Under(properties, key.resource)));
  }

  /** The totals of the whole cluster are under no owner and no namespace. */
  lemma ClusterHasNoOwners(used: seq<Item<Origin>>, amounts: seq<Item<Origin>>, properties: Properties, owners: bool)
    ensures forall key | key in SnapshotOf(used, amounts, properties, owners).resources ::
              key.owner == "" && key.namespace == ""
    ensures forall key | key in SnapshotOf(used, amounts, properties, owners).amounts ::
              key.owner == "" && key.namespace == ""
  {
    KeysRekey(used, ClusterResource(properties));
    KeysRekey(amounts, ClusterAmount(properties));
  }

  // ---------- What documents bill ----------

  /** A field that is a text, and an absent or other field that counts as the empty text. */
  predicate TextIs(doc: Document, name: string, text: string)
  {
    if name in doc && doc[name].Str? then doc[name].s == text else text == ""
  }

  /** The direct form bills an array of costs and reads texts that are numbers; the pipelines bill a lone cost too, and sum only numbers. */
  datatype Form = Direct | Pipelines

  /** What a value counts as; anything that is no number counts as nothing. */
  predicate NumberIs(form: Form, v: Value, n: int)
  {
    if v.Int? then n == v.i
    else if form.Direct? && v.Str? && Atoi(v.s).Some? then n == Atoi(v.s).value
    else n == 0
  }

  /** A returned row is read when its three texts are texts, null or absent; a number it has not counts as 0. */
  lemma RowSays(doc: Document, out: string)
    ensures DecodeRow(doc, out).Some? <==>
              forall f | f in ["owner", "namespace", "resource"] && f in doc :: doc[f].Str? || doc[f].Null?
    ensures match DecodeRow(doc, out)
            case None => true
            case Some(row) =>
              && TextIs(doc, "owner", row.key.owner) && TextIs(doc, "namespace", row.key.namespace)
              && TextIs(doc, "resource", row.key.enum)
              && if out in doc then NumberIs(Direct, doc[out], row.value) else row.value == 0
  {
    assert "owner" in ["owner", "namespace", "resource"] && "namespace" in ["owner", "namespace", "resource"];
  }

  function CostsOf(form: Form, doc: Document): seq<Value>
  {
    if "app_costs" !in doc then []
    else match doc["app_costs"]
      case Arr(items) => items
      case Null => []
      case cost => if form.Pipelines? then [cost] else []
  }

  /** A cost of a document has an entry under `field` that bills the value of the item. */
  predicate Bills(form: Form, doc: Document, cost: Value, field: string, item: Item<Origin>)
  {
    && TextIs(doc, "owner", item.key.owner) && TextIs(doc, "namespace", item.key.namespace)
    && cost.Doc? && field in cost.fields && cost.fields[field].Doc?
    && item.key.enum in cost.fields[field].fields && NumberIs(form, cost.fields[field].fields[item.key.enum], item.value)
  }

  ghost function PlacesIn(form: Form, doc: Document, field: string, item: Item<Origin>): set<int>
  {
    Indices(CostsOf(form, doc), cost => Bills(form, doc, cost, field, item))
  }

  /** The costs that bill an item: which document, and where among its costs. */
  ghost function BillingCosts(form: Form, docs: seq<Document>, field: string, item: Item<Origin>): set<(int, int)>
  {
    Places(docs, doc => PlacesIn(form, doc, field, item))
  }

  /** The direct form bills an item as often as costs have that entry, and bills nothing else. */
  lemma DocumentsBill(docs: seq<Document>, field: string, item: Item<Origin>)
    ensures multiset(DocumentsItems(docs, field))[item] == |BillingCosts(Direct, docs, field, item)|
  {
    var parts := DocumentParts(docs, field);
    forall i | 0 <= i < |docs|
      ensures multiset(parts[i])[item] == |PlacesIn(Direct, docs[i], field, item)|
    {
      DocumentBills(Direct, docs[i], field, item);
    }
    InAllParts(docs, parts, item, doc => PlacesIn(Direct, doc, field, item));
  }

  /** So do the pipelines. */
  lemma PipelinesBill(docs: seq<Document>, field: string, item: Item<Origin>)
    ensures multiset(PipelineItems(docs, field))[item] == |BillingCosts(Pipelines, docs, field, item)|
  {
    var parts := seq(|docs|, i requires 0 <= i < |docs| => UnwoundItems(docs[i], field));
    forall i | 0 <= i < |docs|
      ensures multiset(parts[i])[item] == |PlacesIn(Pipelines, docs[i], field, item)|
    {
      DocumentBills(Pipelines, docs[i], field, item);
    }
    InAllParts(docs, parts, item, doc => PlacesIn(Pipelines, doc, field, item));
  }

  lemma {:induction false} InAllParts<C, T, P>(docs: seq<C>, parts: seq<seq<T>>, x: T, has: C -> set<P>)
    requires |docs| == |parts| && forall i | 0 <= i < |docs| :: multiset(parts[i])[x] == |has(docs[i])|
    ensures multiset(Concat(parts))[x] == |Places(docs, has)|
  {
    if docs == [] {
      assert Places(docs, has) == {};
    } else {
      var n := |docs| - 1;
      InAllParts(docs[..n], parts[..n], x, has);
      assert docs == docs[..n] + [docs[n]];
      PlacesMore(docs[..n], docs[n], has);
    }
  }

  function ReadingOf(form: Form): Value -> int
  {
    if form.Direct? then Int64Value else Number
  }

  function FormItems(form: Form, doc: Document, field: string): seq<Item<Origin>>
  {
    if form.Direct? then DocumentItems(doc, field) else UnwoundItems(doc, field)
  }

  lemma DocumentBills(form: Form, doc: Document, field: string, item: Item<Origin>)
    ensures multiset(FormItems(form, doc, field))[item] == |PlacesIn(form, doc, field, item)|
  {
    var owner, namespace := StringField(doc, "owner"), StringField(doc, "namespace");
    var costs := CostsOf(form, doc);
    assert costs == if form.Direct? then ArrayField(doc, "app_costs") else Costs(doc);
    var parts := CostParts(owner, namespace, costs, field, ReadingOf(form));
    forall c | 0 <= c < |parts|
      ensures multiset(parts[c])[item] == if Bills(form, doc, costs[c], field, item) then 1 else 0
    {
      CostBills(form, doc, costs[c], field, item);
    }
    InParts(costs, parts, item, cost => Bills(form, doc, cost, field, item));
  }

  /** How often something is in lists that each have it once or not at all. */
  lemma {:induction false} InParts<C, T>(costs: seq<C>, parts: seq<seq<T>>, x: T, test: C -> bool)
    requires |costs| == |parts|
    requires forall i | 0 <= i < |parts| :: multiset(parts[i])[x] == if test(costs[i]) then 1 else 0
    ensures multiset(Concat(parts))[x] == |Indices(costs, test)|
  {
    if parts == [] {
      assert Indices(costs, test) == {};
    } else {
      var n := |parts| - 1;
      InParts(costs[..n], parts[..n], x, test);
      assert costs == costs[..n] + [costs[n]];
      IndicesMore(costs[..n], costs[n], test);
    }
  }

  lemma UsedEntry(form: Form, cost: Document, field: string, enum: string, n: int)
    ensures enum in UsedMap(cost, field, ReadingOf(form)) && UsedMap(cost, field, ReadingOf(form))[enum] == n
       <==> && field in cost && cost[field].Doc? && enum in cost[field].fields
            && NumberIs(form, cost[field].fields[enum], n)
  {
  }

  lemma CostBills(form: Form, doc: Document, cost: Value, field: string, item: Item<Origin>)
    ensures multiset(CostItems(StringField(doc, "owner"), StringField(doc, "namespace"), cost, field, ReadingOf(form)))[item]
         == if Bills(form, doc, cost, field, item) then 1 else 0
  {
    if cost.Doc? {
      var used := UsedMap(cost.fields, field, ReadingOf(form));
      UsedEntry(form, cost.fields, field, item.key.enum, item.value);
      UsedItemIn(StringField(doc, "owner"), StringField(doc, "namespace"), used, item);
    }
  }

  /** Every entry of a used map is an item of its own. */
  lemma UsedItemIn(owner: string, namespace: string, used: map<string, int>, item: Item<Origin>)
    ensures multiset(UsedItems(owner, namespace, used))[item]
         == if && item.key.owner == owner && item.key.namespace == namespace
               && item.key.enum in used && used[item.key.enum] == item.value then 1 else 0
  {
    var items, keys := UsedItems(owner, namespace, used), SortedKeys(used.Keys);
    forall i, j | 0 <= i < j < |items|
      ensures items[i] != items[j]
    {
      SortedKeysAscend(used.Keys, i, j);
    }
    DistinctOnce(items, item);
    if item.key.enum in used {
      assert item.key.enum in keys;
      var i :| 0 <= i < |keys| && keys[i] == item.key.enum;
      assert items[i] == Item(Origin(owner, namespace, item.key.enum), used[item.key.enum]);
    }
    if item in items {
      var i :| 0 <= i < |items| && items[i] == item;
      assert keys[i] in used;
    }
  }
}
