/**
  The billing collector: each poll reports the last full hour, whatever the database's grouping
  order, and the hours add up to the whole span.
 */
module BillingCollector {
  import opened Wrappers
  import opened StringOrder
  import opened Totals
  import opened Mongo
  import opened Billing
  import opened BillingPipelines

  // ---------- The two forms of the aggregation ----------

  predicate GoodDocuments(docs: seq<Document>)
  {
    forall d | d in docs :: GoodDocument(d, "used") && GoodDocument(d, "used_amount")
  }

  function PipelineSnapshot(docs: seq<Document>, properties: Properties, owners: bool): Snapshot
  {
    SnapshotOf(PipelineItems(docs, "used"), PipelineItems(docs, "used_amount"), properties, owners)
  }

  function DirectSnapshot(docs: seq<Document>, properties: Properties): Snapshot
  {
    SnapshotOf(DocumentsItems(docs, "used"), DocumentsItems(docs, "used_amount"), properties, true)
  }

  /** Every possible outcome of the two aggregations decodes, and folds to the same snapshot. */
  lemma RowsGiveSnapshot(docs: seq<Document>, windowStart: int, windowEnd: int, properties: Properties, owners: bool,
                         used: seq<Document>, amounts: seq<Document>)
    requires GoodDocuments(Matching(docs, windowStart, windowEnd))
    requires Runs(AggregatePipeline(windowStart, windowEnd, UsageStages(owners)), docs, used)
    requires Runs(AggregatePipeline(windowStart, windowEnd, AmountStages(owners)), docs, amounts)
    ensures DecodeRows(used, "used").Some? && DecodeRows(amounts, "amount").Some?
    ensures SnapshotOf(DecodeRows(used, "used").value, DecodeRows(amounts, "amount").value, properties, owners)
         == PipelineSnapshot(Matching(docs, windowStart, windowEnd), properties, owners)
  {
    PipelineTotals(docs, windowStart, windowEnd, owners, "used", "used", used, ClusterResource(properties));
    PipelineTotals(docs, windowStart, windowEnd, owners, "used_amount", "amount", amounts, ClusterAmount(properties));
    if owners {
      PipelineTotals(docs, windowStart, windowEnd, owners, "used", "used", used, OwnerResource(properties));
      PipelineTotals(docs, windowStart, windowEnd, owners, "used_amount", "amount", amounts, OwnerAmount(properties));
    }
  }

  /** A document whose costs are one document instead of an array. */
  predicate LoneCost(doc: Document, field: string)
  {
    "app_costs" in doc && doc["app_costs"].Doc? && UsedFields(doc["app_costs"], field) != map[]
  }

  /** What the pipelines bill for a document with a lone cost, which the direct form passes over. */
  function LonePart(doc: Document, field: string): seq<Item<Origin>>
  {
    if LoneCost(doc, field) then UnwoundItems(doc, field) else []
  }

  lemma UnwoundSplits(doc: Document, field: string)
    ensures UnwoundItems(doc, field) == ArrayItems(doc, field, Number) + LonePart(doc, field)
    ensures LoneCost(doc, field) ==> UnwoundItems(doc, field) != [] && ArrayItems(doc, field, Int64Value) == []
  {
    var owner, namespace, costs := StringField(doc, "owner"), StringField(doc, "namespace"), Costs(doc);
    if "app_costs" in doc && !doc["app_costs"].Arr? {
      assert ArrayField(doc, "app_costs") == [];
      if !doc["app_costs"].Null? {
        assert costs == [doc["app_costs"]];
        assert CostParts(owner, namespace, costs, field, Number)
            == [] + [CostItems(owner, namespace, costs[0], field, Number)];
        ConcatSnoc([], CostItems(owner, namespace, costs[0], field, Number));
        assert UnwoundItems(doc, field) == CostItems(owner, namespace, costs[0], field, Number);
      }
    }
  }

  function PlainParts(docs: seq<Document>, field: string, read: Value -> int): seq<seq<Item<Origin>>>
  {
    seq(|docs|, i requires 0 <= i < |docs| => ArrayItems(docs[i], field, read))
  }

  function LoneParts(docs: seq<Document>, field: string): seq<seq<Item<Origin>>>
  {
    seq(|docs|, i requires 0 <= i < |docs| => LonePart(docs[i], field))
  }

  /** What $sum lacks of a value that the direct form reads: it passes over texts. */
  function Lacking(v: Value): int
  {
    Number(v) - Int64Value(v)
  }

  /** What the pipelines bill beyond the direct form: less for texts, and more for lone costs. */
  function Difference(docs: seq<Document>, field: string): seq<Item<Origin>>
  {
    Concat(PlainParts(docs, field, Lacking)) + Concat(LoneParts(docs, field))
  }

  /** Joining parts that each fall in two makes the bag of the two joined on their own. */
  lemma {:induction false} ConcatSplits<T>(parts: seq<seq<T>>, first: seq<seq<T>>, second: seq<seq<T>>)
    requires |parts| == |first| == |second|
    requires forall i | 0 <= i < |parts| :: parts[i] == first[i] + second[i]
    ensures multiset(Concat(parts)) == multiset(Concat(first)) + multiset(Concat(second))
  {
    if parts != [] {
      var n := |parts| - 1;
      ConcatSplits(parts[..n], first[..n], second[..n]);
      assert parts[n] == first[n] + second[n];
    }
  }

  lemma PipelineSplits(docs: seq<Document>, field: string)
    ensures multiset(PipelineItems(docs, field))
         == multiset(Concat(PlainParts(docs, field, Number)) + Concat(LoneParts(docs, field)))
  {
    var parts := seq(|docs|, i requires 0 <= i < |docs| => UnwoundItems(docs[i], field));
    forall i | 0 <= i < |docs|
      ensures parts[i] == PlainParts(docs, field, Number)[i] + LoneParts(docs, field)[i]
    {
      UnwoundSplits(docs[i], field);
    }
    ConcatSplits(parts, PlainParts(docs, field, Number), LoneParts(docs, field));
  }

  /** Items with the same keys in the same places, whose values add up. */
  ghost predicate AddsUp<K>(sum: seq<Item<K>>, a: seq<Item<K>>, b: seq<Item<K>>)
  {
    && |sum| == |a| == |b|
    && forall i | 0 <= i < |sum| :: sum[i].key == a[i].key == b[i].key && sum[i].value == a[i].value + b[i].value
  }

  lemma {:induction false} TotalsAddUp<K>(sum: seq<Item<K>>, a: seq<Item<K>>, b: seq<Item<K>>, k: K)
    requires AddsUp(sum, a, b)
    ensures Total(sum, k) == Total(a, k) + Total(b, k)
  {
    if sum != [] {
      var n := |sum| - 1;
      TotalsAddUp(sum[..n], a[..n], b[..n], k);
    }
  }

  lemma KeysAddUp<K>(sum: seq<Item<K>>, a: seq<Item<K>>, b: seq<Item<K>>)
    requires AddsUp(sum, a, b)
    ensures Keys(sum) == Keys(a) == Keys(b)
  {
    assert forall i | 0 <= i < |sum| :: sum[i].key == a[i].key && sum[i].key == b[i].key;
  }

  lemma RekeyAddsUp<K, L>(sum: seq<Item<K>>, a: seq<Item<K>>, b: seq<Item<K>>, key: K -> L)
    requires AddsUp(sum, a, b)
    ensures AddsUp(Rekey(sum, key), Rekey(a, key), Rekey(b, key))
  {
  }

  lemma {:induction false} ConcatAddsUp<K>(sums: seq<seq<Item<K>>>, a: seq<seq<Item<K>>>, b: seq<seq<Item<K>>>)
    requires |sums| == |a| == |b| && forall i | 0 <= i < |sums| :: AddsUp(sums[i], a[i], b[i])
    ensures AddsUp(Concat(sums), Concat(a), Concat(b))
  {
    if sums != [] {
      var n := |sums| - 1;
      ConcatAddsUp(sums[..n], a[..n], b[..n]);
      BothAddUp(Concat(sums[..n]), Concat(a[..n]), Concat(b[..n]), sums[n], a[n], b[n]);
    }
  }

  lemma BothAddUp<K>(sum: seq<Item<K>>, a: seq<Item<K>>, b: seq<Item<K>>,
                     sum2: seq<Item<K>>, a2: seq<Item<K>>, b2: seq<Item<K>>)
    requires AddsUp(sum, a, b) && AddsUp(sum2, a2, b2)
    ensures AddsUp(sum + sum2, a + a2, b + b2)
  {
  }

  lemma EntriesAddUp(owner: string, namespace: string, sum: map<string, int>, a: map<string, int>, b: map<string, int>)
    requires sum.Keys == a.Keys == b.Keys && forall k | k in sum :: sum[k] == a[k] + b[k]
    ensures AddsUp(UsedItems(owner, namespace, sum), UsedItems(owner, namespace, a), UsedItems(owner, namespace, b))
  {
    var keys := SortedKeys(sum.Keys);
    forall i | 0 <= i < |keys|
      ensures keys[i] in sum && sum[keys[i]] == a[keys[i]] + b[keys[i]]
    {
      assert keys[i] in sum.Keys;
    }
  }

  lemma CostAddsUp(owner: string, namespace: string, cost: Value, field: string)
    ensures AddsUp(CostItems(owner, namespace, cost, field, Number), CostItems(owner, namespace, cost, field, Int64Value),
                   CostItems(owner, namespace, cost, field, Lacking))
  {
    if cost.Doc? {
      EntriesAddUp(owner, namespace, UsedMap(cost.fields, field, Number), UsedMap(cost.fields, field, Int64Value),
                   UsedMap(cost.fields, field, Lacking));
    }
  }

  lemma ArrayAddsUp(doc: Document, field: string)
    ensures AddsUp(ArrayItems(doc, field, Number), ArrayItems(doc, field, Int64Value), ArrayItems(doc, field, Lacking))
  {
    var owner, namespace, costs := StringField(doc, "owner"), StringField(doc, "namespace"), ArrayField(doc, "app_costs");
    forall i | 0 <= i < |costs|
      ensures AddsUp(CostParts(owner, namespace, costs, field, Number)[i],
                     CostParts(owner, namespace, costs, field, Int64Value)[i],
                     CostParts(owner, namespace, costs, field, Lacking)[i])
    {
      CostAddsUp(owner, namespace, costs[i], field);
    }
    ConcatAddsUp(CostParts(owner, namespace, costs, field, Number), CostParts(owner, namespace, costs, field, Int64Value),
                 CostParts(owner, namespace, costs, field, Lacking));
  }

  lemma PlainAddsUp(docs: seq<Document>, field: string)
    ensures AddsUp(Concat(PlainParts(docs, field, Number)), DocumentsItems(docs, field),
                   Concat(PlainParts(docs, field, Lacking)))
  {
    forall i | 0 <= i < |docs|
      ensures AddsUp(PlainParts(docs, field, Number)[i], DocumentParts(docs, field)[i], PlainParts(docs, field, Lacking)[i])
    {
      ArrayAddsUp(docs[i], field);
    }
    ConcatAddsUp(PlainParts(docs, field, Number), DocumentParts(docs, field), PlainParts(docs, field, Lacking));
  }

  lemma RekeyConcat<K, L>(a: seq<Item<K>>, b: seq<Item<K>>, key: K -> L)
    ensures Rekey(a + b, key) == Rekey(a, key) + Rekey(b, key)
  {
  }

  /** All totals are those of some items and of more items together. */
  ghost predicate SumOf<K(!new)>(all: seq<Item<K>>, items: seq<Item<K>>, more: seq<Item<K>>)
  {
    Keys(all) == Keys(items) + Keys(more) && forall k :: Total(all, k) == Total(items, k) + Total(more, k)
  }

  /** Items that are a permutation of sums and others, as seen under a key. */
  lemma SumOfParts<K(!new)>(all: seq<Item<Origin>>, sums: seq<Item<Origin>>, others: seq<Item<Origin>>,
                            items: seq<Item<Origin>>, lacking: seq<Item<Origin>>, key: Origin -> K)
    requires multiset(all) == multiset(sums + others) && AddsUp(sums, items, lacking)
    ensures SumOf(Rekey(all, key), Rekey(items, key), Rekey(lacking + others, key))
  {
    var a, s, o := Rekey(all, key), Rekey(sums, key), Rekey(others, key);
    RekeyPermuted(all, sums + others, key);
    RekeyConcat(sums, others, key);
    RekeyConcat(lacking, others, key);
    RekeyAddsUp(sums, items, lacking, key);
    KeysAddUp(s, Rekey(items, key), Rekey(lacking, key));
    KeysConcat(s, o);
    KeysConcat(Rekey(lacking, key), o);
    KeysPermuted(a, s + o);
    forall k
      ensures Total(a, k) == Total(Rekey(items, key), k) + Total(Rekey(lacking, key) + o, k)
    {
      TotalPermuted(a, s + o, k);
      TotalConcat(s, o, k);
      TotalConcat(Rekey(lacking, key), o, k);
      TotalsAddUp(s, Rekey(items, key), Rekey(lacking, key), k);
    }
  }

  lemma KeysPermuted<K>(a: seq<Item<K>>, b: seq<Item<K>>)
    requires multiset(a) == multiset(b)
    ensures Keys(a) == Keys(b)
  {
    TotalsPermuted(a, b);
    assert TotalsOf(a).Keys == Keys(a) && TotalsOf(b).Keys == Keys(b);
  }

  lemma PipelineIsSum<K(!new)>(docs: seq<Document>, field: string, key: Origin -> K)
    ensures SumOf(Rekey(PipelineItems(docs, field), key), Rekey(DocumentsItems(docs, field), key),
                  Rekey(Difference(docs, field), key))
  {
    PipelineSplits(docs, field);
    PlainAddsUp(docs, field);
    SumOfParts(PipelineItems(docs, field), Concat(PlainParts(docs, field, Number)), Concat(LoneParts(docs, field)),
               DocumentsItems(docs, field), Concat(PlainParts(docs, field, Lacking)), key);
  }

  /** By any key: the totals of the pipelines are the direct totals plus those of the difference. */
  lemma PipelineTotalsAdd<K(!new)>(docs: seq<Document>, field: string, key: Origin -> K, k: K)
    ensures var all := TotalsOf(Rekey(PipelineItems(docs, field), key));
            var direct, more := Rekey(DocumentsItems(docs, field), key), Rekey(Difference(docs, field), key);
            && (k in all <==> k in Keys(direct) || k in Keys(more))
            && (k in all ==> all[k] == Total(direct, k) + Total(more, k))
  {
    PipelineIsSum(docs, field, key);
  }

  /** More items add nothing to any total and bring no new key. */
  predicate AddsNothing<K(==)>(items: seq<Item<K>>, more: seq<Item<K>>)
  {
    forall k | k in Keys(more) :: k in Keys(items) && Total(more, k) == 0
  }

  lemma SameTotalsIff<K(!new)>(all: seq<Item<K>>, items: seq<Item<K>>, more: seq<Item<K>>)
    requires SumOf(all, items, more)
    ensures TotalsOf(all) == TotalsOf(items) <==> AddsNothing(items, more)
  {
    forall k | k !in Keys(more)
      ensures Total(more, k) == 0
    {
      TotalOfAbsent(more, k);
    }
    if TotalsOf(all) == TotalsOf(items) {
      forall k | k in Keys(more)
        ensures k in Keys(items) && Total(more, k) == 0
      {
        assert k in TotalsOf(all);
        assert TotalsOf(all)[k] == Total(all, k);
      }
    }
  }

  /** The difference is not seen under a key. */
  predicate Unseen<K(==)>(docs: seq<Document>, field: string, key: Origin -> K)
  {
    AddsNothing(Rekey(DocumentsItems(docs, field), key), Rekey(Difference(docs, field), key))
  }

  lemma TotalsAgreeIff<K(!new)>(docs: seq<Document>, field: string, key: Origin -> K)
    ensures TotalsOf(Rekey(PipelineItems(docs, field), key)) == TotalsOf(Rekey(DocumentsItems(docs, field), key))
       <==> Unseen(docs, field, key)
  {
    PipelineIsSum(docs, field, key);
    SameTotalsIff(Rekey(PipelineItems(docs, field), key), Rekey(DocumentsItems(docs, field), key),
                  Rekey(Difference(docs, field), key));
  }

  /** What the pipelines promise to report: the direct snapshot, without owners if they are off. */
  function Promised(docs: seq<Document>, properties: Properties, owners: bool): Snapshot
  {
    if owners then DirectSnapshot(docs, properties)
    else DirectSnapshot(docs, properties).(ownerResources := map[], ownerAmounts := map[])
  }

  /** For any documents, owners on or off: the forms agree exactly when the difference adds zero to every key and brings none. */
  lemma FormsAgreeIff(docs: seq<Document>, properties: Properties, owners: bool)
    ensures PipelineSnapshot(docs, properties, owners) == Promised(docs, properties, owners)
       <==> && Unseen(docs, "used", ClusterResource(properties))
            && Unseen(docs, "used_amount", ClusterAmount(properties))
            && (owners ==> Unseen(docs, "used", OwnerResource(properties)))
            && (owners ==> Unseen(docs, "used_amount", OwnerAmount(properties)))
  {
    TotalsAgreeIff(docs, "used", ClusterResource(properties));
    TotalsAgreeIff(docs, "used_amount", ClusterAmount(properties));
    if owners {
      TotalsAgreeIff(docs, "used", OwnerResource(properties));
      TotalsAgreeIff(docs, "used_amount", OwnerAmount(properties));
    }
  }

  // ---------- Documents on which the forms agree, and on which they do not ----------

  /** No used value is a text that is a number other than zero. */
  predicate NoTexts(docs: seq<Document>, field: string)
  {
    forall d, cost | d in docs && cost in ArrayField(d, "app_costs") :: NoTextIn(UsedFields(cost, field))
  }

  predicate NoTextIn(used: Document)
  {
    forall k | k in used :: Lacking(used[k]) == 0
  }

  predicate AllZero<K>(items: seq<Item<K>>)
  {
    forall i | 0 <= i < |items| :: items[i].value == 0
  }

  lemma {:induction false} ConcatAllZero<K>(parts: seq<seq<Item<K>>>)
    requires forall i | 0 <= i < |parts| :: AllZero(parts[i])
    ensures AllZero(Concat(parts))
  {
    if parts != [] {
      var n := |parts| - 1;
      ConcatAllZero(parts[..n]);
      assert AllZero(parts[n]);
    }
  }

  lemma {:induction false} TotalAllZero<K>(items: seq<Item<K>>, k: K)
    requires AllZero(items)
    ensures Total(items, k) == 0
  {
    if items != [] {
      TotalAllZero(items[..|items| - 1], k);
    }
  }

  lemma NothingLacking(docs: seq<Document>, field: string)
    requires NoTexts(docs, field)
    ensures AllZero(Concat(PlainParts(docs, field, Lacking)))
  {
    forall i | 0 <= i < |docs|
      ensures AllZero(PlainParts(docs, field, Lacking)[i])
    {
      NothingLackingIn(docs, field, docs[i]);
    }
    ConcatAllZero(PlainParts(docs, field, Lacking));
  }

  lemma NothingLackingIn(docs: seq<Document>, field: string, d: Document)
    requires NoTexts(docs, field) && d in docs
    ensures AllZero(ArrayItems(d, field, Lacking))
  {
    var owner, namespace, costs := StringField(d, "owner"), StringField(d, "namespace"), ArrayField(d, "app_costs");
    forall i | 0 <= i < |costs|
      ensures AllZero(CostParts(owner, namespace, costs, field, Lacking)[i])
    {
      assert costs[i] in costs && NoTextIn(UsedFields(costs[i], field));
      if costs[i].Doc? {
        var used := UsedMap(costs[i].fields, field, Lacking);
        assert forall k | k in SortedKeys(used.Keys) :: k in used && used[k] == 0;
      }
    }
    ConcatAllZero(CostParts(owner, namespace, costs, field, Lacking));
  }

  lemma NoneLone(docs: seq<Document>, field: string)
    ensures Concat(LoneParts(docs, field)) == [] <==> forall d | d in docs :: !LoneCost(d, field)
  {
    var parts := LoneParts(docs, field);
    ConcatEmptyIff(parts);
    forall i | 0 <= i < |docs|
      ensures parts[i] == [] <==> !LoneCost(docs[i], field)
    {
      UnwoundSplits(docs[i], field);
    }
  }

  lemma {:induction false} ConcatEmptyIff<T>(parts: seq<seq<T>>)
    ensures Concat(parts) == [] <==> forall i | 0 <= i < |parts| :: parts[i] == []
  {
    if parts != [] {
      var n := |parts| - 1;
      ConcatEmptyIff(parts[..n]);
      assert forall i | 0 <= i < n :: parts[..n][i] == parts[i];
    }
  }

  lemma {:induction false} PositiveTotal<K>(items: seq<Item<K>>, key: K)
    requires forall i | 0 <= i < |items| :: items[i].value > 0
    ensures Total(items, key) >= 0 && (key in Keys(items) ==> Total(items, key) > 0)
  {
    if items != [] {
      var n := |items| - 1;
      PositiveTotal(items[..n], key);
      assert items == items[..n] + [items[n]];
      KeysSnoc(items[..n], items[n]);
    }
  }

  /** Where nothing is lacking and lone costs use only positive amounts, only their absence is unseen. */
  lemma PositiveUnseen<K(!new)>(docs: seq<Document>, field: string, key: Origin -> K)
    requires NoTexts(docs, field) && forall item | item in Concat(LoneParts(docs, field)) :: item.value > 0
    ensures Unseen(docs, field, key) <==> forall d | d in docs :: !LoneCost(d, field)
  {
    var lacking, lone := Concat(PlainParts(docs, field, Lacking)), Concat(LoneParts(docs, field));
    NothingLacking(docs, field);
    PlainAddsUp(docs, field);
    NoneLone(docs, field);
    assert forall i | 0 <= i < |lone| :: lone[i] in lone;
    ZeroAndPositive(Rekey(DocumentsItems(docs, field), key), Rekey(lacking, key), Rekey(lone, key));
    RekeyConcat(lacking, lone, key);
    RekeyAddsUp(Concat(PlainParts(docs, field, Number)), DocumentsItems(docs, field), lacking, key);
    KeysAddUp(Rekey(Concat(PlainParts(docs, field, Number)), key), Rekey(DocumentsItems(docs, field), key),
              Rekey(lacking, key));
  }

  lemma ZeroAndPositive<K>(items: seq<Item<K>>, zero: seq<Item<K>>, positive: seq<Item<K>>)
    requires AllZero(zero) && forall i | 0 <= i < |positive| :: positive[i].value > 0
    ensures Keys(zero) == Keys(items) ==> (AddsNothing(items, zero + positive) <==> positive == [])
  {
    KeysConcat(zero, positive);
    forall k
      ensures Total(zero + positive, k) == Total(positive, k)
    {
      TotalConcat(zero, positive, k);
      TotalAllZero(zero, k);
    }
    if positive != [] {
      assert positive[0].key in Keys(positive);
      PositiveTotal(positive, positive[0].key);
    }
  }

  /** Where no value is a text and lone costs use only positive amounts, the forms agree exactly when there are no lone costs. */
  lemma PositiveFormsAgreeIff(docs: seq<Document>, properties: Properties, owners: bool)
    requires NoTexts(docs, "used") && forall item | item in Concat(LoneParts(docs, "used")) :: item.value > 0
    requires NoTexts(docs, "used_amount") && forall item | item in Concat(LoneParts(docs, "used_amount")) :: item.value > 0
    ensures PipelineSnapshot(docs, properties, owners) == Promised(docs, properties, owners)
       <==> forall d | d in docs :: !LoneCost(d, "used") && !LoneCost(d, "used_amount")
  {
    FormsAgreeIff(docs, properties, owners);
    PositiveUnseen(docs, "used", ClusterResource(properties));
    PositiveUnseen(docs, "used_amount", ClusterAmount(properties));
    PositiveUnseen(docs, "used", OwnerResource(properties));
    PositiveUnseen(docs, "used_amount", OwnerAmount(properties));
  }

  /** With array costs of numbers the forms give the same maps; without owners, the same cluster maps. */
  lemma FormsAgree(docs: seq<Document>, properties: Properties, owners: bool)
    requires NoTexts(docs, "used") && NoTexts(docs, "used_amount")
    requires forall d | d in docs :: !LoneCost(d, "used") && !LoneCost(d, "used_amount")
    ensures PipelineSnapshot(docs, properties, owners) == Promised(docs, properties, owners)
  {
    NoneLone(docs, "used");
    NoneLone(docs, "used_amount");
    PositiveFormsAgreeIff(docs, properties, owners);
  }

  /** A document with nothing but costs. */
  function OnlyCosts(costs: Value): Document
  {
    map["app_costs" := costs]
  }

  function OnlyUsed(used: Document): Value
  {
    Doc(map["used" := Doc(used)])
  }

  lemma OnlyCostsAreGood(used: Document, field: string)
    ensures GoodDocument(OnlyCosts(OnlyUsed(used)), field) && GoodDocument(OnlyCosts(Arr([OnlyUsed(used)])), field)
  {
    assert Costs(OnlyCosts(OnlyUsed(used))) == [OnlyUsed(used)];
  }

  /** Any document whose costs are one document that uses something is billed by the pipelines and not by the direct form. */
  lemma OneCostDiffers(used: Document, properties: Properties)
    requires used != map[]
    ensures var doc := OnlyCosts(OnlyUsed(used));
            && GoodDocument(doc, "used") && GoodDocument(doc, "used_amount")
            && PipelineSnapshot([doc], properties, true) != DirectSnapshot([doc], properties)
  {
    var doc := OnlyCosts(OnlyUsed(used));
    OnlyCostsAreGood(used, "used");
    OnlyCostsAreGood(used, "used_amount");
    assert LoneCost(doc, "used");
    FormsAgreeOnOneIff(doc, properties);
  }

  lemma ConcatOne<T>(parts: seq<seq<T>>, part: seq<T>)
    requires parts == [part]
    ensures Concat(parts) == part
  {
    ConcatSnoc([], part);
    assert parts == [] + [part];
  }

  lemma OneDocument(doc: Document, field: string)
    ensures DocumentsItems([doc], field) == DocumentItems(doc, field)
    ensures Difference([doc], field) == ArrayItems(doc, field, Lacking) + LonePart(doc, field)
  {
    ConcatOne(DocumentParts([doc], field), DocumentItems(doc, field));
    ConcatOne(PlainParts([doc], field, Lacking), ArrayItems(doc, field, Lacking));
    ConcatOne(LoneParts([doc], field), LonePart(doc, field));
  }

  /** The texts of a document add up to nothing under every key. */
  predicate TextsCancel<K(==)>(doc: Document, field: string, key: Origin -> K)
  {
    var lacking := Rekey(ArrayItems(doc, field, Lacking), key);
    forall k | k in Keys(lacking) :: Total(lacking, k) == 0
  }

  lemma UnseenOnOneIff<K(!new)>(doc: Document, field: string, key: Origin -> K)
    ensures Unseen([doc], field, key) <==> !LoneCost(doc, field) && TextsCancel(doc, field, key)
  {
    OneDocument(doc, field);
    UnwoundSplits(doc, field);
    ArrayAddsUp(doc, field);
    RekeyAddsUp(ArrayItems(doc, field, Number), DocumentItems(doc, field), ArrayItems(doc, field, Lacking), key);
    KeysAddUp(Rekey(ArrayItems(doc, field, Number), key), Rekey(DocumentItems(doc, field), key),
              Rekey(ArrayItems(doc, field, Lacking), key));
    if LoneCost(doc, field) {
      var more := Rekey(Difference([doc], field), key);
      assert more[|more| - 1].key in Keys(more);
    } else {
      assert Difference([doc], field) == ArrayItems(doc, field, Lacking);
    }
  }

  /** On one document the forms agree exactly when its costs are not one document that uses something and its texts cancel. */
  lemma FormsAgreeOnOneIff(doc: Document, properties: Properties)
    ensures PipelineSnapshot([doc], properties, true) == DirectSnapshot([doc], properties)
       <==> && !LoneCost(doc, "used") && !LoneCost(doc, "used_amount")
            && TextsCancel(doc, "used", ClusterResource(properties)) && TextsCancel(doc, "used", OwnerResource(properties))
            && TextsCancel(doc, "used_amount", ClusterAmount(properties))
            && TextsCancel(doc, "used_amount", OwnerAmount(properties))
  {
    FormsAgreeIff([doc], properties, true);
    UnseenOnOneIff(doc, "used", ClusterResource(properties));
    UnseenOnOneIff(doc, "used", OwnerResource(properties));
    UnseenOnOneIff(doc, "used_amount", ClusterAmount(properties));
    UnseenOnOneIff(doc, "used_amount", OwnerAmount(properties));
  }

  /** Any text that is a number other than zero is billed by the direct form and not by the pipelines. */
  lemma TextDiffers(enum: string, text: string, properties: Properties)
    requires Int64Value(Str(text)) != 0
    ensures var doc := OnlyCosts(Arr([OnlyUsed(map[enum := Str(text)])]));
            && GoodDocument(doc, "used") && GoodDocument(doc, "used_amount")
            && PipelineSnapshot([doc], properties, true) != DirectSnapshot([doc], properties)
  {
    var used := map[enum := Str(text)];
    var doc := OnlyCosts(Arr([OnlyUsed(used)]));
    OnlyCostsAreGood(used, "used");
    OnlyCostsAreGood(used, "used_amount");
    OneEntry(enum, text);
    var key := ClusterResource(properties);
    var lacking := Rekey(ArrayItems(doc, "used", Lacking), key);
    assert lacking == [] + [Item(key(Origin("", "", enum)), -Int64Value(Str(text)))];
    assert lacking[0].key in Keys(lacking) && Total(lacking, lacking[0].key) != 0;
    FormsAgreeOnOneIff(doc, properties);
  }

  lemma OneEntry(enum: string, text: string)
    ensures ArrayItems(OnlyCosts(Arr([OnlyUsed(map[enum := Str(text)])])), "used", Lacking)
         == [Item(Origin("", "", enum), -Int64Value(Str(text)))]
  {
    var cost := OnlyUsed(map[enum := Str(text)]);
    var used := UsedMap(cost.fields, "used", Lacking);
    assert used.Keys == {enum} && used[enum] == -Int64Value(Str(text));
    OneSorted(enum);
    var items := CostItems("", "", cost, "used", Lacking);
    assert items == [Item(Origin("", "", enum), -Int64Value(Str(text)))];
    ConcatSnoc([], items);
    assert CostParts("", "", [cost], "used", Lacking) == [] + [items];
  }

  lemma OneSorted(k: string)
    ensures SortedKeys({k}) == [k]
  {
    assert SortedKeys({k})[0] in SortedKeys({k});
  }

  // ---------- Owners ----------

  function ClusterOf(k: ResourceKey): ResourceKey
  {
    k.(owner := "", namespace := "")
  }

  function ClusterAmountOf(k: AmountKey): AmountKey
  {
    k.(owner := "", namespace := "")
  }

  /** The owner totals of a snapshot add up to its cluster totals. */
  lemma OwnersAddUp(used: seq<Item<Origin>>, amounts: seq<Item<Origin>>, properties: Properties)
    ensures var s := SnapshotOf(used, amounts, properties, true);
            && (forall k | k in s.resources :: SumInto(s.ownerResources, ClusterOf, k) == s.resources[k])
            && (forall k | k in s.amounts :: SumInto(s.ownerAmounts, ClusterAmountOf, k) == s.amounts[k])
            && s.resources.Keys == (set k | k in s.ownerResources :: ClusterOf(k))
            && s.amounts.Keys == (set k | k in s.ownerAmounts :: ClusterAmountOf(k))
  {
    OwnersAddUpTo(used, OwnerResource(properties), ClusterOf, ClusterResource(properties));
    OwnersAddUpTo(amounts, OwnerAmount(properties), ClusterAmountOf, ClusterAmount(properties));
  }

  lemma OwnersAddUpTo<K>(items: seq<Item<Origin>>, ownerKey: Origin -> K, cluster: K -> K, key: Origin -> K)
    requires forall o :: key(o) == cluster(ownerKey(o))
    ensures var owners, totals := TotalsOf(Rekey(items, ownerKey)), TotalsOf(Rekey(items, key));
            && (forall k | k in totals :: SumInto(owners, cluster, k) == totals[k])
            && totals.Keys == set k | k in owners :: cluster(k)
  {
    var fine := Rekey(items, ownerKey);
    RekeyTwice(items, ownerKey, cluster, key);
    KeysRekey(fine, cluster);
    forall k | k in TotalsOf(Rekey(items, key))
      ensures SumInto(TotalsOf(fine), cluster, k) == Total(Rekey(items, key), k)
    {
      FineSumsToCoarse(fine, cluster, k);
    }
  }

  // ---------- Windows ----------

  const HOUR := 3_600_000

  /** The last full hour at a time. */
  function WindowEnd(now: int): int
  {
    now - now % HOUR
  }

  predicate InWindow(time: int, windowEnd: int)
  {
    windowEnd - HOUR < time <= windowEnd
  }

  /** The end of the only hourly window a record's time lies in. */
  function EndFor(time: int): int
  {
    time + (-time) % HOUR
  }

  lemma OneWindowEach(time: int, windowEnd: int)
    requires windowEnd % HOUR == 0
    ensures InWindow(time, windowEnd) <==> windowEnd == EndFor(time)
    ensures EndFor(time) % HOUR == 0
  {
    assert (time + (-time) % HOUR) % HOUR == 0;
  }

  /** A poll reports a record exactly during the hour that starts when the record's window ends. */
  lemma ReportedForAnHour(time: int, now: int)
    ensures InWindow(time, WindowEnd(now)) <==> EndFor(time) <= now < EndFor(time) + HOUR
  {
    OneWindowEach(time, WindowEnd(now));
  }

  /** A poll reports the last full hour: it ends at the last multiple of an hour, and is an hour of milliseconds long. */
  lemma LastFullHour(now: int, time: int)
    ensures WindowEnd(now) % (60 * 60 * 1000) == 0 && 0 <= now - WindowEnd(now) < 60 * 60 * 1000
    ensures InWindow(time, WindowEnd(now)) <==> WindowEnd(now) - 60 * 60 * 1000 < time <= WindowEnd(now)
  {
    assert (now - now % HOUR) % HOUR == 0;
  }

  /** A consumption record of a window: of type 0, and of a time after its start and up to its end. */
  predicate Recorded(doc: Document, after: int, upTo: int)
  {
    && "type" in doc && doc["type"] == Value.Int(0)
    && "time" in doc && doc["time"].Date? && after < doc["time"].ms <= upTo
  }

  /** What a window is computed from is its consumption records, each as often as it is there. */
  lemma {:induction false} MatchingAre(docs: seq<Document>, after: int, upTo: int, doc: Document)
    ensures multiset(Matching(docs, after, upTo))[doc] == if Recorded(doc, after, upTo) then multiset(docs)[doc] else 0
  {
    if docs != [] {
      MatchingAre(docs[1..], after, upTo, doc);
      assert docs == [docs[0]] + docs[1..];
    }
  }

  /** Sums of two sets of totals, with the keys of both. */
  function AddTotals<K>(a: map<K, int>, b: map<K, int>): map<K, int>
  {
    map k | k in a.Keys + b.Keys :: (if k in a then a[k] else 0) + (if k in b then b[k] else 0)
  }

  lemma TotalsConcat<K>(a: seq<Item<K>>, b: seq<Item<K>>)
    ensures TotalsOf(a + b) == AddTotals(TotalsOf(a), TotalsOf(b))
  {
    KeysConcat(a, b);
    forall k | k in Keys(a + b)
      ensures Total(a + b, k) == AddTotals(TotalsOf(a), TotalsOf(b))[k]
    {
      TotalConcat(a, b, k);
      if k !in Keys(a) {
        TotalOfAbsent(a, k);
      }
      if k !in Keys(b) {
        TotalOfAbsent(b, k);
      }
    }
  }

  function WindowItems(docs: seq<Document>, after: int, upTo: int, field: string): seq<Item<Origin>>
  {
    PipelineItems(Matching(docs, after, upTo), field)
  }

  lemma FirstDocument(docs: seq<Document>, field: string)
    requires docs != []
    ensures PipelineItems(docs, field) == UnwoundItems(docs[0], field) + PipelineItems(docs[1..], field)
  {
    var parts := seq(|docs|, i requires 0 <= i < |docs| => UnwoundItems(docs[i], field));
    assert parts[1..] == seq(|docs[1..]|, i requires 0 <= i < |docs[1..]| => UnwoundItems(docs[1..][i], field));
    ConcatHead(parts);
  }

  lemma {:induction false} ConcatHead<T>(parts: seq<seq<T>>)
    requires parts != []
    ensures Concat(parts) == parts[0] + Concat(parts[1..])
  {
    var n := |parts| - 1;
    if n > 0 {
      ConcatHead(parts[..n]);
      assert parts[..n][1..] == parts[1..][..n - 1];
      assert parts[1..][n - 1] == parts[n];
    }
  }

  /** What the first document adds to the items of a window. */
  lemma FirstMatching(docs: seq<Document>, after: int, upTo: int, field: string)
    requires docs != []
    ensures WindowItems(docs, after, upTo, field)
         == (if Matches(docs[0], CONSUMPTION, after, upTo) then UnwoundItems(docs[0], field) else [])
            + WindowItems(docs[1..], after, upTo, field)
  {
    var rest := Matching(docs[1..], after, upTo);
    if Matches(docs[0], CONSUMPTION, after, upTo) {
      FirstDocument([docs[0]] + rest, field);
      assert ([docs[0]] + rest)[1..] == rest;
    } else {
      assert [] + rest == rest;
    }
  }

  /** Two adjoining windows bill together what one window over both bills. */
  lemma {:induction false} WindowsJoin(docs: seq<Document>, after: int, middle: int, upTo: int, field: string)
    requires after <= middle <= upTo
    ensures multiset(WindowItems(docs, after, upTo, field))
         == multiset(WindowItems(docs, after, middle, field) + WindowItems(docs, middle, upTo, field))
  {
    if docs != [] {
      WindowsJoin(docs[1..], after, middle, upTo, field);
      FirstMatching(docs, after, middle, field);
      FirstMatching(docs, middle, upTo, field);
      FirstMatching(docs, after, upTo, field);
    }
  }

  /** The time i hours after `start`. */
  function Mark(start: int, i: int): int
  {
    start + i * HOUR
  }

  /** What each of n hourly windows bills, the first ending an hour after `start`. */
  function Hours(docs: seq<Document>, start: int, n: nat, field: string): seq<seq<Item<Origin>>>
  {
    seq(n, i requires 0 <= i < n => HourItems(docs, start, field, i))
  }

  function HourItems(docs: seq<Document>, start: int, field: string, i: int): seq<Item<Origin>>
  {
    WindowItems(docs, Mark(start, i), Mark(start, i + 1), field)
  }

  /** What the windows bill that begin at `start` and take in the first i of those hours. */
  function Spans(docs: seq<Document>, start: int, n: nat, field: string): seq<seq<Item<Origin>>>
  {
    seq(n + 1, i requires 0 <= i <= n => WindowItems(docs, start, Mark(start, i), field))
  }

  /** Spans that grow by one part at a time bill what their parts bill. */
  lemma {:induction false} SpansJoin<T>(spans: seq<seq<T>>, parts: seq<seq<T>>)
    requires |spans| == |parts| + 1 && spans[0] == []
    requires forall i | 0 <= i < |parts| :: multiset(spans[i + 1]) == multiset(spans[i] + parts[i])
    ensures multiset(spans[|parts|]) == multiset(Concat(parts))
  {
    if parts != [] {
      var n := |parts| - 1;
      SpansJoin(spans[..n + 1], parts[..n]);
      SameBagWith(spans[n], Concat(parts[..n]), parts[n]);
      assert multiset(spans[n + 1]) == multiset(spans[n] + parts[n]);
    }
  }

  lemma HourAdjoins(docs: seq<Document>, start: int, n: nat, field: string, i: nat)
    requires i < n
    ensures multiset(Spans(docs, start, n, field)[i + 1])
         == multiset(Spans(docs, start, n, field)[i] + Hours(docs, start, n, field)[i])
  {
    var middle, end := Mark(start, i), Mark(start, i + 1);
    assert start <= middle <= end;
    SpanAt(docs, start, n, field, i);
    SpanAt(docs, start, n, field, i + 1);
    HourAt(docs, start, n, field, i);
    WindowsJoin(docs, start, middle, end, field);
  }

  lemma SpanAt(docs: seq<Document>, start: int, n: nat, field: string, i: nat)
    requires i <= n
    ensures Spans(docs, start, n, field)[i] == WindowItems(docs, start, Mark(start, i), field)
  {
  }

  lemma HourAt(docs: seq<Document>, start: int, n: nat, field: string, i: nat)
    requires i < n
    ensures Hours(docs, start, n, field)[i] == HourItems(docs, start, field, i)
  {
  }

  lemma NoSpan(docs: seq<Document>, start: int, n: nat, field: string)
    ensures Spans(docs, start, n, field)[0] == []
  {
    NothingMatches(docs, start);
  }

  lemma SameBagWith<T>(a: seq<T>, b: seq<T>, more: seq<T>)
    requires multiset(a) == multiset(b)
    ensures multiset(a + more) == multiset(b + more)
  {
  }

  lemma {:induction false} NothingMatches(docs: seq<Document>, at: int)
    ensures Matching(docs, at, at) == []
  {
    if docs != [] {
      NothingMatches(docs[1..], at);
    }
  }

  /** The sum of the totals of each part. */
  function SumTotals<K>(parts: seq<seq<Item<Origin>>>, key: Origin -> K): map<K, int>
  {
    if parts == [] then map[]
    else
      var n := |parts| - 1;
      AddTotals(SumTotals(parts[..n], key), TotalsOf(Rekey(parts[n], key)))
  }

  lemma {:induction false} SumTotalsOfParts<K>(parts: seq<seq<Item<Origin>>>, key: Origin -> K)
    ensures SumTotals(parts, key) == TotalsOf(Rekey(Concat(parts), key))
  {
    if parts == [] {
      assert TotalsOf<K>([]) == map[];
    } else {
      var n := |parts| - 1;
      SumTotalsOfParts(parts[..n], key);
      RekeyTotalsConcat(Concat(parts[..n]), parts[n], key);
    }
  }

  lemma RekeyTotalsConcat<K>(a: seq<Item<Origin>>, b: seq<Item<Origin>>, key: Origin -> K)
    ensures TotalsOf(Rekey(a + b, key)) == AddTotals(TotalsOf(Rekey(a, key)), TotalsOf(Rekey(b, key)))
  {
    assert Rekey(a + b, key) == Rekey(a, key) + Rekey(b, key);
    TotalsConcat(Rekey(a, key), Rekey(b, key));
  }

  lemma PartsAddUp<K>(spans: seq<seq<Item<Origin>>>, parts: seq<seq<Item<Origin>>>, key: Origin -> K)
    requires |spans| == |parts| + 1 && spans[0] == []
    requires forall i | 0 <= i < |parts| :: multiset(spans[i + 1]) == multiset(spans[i] + parts[i])
    ensures SumTotals(parts, key) == TotalsOf(Rekey(spans[|parts|], key))
  {
    SumTotalsOfParts(parts, key);
    SpansJoin(spans, parts);
    SameTotalsRekeyed(spans[|parts|], Concat(parts), key);
  }

  /** The totals of consecutive hours add up to the totals of the whole span. */
  lemma HoursAddUp<K>(docs: seq<Document>, start: int, n: nat, field: string, key: Origin -> K)
    ensures SumTotals(Hours(docs, start, n, field), key) == TotalsOf(Rekey(Spans(docs, start, n, field)[n], key))
  {
    var spans, parts := Spans(docs, start, n, field), Hours(docs, start, n, field);
    NoSpan(docs, start, n, field);
    forall i | 0 <= i < n
      ensures multiset(spans[i + 1]) == multiset(spans[i] + parts[i])
    {
      HourAdjoins(docs, start, n, field, i);
    }
    PartsAddUp(spans, parts, key);
  }

  lemma SameTotalsRekeyed<K>(a: seq<Item<Origin>>, b: seq<Item<Origin>>, key: Origin -> K)
    requires multiset(a) == multiset(b)
    ensures TotalsOf(Rekey(a, key)) == TotalsOf(Rekey(b, key))
  {
    RekeyPermuted(a, b, key);
    TotalsPermuted(Rekey(a, key), Rekey(b, key));
  }

  // ---------- The collector ----------

  datatype Report = Report(windowStart: int, windowEnd: int, snapshot: Snapshot)

  class Collector {
    const owners: bool
    var report: Option<Report>

    constructor (owners: bool)
      ensures this.owners == owners && report == None
    {
      this.owners := owners;
      report := None;
    }

    /**
      One poll at time `now` on a collection of records. A query that fails, or whose rows do not
      decode, leaves the last report in place.
     */
    method Poll(now: int, properties: Option<Properties>, used: Option<seq<Document>>, amounts: Option<seq<Document>>,
                ghost docs: seq<Document>)
      returns (ok: bool)
      requires used.Some? ==>
                 Runs(AggregatePipeline(WindowEnd(now) - HOUR, WindowEnd(now), UsageStages(owners)), docs, used.value)
      requires amounts.Some? ==>
                 Runs(AggregatePipeline(WindowEnd(now) - HOUR, WindowEnd(now), AmountStages(owners)), docs,
                      amounts.value)
      modifies this`report
      ensures !ok ==> report == old(report)
      ensures ok ==> properties.Some? && used.Some? && amounts.Some?
      ensures GoodDocuments(Matching(docs, WindowEnd(now) - HOUR, WindowEnd(now))) ==>
                && (ok <==> properties.Some? && used.Some? && amounts.Some?)
                && (ok ==> report == Some(Report(WindowEnd(now) - HOUR, WindowEnd(now),
                             PipelineSnapshot(Matching(docs, WindowEnd(now) - HOUR, WindowEnd(now)),
                                              properties.value, owners))))
    {
      var windowEnd := WindowEnd(now);
      var windowStart := windowEnd - HOUR;
      if properties.None? || used.None? || amounts.None? {
        return false;
      }
      if GoodDocuments(Matching(docs, windowStart, windowEnd)) {
        RowsGiveSnapshot(docs, windowStart, windowEnd, properties.value, owners, used.value, amounts.value);
      }
      var rows, amountRows := DecodeRows(used.value, "used"), DecodeRows(amounts.value, "amount");
      if rows.None? || amountRows.None? {
        return false;
      }
      var snapshot := AggregateBillingRows(rows.value, amountRows.value, properties.value, owners);
      report := Some(Report(windowStart, windowEnd, snapshot));
      return true;
    }
  }
}
