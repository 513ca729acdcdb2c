/**
  The derived-metric store of one custom resource. It keeps no objects, only what each gave rise
  to, together with running counts that are adjusted at every change.
 */
module MetricStore {
  import opened Unstructured
  import opened CrdHelpers
  import opened CrdMetrics
  import opened Bags

  datatype ObjectMetrics = ObjectMetrics(series: seq<Sample>, counts: seq<Contribution>)

  // ---------- What a store stands for ----------

  /** For every stored key, what its object gave rise to. */
  type View = map<string, Derived>

  /** The places where a contribution is stored: which object, and where among its contributions. */
  function Sources(view: View, c: Contribution): set<(string, int)>
  {
    set k, i | k in view && 0 <= i < |view[k].counts| && view[k].counts[i] == c :: (k, i)
  }

  /** The contributions stored at least once. */
  function Contributed(view: View): set<Contribution>
  {
    set k, i | k in view && 0 <= i < |view[k].counts| :: view[k].counts[i]
  }

  ghost function SampleBags(view: View): map<string, multiset<Sample>>
  {
    map k | k in view :: view[k].samples
  }

  function CountSample(descs: map<string, Desc>, c: Contribution, count: nat): multiset<Sample>
  {
    if c.metricName in descs then multiset{Sample(descs[c.metricName], Whole(count), [c.value])} else multiset{}
  }

  ghost function CountBags(descs: map<string, Desc>, keys: set<Contribution>, view: View)
    : map<Contribution, multiset<Sample>>
  {
    map c | c in keys :: CountSample(descs, c, |Sources(view, c)|)
  }

  ghost function CountSamples(descs: map<string, Desc>, keys: set<Contribution>, view: View): multiset<Sample>
  {
    Union(CountBags(descs, keys, view))
  }

  /** What a scrape has to emit: every object's samples, and one sample for every counted value. */
  ghost function Emitted(schema: Schema, view: View): multiset<Sample>
  {
    Union(SampleBags(view)) + CountSamples(schema.Descs(), Contributed(view), view)
  }

  ghost function UpsertView(schema: Schema, view: View, obj: Fields): View
  {
    if schema.Allows(GetNamespace(obj)) then view[ResourceKey(obj) := schema.Derive(obj)]
    else view - {ResourceKey(obj)}
  }

  ghost function DeleteView(view: View, obj: Fields): View
  {
    view - {ResourceKey(obj)}
  }

  function Positions(items: seq<Contribution>, k: string, c: Contribution): set<(string, int)>
  {
    set i | 0 <= i < |items| && items[i] == c :: (k, i)
  }

  lemma {:induction false} PositionsCount(items: seq<Contribution>, k: string, c: Contribution)
    ensures |Positions(items, k, c)| == multiset(items)[c]
  {
    if items == [] {
      assert Positions(items, k, c) == {};
    } else {
      var n := |items| - 1;
      var init := items[..n];
      PositionsCount(init, k, c);
      assert items == init + [items[n]];
      if items[n] == c {
        assert Positions(items, k, c) == Positions(init, k, c) + {(k, n)};
        assert (k, n) !in Positions(init, k, c);
      } else {
        assert Positions(items, k, c) == Positions(init, k, c);
      }
    }
  }

  lemma SourcesPut(view: View, k: string, d: Derived, c: Contribution)
    requires k !in view
    ensures |Sources(view[k := d], c)| == |Sources(view, c)| + multiset(d.counts)[c]
  {
    PositionsCount(d.counts, k, c);
    assert Sources(view[k := d], c) == Sources(view, c) + Positions(d.counts, k, c);
    assert Sources(view, c) !! Positions(d.counts, k, c);
  }

  lemma SourcesContributed(view: View, c: Contribution)
    ensures c in Contributed(view) <==> |Sources(view, c)| > 0
  {
    if c in Contributed(view) {
      var k, i :| k in view && 0 <= i < |view[k].counts| && view[k].counts[i] == c;
      assert (k, i) in Sources(view, c);
    }
    if Sources(view, c) != {} {
      var s :| s in Sources(view, c);
    }
  }

  // ---------- Running counts ----------

  type Counts = map<string, map<string, int>>

  type CountMetrics = map<string, map<string, Sample>>

  /** The running counts, and the count samples kept ready beside them. */
  datatype Index = Index(values: Counts, metrics: CountMetrics)

  predicate HasCount(counts: Counts, c: Contribution)
  {
    c.metricName in counts && c.value in counts[c.metricName]
  }

  function CountAt(counts: Counts, c: Contribution): int
  {
    if HasCount(counts, c) then counts[c.metricName][c.value] else 0
  }

  function SetIn<V>(outer: map<string, map<string, V>>, c: Contribution, v: V): map<string, map<string, V>>
  {
    var inner := if c.metricName in outer then outer[c.metricName] else map[];
    outer[c.metricName := inner[c.value := v]]
  }

  function DropIn<V>(outer: map<string, map<string, V>>, c: Contribution): map<string, map<string, V>>
  {
    if c.metricName in outer then outer[c.metricName := outer[c.metricName] - {c.value}] else outer
  }

  function Ensured<V>(outer: map<string, map<string, V>>, name: string): map<string, map<string, V>>
  {
    if name in outer then outer else outer[name := map[]]
  }

  function Refresh(idx: Index, descs: map<string, Desc>, c: Contribution): Index
  {
    if c.metricName !in descs then idx
    else
      var sample := Sample(descs[c.metricName], Whole(CountAt(idx.values, c)), [c.value]);
      idx.(metrics := SetIn(idx.metrics, c, sample))
  }

  function AddCount(idx: Index, descs: map<string, Desc>, c: Contribution): Index
  {
    var values := SetIn(idx.values, c, CountAt(idx.values, c) + 1);
    Refresh(Index(values, Ensured(idx.metrics, c.metricName)), descs, c)
  }

  function RemoveCount(idx: Index, descs: map<string, Desc>, c: Contribution): Index
  {
    if c.metricName !in idx.values then idx
    else if CountAt(idx.values, c) - 1 <= 0 then Index(DropIn(idx.values, c), DropIn(idx.metrics, c))
    else Refresh(idx.(values := SetIn(idx.values, c, CountAt(idx.values, c) - 1)), descs, c)
  }

  function AddCounts(idx: Index, descs: map<string, Desc>, cs: seq<Contribution>): Index
  {
    if cs == [] then idx
    else AddCount(AddCounts(idx, descs, cs[..|cs| - 1]), descs, cs[|cs| - 1])
  }

  function RemoveCounts(idx: Index, descs: map<string, Desc>, cs: seq<Contribution>): Index
  {
    if cs == [] then idx
    else RemoveCount(RemoveCounts(idx, descs, cs[..|cs| - 1]), descs, cs[|cs| - 1])
  }

  /** No count is zero or negative; the samples have the same keys as the counts and carry their values. */
  ghost predicate Sound(idx: Index, descs: map<string, Desc>)
  {
    && idx.metrics.Keys == idx.values.Keys
    && (forall m :: m in idx.values ==> idx.metrics[m].Keys == idx.values[m].Keys)
    && (forall c :: HasCount(idx.values, c) ==>
          && CountAt(idx.values, c) > 0
          && c.metricName in descs
          && idx.metrics[c.metricName][c.value]
             == Sample(descs[c.metricName], Whole(CountAt(idx.values, c)), [c.value]))
  }

  lemma AddOne(idx: Index, descs: map<string, Desc>, c: Contribution)
    requires Sound(idx, descs)
    requires c.metricName in descs
    ensures Sound(AddCount(idx, descs, c), descs)
    ensures forall d :: CountAt(AddCount(idx, descs, c).values, d)
                     == CountAt(idx.values, d) + (if d == c then 1 else 0)
  {
    var after := AddCount(idx, descs, c);
    assert after.metrics[c.metricName].Keys == after.values[c.metricName].Keys;
    forall d | d != c
      ensures HasCount(after.values, d) <==> HasCount(idx.values, d)
      ensures CountAt(after.values, d) == CountAt(idx.values, d)
    {
    }
  }

  lemma RemoveOne(idx: Index, descs: map<string, Desc>, c: Contribution)
    requires Sound(idx, descs)
    requires CountAt(idx.values, c) > 0
    ensures Sound(RemoveCount(idx, descs, c), descs)
    ensures forall d :: CountAt(RemoveCount(idx, descs, c).values, d)
                     == CountAt(idx.values, d) - (if d == c then 1 else 0)
  {
    var after := RemoveCount(idx, descs, c);
    assert after.metrics[c.metricName].Keys == after.values[c.metricName].Keys;
    forall d | d != c
      ensures HasCount(after.values, d) <==> HasCount(idx.values, d)
      ensures CountAt(after.values, d) == CountAt(idx.values, d)
    {
    }
  }

  lemma {:induction false} AddMany(idx: Index, descs: map<string, Desc>, cs: seq<Contribution>)
    requires Sound(idx, descs)
    requires forall c :: c in cs ==> c.metricName in descs
    ensures Sound(AddCounts(idx, descs, cs), descs)
    ensures forall c :: CountAt(AddCounts(idx, descs, cs).values, c) == CountAt(idx.values, c) + multiset(cs)[c]
  {
    if cs != [] {
      var init, last := cs[..|cs| - 1], cs[|cs| - 1];
      assert cs == init + [last];
      AddMany(idx, descs, init);
      AddOne(AddCounts(idx, descs, init), descs, last);
    }
  }

  lemma {:induction false} RemoveMany(idx: Index, descs: map<string, Desc>, cs: seq<Contribution>)
    requires Sound(idx, descs)
    requires forall c :: CountAt(idx.values, c) >= multiset(cs)[c]
    ensures Sound(RemoveCounts(idx, descs, cs), descs)
    ensures forall c :: CountAt(RemoveCounts(idx, descs, cs).values, c) == CountAt(idx.values, c) - multiset(cs)[c]
  {
    if cs != [] {
      var init, last := cs[..|cs| - 1], cs[|cs| - 1];
      assert cs == init + [last];
      forall c
        ensures CountAt(idx.values, c) >= multiset(init)[c] + (if c == last then 1 else 0)
      {
        assert CountAt(idx.values, c) >= multiset(cs)[c];
      }
      RemoveMany(idx, descs, init);
      RemoveOne(RemoveCounts(idx, descs, init), descs, last);
    }
  }

  // ---------- The state of a store, and its changes as functions ----------

  datatype Stats = Stats(added: int, updated: int, deleted: int)

  datatype State = State(objects: map<string, ObjectMetrics>, idx: Index, stats: Stats)

  ghost function ViewOf(objects: map<string, ObjectMetrics>): View
  {
    map k | k in objects :: Derived(multiset(objects[k].series), objects[k].counts)
  }

  /**
    The running counts are exactly how often each contribution is stored, their samples agree with
    them, and objects added less objects deleted are the objects there are.
   */
  ghost predicate Good(s: State, descs: map<string, Desc>)
  {
    && Sound(s.idx, descs)
    && (forall c :: CountAt(s.idx.values, c) == |Sources(ViewOf(s.objects), c)|)
    && s.stats.added - s.stats.deleted == |s.objects|
  }

  function Dropped(s: State, descs: map<string, Desc>, key: string): State
    requires key in s.objects
  {
    s.(objects := s.objects - {key}, idx := RemoveCounts(s.idx, descs, s.objects[key].counts))
  }

  function Stored(s: State, descs: map<string, Desc>, key: string, om: ObjectMetrics): State
  {
    s.(objects := s.objects[key := om], idx := AddCounts(s.idx, descs, om.counts))
  }

  function Deleted(s: State, descs: map<string, Desc>, key: string): State
  {
    if key !in s.objects then s
    else Dropped(s, descs, key).(stats := s.stats.(deleted := s.stats.deleted + 1))
  }

  function Upserted(s: State, descs: map<string, Desc>, key: string, om: ObjectMetrics, ok: bool): State
  {
    if !ok then Deleted(s, descs, key)
    else if key in s.objects then
      Stored(Dropped(s, descs, key), descs, key, om).(stats := s.stats.(updated := s.stats.updated + 1))
    else Stored(s, descs, key, om).(stats := s.stats.(added := s.stats.added + 1))
  }

  lemma ViewWithout(objects: map<string, ObjectMetrics>, key: string)
    requires key in objects
    ensures ViewOf(objects - {key}) == ViewOf(objects) - {key}
    ensures ViewOf(objects) == ViewOf(objects - {key})[key := ViewOf(objects)[key]]
    ensures |objects - {key}| == |objects| - 1
  {
    assert (objects - {key}).Keys == objects.Keys - {key};
    assert |objects.Keys - {key}| == |objects.Keys| - 1;
  }

  lemma ViewWith(objects: map<string, ObjectMetrics>, key: string, om: ObjectMetrics)
    requires key !in objects
    ensures ViewOf(objects[key := om]) == ViewOf(objects)[key := Derived(multiset(om.series), om.counts)]
    ensures |objects[key := om]| == |objects| + 1
  {
    assert objects[key := om].Keys == objects.Keys + {key};
  }

  lemma DroppedKeeps(s: State, descs: map<string, Desc>, key: string)
    requires Good(s, descs)
    requires key in s.objects
    ensures var t := Dropped(s, descs, key);
            && Good(t.(stats := t.stats.(deleted := t.stats.deleted + 1)), descs)
            && ViewOf(t.objects) == ViewOf(s.objects) - {key}
  {
    var view, counts := ViewOf(s.objects), s.objects[key].counts;
    ViewWithout(s.objects, key);
    forall c
      ensures CountAt(s.idx.values, c) - multiset(counts)[c] == |Sources(view - {key}, c)|
    {
      SourcesPut(view - {key}, key, view[key], c);
      assert CountAt(s.idx.values, c) == |Sources(view, c)|;
    }
    RemoveMany(s.idx, descs, counts);
  }

  lemma StoredKeeps(s: State, descs: map<string, Desc>, key: string, om: ObjectMetrics)
    requires Good(s, descs)
    requires key !in s.objects
    requires forall c :: c in om.counts ==> c.metricName in descs
    ensures var t := Stored(s, descs, key, om);
            && Good(t.(stats := t.stats.(added := t.stats.added + 1)), descs)
            && ViewOf(t.objects) == ViewOf(s.objects)[key := Derived(multiset(om.series), om.counts)]
  {
    var derived := Derived(multiset(om.series), om.counts);
    ViewWith(s.objects, key, om);
    AddMany(s.idx, descs, om.counts);
    forall c
      ensures CountAt(s.idx.values, c) + multiset(om.counts)[c] == |Sources(ViewOf(s.objects)[key := derived], c)|
    {
      SourcesPut(ViewOf(s.objects), key, derived, c);
      assert CountAt(s.idx.values, c) == |Sources(ViewOf(s.objects), c)|;
    }
  }

  lemma DeletedKeeps(s: State, descs: map<string, Desc>, key: string)
    requires Good(s, descs)
    ensures Good(Deleted(s, descs, key), descs)
    ensures ViewOf(Deleted(s, descs, key).objects) == ViewOf(s.objects) - {key}
  {
    if key in s.objects {
      DroppedKeeps(s, descs, key);
    } else {
      assert ViewOf(s.objects) - {key} == ViewOf(s.objects);
    }
  }

  lemma UpsertedKeeps(s: State, descs: map<string, Desc>, key: string, om: ObjectMetrics, ok: bool)
    requires Good(s, descs)
    requires ok ==> forall c :: c in om.counts ==> c.metricName in descs
    ensures Good(Upserted(s, descs, key, om, ok), descs)
    ensures ViewOf(Upserted(s, descs, key, om, ok).objects)
         == if ok then ViewOf(s.objects)[key := Derived(multiset(om.series), om.counts)]
            else ViewOf(s.objects) - {key}
  {
    if !ok {
      DeletedKeeps(s, descs, key);
    } else if key in s.objects {
      var gone := Dropped(s, descs, key);
      DroppedKeeps(s, descs, key);
      var between := gone.(stats := gone.stats.(deleted := gone.stats.deleted + 1));
      StoredKeeps(between, descs, key, om);
      var derived := Derived(multiset(om.series), om.counts);
      assert (ViewOf(s.objects) - {key})[key := derived] == ViewOf(s.objects)[key := derived];
    } else {
      StoredKeeps(s, descs, key, om);
    }
  }

  /** Every change of an object is counted once: as added, updated or deleted by what was there and what is then. */
  lemma ChangesCounted(s: State, descs: map<string, Desc>, key: string, om: ObjectMetrics, ok: bool)
    ensures var before, t := key in s.objects, Upserted(s, descs, key, om, ok);
            && (key in t.objects <==> ok)
            && t.stats.added == s.stats.added + (if ok && !before then 1 else 0)
            && t.stats.updated == s.stats.updated + (if ok && before then 1 else 0)
            && t.stats.deleted == s.stats.deleted + (if !ok && before then 1 else 0)
    ensures Deleted(s, descs, key) == Upserted(s, descs, key, om, false)
  {
  }

  // ---------- The store ----------

  class Store {
    const schema: Schema
    const descriptors: map<string, Desc>

    var objects: map<string, ObjectMetrics>
    var countValues: Counts
    var countMetrics: CountMetrics

    var addCount: int
    var updateCount: int
    var deleteCount: int

    ghost function Now(): State
      reads this
    {
      State(objects, Index(countValues, countMetrics), Stats(addCount, updateCount, deleteCount))
    }

    ghost function View(): View
      reads this
    {
      ViewOf(objects)
    }

    /** Both sides are constants, so this holds for good once the constructor has set them. */
    ghost predicate Described()
    {
      descriptors == schema.Descs()
    }

    ghost predicate Valid()
      reads this
    {
      Good(Now(), descriptors)
    }

    constructor (cfg: CRDConfig, prefix: string)
      ensures Described() && Valid() && View() == map[]
      ensures schema == SchemaOf(cfg, prefix)
    {
      var s := SchemaOf(cfg, prefix);
      var descs := MakeDescriptors(s.metrics);
      schema := s;
      descriptors := descs;
      objects, countValues, countMetrics := map[], map[], map[];
      addCount, updateCount, deleteCount := 0, 0, 0;
      EmptyIsGood(descs);
    }

    static method MakeDescriptors(metrics: seq<CompiledMetric>) returns (descs: map<string, Desc>)
      ensures descs == Descriptors(metrics)
    {
      descs := map[];
      for i := 0 to |metrics|
        invariant descs == Descriptors(metrics[..i])
      {
        assert metrics[..i + 1][..i] == metrics[..i];
        descs := descs[metrics[i].config.name := metrics[i].desc];
      }
      assert metrics[..|metrics|] == metrics;
    }

    // ---------- Changes ----------

    method Add(obj: Fields)
      requires Described() && Valid()
      modifies this
      ensures Valid() && View() == UpsertView(schema, old(View()), obj)
    {
      Upsert(obj);
    }

    method Update(obj: Fields)
      requires Described() && Valid()
      modifies this
      ensures Valid() && View() == UpsertView(schema, old(View()), obj)
    {
      Upsert(obj);
    }

    method Delete(obj: Fields)
      requires Valid()
      modifies this
      ensures Valid() && View() == DeleteView(old(View()), obj)
      ensures Now() == Deleted(old(Now()), descriptors, ResourceKey(obj))
    {
      var key := ResourceKey(obj);
      DeletedKeeps(Now(), descriptors, key);
      DeleteLocked(key);
    }

    method DeleteLocked(key: string)
      modifies this
      ensures Now() == Deleted(old(Now()), descriptors, key)
    {
      if key !in objects {
        return;
      }
      RemoveLocked(key);
      deleteCount := deleteCount + 1;
    }

    method Upsert(obj: Fields)
      requires Described() && Valid()
      modifies this
      ensures Valid() && View() == UpsertView(schema, old(View()), obj)
    {
      var key := ResourceKey(obj);
      var newMetrics, ok := BuildObjectMetrics(obj);
      ContributionsDescribed(schema, obj);
      UpsertedKeeps(Now(), descriptors, key, newMetrics, ok);
      UpsertLocked(key, newMetrics, ok);
    }

    method UpsertLocked(key: string, newMetrics: ObjectMetrics, ok: bool)
      modifies this
      ensures Now() == Upserted(old(Now()), descriptors, key, newMetrics, ok)
    {
      var present := key in objects;
      if present {
        RemoveLocked(key);
      }
      if !ok {
        if present {
          deleteCount := deleteCount + 1;
        }
        return;
      }

      objects := objects[key := newMetrics];
      ghost var entries, stats := objects, Stats(addCount, updateCount, deleteCount);
      ghost var idx := Index(countValues, countMetrics);
      var counts := newMetrics.counts;
      for i := 0 to |counts|
        invariant objects == entries && Stats(addCount, updateCount, deleteCount) == stats
        invariant Index(countValues, countMetrics) == AddCounts(idx, descriptors, counts[..i])
      {
        assert counts[..i + 1][..i] == counts[..i];
        AddCountLocked(counts[i].metricName, counts[i].value);
      }
      assert counts[..|counts|] == counts;

      if present {
        updateCount := updateCount + 1;
      } else {
        addCount := addCount + 1;
      }
    }

    method RemoveLocked(key: string)
      requires key in objects
      modifies this`objects, this`countValues, this`countMetrics
      ensures Now() == Dropped(old(Now()), descriptors, key)
    {
      var counts := objects[key].counts;
      ghost var idx := Index(countValues, countMetrics);
      for i := 0 to |counts|
        invariant objects == old(objects)
        invariant Index(countValues, countMetrics) == RemoveCounts(idx, descriptors, counts[..i])
      {
        assert counts[..i + 1][..i] == counts[..i];
        RemoveCountLocked(counts[i].metricName, counts[i].value);
      }
      assert counts[..|counts|] == counts;
      objects := objects - {key};
    }

    method AddCountLocked(metricName: string, value: string)
      modifies this`countValues, this`countMetrics
      ensures Index(countValues, countMetrics)
           == AddCount(old(Index(countValues, countMetrics)), descriptors, Contribution(metricName, value))
    {
      if metricName !in countValues {
        countValues := countValues[metricName := map[]];
      }
      if metricName !in countMetrics {
        countMetrics := countMetrics[metricName := map[]];
      }
      var values := countValues[metricName];
      var count := if value in values then values[value] else 0;
      countValues := countValues[metricName := values[value := count + 1]];
      RefreshCountMetricLocked(metricName, value);
    }

    method RemoveCountLocked(metricName: string, value: string)
      modifies this`countValues, this`countMetrics
      ensures Index(countValues, countMetrics)
           == RemoveCount(old(Index(countValues, countMetrics)), descriptors, Contribution(metricName, value))
    {
      if metricName !in countValues {
        return;
      }
      var values := countValues[metricName];
      var count := (if value in values then values[value] else 0) - 1;
      if count <= 0 {
        countValues := countValues[metricName := values - {value}];
        if metricName in countMetrics {
          countMetrics := countMetrics[metricName := countMetrics[metricName] - {value}];
        }
        return;
      }
      countValues := countValues[metricName := values[value := count]];
      RefreshCountMetricLocked(metricName, value);
    }

    method RefreshCountMetricLocked(metricName: string, value: string)
      requires HasCount(countValues, Contribution(metricName, value))
      modifies this`countMetrics
      ensures Index(countValues, countMetrics)
           == Refresh(old(Index(countValues, countMetrics)), descriptors, Contribution(metricName, value))
    {
      if metricName !in descriptors {
        return;
      }
      var sample := Sample(descriptors[metricName], Whole(countValues[metricName][value]), [value]);
      var byValue := if metricName in countMetrics then countMetrics[metricName] else map[];
      countMetrics := countMetrics[metricName := byValue[value := sample]];
    }

    // ---------- Building one object's metrics ----------

    method BuildObjectMetrics(obj: Fields) returns (result: ObjectMetrics, ok: bool)
      ensures ok == schema.Allows(GetNamespace(obj))
      ensures ok ==> Derived(multiset(result.series), result.counts) == schema.Derive(obj)
    {
      result := ObjectMetrics([], []);
      ok := schema.Allows(GetNamespace(obj));
      if !ok {
        return;
      }
      var common := ExtractStrings(obj, [], schema.commonLabelPaths);
      assert common == Strings(obj, schema.commonLabelPaths);
      result := BuildFrom(schema.metrics, obj, common);
    }

    method BuildFrom(metrics: seq<CompiledMetric>, obj: Fields, common: seq<string>) returns (result: ObjectMetrics)
      ensures multiset(result.series) == AllSamples(metrics, obj, common)
      ensures result.counts == AllCounts(metrics, obj)
    {
      result := ObjectMetrics([], []);
      for i := 0 to |metrics|
        invariant multiset(result.series) == AllSamples(metrics[..i], obj, common)
        invariant result.counts == AllCounts(metrics[..i], obj)
      {
        assert metrics[..i + 1][..i] == metrics[..i];
        var series := BuildSeries(obj, metrics[i], common);
        var counts := CountOf(metrics[i], obj);
        result := ObjectMetrics(result.series + series, result.counts + counts);
      }
      assert metrics[..|metrics|] == metrics;
    }

    method BuildSeries(obj: Fields, metric: CompiledMetric, common: seq<string>) returns (series: seq<Sample>)
      ensures multiset(series) == SamplesOf(metric, obj, common)
    {
      var typ, path := metric.config.typ, metric.config.path;
      if typ == "info" {
        var labels := ExtractStrings(obj, common, metric.labelPaths);
        series := [Sample(metric.desc, Whole(1), labels)];
      } else if typ == "gauge" {
        series := [Sample(metric.desc, ExtractFieldFloat(obj, path), common)];
      } else if typ == "string_state" {
        series := [Sample(metric.desc, Whole(1), common + [ExtractFieldString(obj, path)])];
      } else if typ == "map_state" {
        series := BuildMapStateMetrics(ExtractFieldMap(obj, path), metric, common);
      } else if typ == "map_gauge" {
        series := BuildMapGaugeMetrics(ExtractFieldMap(obj, path), metric, common);
      } else if typ == "conditions" {
        series := BuildConditionMetrics(ExtractFieldSlice(obj, path), metric, common);
      } else {
        series := [];
      }
    }

    /** The label values read at `paths`, after those already there. */
    method ExtractStrings(obj: Fields, start: seq<string>, paths: seq<string>) returns (labels: seq<string>)
      ensures labels == start + Strings(obj, paths)
    {
      labels := start;
      for i := 0 to |paths|
        invariant labels == start + Strings(obj, paths)[..i]
      {
        labels := labels + [ExtractFieldString(obj, paths[i])];
        assert Strings(obj, paths)[..i + 1] == Strings(obj, paths)[..i] + [ExtractFieldString(obj, paths[i])];
      }
    }

    method BuildMapStateMetrics(entries: Fields, metric: CompiledMetric, common: seq<string>)
      returns (series: seq<Sample>)
      ensures multiset(series) ==
        multiset(set k | k in entries && HasState(metric, entries[k]) :: StateSample(metric, common, k, entries[k]))
    {
      series := [];
      var todo := entries.Keys;
      while todo != {}
        invariant todo <= entries.Keys
        invariant multiset(series) == multiset(set k | k in entries && k !in todo && HasState(metric, entries[k])
                                                  :: StateSample(metric, common, k, entries[k]))
        decreases |todo|
      {
        var key :| key in todo;
        ghost var done := set k | k in entries && k !in todo && HasState(metric, entries[k])
                            :: StateSample(metric, common, k, entries[k]);
        todo := todo - {key};
        ghost var next := set k | k in entries && k !in todo && HasState(metric, entries[k])
                            :: StateSample(metric, common, k, entries[k]);
        if HasState(metric, entries[key]) {
          var s := StateSample(metric, common, key, entries[key]);
          series := series + [s];
          assert s.labels[|common|] == key;
          assert s !in done;
          assert next == done + {s};
        } else {
          assert next == done;
        }
      }
    }

    method BuildMapGaugeMetrics(entries: Fields, metric: CompiledMetric, common: seq<string>)
      returns (series: seq<Sample>)
      ensures multiset(series) ==
        multiset(set k | k in entries && entries[k].Obj? :: GaugeSample(metric, common, k, entries[k]))
    {
      series := [];
      var todo := entries.Keys;
      while todo != {}
        invariant todo <= entries.Keys
        invariant multiset(series) == multiset(set k | k in entries && k !in todo && entries[k].Obj?
                                                  :: GaugeSample(metric, common, k, entries[k]))
        decreases |todo|
      {
        var key :| key in todo;
        ghost var done := set k | k in entries && k !in todo && entries[k].Obj?
                            :: GaugeSample(metric, common, k, entries[k]);
        todo := todo - {key};
        ghost var next := set k | k in entries && k !in todo && entries[k].Obj?
                            :: GaugeSample(metric, common, k, entries[k]);
        if entries[key].Obj? {
          var s := GaugeSample(metric, common, key, entries[key]);
          series := series + [s];
          assert s.labels[|common|] == key;
          assert s !in done;
          assert next == done + {s};
        } else {
          assert next == done;
        }
      }
    }

    method BuildConditionMetrics(conds: seq<Json>, metric: CompiledMetric, common: seq<string>)
      returns (series: seq<Sample>)
      ensures series == ConditionSamples(metric, common, conds)
    {
      series := [];
      for i := 0 to |conds|
        invariant series == ConditionSamples(metric, common, conds[..i])
      {
        assert conds[..i + 1][..i] == conds[..i];
        if HasCondition(metric, conds[i]) {
          series := series + [ConditionSample(metric, common, conds[i])];
        }
      }
      assert conds[..|conds|] == conds;
    }

    // ---------- Reading ----------

    method Len() returns (n: nat)
      requires Valid()
      ensures n == |View()| == addCount - deleteCount
    {
      assert View().Keys == objects.Keys;
      assert |View().Keys| == |View()| && |objects.Keys| == |objects|;
      n := |objects|;
    }

    method RequiredPaths() returns (paths: seq<string>)
      ensures forall p :: p in paths <==> p != "" && schema.Reads(p)
      ensures forall i, j :: 0 <= i < j < |paths| ==> paths[i] != paths[j]
    {
      var common, metrics := schema.commonLabelPaths, schema.metrics;
      paths := AddPaths([], common);
      for i := 0 to |metrics|
        invariant forall p :: p in paths <==> p != "" && Schema(common, metrics[..i], {}).Reads(p)
        invariant forall a, b :: 0 <= a < b < |paths| ==> paths[a] != paths[b]
      {
        var own := [metrics[i].config.path] + metrics[i].labelPaths;
        ghost var before := paths;
        paths := AddPaths(paths, own);
        ReadsOneMore(common, metrics, i);
      }
      assert metrics[..|metrics|] == metrics;
    }

    /** Appends the paths that are new and not empty, keeping the list free of repeats. */
    method AddPaths(start: seq<string>, more: seq<string>) returns (paths: seq<string>)
      requires forall a, b :: 0 <= a < b < |start| ==> start[a] != start[b]
      ensures forall p :: p in paths <==> p in start || (p in more && p != "")
      ensures forall a, b :: 0 <= a < b < |paths| ==> paths[a] != paths[b]
    {
      paths := start;
      for i := 0 to |more|
        invariant forall p :: p in paths <==> p in start || (p in more[..i] && p != "")
        invariant forall a, b :: 0 <= a < b < |paths| ==> paths[a] != paths[b]
      {
        assert more[..i + 1] == more[..i] + [more[i]];
        if more[i] != "" && more[i] !in paths {
          paths := paths + [more[i]];
        }
      }
      assert more[..|more|] == more;
    }

    /** One scrape: the samples of all objects and all count samples, in no particular order. */
    method SnapshotMetrics() returns (out: seq<Sample>)
      requires Described() && Valid()
      ensures multiset(out) == Emitted(schema, View())
    {
      var series := SnapshotSeries();
      var counts := SnapshotCounts();
      out := series + counts;
    }

    method SnapshotSeries() returns (out: seq<Sample>)
      ensures multiset(out) == Union(SampleBags(View()))
    {
      out := [];
      var keys := objects.Keys;
      ghost var bags: map<string, multiset<Sample>> := map[];
      while keys != {}
        invariant keys <= objects.Keys
        invariant bags.Keys == objects.Keys - keys
        invariant forall k :: k in bags ==> bags[k] == multiset(objects[k].series)
        invariant multiset(out) == Union(bags)
        decreases |keys|
      {
        var key :| key in keys;
        keys := keys - {key};
        out := out + objects[key].series;
        UnionPut(bags, key, multiset(objects[key].series));
        bags := bags[key := multiset(objects[key].series)];
      }
      assert bags == SampleBags(View());
    }

    method SnapshotCounts() returns (out: seq<Sample>)
      requires Valid()
      ensures multiset(out) == CountSamples(descriptors, Contributed(View()), View())
    {
      out := [];
      ghost var done: set<Contribution> := {};
      var names := countMetrics.Keys;
      CountedKeys();
      while names != {}
        invariant names <= countMetrics.Keys
        invariant forall c :: c in done <==> c in Contributed(View()) && c.metricName !in names
        invariant multiset(out) == CountSamples(descriptors, done, View())
        decreases |names|
      {
        var name :| name in names;
        names := names - {name};
        out, done := AppendByValue(name, out, done);
      }
      assert done == Contributed(View());
    }

    /** Which values are counted, and how often, said of the count samples that are at hand. */
    lemma CountedKeys()
      requires Valid()
      ensures forall c :: c in Contributed(View()) <==>
                c.metricName in countMetrics && c.value in countMetrics[c.metricName]
      ensures forall c :: c in Contributed(View()) ==>
                multiset{countMetrics[c.metricName][c.value]} == CountSample(descriptors, c, |Sources(View(), c)|)
    {
      forall c
        ensures c in Contributed(View()) <==> c.metricName in countMetrics && c.value in countMetrics[c.metricName]
        ensures c in Contributed(View()) ==>
                  multiset{countMetrics[c.metricName][c.value]} == CountSample(descriptors, c, |Sources(View(), c)|)
      {
        SourcesContributed(View(), c);
        assert CountAt(countValues, c) == |Sources(View(), c)|;
      }
    }

    method AppendByValue(name: string, start: seq<Sample>, ghost before: set<Contribution>)
      returns (out: seq<Sample>, ghost done: set<Contribution>)
      requires Valid()
      requires name in countMetrics
      requires forall c :: c in before ==> c.metricName != name
      requires multiset(start) == CountSamples(descriptors, before, View())
      ensures forall c :: c in done <==> c in before || (c in Contributed(View()) && c.metricName == name)
      ensures multiset(out) == CountSamples(descriptors, done, View())
    {
      out, done := start, before;
      CountedKeys();
      var byValue := countMetrics[name];
      var values := byValue.Keys;
      while values != {}
        invariant values <= byValue.Keys
        invariant forall c :: c in done <==>
                    c in before || (c in Contributed(View()) && c.metricName == name && c.value !in values)
        invariant multiset(out) == CountSamples(descriptors, done, View())
        decreases |values|
      {
        var value :| value in values;
        values := values - {value};
        out := out + [byValue[value]];
        ghost var c := Contribution(name, value);
        CountBagsPut(descriptors, done, c, View());
        UnionPut(CountBags(descriptors, done, View()), c, multiset{byValue[value]});
        done := done + {c};
      }
    }
  }

  lemma EmptyIsGood(descs: map<string, Desc>)
    ensures Good(State(map[], Index(map[], map[]), Stats(0, 0, 0)), descs)
  {
    assert ViewOf(map[]) == map[];
    assert forall c :: Sources(map[], c) == {};
  }

  lemma ContributionsDescribed(schema: Schema, obj: Fields)
    ensures forall c :: c in schema.Derive(obj).counts ==> c.metricName in schema.Descs()
  {
    forall c | c in schema.Derive(obj).counts
      ensures c.metricName in schema.Descs()
    {
      CountsHaveDescriptors(schema.metrics, obj, c);
    }
  }

  lemma CountBagsPut(descs: map<string, Desc>, keys: set<Contribution>, c: Contribution, view: View)
    ensures CountBags(descs, keys + {c}, view)
         == CountBags(descs, keys, view)[c := CountSample(descs, c, |Sources(view, c)|)]
  {
  }

  lemma ReadsOneMore(common: seq<string>, metrics: seq<CompiledMetric>, i: nat)
    requires i < |metrics|
    ensures forall p :: Schema(common, metrics[..i + 1], {}).Reads(p) <==>
              Schema(common, metrics[..i], {}).Reads(p) || p == metrics[i].config.path || p in metrics[i].labelPaths
  {
    forall p
      ensures Schema(common, metrics[..i + 1], {}).Reads(p) <==>
              Schema(common, metrics[..i], {}).Reads(p) || p == metrics[i].config.path || p in metrics[i].labelPaths
    {
      var more, less := metrics[..i + 1], metrics[..i];
      assert more[i] == metrics[i];
      assert forall j :: 0 <= j < i ==> more[j] == less[j];
    }
  }
}
