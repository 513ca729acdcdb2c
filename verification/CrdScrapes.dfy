/** What a scrape says about the objects there are: each of their samples, and how many were counted. */
module CrdScrapes {
  import opened Unstructured
  import opened Bags
  import opened Distinct
  import opened CrdHelpers
  import opened CrdMetrics
  import opened CrdLabels
  import opened MetricStore
  import opened CrdWatch

  /** The objects that are looked at: those of the configured namespaces, or all when none is configured. */
  function LookedAt(cfg: CRDConfig, objects: map<string, Fields>): set<string>
  {
    set k | k in objects && (|| (GetNamespace(objects[k]) != "" && GetNamespace(objects[k]) in cfg.namespaces)
                             || forall n | n in cfg.namespaces :: n == "")
  }

  /** Which objects, which of their metrics and which parts of them call for a sample. */
  ghost function Callers(cfg: CRDConfig, prefix: string, objects: map<string, Fields>, s: Sample)
    : set<(string, (int, Source))>
  {
    KeyedPlaces(LookedAt(cfg, objects), k => if k in objects then Sayings(cfg, prefix, objects[k], s) else {})
  }

  /** Which objects have a value counted, and by which metrics. */
  ghost function Counters(cfg: CRDConfig, objects: map<string, Fields>, item: Contribution): set<(string, int)>
  {
    KeyedPlaces(LookedAt(cfg, objects), k => if k in objects then Counting(cfg.metrics, objects[k], item) else {})
  }

  /** The count of a value, under the descriptor of its metric. */
  ghost predicate SaysCount(cfg: CRDConfig, prefix: string, objects: map<string, Fields>, item: Contribution, s: Sample)
  {
    var descs, n := SchemaOf(cfg, prefix).Descs(), |Counters(cfg, objects, item)|;
    && n > 0 && item.metricName in descs
    && s.desc == descs[item.metricName] && s.labels == [item.value] && s.value == Num.Whole(n)
  }

  lemma LookedAtAllowed(cfg: CRDConfig, prefix: string, objects: map<string, Fields>)
    ensures Rebuild(SchemaOf(cfg, prefix), objects).Keys == LookedAt(cfg, objects)
  {
    forall k | k in objects
      ensures k in LookedAt(cfg, objects) <==> SchemaOf(cfg, prefix).Allows(GetNamespace(objects[k]))
    {
      AllowsIff(cfg, prefix, GetNamespace(objects[k]));
    }
  }

  lemma SeriesSay(cfg: CRDConfig, prefix: string, objects: map<string, Fields>, s: Sample)
    ensures Union(SampleBags(Rebuild(SchemaOf(cfg, prefix), objects)))[s] == |Callers(cfg, prefix, objects, s)|
  {
    var view := Rebuild(SchemaOf(cfg, prefix), objects);
    var says := k => if k in objects then Sayings(cfg, prefix, objects[k], s) else {};
    LookedAtAllowed(cfg, prefix, objects);
    forall k | k in view
      ensures SampleBags(view)[k][s] == |says(k)|
    {
      SamplesSay(cfg, prefix, objects[k], s);
    }
    UnionPlaces(SampleBags(view), s, says);
    assert SampleBags(view).Keys == LookedAt(cfg, objects);
  }

  function PlacesOf(items: seq<Contribution>, item: Contribution): set<int>
  {
    set i | 0 <= i < |items| && items[i] == item
  }

  lemma PlacesCount(items: seq<Contribution>, k: string, item: Contribution)
    ensures |PlacesOf(items, item)| == multiset(items)[item]
  {
    PositionsCount(items, k, item);
    PairedSize(k, PlacesOf(items, item));
    assert Positions(items, k, item) == Paired(k, PlacesOf(items, item));
  }

  ghost function StoredPlaces(view: View, item: Contribution): string -> set<int>
  {
    k => if k in view then PlacesOf(view[k].counts, item) else {}
  }

  lemma SourcesByKey(view: View, item: Contribution)
    ensures MetricStore.Sources(view, item) == KeyedPlaces(view.Keys, StoredPlaces(view, item))
  {
  }

  /** How often a contribution is stored is how often the objects have it counted. */
  lemma CountedBy(cfg: CRDConfig, prefix: string, objects: map<string, Fields>, item: Contribution)
    ensures |MetricStore.Sources(Rebuild(SchemaOf(cfg, prefix), objects), item)| == |Counters(cfg, objects, item)|
  {
    var view := Rebuild(SchemaOf(cfg, prefix), objects);
    LookedAtAllowed(cfg, prefix, objects);
    var counting := k => if k in objects then Counting(cfg.metrics, objects[k], item) else {};
    forall k | k in view
      ensures |StoredPlaces(view, item)(k)| == |counting(k)|
    {
      PlacesCount(view[k].counts, k, item);
      CountsSay(cfg, prefix, objects[k], item);
    }
    SourcesByKey(view, item);
    KeyedPlacesAsMany(view.Keys, StoredPlaces(view, item), counting);
  }

  /** The counted values whose count is said by a sample. */
  ghost function CountsSaid(cfg: CRDConfig, prefix: string, objects: map<string, Fields>, s: Sample): set<Contribution>
  {
    set k, j | k in objects && 0 <= j < |cfg.metrics|
               && SaysCount(cfg, prefix, objects, ValueOf(cfg.metrics[j], objects[k]), s) :: ValueOf(cfg.metrics[j], objects[k])
  }

  function ValueOf(c: MetricConfig, obj: Fields): Contribution
  {
    Contribution(c.name, ExtractFieldString(obj, c.path))
  }

  lemma SaidIff(cfg: CRDConfig, prefix: string, objects: map<string, Fields>, item: Contribution, s: Sample)
    ensures item in CountsSaid(cfg, prefix, objects, s) <==> SaysCount(cfg, prefix, objects, item, s)
  {
    if SaysCount(cfg, prefix, objects, item, s) {
      var p :| p in Counters(cfg, objects, item);
      assert p.1 in Counting(cfg.metrics, objects[p.0], item);
      assert ValueOf(cfg.metrics[p.1], objects[p.0]) == item;
    }
  }

  lemma CountsAreSaid(cfg: CRDConfig, prefix: string, objects: map<string, Fields>, s: Sample)
    ensures var schema := SchemaOf(cfg, prefix);
            var view := Rebuild(schema, objects);
            CountSamples(schema.Descs(), Contributed(view), view)[s] == |CountsSaid(cfg, prefix, objects, s)|
  {
    var schema := SchemaOf(cfg, prefix);
    var view := Rebuild(schema, objects);
    var bags := CountBags(schema.Descs(), Contributed(view), view);
    forall item
      ensures item in CountsSaid(cfg, prefix, objects, s)
         <==> item in Contributed(view) && bags[item] == multiset{s}
      ensures item in bags ==> bags[item][s] == if item in CountsSaid(cfg, prefix, objects, s) then 1 else 0
    {
      SaidIff(cfg, prefix, objects, item, s);
      CountedBy(cfg, prefix, objects, item);
      SourcesContributed(view, item);
    }
    UnionOnce(bags, s, CountsSaid(cfg, prefix, objects, s));
  }

  /**
    A scrape emits a sample once for every object, metric and part that call for it, and once for every
    counted value whose count it says: nothing else, and nothing less.
   */
  lemma ScrapeSays(cfg: CRDConfig, prefix: string, objects: map<string, Fields>, s: Sample)
    ensures Emitted(SchemaOf(cfg, prefix), Rebuild(SchemaOf(cfg, prefix), objects))[s]
         == |Callers(cfg, prefix, objects, s)| + |CountsSaid(cfg, prefix, objects, s)|
  {
    SeriesSay(cfg, prefix, objects, s);
    CountsAreSaid(cfg, prefix, objects, s);
  }

  /** So does a scrape of the store after any history that leaves nothing lingering, of the objects then live. */
  lemma HistorySays(cfg: CRDConfig, prefix: string, paths: seq<string>, h: seq<Event>, s: Sample)
    requires forall p :: SchemaOf(cfg, prefix).Reads(p) && p != "" ==> p in paths
    requires Legal(h) && Lingering(SchemaOf(cfg, prefix), h) == {}
    ensures Emitted(SchemaOf(cfg, prefix), Replay(SchemaOf(cfg, prefix), paths, h))[s]
         == |Callers(cfg, prefix, Live(h), s)| + |CountsSaid(cfg, prefix, Live(h), s)|
  {
    ScrapeShowsLiveObjects(SchemaOf(cfg, prefix), paths, h);
    ScrapeSays(cfg, prefix, Live(h), s);
  }
}
