/**
  The metrics configured for one custom resource: how a metric config is compiled, and which
  samples and count contributions one object gives rise to.
 */
module CrdMetrics {
  import opened Wrappers
  import opened Unstructured
  import opened Distinct
  import opened StringOrder
  import opened CrdHelpers

  // ---------- Configuration ----------

  datatype ConditionConfig = ConditionConfig(typeField: string, statusField: string, reasonField: string)

  datatype MetricConfig = MetricConfig(
    typ: string,
    name: string,
    help: string,
    path: string,
    labels: map<string, string>,
    valueLabel: string,
    valuePath: string,
    keyLabel: string,
    condition: Option<ConditionConfig>)

  datatype CRDConfig = CRDConfig(
    namespaces: seq<string>,
    commonLabels: map<string, string>,
    metrics: seq<MetricConfig>)

  datatype Desc = Desc(fqName: string, help: string, labelNames: seq<string>)

  datatype CompiledMetric = CompiledMetric(
    config: MetricConfig,
    desc: Desc,
    labelPaths: seq<string>,
    typeField: string,
    statusField: string,
    reasonField: string)

  function LabelOrDefault(name: string, fallback: string): string
  {
    if name == "" then fallback else name
  }

  function FQName(prefix: string, name: string): string
  {
    if name == "" then "" else if prefix == "" then name else prefix + "_" + name
  }

  function Compiled(prefix: string, cfg: MetricConfig, names: seq<string>): CompiledMetric
  {
    CompiledMetric(cfg, Desc(FQName(prefix, cfg.name), cfg.help, names), [], "", "", "")
  }

  function CompileMetric(prefix: string, commonLabelNames: seq<string>, cfg: MetricConfig): Option<CompiledMetric>
  {
    var key := LabelOrDefault(cfg.keyLabel, "key");
    var state := LabelOrDefault(cfg.valueLabel, "state");
    if cfg.typ == "info" then
      Some(Compiled(prefix, cfg, commonLabelNames + SortedKeys(cfg.labels.Keys)).(
           labelPaths := SortedValues(cfg.labels)))
    else if cfg.typ == "gauge" then Some(Compiled(prefix, cfg, commonLabelNames))
    else if cfg.typ == "count" then Some(Compiled(prefix, cfg, [LabelOrDefault(cfg.valueLabel, "value")]))
    else if cfg.typ == "string_state" then Some(Compiled(prefix, cfg, commonLabelNames + [state]))
    else if cfg.typ == "map_state" then Some(Compiled(prefix, cfg, commonLabelNames + [key, state]))
    else if cfg.typ == "map_gauge" then Some(Compiled(prefix, cfg, commonLabelNames + [key]))
    else if cfg.typ == "conditions" then
      var c := if cfg.condition.Some? then cfg.condition.value else ConditionConfig("", "", "");
      Some(Compiled(prefix, cfg, commonLabelNames + ["type", "status", "reason"]).(
           typeField := LabelOrDefault(c.typeField, "type"),
           statusField := LabelOrDefault(c.statusField, "status"),
           reasonField := LabelOrDefault(c.reasonField, "reason")))
    else None
  }

  function CompileMetrics(prefix: string, commonLabelNames: seq<string>, cfgs: seq<MetricConfig>): seq<CompiledMetric>
  {
    if cfgs == [] then []
    else
      var rest := CompileMetrics(prefix, commonLabelNames, cfgs[1..]);
      match CompileMetric(prefix, commonLabelNames, cfgs[0])
      case Some(m) => [m] + rest
      case None => rest
  }

  // ---------- What one object contributes ----------

  datatype Sample = Sample(desc: Desc, value: Num, labels: seq<string>)

  datatype Contribution = Contribution(metricName: string, value: string)

  function Strings(obj: Fields, paths: seq<string>): seq<string>
  {
    seq(|paths|, i requires 0 <= i < |paths| => ExtractFieldString(obj, paths[i]))
  }

  function StringEntry(m: Fields, key: string): string
  {
    if key in m && m[key].Str? then m[key].s else ""
  }

  function FoldedCase(c: char): char
  {
    if 'A' <= c <= 'Z' then (c as int + 32) as char else c
  }

  /** Equality up to ASCII letter case. */
  predicate EqualFold(a: string, b: string)
  {
    |a| == |b| && forall i :: 0 <= i < |a| ==> FoldedCase(a[i]) == FoldedCase(b[i])
  }

  predicate HasState(metric: CompiledMetric, entry: Json)
  {
    entry.Obj? && StringEntry(entry.fields, metric.config.valuePath) != ""
  }

  function StateSample(metric: CompiledMetric, common: seq<string>, key: string, entry: Json): Sample
    requires entry.Obj?
  {
    Sample(metric.desc, Whole(1), common + [key, StringEntry(entry.fields, metric.config.valuePath)])
  }

  function GaugeSample(metric: CompiledMetric, common: seq<string>, key: string, entry: Json): Sample
    requires entry.Obj?
  {
    var value := if metric.config.valuePath in entry.fields then ToFloat64(entry.fields[metric.config.valuePath])
                 else Whole(0);
    Sample(metric.desc, value, common + [key])
  }

  predicate HasCondition(metric: CompiledMetric, cond: Json)
  {
    cond.Obj? && StringEntry(cond.fields, metric.typeField) != ""
  }

  function ConditionSample(metric: CompiledMetric, common: seq<string>, cond: Json): Sample
    requires cond.Obj?
  {
    var status := StringEntry(cond.fields, metric.statusField);
    Sample(metric.desc, Whole(if EqualFold(status, "true") then 1 else 0),
           common + [StringEntry(cond.fields, metric.typeField), status, StringEntry(cond.fields, metric.reasonField)])
  }

  function ConditionSamples(metric: CompiledMetric, common: seq<string>, conds: seq<Json>): seq<Sample>
  {
    if conds == [] then []
    else
      var init := ConditionSamples(metric, common, conds[..|conds| - 1]);
      var last := conds[|conds| - 1];
      if HasCondition(metric, last) then init + [ConditionSample(metric, common, last)] else init
  }

  /** The samples of one metric. The order of map entries is unspecified, so they form a multiset. */
  ghost function SamplesOf(metric: CompiledMetric, obj: Fields, common: seq<string>): multiset<Sample>
  {
    var typ, path := metric.config.typ, metric.config.path;
    if typ == "info" then
      multiset{Sample(metric.desc, Whole(1), common + Strings(obj, metric.labelPaths))}
    else if typ == "gauge" then
      multiset{Sample(metric.desc, ExtractFieldFloat(obj, path), common)}
    else if typ == "string_state" then
      multiset{Sample(metric.desc, Whole(1), common + [ExtractFieldString(obj, path)])}
    else if typ == "map_state" then
      var entries := ExtractFieldMap(obj, path);
      multiset(set k | k in entries && HasState(metric, entries[k]) :: StateSample(metric, common, k, entries[k]))
    else if typ == "map_gauge" then
      var entries := ExtractFieldMap(obj, path);
      multiset(set k | k in entries && entries[k].Obj? :: GaugeSample(metric, common, k, entries[k]))
    else if typ == "conditions" then
      multiset(ConditionSamples(metric, common, ExtractFieldSlice(obj, path)))
    else multiset{}
  }

  function CountOf(metric: CompiledMetric, obj: Fields): seq<Contribution>
  {
    var value := ExtractFieldString(obj, metric.config.path);
    if metric.config.typ == "count" && value != "" then [Contribution(metric.config.name, value)] else []
  }

  ghost function AllSamples(metrics: seq<CompiledMetric>, obj: Fields, common: seq<string>): multiset<Sample>
  {
    if metrics == [] then multiset{}
    else
      var n := |metrics| - 1;
      AllSamples(metrics[..n], obj, common) + SamplesOf(metrics[n], obj, common)
  }

  ghost function AllCounts(metrics: seq<CompiledMetric>, obj: Fields): seq<Contribution>
  {
    if metrics == [] then []
    else
      var n := |metrics| - 1;
      AllCounts(metrics[..n], obj) + CountOf(metrics[n], obj)
  }

  /** The part of a store's configuration that decides what an object gives rise to. */
  datatype Schema = Schema(commonLabelPaths: seq<string>, metrics: seq<CompiledMetric>, namespaces: set<string>)
  {
    function Descs(): map<string, Desc>
    {
      Descriptors(metrics)
    }

    /** Whether `path` is one the configured metrics read. */
    predicate Reads(path: string)
    {
      || path in commonLabelPaths
      || exists i | 0 <= i < |metrics| :: path == metrics[i].config.path || path in metrics[i].labelPaths
    }

    predicate Allows(namespace: string)
    {
      namespaces == {} || namespace in namespaces
    }

    ghost function Derive(obj: Fields): Derived
    {
      Derived(AllSamples(metrics, obj, Strings(obj, commonLabelPaths)), AllCounts(metrics, obj))
    }
  }

  /** The descriptors by metric name; of metrics with the same name the last one counts. */
  function Descriptors(metrics: seq<CompiledMetric>): map<string, Desc>
  {
    if metrics == [] then map[]
    else
      var n := |metrics| - 1;
      Descriptors(metrics[..n])[metrics[n].config.name := metrics[n].desc]
  }

  /** What the store keeps of one object: its own samples, and its contributions to counts. */
  datatype Derived = Derived(samples: multiset<Sample>, counts: seq<Contribution>)

  function MakeNamespaceSet(namespaces: seq<string>): set<string>
  {
    set ns | ns in namespaces && ns != ""
  }

  function PrefixOrDefault(prefix: string): string
  {
    if prefix == "" then "sealos" else prefix
  }

  function SchemaOf(cfg: CRDConfig, prefix: string): Schema
  {
    Schema(SortedValues(cfg.commonLabels), CompileMetrics(PrefixOrDefault(prefix), SortedKeys(cfg.commonLabels.Keys), cfg.metrics),
           MakeNamespaceSet(cfg.namespaces))
  }

  function ResourceKey(obj: Fields): string
  {
    if GetNamespace(obj) == "" then GetName(obj) else GetNamespace(obj) + "/" + GetName(obj)
  }

  // ---------- Properties ----------

  /** Two objects that read the same at every configured path give rise to the same metrics. */
  lemma {:induction false} SameReadsSameDerived(schema: Schema, a: Fields, b: Fields)
    requires forall p :: schema.Reads(p) && p != "" ==> SameAt(a, b, Split(p))
    ensures schema.Derive(a) == schema.Derive(b)
  {
    var paths := schema.commonLabelPaths;
    forall i | 0 <= i < |paths|
      ensures ExtractFieldString(a, paths[i]) == ExtractFieldString(b, paths[i])
    {
      assert schema.Reads(paths[i]);
      SameAtSameExtracts(a, b, paths[i]);
    }
    assert Strings(a, paths) == Strings(b, paths);
    SameReadsFrom(schema, a, b, Strings(a, paths), |schema.metrics|);
    assert schema.metrics[..|schema.metrics|] == schema.metrics;
  }

  lemma {:induction false} SameReadsFrom(schema: Schema, a: Fields, b: Fields, common: seq<string>, n: nat)
    requires n <= |schema.metrics|
    requires forall p :: schema.Reads(p) && p != "" ==> SameAt(a, b, Split(p))
    ensures AllSamples(schema.metrics[..n], a, common) == AllSamples(schema.metrics[..n], b, common)
    ensures AllCounts(schema.metrics[..n], a) == AllCounts(schema.metrics[..n], b)
  {
    if n > 0 {
      SameReadsFrom(schema, a, b, common, n - 1);
      assert schema.metrics[..n][..n - 1] == schema.metrics[..n - 1];
      var metric := schema.metrics[n - 1];
      assert schema.Reads(metric.config.path);
      forall p | p in metric.labelPaths && p != ""
        ensures SameAt(a, b, Split(p))
      {
        assert schema.Reads(p);
      }
      SameReadsSameSamples(metric, a, b, common);
    }
  }

  lemma SameReadsSameSamples(metric: CompiledMetric, a: Fields, b: Fields, common: seq<string>)
    requires metric.config.path != "" ==> SameAt(a, b, Split(metric.config.path))
    requires forall p :: p in metric.labelPaths && p != "" ==> SameAt(a, b, Split(p))
    ensures SamplesOf(metric, a, common) == SamplesOf(metric, b, common)
    ensures CountOf(metric, a) == CountOf(metric, b)
  {
    SameAtSameExtracts(a, b, metric.config.path);
    forall i | 0 <= i < |metric.labelPaths|
      ensures ExtractFieldString(a, metric.labelPaths[i]) == ExtractFieldString(b, metric.labelPaths[i])
    {
      SameAtSameExtracts(a, b, metric.labelPaths[i]);
    }
    assert Strings(a, metric.labelPaths) == Strings(b, metric.labelPaths);
  }

  /** No sample has more or fewer label values than its descriptor has label names. */
  lemma {:induction false} SamplesFitDescriptors(cfg: CRDConfig, prefix: string, obj: Fields, s: Sample)
    requires s in SchemaOf(cfg, prefix).Derive(obj).samples
    ensures |s.labels| == |s.desc.labelNames|
  {
    var schema := SchemaOf(cfg, prefix);
    var names := SortedKeys(cfg.commonLabels.Keys);
    CompiledAll(PrefixOrDefault(prefix), names, cfg.metrics);
    SampleOfSomeMetric(schema.metrics, obj, Strings(obj, schema.commonLabelPaths), names, s);
  }

  /** How many labels the samples of a metric carry on top of the common ones. */
  function OwnLabels(m: CompiledMetric): nat
  {
    var typ := m.config.typ;
    if typ == "info" then |m.labelPaths|
    else if typ == "gauge" then 0
    else if typ == "string_state" || typ == "map_gauge" then 1
    else if typ == "map_state" then 2
    else 3
  }

  /** A metric has a label name for every label value of its samples; that of a count is the value counted. */
  predicate Labelled(m: CompiledMetric, common: nat)
  {
    |m.desc.labelNames| == if m.config.typ == "count" then 1 else common + OwnLabels(m)
  }

  lemma {:induction false} CompiledAll(prefix: string, names: seq<string>, cfgs: seq<MetricConfig>)
    ensures forall i :: 0 <= i < |CompileMetrics(prefix, names, cfgs)|
                ==> Labelled(CompileMetrics(prefix, names, cfgs)[i], |names|)
  {
    if cfgs != [] {
      CompiledAll(prefix, names, cfgs[1..]);
      var m := CompileMetric(prefix, names, cfgs[0]);
      assert m.Some? ==> Labelled(m.value, |names|);
    }
  }

  lemma {:induction false} SampleOfSomeMetric(
    metrics: seq<CompiledMetric>, obj: Fields, common: seq<string>, names: seq<string>, s: Sample)
    requires forall i :: 0 <= i < |metrics| ==> Labelled(metrics[i], |names|)
    requires |common| == |names|
    requires s in AllSamples(metrics, obj, common)
    ensures |s.labels| == |s.desc.labelNames|
  {
    var n := |metrics| - 1;
    if s in AllSamples(metrics[..n], obj, common) {
      SampleOfSomeMetric(metrics[..n], obj, common, names, s);
    } else {
      SampleFits(metrics[n], obj, common, s);
    }
  }

  lemma SampleFits(metric: CompiledMetric, obj: Fields, common: seq<string>, s: Sample)
    requires s in SamplesOf(metric, obj, common)
    ensures metric.config.typ != "count"
    ensures s.desc == metric.desc && |s.labels| == |common| + OwnLabels(metric)
  {
    ConditionLabels(metric, common, ExtractFieldSlice(obj, metric.config.path));
  }

  lemma {:induction false} ConditionLabels(metric: CompiledMetric, common: seq<string>, conds: seq<Json>)
    ensures forall s :: s in ConditionSamples(metric, common, conds)
                ==> s.desc == metric.desc && |s.labels| == |common| + 3
  {
    if conds != [] {
      ConditionLabels(metric, common, conds[..|conds| - 1]);
    }
  }

  /** Every contribution names a configured metric, so its count metric has a descriptor. */
  lemma {:induction false} CountsHaveDescriptors(metrics: seq<CompiledMetric>, obj: Fields, c: Contribution)
    requires c in AllCounts(metrics, obj)
    ensures c.metricName in Descriptors(metrics)
  {
    var n := |metrics| - 1;
    if metrics[n].config.name != c.metricName {
      CountsHaveDescriptors(metrics[..n], obj, c);
    }
  }

  // ---------- Which samples can be made ----------

  /** What the metrics library takes for the name of a metric and of a label. */
  datatype Library = Library(metricName: string -> bool, labelName: string -> bool)

  ghost predicate ValidDesc(lib: Library, d: Desc)
  {
    lib.metricName(d.fqName) && (forall n | n in d.labelNames :: lib.labelName(n)) && NoRepeats(d.labelNames)
  }

  /** A sample can be made of a valid descriptor and a value for each of its labels; making any other panics. */
  ghost predicate CanMake(lib: Library, s: Sample)
  {
    ValidDesc(lib, s.desc) && |s.labels| == |s.desc.labelNames|
  }

  /** The label names of a metric on top of the common ones. */
  function OwnNames(cfg: MetricConfig): seq<string>
  {
    if cfg.typ == "info" then SortedKeys(cfg.labels.Keys)
    else if cfg.typ == "string_state" then [LabelOrDefault(cfg.valueLabel, "state")]
    else if cfg.typ == "map_state" then [LabelOrDefault(cfg.keyLabel, "key"), LabelOrDefault(cfg.valueLabel, "state")]
    else if cfg.typ == "map_gauge" then [LabelOrDefault(cfg.keyLabel, "key")]
    else if cfg.typ == "conditions" then ["type", "status", "reason"]
    else []
  }

  /** The names of a metric are legal, and its own label names differ from each other and from the common ones. */
  ghost predicate ValidConfig(lib: Library, prefix: string, common: seq<string>, cfg: MetricConfig)
  {
    && lib.metricName(FQName(prefix, cfg.name))
    && (forall n | n in common + OwnNames(cfg) :: lib.labelName(n))
    && NoRepeats(OwnNames(cfg)) && forall n | n in OwnNames(cfg) :: n !in common
  }

  lemma SortedOnce(keys: set<string>)
    ensures NoRepeats(SortedKeys(keys))
  {
    forall i, j | 0 <= i < j < |SortedKeys(keys)|
      ensures SortedKeys(keys)[i] != SortedKeys(keys)[j]
    {
      SortedKeysAscend(keys, i, j);
    }
  }

  lemma NoRepeatsConcat<T>(a: seq<T>, b: seq<T>)
    requires NoRepeats(a)
    ensures NoRepeats(a + b) <==> NoRepeats(b) && forall x | x in b :: x !in a
  {
    var s := a + b;
    if NoRepeats(s) {
      assert forall i, j :: 0 <= i < j < |b| ==> b[i] == s[|a| + i] && b[j] == s[|a| + j];
      forall x, i | x in b && 0 <= i < |a|
        ensures a[i] != x
      {
        var j :| 0 <= j < |b| && b[j] == x;
        assert s[|a| + j] == x && s[i] == a[i];
      }
    }
    if NoRepeats(b) && forall x | x in b :: x !in a {
      forall i, j | 0 <= i < j < |s|
        ensures s[i] != s[j]
      {
        if i < |a| <= j {
          assert s[i] in a && s[j] in b;
        }
      }
    }
  }

  /** What a compiled metric but a count is called and labelled. */
  predicate NamedBy(m: CompiledMetric, prefix: string, common: seq<string>)
  {
    m.desc.fqName == FQName(prefix, m.config.name)
    && (m.config.typ != "count" ==> m.desc.labelNames == common + OwnNames(m.config))
  }

  lemma {:induction false} CompiledNamed(prefix: string, common: seq<string>, cfgs: seq<MetricConfig>)
    ensures forall m | m in CompileMetrics(prefix, common, cfgs) :: NamedBy(m, prefix, common)
  {
    if cfgs != [] {
      CompiledNamed(prefix, common, cfgs[1..]);
      var m := CompileMetric(prefix, common, cfgs[0]);
      assert m.Some? ==> NamedBy(m.value, prefix, common);
    }
  }

  /** The descriptor of any metric but a count is valid exactly when its configuration is. */
  lemma ValidDescIff(lib: Library, cfg: CRDConfig, prefix: string, m: CompiledMetric)
    requires m in SchemaOf(cfg, prefix).metrics && m.config.typ != "count"
    ensures ValidDesc(lib, m.desc)
       <==> ValidConfig(lib, PrefixOrDefault(prefix), SortedKeys(cfg.commonLabels.Keys), m.config)
  {
    var common := SortedKeys(cfg.commonLabels.Keys);
    CompiledNamed(PrefixOrDefault(prefix), common, cfg.metrics);
    SortedOnce(cfg.commonLabels.Keys);
    NoRepeatsConcat(common, OwnNames(m.config));
  }

  /** The samples that one metric gives of an object, under the configured common labels. */
  ghost function GivenBy(cfg: CRDConfig, prefix: string, obj: Fields, m: CompiledMetric): multiset<Sample>
  {
    SamplesOf(m, obj, Strings(obj, SchemaOf(cfg, prefix).commonLabelPaths))
  }

  lemma SampleMadeIff(lib: Library, cfg: CRDConfig, prefix: string, obj: Fields, m: CompiledMetric, s: Sample)
    requires m in SchemaOf(cfg, prefix).metrics && s in GivenBy(cfg, prefix, obj, m)
    ensures CanMake(lib, s) <==> ValidConfig(lib, PrefixOrDefault(prefix), SortedKeys(cfg.commonLabels.Keys), m.config)
    ensures s in SchemaOf(cfg, prefix).Derive(obj).samples
  {
    var schema := SchemaOf(cfg, prefix);
    var common := Strings(obj, schema.commonLabelPaths);
    SampleFits(m, obj, common, s);
    ValidDescIff(lib, cfg, prefix, m);
    SampleOfOne(schema.metrics, m, obj, common, s);
    SamplesFitDescriptors(cfg, prefix, obj, s);
  }

  /** A sample is among those of all metrics if it is among those of one. */
  lemma {:induction false} SampleOfOne(metrics: seq<CompiledMetric>, m: CompiledMetric, obj: Fields, common: seq<string>,
                                       s: Sample)
    requires m in metrics && s in SamplesOf(m, obj, common)
    ensures s in AllSamples(metrics, obj, common)
  {
    var n := |metrics| - 1;
    if metrics[n] != m {
      SampleOfOne(metrics[..n], m, obj, common, s);
    }
    InSum(AllSamples(metrics[..n], obj, common), SamplesOf(metrics[n], obj, common), s);
  }

  lemma InSum<T>(a: multiset<T>, b: multiset<T>, x: T)
    ensures x in a + b <==> x in a || x in b
  {
  }

  lemma {:induction false} SomeMetricGives(metrics: seq<CompiledMetric>, obj: Fields, common: seq<string>, s: Sample)
    requires s in AllSamples(metrics, obj, common)
    ensures exists m :: m in metrics && s in SamplesOf(m, obj, common)
  {
    var n := |metrics| - 1;
    if s in AllSamples(metrics[..n], obj, common) {
      SomeMetricGives(metrics[..n], obj, common, s);
      var m :| m in metrics[..n] && s in SamplesOf(m, obj, common);
      assert m in metrics;
    } else {
      assert metrics[n] in metrics;
    }
  }

  /** All samples of an object can be made exactly when each metric that gives any has a valid configuration. */
  lemma SamplesMadeIff(lib: Library, cfg: CRDConfig, prefix: string, obj: Fields)
    ensures (forall s | s in SchemaOf(cfg, prefix).Derive(obj).samples :: CanMake(lib, s))
       <==> forall m | m in SchemaOf(cfg, prefix).metrics && GivenBy(cfg, prefix, obj, m) != multiset{} ::
              ValidConfig(lib, PrefixOrDefault(prefix), SortedKeys(cfg.commonLabels.Keys), m.config)
  {
    var schema := SchemaOf(cfg, prefix);
    var common := Strings(obj, schema.commonLabelPaths);
    if forall s | s in schema.Derive(obj).samples :: CanMake(lib, s) {
      forall m | m in schema.metrics && GivenBy(cfg, prefix, obj, m) != multiset{}
        ensures ValidConfig(lib, PrefixOrDefault(prefix), SortedKeys(cfg.commonLabels.Keys), m.config)
      {
        var s :| s in GivenBy(cfg, prefix, obj, m);
        SampleMadeIff(lib, cfg, prefix, obj, m, s);
      }
    } else {
      var s :| s in schema.Derive(obj).samples && !CanMake(lib, s);
      SomeMetricGives(schema.metrics, obj, common, s);
      var m :| m in schema.metrics && s in SamplesOf(m, obj, common);
      SampleMadeIff(lib, cfg, prefix, obj, m, s);
      assert GivenBy(cfg, prefix, obj, m) != multiset{};
    }
  }

  lemma {:induction false} CompiledIn(prefix: string, common: seq<string>, cfgs: seq<MetricConfig>, c: MetricConfig)
    requires c in cfgs && CompileMetric(prefix, common, c).Some?
    ensures exists m :: m in CompileMetrics(prefix, common, cfgs) && m.config == c
  {
    if c == cfgs[0] {
      assert CompileMetric(prefix, common, c).value in CompileMetrics(prefix, common, cfgs);
    } else {
      CompiledIn(prefix, common, cfgs[1..], c);
      var m :| m in CompileMetrics(prefix, common, cfgs[1..]) && m.config == c;
      assert m in CompileMetrics(prefix, common, cfgs);
    }
  }

  lemma InfoSample(m: CompiledMetric, obj: Fields, common: seq<string>) returns (s: Sample)
    requires m.config.typ == "info"
    ensures s in SamplesOf(m, obj, common)
  {
    s := Sample(m.desc, Whole(1), common + Strings(obj, m.labelPaths));
  }

  /** An info metric with a label of the same name as a common one gives, of every object, a sample that cannot be made. */
  lemma SharedLabelNeverMade(lib: Library, cfg: CRDConfig, prefix: string, obj: Fields, c: MetricConfig, shared: string)
    requires c in cfg.metrics && c.typ == "info" && shared in c.labels && shared in cfg.commonLabels
    ensures exists s :: s in SchemaOf(cfg, prefix).Derive(obj).samples && !CanMake(lib, s)
  {
    var names := SortedKeys(cfg.commonLabels.Keys);
    CompiledIn(PrefixOrDefault(prefix), names, cfg.metrics, c);
    var m :| m in SchemaOf(cfg, prefix).metrics && m.config == c;
    var s := InfoSample(m, obj, Strings(obj, SchemaOf(cfg, prefix).commonLabelPaths));
    assert shared in OwnNames(c) && shared in names;
    SampleMadeIff(lib, cfg, prefix, obj, m, s);
  }

  /** With a common label called type, so does a conditions metric of every object that has a condition. */
  lemma TypeLabelNeverMade(lib: Library, cfg: CRDConfig, prefix: string, obj: Fields, m: CompiledMetric, s: Sample)
    requires m in SchemaOf(cfg, prefix).metrics && m.config.typ == "conditions" && "type" in cfg.commonLabels
    requires s in GivenBy(cfg, prefix, obj, m)
    ensures s in SchemaOf(cfg, prefix).Derive(obj).samples && !CanMake(lib, s)
  {
    var own, common := OwnNames(m.config), SortedKeys(cfg.commonLabels.Keys);
    assert own[0] == "type" && own[0] in own && own[0] in common;
    assert !ValidConfig(lib, PrefixOrDefault(prefix), common, m.config);
    SampleMadeIff(lib, cfg, prefix, obj, m, s);
  }

  // ---------- Counts ----------

  predicate LastNamed(metrics: seq<CompiledMetric>, name: string, j: nat)
  {
    j < |metrics| && metrics[j].config.name == name && forall i | j < i < |metrics| :: metrics[i].config.name != name
  }

  lemma {:induction false} DescriptorOfLast(metrics: seq<CompiledMetric>, name: string, j: nat)
    requires LastNamed(metrics, name, j)
    ensures name in Descriptors(metrics) && Descriptors(metrics)[name] == metrics[j].desc
  {
    var n := |metrics| - 1;
    if j < n {
      DescriptorOfLast(metrics[..n], name, j);
    }
  }

  lemma {:induction false} CountOfSomeMetric(metrics: seq<CompiledMetric>, obj: Fields, c: Contribution)
    requires c in AllCounts(metrics, obj)
    ensures exists i :: 0 <= i < |metrics| && metrics[i].config.typ == "count" && metrics[i].config.name == c.metricName
  {
    var n := |metrics| - 1;
    if c in CountOf(metrics[n], obj) {
      assert metrics[n].config.typ == "count" && metrics[n].config.name == c.metricName;
    } else {
      CountOfSomeMetric(metrics[..n], obj, c);
      var i :| 0 <= i < n && metrics[..n][i].config.typ == "count" && metrics[..n][i].config.name == c.metricName;
      assert metrics[i] == metrics[..n][i];
    }
  }

  /** The one label value of a count sample fits its descriptor iff the last metric of that name counts or has one label. */
  lemma CountsFitIff(cfg: CRDConfig, prefix: string, obj: Fields, c: Contribution, j: nat)
    requires c in SchemaOf(cfg, prefix).Derive(obj).counts
    requires LastNamed(SchemaOf(cfg, prefix).metrics, c.metricName, j)
    ensures var schema := SchemaOf(cfg, prefix);
            && c.metricName in schema.Descs()
            && (|schema.Descs()[c.metricName].labelNames| == 1 <==>
                  || schema.metrics[j].config.typ == "count"
                  || |SortedKeys(cfg.commonLabels.Keys)| + OwnLabels(schema.metrics[j]) == 1)
  {
    var schema := SchemaOf(cfg, prefix);
    DescriptorOfLast(schema.metrics, c.metricName, j);
    CompiledAll(PrefixOrDefault(prefix), SortedKeys(cfg.commonLabels.Keys), cfg.metrics);
  }

  lemma {:induction false} CompiledConfigs(prefix: string, names: seq<string>, cfgs: seq<MetricConfig>)
    ensures forall m | m in CompileMetrics(prefix, names, cfgs) :: m.config in cfgs
  {
    if cfgs != [] {
      CompiledConfigs(prefix, names, cfgs[1..]);
      assert forall c | c in cfgs[1..] :: c in cfgs;
      var m := CompileMetric(prefix, names, cfgs[0]);
      assert m.Some? ==> m.value.config == cfgs[0];
    }
  }

  predicate NamesDiffer(metrics: seq<CompiledMetric>)
  {
    forall i, j :: 0 <= i < j < |metrics| ==> metrics[i].config.name != metrics[j].config.name
  }

  /** Compiling keeps names apart. */
  lemma {:induction false} CompiledNames(prefix: string, names: seq<string>, cfgs: seq<MetricConfig>)
    requires forall i, j :: 0 <= i < j < |cfgs| ==> cfgs[i].name != cfgs[j].name
    ensures NamesDiffer(CompileMetrics(prefix, names, cfgs))
  {
    if cfgs != [] {
      CompiledNames(prefix, names, cfgs[1..]);
      CompiledConfigs(prefix, names, cfgs[1..]);
      var rest := CompileMetrics(prefix, names, cfgs[1..]);
      var m := CompileMetric(prefix, names, cfgs[0]);
      forall i | 0 <= i < |rest|
        ensures rest[i].config.name != cfgs[0].name
      {
        assert rest[i] in rest && rest[i].config in cfgs[1..];
      }
      assert m.Some? ==> m.value.config == cfgs[0];
    }
  }

  /** With metrics of different names every count sample fits its descriptor. */
  lemma CountsFitDescriptors(cfg: CRDConfig, prefix: string, obj: Fields, c: Contribution)
    requires forall i, j :: 0 <= i < j < |cfg.metrics| ==> cfg.metrics[i].name != cfg.metrics[j].name
    requires c in SchemaOf(cfg, prefix).Derive(obj).counts
    ensures c.metricName in SchemaOf(cfg, prefix).Descs()
    ensures |SchemaOf(cfg, prefix).Descs()[c.metricName].labelNames| == 1
  {
    var metrics := SchemaOf(cfg, prefix).metrics;
    CompiledNames(PrefixOrDefault(prefix), SortedKeys(cfg.commonLabels.Keys), cfg.metrics);
    CountOfSomeMetric(metrics, obj, c);
    var i: nat :| i < |metrics| && metrics[i].config.typ == "count" && metrics[i].config.name == c.metricName;
    assert forall j | i < j < |metrics| :: metrics[i].config.name != metrics[j].config.name;
    assert LastNamed(metrics, c.metricName, i);
    CountsFitIff(cfg, prefix, obj, c, i);
  }

  /** A count and a gauge of the same name, without common labels. */
  function CountThenGauge(path: string): CRDConfig
  {
    CRDConfig([], map[], [MetricConfig("count", "m", "", path, map[], "", "", "", None),
                          MetricConfig("gauge", "m", "", path, map[], "", "", "", None)])
  }

  /** There the gauge's descriptor has no label for the count's sample, whatever object has something at the path. */
  lemma CountMisfits(path: string, prefix: string, obj: Fields)
    requires ExtractFieldString(obj, path) != ""
    ensures var schema, c := SchemaOf(CountThenGauge(path), prefix), Contribution("m", ExtractFieldString(obj, path));
            && c in schema.Derive(obj).counts && c.metricName in schema.Descs()
            && |schema.Descs()[c.metricName].labelNames| != 1
  {
    var cfg := CountThenGauge(path);
    var schema, c := SchemaOf(cfg, prefix), Contribution("m", ExtractFieldString(obj, path));
    var p := PrefixOrDefault(prefix);
    var m, g := CompileMetric(p, [], cfg.metrics[0]).value, CompileMetric(p, [], cfg.metrics[1]).value;
    assert cfg.metrics[1..] == [cfg.metrics[1]] && cfg.metrics[1..][1..] == [];
    assert CompileMetrics(p, [], cfg.metrics[1..]) == [g];
    assert schema.metrics == [m, g] && schema.metrics[..1] == [m] && [m][..0] == [];
    assert AllCounts([m], obj) == [c];
    assert AllCounts(schema.metrics, obj) == [c];
    CountsFitIff(cfg, prefix, obj, c, 1);
  }

  /** Where the last slash of a key is, or -1. */
  function LastSlash(s: string): int
  {
    if s == "" then -1
    else if s[|s| - 1] == '/' then |s| - 1
    else LastSlash(s[..|s| - 1])
  }

  lemma {:induction false} LastSlashOf(namespace: string, name: string)
    requires '/' !in name
    ensures LastSlash(name) == -1
    ensures LastSlash(namespace + "/" + name) == |namespace|
  {
    var key := namespace + "/" + name;
    if name != "" {
      var shorter := name[..|name| - 1];
      LastSlashOf(namespace, shorter);
      assert key[..|key| - 1] == namespace + "/" + shorter;
      assert name[|name| - 1] in name && key[|key| - 1] == name[|name| - 1];
    }
  }

  /** Distinct objects have distinct keys as long as names hold no slash. */
  lemma ResourceKeyInjective(a: Fields, b: Fields)
    requires '/' !in GetName(a) && '/' !in GetName(b)
    requires ResourceKey(a) == ResourceKey(b)
    ensures GetNamespace(a) == GetNamespace(b) && GetName(a) == GetName(b)
  {
    LastSlashOf(GetNamespace(a), GetName(a));
    LastSlashOf(GetNamespace(b), GetName(b));
    var key := ResourceKey(a);
    if GetNamespace(a) != "" && |GetNamespace(a)| == |GetNamespace(b)| {
      assert key[..|GetNamespace(a)|] == GetNamespace(a) && key[..|GetNamespace(b)|] == GetNamespace(b);
      assert key[|GetNamespace(a)| + 1..] == GetName(a) && key[|GetNamespace(b)| + 1..] == GetName(b);
    }
  }
}
