/**
  What the samples of an object say: which value stands under which label name, and for which parts of
  the object there is a sample.
 */
module CrdLabels {
  import opened Wrappers
  import opened Unstructured
  import opened Distinct
  import opened StringOrder
  import opened CrdHelpers
  import opened CrdMetrics

  // ---------- What a sample has to say ----------

  /** What a sample is made of: the object itself, an entry of a map in it, or an element of a list in it. */
  datatype Source = Object | Entry(key: string) | Element(i: int)

  function SourcesIn(c: MetricConfig, obj: Fields): set<Source>
  {
    if c.typ in ["info", "gauge", "string_state"] then {Object}
    else if c.typ in ["map_state", "map_gauge"] then set k | k in ExtractFieldMap(obj, c.path) :: Entry(k)
    else if c.typ == "conditions" then set i | 0 <= i < |ExtractFieldSlice(obj, c.path)| :: Element(i)
    else {}
  }

  /** Under every name, in ascending order, stands the string at the path configured for it. */
  ghost predicate StringsAt(paths: map<string, string>, obj: Fields, names: seq<string>, values: seq<string>)
  {
    && names == SortedKeys(paths.Keys) && |values| == |names|
    && forall i | 0 <= i < |names| :: names[i] in paths && values[i] == ExtractFieldString(obj, paths[names[i]])
  }

  /** A string field of an object, and the empty string for any other. */
  predicate TextIs(fields: Fields, name: string, text: string)
  {
    if name in fields && fields[name].Str? then fields[name].s == text else text == ""
  }

  /** The same for a field whose name may be configured. */
  predicate ConfiguredTextIs(fields: Fields, configured: string, fallback: string, text: string)
  {
    TextIs(fields, if configured == "" then fallback else configured, text)
  }

  /** "true", each letter in either case. */
  predicate SaysTrue(s: string)
  {
    |s| == 4 && s[0] in "tT" && s[1] in "rR" && s[2] in "uU" && s[3] in "eE"
  }

  predicate StateSays(c: MetricConfig, key: string, entry: Json, value: Num, names: seq<string>, values: seq<string>)
  {
    && entry.Obj? && value == Whole(1)
    && names == [if c.keyLabel == "" then "key" else c.keyLabel, if c.valueLabel == "" then "state" else c.valueLabel]
    && |values| == 2 && values[0] == key && TextIs(entry.fields, c.valuePath, values[1]) && values[1] != ""
  }

  predicate GaugeSays(c: MetricConfig, key: string, entry: Json, value: Num, names: seq<string>, values: seq<string>)
  {
    && entry.Obj?
    && value == (if c.valuePath in entry.fields then ToFloat64(entry.fields[c.valuePath]) else Whole(0))
    && names == [if c.keyLabel == "" then "key" else c.keyLabel] && values == [key]
  }

  predicate ConditionSays(c: MetricConfig, cond: Json, value: Num, names: seq<string>, values: seq<string>)
  {
    var fields := if c.condition.Some? then c.condition.value else ConditionConfig("", "", "");
    && cond.Obj? && names == ["type", "status", "reason"] && |values| == 3 && values[0] != ""
    && ConfiguredTextIs(cond.fields, fields.typeField, "type", values[0])
    && ConfiguredTextIs(cond.fields, fields.statusField, "status", values[1])
    && ConfiguredTextIs(cond.fields, fields.reasonField, "reason", values[2])
    && value == Whole(if SaysTrue(values[1]) then 1 else 0)
  }

  /** The value of a sample, and its labels on top of the common ones, by the type of its metric. */
  ghost predicate SaysOwn(c: MetricConfig, obj: Fields, source: Source, value: Num, names: seq<string>, values: seq<string>)
    requires source in SourcesIn(c, obj)
  {
    match source
    case Entry(key) =>
      var entry := ExtractFieldMap(obj, c.path)[key];
      if c.typ == "map_state" then StateSays(c, key, entry, value, names, values)
      else GaugeSays(c, key, entry, value, names, values)
    case Element(i) => ConditionSays(c, ExtractFieldSlice(obj, c.path)[i], value, names, values)
    case Object =>
      if c.typ == "info" then value == Whole(1) && StringsAt(c.labels, obj, names, values)
      else if c.typ == "gauge" then value == ExtractFieldFloat(obj, c.path) && names == [] && values == []
      else && value == Whole(1) && names == [if c.valueLabel == "" then "state" else c.valueLabel]
           && values == [ExtractFieldString(obj, c.path)]
  }

  /** A sample names its metric, and the common labels come before its own. */
  ghost predicate Headed(cfg: CRDConfig, prefix: string, c: MetricConfig, obj: Fields, s: Sample)
  {
    var n, names := |cfg.commonLabels|, s.desc.labelNames;
    && s.desc.fqName == (if c.name == "" then "" else (if prefix == "" then "sealos" else prefix) + "_" + c.name)
    && s.desc.help == c.help
    && n <= |s.labels| && n <= |names| && StringsAt(cfg.commonLabels, obj, names[..n], s.labels[..n])
  }

  /** All that a sample says: its name and common labels, and then its value and own labels. */
  ghost predicate Says(cfg: CRDConfig, prefix: string, c: MetricConfig, obj: Fields, source: Source, s: Sample)
    requires source in SourcesIn(c, obj)
  {
    var n := |cfg.commonLabels|;
    Headed(cfg, prefix, c, obj, s) && SaysOwn(c, obj, source, s.value, s.desc.labelNames[n..], s.labels[n..])
  }

  ghost function SayingSources(cfg: CRDConfig, prefix: string, c: MetricConfig, obj: Fields, s: Sample): set<Source>
  {
    set source | source in SourcesIn(c, obj) && Says(cfg, prefix, c, obj, source, s)
  }

  /** Which metrics and which parts of an object call for a sample. */
  ghost function Sayings(cfg: CRDConfig, prefix: string, obj: Fields, s: Sample): set<(int, Source)>
  {
    SayingsOf(cfg, prefix, cfg.metrics, obj, s)
  }

  ghost function SayingsOf(cfg: CRDConfig, prefix: string, metrics: seq<MetricConfig>, obj: Fields, s: Sample)
    : set<(int, Source)>
  {
    Places(metrics, c => SayingSources(cfg, prefix, c, obj, s))
  }

  // ---------- What the samples say ----------

  /** The value of a sample, and its own label names and values. */
  datatype Own = Own(value: Num, names: seq<string>, values: seq<string>)

  function OwnAt(m: CompiledMetric, obj: Fields, source: Source): Option<Own>
    requires source in SourcesIn(m.config, obj)
  {
    var c := m.config;
    match source
    case Object =>
      if c.typ == "info" then Some(Own(Whole(1), OwnNames(c), Strings(obj, SortedValues(c.labels))))
      else if c.typ == "gauge" then Some(Own(ExtractFieldFloat(obj, c.path), [], []))
      else Some(Own(Whole(1), OwnNames(c), [ExtractFieldString(obj, c.path)]))
    case Entry(key) =>
      var entry := ExtractFieldMap(obj, c.path)[key];
      if c.typ == "map_state" then
        if HasState(m, entry) then
          var t := StateSample(m, [], key, entry);
          Some(Own(t.value, OwnNames(c), t.labels))
        else None
      else if entry.Obj? then
        var t := GaugeSample(m, [], key, entry);
        Some(Own(t.value, OwnNames(c), t.labels))
      else None
    case Element(i) =>
      var cond := ExtractFieldSlice(obj, c.path)[i];
      if HasCondition(m, cond) then
        var t := ConditionSample(m, [], cond);
        Some(Own(t.value, OwnNames(c), t.labels))
      else None
  }

  lemma EqualFoldTrue(s: string)
    ensures EqualFold(s, "true") <==> SaysTrue(s)
  {
    var t := "true";
    assert t[0] == 't' && t[1] == 'r' && t[2] == 'u' && t[3] == 'e';
    if |s| == 4 {
      assert forall i | 0 <= i < 4 :: FoldedCase(t[i]) == t[i];
      assert FoldedCase(s[0]) == 't' <==> s[0] in "tT";
      assert FoldedCase(s[1]) == 'r' <==> s[1] in "rR";
      assert FoldedCase(s[2]) == 'u' <==> s[2] in "uU";
      assert FoldedCase(s[3]) == 'e' <==> s[3] in "eE";
    }
  }

  lemma StringIs(paths: map<string, string>, obj: Fields, i: nat)
    requires i < |paths|
    ensures var name := SortedKeys(paths.Keys)[i];
            name in paths && Strings(obj, SortedValues(paths))[i] == ExtractFieldString(obj, paths[name])
  {
    assert SortedKeys(paths.Keys)[i] in paths.Keys;
  }

  lemma StringsAtAre(paths: map<string, string>, obj: Fields, names: seq<string>, values: seq<string>)
    ensures StringsAt(paths, obj, names, values)
       <==> names == SortedKeys(paths.Keys) && values == Strings(obj, SortedValues(paths))
  {
    if names == SortedKeys(paths.Keys) && |values| == |names| {
      forall i | 0 <= i < |names|
        ensures names[i] in paths && Strings(obj, SortedValues(paths))[i] == ExtractFieldString(obj, paths[names[i]])
      {
        StringIs(paths, obj, i);
      }
    }
  }

  /** A metric as it is compiled for a configuration. */
  predicate CompiledFor(cfg: CRDConfig, prefix: string, m: CompiledMetric)
  {
    CompileMetric(PrefixOrDefault(prefix), SortedKeys(cfg.commonLabels.Keys), m.config) == Some(m)
  }

  lemma ConditionIs(cfg: CRDConfig, prefix: string, m: CompiledMetric, cond: Json, o: Own)
    requires CompiledFor(cfg, prefix, m) && m.config.typ == "conditions"
    ensures ConditionSays(m.config, cond, o.value, o.names, o.values)
       <==> && HasCondition(m, cond) && o.names == OwnNames(m.config)
            && o.value == ConditionSample(m, [], cond).value && o.values == ConditionSample(m, [], cond).labels
  {
    if cond.Obj? {
      EqualFoldTrue(StringEntry(cond.fields, m.statusField));
    }
  }

  lemma StateIs(cfg: CRDConfig, prefix: string, m: CompiledMetric, key: string, entry: Json, o: Own)
    requires CompiledFor(cfg, prefix, m) && m.config.typ == "map_state"
    ensures StateSays(m.config, key, entry, o.value, o.names, o.values)
       <==> && HasState(m, entry) && o.names == OwnNames(m.config)
            && o.value == StateSample(m, [], key, entry).value && o.values == StateSample(m, [], key, entry).labels
  {
  }

  lemma GaugeIs(cfg: CRDConfig, prefix: string, m: CompiledMetric, key: string, entry: Json, o: Own)
    requires CompiledFor(cfg, prefix, m) && m.config.typ == "map_gauge"
    ensures GaugeSays(m.config, key, entry, o.value, o.names, o.values)
       <==> && entry.Obj? && o.names == OwnNames(m.config)
            && o.value == GaugeSample(m, [], key, entry).value && o.values == GaugeSample(m, [], key, entry).labels
  {
  }

  lemma InfoIs(m: CompiledMetric, obj: Fields, o: Own)
    requires m.config.typ == "info"
    ensures SaysOwn(m.config, obj, Object, o.value, o.names, o.values) <==> OwnAt(m, obj, Object) == Some(o)
  {
    StringsAtAre(m.config.labels, obj, o.names, o.values);
  }

  lemma ReadingIs(m: CompiledMetric, obj: Fields, o: Own)
    requires m.config.typ == "gauge" || m.config.typ == "string_state"
    ensures SaysOwn(m.config, obj, Object, o.value, o.names, o.values) <==> OwnAt(m, obj, Object) == Some(o)
  {
  }

  lemma OwnIs(cfg: CRDConfig, prefix: string, m: CompiledMetric, obj: Fields, source: Source, o: Own)
    requires CompiledFor(cfg, prefix, m) && source in SourcesIn(m.config, obj)
    ensures SaysOwn(m.config, obj, source, o.value, o.names, o.values) <==> OwnAt(m, obj, source) == Some(o)
  {
    match source
    case Object =>
      if m.config.typ == "info" {
        InfoIs(m, obj, o);
      } else {
        ReadingIs(m, obj, o);
      }
    case Element(i) => ConditionIs(cfg, prefix, m, ExtractFieldSlice(obj, m.config.path)[i], o);
    case Entry(key) =>
      if m.config.typ == "map_state" {
        StateIs(cfg, prefix, m, key, ExtractFieldMap(obj, m.config.path)[key], o);
      } else {
        GaugeIs(cfg, prefix, m, key, ExtractFieldMap(obj, m.config.path)[key], o);
      }
  }

  function CommonAt(cfg: CRDConfig, obj: Fields): seq<string>
  {
    Strings(obj, SortedValues(cfg.commonLabels))
  }

  function SampleOf(m: CompiledMetric, common: seq<string>, o: Own): Sample
  {
    Sample(m.desc, o.value, common + o.values)
  }

  lemma DescOf(cfg: CRDConfig, prefix: string, m: CompiledMetric)
    requires CompiledFor(cfg, prefix, m) && m.config.typ != "count"
    ensures m.desc.fqName == FQName(PrefixOrDefault(prefix), m.config.name) && m.desc.help == m.config.help
    ensures m.desc.labelNames == SortedKeys(cfg.commonLabels.Keys) + OwnNames(m.config)
  {
  }

  /** A sample begins with its metric's name and the common labels, and goes on with the rest. */
  lemma HeadIs(cfg: CRDConfig, prefix: string, m: CompiledMetric, obj: Fields, s: Sample, o: Own)
    requires CompiledFor(cfg, prefix, m) && m.config.typ != "count" && o.names == OwnNames(m.config)
    ensures && Headed(cfg, prefix, m.config, obj, s)
            && o == Own(s.value, s.desc.labelNames[|cfg.commonLabels|..], s.labels[|cfg.commonLabels|..])
       <==> s == SampleOf(m, CommonAt(cfg, obj), o)
  {
    DescOf(cfg, prefix, m);
    HeadMatches(cfg, prefix, m.config, obj, s, m.desc, o);
  }

  lemma HeadMatches(cfg: CRDConfig, prefix: string, c: MetricConfig, obj: Fields, s: Sample, desc: Desc, o: Own)
    requires desc == Desc(FQName(PrefixOrDefault(prefix), c.name), c.help, SortedKeys(cfg.commonLabels.Keys) + o.names)
    ensures && Headed(cfg, prefix, c, obj, s)
            && o == Own(s.value, s.desc.labelNames[|cfg.commonLabels|..], s.labels[|cfg.commonLabels|..])
       <==> s == Sample(desc, o.value, CommonAt(cfg, obj) + o.values)
  {
    var n := |cfg.commonLabels|;
    if n <= |s.labels| && n <= |s.desc.labelNames| {
      StringsAtAre(cfg.commonLabels, obj, s.desc.labelNames[..n], s.labels[..n]);
      Halves(s.labels, n, CommonAt(cfg, obj), o.values);
      Halves(s.desc.labelNames, n, SortedKeys(cfg.commonLabels.Keys), o.names);
    }
  }

  lemma SaysIs(cfg: CRDConfig, prefix: string, m: CompiledMetric, obj: Fields, source: Source, s: Sample)
    requires CompiledFor(cfg, prefix, m) && source in SourcesIn(m.config, obj)
    ensures Says(cfg, prefix, m.config, obj, source, s)
       <==> OwnAt(m, obj, source).Some? && s == SampleOf(m, CommonAt(cfg, obj), OwnAt(m, obj, source).value)
  {
    var n, own := |cfg.commonLabels|, OwnAt(m, obj, source);
    OwnNamed(m, obj, source);
    if own.Some? {
      HeadIs(cfg, prefix, m, obj, s, own.value);
    }
    if Headed(cfg, prefix, m.config, obj, s) {
      OwnIs(cfg, prefix, m, obj, source, Own(s.value, s.desc.labelNames[n..], s.labels[n..]));
    }
  }

  lemma OwnNamed(m: CompiledMetric, obj: Fields, source: Source)
    requires source in SourcesIn(m.config, obj)
    ensures OwnAt(m, obj, source).Some? ==> OwnAt(m, obj, source).value.names == OwnNames(m.config)
  {
  }

  lemma Halves<T>(s: seq<T>, n: nat, a: seq<T>, b: seq<T>)
    requires n <= |s| && n == |a|
    ensures s == a + b <==> s[..n] == a && s[n..] == b
  {
    assert s == s[..n] + s[n..];
    assert (a + b)[..n] == a && (a + b)[n..] == b;
  }

  // ---------- How often it is said ----------

  ghost function SourcesOf(m: CompiledMetric, obj: Fields, common: seq<string>, s: Sample): set<Source>
  {
    set source | source in SourcesIn(m.config, obj) && OwnAt(m, obj, source).Some?
                 && s == SampleOf(m, common, OwnAt(m, obj, source).value)
  }

  lemma ObjectGives(m: CompiledMetric, obj: Fields, common: seq<string>)
    requires m.config.typ in ["info", "gauge", "string_state"]
    requires m.config.typ == "info" ==> m.labelPaths == SortedValues(m.config.labels)
    ensures OwnAt(m, obj, Object).Some?
    ensures SamplesOf(m, obj, common) == multiset{SampleOf(m, common, OwnAt(m, obj, Object).value)}
  {
    assert common + [] == common;
  }

  lemma FromObject(cfg: CRDConfig, prefix: string, m: CompiledMetric, obj: Fields, common: seq<string>, s: Sample)
    requires CompiledFor(cfg, prefix, m)
    requires m.config.typ in ["info", "gauge", "string_state"]
    ensures SamplesOf(m, obj, common)[s] == |SourcesOf(m, obj, common, s)|
  {
    ObjectGives(m, obj, common);
    assert SourcesIn(m.config, obj) == {Object};
    assert SourcesOf(m, obj, common, s)
        == if s == SampleOf(m, common, OwnAt(m, obj, Object).value) then {Object} else {};
  }

  lemma Longer(m: CompiledMetric, common: seq<string>, key: string, entry: Json)
    requires entry.Obj?
    ensures StateSample(m, common, key, entry).labels == common + StateSample(m, [], key, entry).labels
    ensures GaugeSample(m, common, key, entry).labels == common + GaugeSample(m, [], key, entry).labels
    ensures ConditionSample(m, common, entry).labels == common + ConditionSample(m, [], entry).labels
  {
  }

  /** The sample of an entry tells its key. */
  lemma EntrySample(m: CompiledMetric, obj: Fields, common: seq<string>, key: string)
    requires m.config.typ in ["map_state", "map_gauge"] && Entry(key) in SourcesIn(m.config, obj)
    ensures var own, entry := OwnAt(m, obj, Entry(key)), ExtractFieldMap(obj, m.config.path)[key];
            && (own.Some? <==> if m.config.typ == "map_state" then HasState(m, entry) else entry.Obj?)
            && (own.Some? ==>
                  && SampleOf(m, common, own.value)
                     == (if m.config.typ == "map_state" then StateSample(m, common, key, entry)
                         else GaugeSample(m, common, key, entry))
                  && |common| < |SampleOf(m, common, own.value).labels|
                  && SampleOf(m, common, own.value).labels[|common|] == key)
  {
    var entry := ExtractFieldMap(obj, m.config.path)[key];
    if entry.Obj? {
      Longer(m, common, key, entry);
    }
  }

  predicate GivesEntry(m: CompiledMetric, entries: Fields, common: seq<string>, k: string, s: Sample)
  {
    k in entries
    && if m.config.typ == "map_state" then HasState(m, entries[k]) && s == StateSample(m, common, k, entries[k])
       else entries[k].Obj? && s == GaugeSample(m, common, k, entries[k])
  }

  lemma GivenEntry(m: CompiledMetric, obj: Fields, common: seq<string>, s: Sample)
    requires m.config.typ in ["map_state", "map_gauge"]
    ensures SamplesOf(m, obj, common)[s]
         == if exists k :: GivesEntry(m, ExtractFieldMap(obj, m.config.path), common, k, s) then 1 else 0
  {
    var entries := ExtractFieldMap(obj, m.config.path);
    if k :| GivesEntry(m, entries, common, k, s) {
      assert s in SamplesOf(m, obj, common);
    }
    if s in SamplesOf(m, obj, common) {
      if m.config.typ == "map_state" {
        var k :| k in entries && HasState(m, entries[k]) && s == StateSample(m, common, k, entries[k]);
        assert GivesEntry(m, entries, common, k, s);
      } else {
        var k :| k in entries && entries[k].Obj? && s == GaugeSample(m, common, k, entries[k]);
        assert GivesEntry(m, entries, common, k, s);
      }
    }
  }

  lemma SourceEntry(m: CompiledMetric, obj: Fields, common: seq<string>, key: string, s: Sample)
    requires m.config.typ in ["map_state", "map_gauge"]
    ensures Entry(key) in SourcesOf(m, obj, common, s)
       <==> GivesEntry(m, ExtractFieldMap(obj, m.config.path), common, key, s)
  {
    if key in ExtractFieldMap(obj, m.config.path) {
      EntrySample(m, obj, common, key);
    }
  }

  lemma OneKey(m: CompiledMetric, entries: Fields, common: seq<string>, j: string, k: string, s: Sample)
    requires GivesEntry(m, entries, common, j, s) && GivesEntry(m, entries, common, k, s)
    ensures j == k
  {
    assert s.labels[|common|] == j && s.labels[|common|] == k;
  }

  lemma FromEntries(m: CompiledMetric, obj: Fields, common: seq<string>, s: Sample)
    requires m.config.typ in ["map_state", "map_gauge"]
    ensures SamplesOf(m, obj, common)[s] == |SourcesOf(m, obj, common, s)|
  {
    var sources, entries := SourcesOf(m, obj, common, s), ExtractFieldMap(obj, m.config.path);
    GivenEntry(m, obj, common, s);
    forall source | source in sources
      ensures source.Entry? && GivesEntry(m, entries, common, source.key, s)
    {
      SourceEntry(m, obj, common, source.key, s);
    }
    if k :| GivesEntry(m, entries, common, k, s) {
      SourceEntry(m, obj, common, k, s);
      forall source | source in sources
        ensures source == Entry(k)
      {
        OneKey(m, entries, common, source.key, k, s);
      }
      assert sources == {Entry(k)};
    } else {
      assert sources == {};
    }
  }

  predicate GivesElement(m: CompiledMetric, cond: Json, common: seq<string>, s: Sample)
  {
    HasCondition(m, cond) && s == ConditionSample(m, common, cond)
  }

  function GivingElements(m: CompiledMetric, conds: seq<Json>, common: seq<string>, s: Sample): set<Source>
  {
    set i | 0 <= i < |conds| && GivesElement(m, conds[i], common, s) :: Element(i)
  }

  lemma MoreElements(m: CompiledMetric, conds: seq<Json>, common: seq<string>, s: Sample)
    requires conds != []
    ensures var n := |conds| - 1;
            |GivingElements(m, conds, common, s)|
            == |GivingElements(m, conds[..n], common, s)| + if GivesElement(m, conds[n], common, s) then 1 else 0
  {
    var n := |conds| - 1;
    var before := GivingElements(m, conds[..n], common, s);
    assert GivingElements(m, conds, common, s)
        == before + if GivesElement(m, conds[n], common, s) then {Element(n)} else {};
    assert Element(n) !in before;
  }

  lemma {:induction false} FromElements(m: CompiledMetric, conds: seq<Json>, common: seq<string>, s: Sample)
    ensures multiset(ConditionSamples(m, common, conds))[s] == |GivingElements(m, conds, common, s)|
  {
    if conds == [] {
      assert GivingElements(m, conds, common, s) == {};
    } else {
      FromElements(m, conds[..|conds| - 1], common, s);
      MoreElements(m, conds, common, s);
    }
  }

  lemma SourceElement(m: CompiledMetric, obj: Fields, common: seq<string>, i: nat, s: Sample)
    requires m.config.typ == "conditions" && i < |ExtractFieldSlice(obj, m.config.path)|
    ensures Element(i) in SourcesOf(m, obj, common, s)
       <==> GivesElement(m, ExtractFieldSlice(obj, m.config.path)[i], common, s)
  {
    var cond := ExtractFieldSlice(obj, m.config.path)[i];
    if HasCondition(m, cond) {
      Longer(m, common, "", cond);
    }
  }

  lemma FromConditions(m: CompiledMetric, obj: Fields, common: seq<string>, s: Sample)
    requires m.config.typ == "conditions"
    ensures SamplesOf(m, obj, common)[s] == |SourcesOf(m, obj, common, s)|
  {
    var conds := ExtractFieldSlice(obj, m.config.path);
    FromElements(m, conds, common, s);
    forall i | 0 <= i < |conds|
      ensures Element(i) in SourcesOf(m, obj, common, s) <==> GivesElement(m, conds[i], common, s)
    {
      SourceElement(m, obj, common, i, s);
    }
    assert SourcesOf(m, obj, common, s) == GivingElements(m, conds, common, s);
  }

  lemma SameSources(cfg: CRDConfig, prefix: string, m: CompiledMetric, obj: Fields, s: Sample)
    requires CompiledFor(cfg, prefix, m)
    ensures SayingSources(cfg, prefix, m.config, obj, s) == SourcesOf(m, obj, CommonAt(cfg, obj), s)
  {
    forall source | source in SourcesIn(m.config, obj)
      ensures source in SayingSources(cfg, prefix, m.config, obj, s)
         <==> source in SourcesOf(m, obj, CommonAt(cfg, obj), s)
    {
      SaysIs(cfg, prefix, m, obj, source, s);
    }
  }

  /** One metric gives a sample as often as a part of the object calls for it. */
  lemma MetricSays(cfg: CRDConfig, prefix: string, m: CompiledMetric, obj: Fields, s: Sample)
    requires CompiledFor(cfg, prefix, m)
    ensures SamplesOf(m, obj, CommonAt(cfg, obj))[s] == |SayingSources(cfg, prefix, m.config, obj, s)|
  {
    var common := CommonAt(cfg, obj);
    SameSources(cfg, prefix, m, obj, s);
    if m.config.typ in ["info", "gauge", "string_state"] {
      FromObject(cfg, prefix, m, obj, common, s);
    } else if m.config.typ in ["map_state", "map_gauge"] {
      FromEntries(m, obj, common, s);
    } else if m.config.typ == "conditions" {
      FromConditions(m, obj, common, s);
    }
  }

  lemma {:induction false} CompileOneMore(p: string, names: seq<string>, metrics: seq<MetricConfig>, c: MetricConfig)
    ensures CompileMetrics(p, names, metrics + [c])
         == CompileMetrics(p, names, metrics)
            + match CompileMetric(p, names, c) case Some(m) => [m] case None => []
  {
    if metrics == [] {
      assert [c][1..] == [];
    } else {
      CompileOneMore(p, names, metrics[1..], c);
      assert (metrics + [c])[1..] == metrics[1..] + [c];
    }
  }

  lemma CompiledConfig(p: string, names: seq<string>, c: MetricConfig)
    ensures CompileMetric(p, names, c).Some? ==> CompileMetric(p, names, c).value.config == c
    ensures CompileMetric(p, names, c).None? ==> c.typ != "count" && forall obj :: SourcesIn(c, obj) == {}
  {
  }

  lemma LastSays(cfg: CRDConfig, prefix: string, before: seq<CompiledMetric>, c: MetricConfig, obj: Fields, s: Sample)
    ensures var p, names, common := PrefixOrDefault(prefix), SortedKeys(cfg.commonLabels.Keys), CommonAt(cfg, obj);
            var more := before + match CompileMetric(p, names, c) case Some(m) => [m] case None => [];
            AllSamples(more, obj, common)[s]
            == AllSamples(before, obj, common)[s] + |SayingSources(cfg, prefix, c, obj, s)|
  {
    var p, names := PrefixOrDefault(prefix), SortedKeys(cfg.commonLabels.Keys);
    CompiledConfig(p, names, c);
    match CompileMetric(p, names, c)
    case Some(m) =>
      assert (before + [m])[..|before|] == before;
      MetricSays(cfg, prefix, m, obj, s);
    case None =>
      assert SayingSources(cfg, prefix, c, obj, s) == {};
      assert before + [] == before;
  }

  lemma SayingsMore(cfg: CRDConfig, prefix: string, init: seq<MetricConfig>, last: MetricConfig, obj: Fields, s: Sample)
    ensures |SayingsOf(cfg, prefix, init + [last], obj, s)|
         == |SayingsOf(cfg, prefix, init, obj, s)| + |SayingSources(cfg, prefix, last, obj, s)|
  {
    PlacesMore(init, last, c => SayingSources(cfg, prefix, c, obj, s));
  }

  lemma {:induction false} MetricsSay(cfg: CRDConfig, prefix: string, metrics: seq<MetricConfig>, obj: Fields, s: Sample)
    ensures AllSamples(CompileMetrics(PrefixOrDefault(prefix), SortedKeys(cfg.commonLabels.Keys), metrics),
                       obj, CommonAt(cfg, obj))[s]
         == |SayingsOf(cfg, prefix, metrics, obj, s)|
  {
    if metrics == [] {
      assert SayingsOf(cfg, prefix, metrics, obj, s) == {};
    } else {
      var p, names := PrefixOrDefault(prefix), SortedKeys(cfg.commonLabels.Keys);
      var init, last := metrics[..|metrics| - 1], metrics[|metrics| - 1];
      assert metrics == init + [last];
      MetricsSay(cfg, prefix, init, obj, s);
      CompileOneMore(p, names, init, last);
      LastSays(cfg, prefix, CompileMetrics(p, names, init), last, obj, s);
      SayingsMore(cfg, prefix, init, last, obj, s);
    }
  }

  /**
    An object gives a sample exactly as often as its parts call for one that says this: the name and help
    of a configured metric, each common label with the string at its path, and the value and own labels
    that the type of the metric calls for.
   */
  lemma SamplesSay(cfg: CRDConfig, prefix: string, obj: Fields, s: Sample)
    ensures SchemaOf(cfg, prefix).Derive(obj).samples[s] == |Sayings(cfg, prefix, obj, s)|
  {
    MetricsSay(cfg, prefix, cfg.metrics, obj, s);
  }

  // ---------- Counts ----------

  /** A count metric counts an object under the string at its path, if there is one. */
  predicate Counts(c: MetricConfig, obj: Fields, item: Contribution)
  {
    c.typ == "count" && c.name == item.metricName && item.value != "" && ExtractFieldString(obj, c.path) == item.value
  }

  /** The metrics that count an object under a value. */
  ghost function Counting(metrics: seq<MetricConfig>, obj: Fields, item: Contribution): set<int>
  {
    Indices(metrics, c => Counts(c, obj, item))
  }

  lemma CountingMore(metrics: seq<MetricConfig>, c: MetricConfig, obj: Fields, item: Contribution)
    ensures |Counting(metrics + [c], obj, item)| == |Counting(metrics, obj, item)| + if Counts(c, obj, item) then 1 else 0
  {
    IndicesMore(metrics, c, c => Counts(c, obj, item));
  }

  lemma LastCounts(p: string, names: seq<string>, before: seq<CompiledMetric>, c: MetricConfig, obj: Fields,
                   item: Contribution)
    ensures var more := before + match CompileMetric(p, names, c) case Some(m) => [m] case None => [];
            multiset(AllCounts(more, obj))[item] == multiset(AllCounts(before, obj))[item] + if Counts(c, obj, item) then 1 else 0
  {
    CompiledConfig(p, names, c);
    match CompileMetric(p, names, c)
    case Some(m) =>
      assert (before + [m])[..|before|] == before;
      assert AllCounts(before + [m], obj) == AllCounts(before, obj) + CountOf(m, obj);
    case None =>
      assert before + [] == before;
  }

  lemma {:induction false} MetricsCount(p: string, names: seq<string>, metrics: seq<MetricConfig>, obj: Fields,
                                        item: Contribution)
    ensures multiset(AllCounts(CompileMetrics(p, names, metrics), obj))[item] == |Counting(metrics, obj, item)|
  {
    if metrics == [] {
      assert Counting(metrics, obj, item) == {};
    } else {
      var init, last := metrics[..|metrics| - 1], metrics[|metrics| - 1];
      assert metrics == init + [last];
      MetricsCount(p, names, init, obj, item);
      CompileOneMore(p, names, init, last);
      LastCounts(p, names, CompileMetrics(p, names, init), last, obj, item);
      CountingMore(init, last, obj, item);
    }
  }

  /** An object contributes to a counted value once for each count metric that reads that value of it. */
  lemma CountsSay(cfg: CRDConfig, prefix: string, obj: Fields, item: Contribution)
    ensures multiset(SchemaOf(cfg, prefix).Derive(obj).counts)[item] == |Counting(cfg.metrics, obj, item)|
  {
    MetricsCount(PrefixOrDefault(prefix), SortedKeys(cfg.commonLabels.Keys), cfg.metrics, obj, item);
  }

  /** A count is described by its own name and help and has one label, as long as no later metric has its name. */
  lemma CountDescribed(cfg: CRDConfig, prefix: string, j: nat)
    requires j < |cfg.metrics| && cfg.metrics[j].typ == "count"
    requires forall i | j < i < |cfg.metrics| :: cfg.metrics[i].name != cfg.metrics[j].name
    ensures var c, descs := cfg.metrics[j], SchemaOf(cfg, prefix).Descs();
            && c.name in descs
            && descs[c.name] == Desc(if c.name == "" then "" else (if prefix == "" then "sealos" else prefix) + "_" + c.name,
                                     c.help, [if c.valueLabel == "" then "value" else c.valueLabel])
  {
    DescribedFrom(PrefixOrDefault(prefix), SortedKeys(cfg.commonLabels.Keys), cfg.metrics, j);
  }

  lemma {:induction false} DescribedFrom(p: string, names: seq<string>, metrics: seq<MetricConfig>, j: nat)
    requires j < |metrics| && CompileMetric(p, names, metrics[j]).Some?
    requires forall i | j < i < |metrics| :: metrics[i].name != metrics[j].name
    ensures var descs := Descriptors(CompileMetrics(p, names, metrics));
            metrics[j].name in descs && descs[metrics[j].name] == CompileMetric(p, names, metrics[j]).value.desc
  {
    var init, last := metrics[..|metrics| - 1], metrics[|metrics| - 1];
    assert metrics == init + [last];
    CompileOneMore(p, names, init, last);
    CompiledConfig(p, names, last);
    var before := CompileMetrics(p, names, init);
    if j < |init| {
      DescribedFrom(p, names, init, j);
    }
    match CompileMetric(p, names, last) {
      case Some(m) => assert (before + [m])[..|before|] == before;
      case None => assert before + [] == before;
    }
  }

  /** Objects of every namespace count when none is configured, and else those of the configured ones. */
  lemma AllowsIff(cfg: CRDConfig, prefix: string, namespace: string)
    ensures SchemaOf(cfg, prefix).Allows(namespace)
       <==> (namespace != "" && namespace in cfg.namespaces) || forall n | n in cfg.namespaces :: n == ""
  {
    var allowed := SchemaOf(cfg, prefix).namespaces;
    assert forall n | n in cfg.namespaces && n != "" :: n in allowed;
  }
}
