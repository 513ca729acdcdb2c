/**
  Watch events: how the informer's handlers drive the metric store, and what the store stands for
  after any history of events.
 */
module CrdWatch {
  import opened Wrappers
  import opened Unstructured
  import opened CrdMetrics
  import opened MetricStore
  import opened CrdInformer

  // ---------- The handlers ----------

  /** What a handler is given: an object, the last known state of a deleted one, or something else. */
  datatype EventObject =
    | Unstr(obj: Fields)
    | DeletedFinalStateUnknown(last: Option<Fields>)
    | Unrecognized

  function ExtractUnstructured(e: EventObject): Option<Fields>
  {
    match e
    case Unstr(obj) => Some(obj)
    case DeletedFinalStateUnknown(last) => last
    case Unrecognized => None
  }

  ghost function AddStep(schema: Schema, view: View, e: EventObject): View
  {
    match ExtractUnstructured(e)
    case Some(obj) => UpsertView(schema, view, obj)
    case None => view
  }

  ghost function UpdateStep(schema: Schema, view: View, before: EventObject, after: EventObject): View
  {
    match (ExtractUnstructured(before), ExtractUnstructured(after))
    case (Some(a), Some(b)) =>
      if GetResourceVersion(a) == GetResourceVersion(b) then view else UpsertView(schema, view, b)
    case _ => view
  }

  ghost function DeleteStep(view: View, e: EventObject): View
  {
    match ExtractUnstructured(e)
    case Some(obj) => DeleteView(view, obj)
    case None => view
  }

  class Informer {
    const store: Store
    const transformPaths: seq<string>

    constructor (store: Store)
      ensures this.store == store
      ensures forall p :: p in transformPaths <==> p != "" && store.schema.Reads(p)
    {
      var paths := store.RequiredPaths();
      this.store := store;
      transformPaths := paths;
    }

    method TransformObject(obj: Fields) returns (transformed: Fields)
      ensures transformed == Trim(obj, transformPaths)
    {
      transformed := map[];
      transformed := SetString(transformed, GetName(obj), NAME);
      transformed := SetString(transformed, GetNamespace(obj), NAMESPACE);
      transformed := SetString(transformed, GetUID(obj), UID);
      transformed := SetString(transformed, GetResourceVersion(obj), RESOURCE_VERSION);
      transformed := SetInt(transformed, GetGeneration(obj), GENERATION);
      for i := 0 to |transformPaths|
        invariant transformed == CopyPaths(obj, WithIdentity(obj), transformPaths[..i])
      {
        assert transformPaths[..i + 1][..i] == transformPaths[..i];
        transformed := CopyNestedField(obj, transformed, transformPaths[i]);
      }
      assert transformPaths[..|transformPaths|] == transformPaths;
    }

    method OnAdd(e: EventObject)
      requires store.Described() && store.Valid()
      modifies store
      ensures store.Valid() && store.View() == AddStep(store.schema, old(store.View()), e)
    {
      var u := ExtractUnstructured(e);
      if u.Some? {
        store.Add(u.value);
      }
    }

    method OnUpdate(before: EventObject, after: EventObject)
      requires store.Described() && store.Valid()
      modifies store
      ensures store.Valid() && store.View() == UpdateStep(store.schema, old(store.View()), before, after)
    {
      var a, b := ExtractUnstructured(before), ExtractUnstructured(after);
      if a.Some? && b.Some? {
        if GetResourceVersion(a.value) == GetResourceVersion(b.value) {
          return;
        }
        store.Update(b.value);
      }
    }

    method OnDelete(e: EventObject)
      requires store.Valid()
      modifies store
      ensures store.Valid() && store.View() == DeleteStep(old(store.View()), e)
    {
      var u := ExtractUnstructured(e);
      if u.Some? {
        store.Delete(u.value);
      }
    }
  }

  // ---------- Histories ----------

  /** What happens to the watched resource, in terms of whole objects. */
  datatype Event =
    | Added(obj: Fields)
    | Updated(before: Fields, after: Fields)
    | Deleted(obj: Fields)
    | DeletedWhileDisconnected(last: Fields)
    | DeletedWithoutTrace(key: string)
    | Foreign

  function LiveStep(live: map<string, Fields>, e: Event): map<string, Fields>
  {
    match e
    case Added(obj) => live[ResourceKey(obj) := obj]
    case Updated(_, after) => live[ResourceKey(after) := after]
    case Deleted(obj) => live - {ResourceKey(obj)}
    case DeletedWhileDisconnected(last) => live - {ResourceKey(last)}
    case DeletedWithoutTrace(key) => live - {key}
    case Foreign => live
  }

  /** The objects that exist after a history. */
  function Live(h: seq<Event>): map<string, Fields>
  {
    if h == [] then map[] else LiveStep(Live(h[..|h| - 1]), h[|h| - 1])
  }

  function ForgottenStep(live: map<string, Fields>, forgotten: map<string, Fields>, e: Event): map<string, Fields>
  {
    match e
    case Added(obj) => forgotten - {ResourceKey(obj)}
    case Updated(_, after) => forgotten
    case Deleted(obj) => forgotten - {ResourceKey(obj)}
    case DeletedWhileDisconnected(last) => forgotten - {ResourceKey(last)}
    case DeletedWithoutTrace(key) => if key in live then forgotten[key := live[key]] else forgotten
    case Foreign => forgotten
  }

  /** The objects whose deletion was announced without an object and that nothing has replaced since. */
  function Forgotten(h: seq<Event>): map<string, Fields>
  {
    if h == [] then map[]
    else ForgottenStep(Live(h[..|h| - 1]), Forgotten(h[..|h| - 1]), h[|h| - 1])
  }

  /** An update carries the object known before, and equal resource versions mean equal objects. */
  predicate LegalStep(live: map<string, Fields>, e: Event)
  {
    e.Updated? ==>
      && ResourceKey(e.before) == ResourceKey(e.after)
      && ResourceKey(e.after) in live && live[ResourceKey(e.after)] == e.before
      && (GetResourceVersion(e.before) == GetResourceVersion(e.after) ==> e.before == e.after)
  }

  predicate Legal(h: seq<Event>)
  {
    h == [] || (Legal(h[..|h| - 1]) && LegalStep(Live(h[..|h| - 1]), h[|h| - 1]))
  }

  /** What the handlers make of an event, being given trimmed objects. */
  ghost function ReplayStep(schema: Schema, paths: seq<string>, view: View, e: Event): View
  {
    match e
    case Added(obj) => AddStep(schema, view, Unstr(Seen(obj, paths)))
    case Updated(before, after) => UpdateStep(schema, view, Unstr(Seen(before, paths)), Unstr(Seen(after, paths)))
    case Deleted(obj) => DeleteStep(view, Unstr(Seen(obj, paths)))
    case DeletedWhileDisconnected(last) => DeleteStep(view, DeletedFinalStateUnknown(Some(Seen(last, paths))))
    case DeletedWithoutTrace(_) => DeleteStep(view, DeletedFinalStateUnknown(None))
    case Foreign => AddStep(schema, view, Unrecognized)
  }

  ghost function Replay(schema: Schema, paths: seq<string>, h: seq<Event>): View
  {
    if h == [] then map[] else ReplayStep(schema, paths, Replay(schema, paths, h[..|h| - 1]), h[|h| - 1])
  }

  /** The view of a store built from nothing but these whole objects. */
  ghost function Rebuild(schema: Schema, objects: map<string, Fields>): View
  {
    map k | k in objects && schema.Allows(GetNamespace(objects[k])) :: schema.Derive(objects[k])
  }

  /** The forgotten objects that are in an allowed namespace, whose metrics therefore linger. */
  function Lingering(schema: Schema, h: seq<Event>): set<string>
  {
    AllowedKeys(schema, Forgotten(h))
  }

  // ----- Rebuilding -----

  /** Feeding objects to an empty store one by one, later ones replacing earlier ones of the same key. */
  ghost function Feed(schema: Schema, objs: seq<Fields>): View
  {
    if objs == [] then map[] else UpsertView(schema, Feed(schema, objs[..|objs| - 1]), objs[|objs| - 1])
  }

  function ByKey(objs: seq<Fields>): map<string, Fields>
  {
    if objs == [] then map[]
    else ByKey(objs[..|objs| - 1])[ResourceKey(objs[|objs| - 1]) := objs[|objs| - 1]]
  }

  lemma RebuildPut(schema: Schema, objects: map<string, Fields>, obj: Fields)
    ensures Rebuild(schema, objects[ResourceKey(obj) := obj]) == UpsertView(schema, Rebuild(schema, objects), obj)
  {
  }

  lemma RebuildTake(schema: Schema, objects: map<string, Fields>, key: string)
    ensures Rebuild(schema, objects - {key}) == Rebuild(schema, objects) - {key}
  {
  }

  /** Rebuild really is what filling an empty store with whole objects gives, in whatever order. */
  lemma {:induction false} FeedRebuilds(schema: Schema, objs: seq<Fields>)
    ensures Feed(schema, objs) == Rebuild(schema, ByKey(objs))
  {
    if objs != [] {
      var init, last := objs[..|objs| - 1], objs[|objs| - 1];
      FeedRebuilds(schema, init);
      RebuildPut(schema, ByKey(init), last);
    }
  }

  // ----- The store agrees with a rebuild -----

  lemma {:induction false} ForgottenIsNotLive(h: seq<Event>)
    requires Legal(h)
    ensures Forgotten(h).Keys !! Live(h).Keys
  {
    if h != [] {
      ForgottenIsNotLive(h[..|h| - 1]);
    }
  }

  lemma SeenKeepsIdentity(obj: Fields, paths: seq<string>)
    ensures ResourceKey(Seen(obj, paths)) == ResourceKey(obj)
    ensures GetNamespace(Seen(obj, paths)) == GetNamespace(obj)
    ensures GetResourceVersion(Seen(obj, paths)) == GetResourceVersion(obj)
  {
    TrimKeepsIdentity(obj, paths);
  }

  lemma SeenUpsert(schema: Schema, view: View, obj: Fields, paths: seq<string>)
    requires forall p :: schema.Reads(p) && p != "" ==> p in paths
    ensures UpsertView(schema, view, Seen(obj, paths)) == UpsertView(schema, view, obj)
  {
    SeenKeepsIdentity(obj, paths);
    TrimKeepsMetrics(schema, obj, paths);
  }

  lemma MergePut<V>(live: map<string, V>, gone: map<string, V>, k: string, v: V)
    ensures live[k := v] + (gone - {k}) == (live + gone)[k := v]
    ensures k !in gone ==> gone - {k} == gone
  {
  }

  lemma MergeTake<V>(live: map<string, V>, gone: map<string, V>, k: string)
    ensures (live - {k}) + (gone - {k}) == (live + gone) - {k}
  {
  }

  lemma MergeMove<V>(live: map<string, V>, gone: map<string, V>, k: string)
    requires live.Keys !! gone.Keys
    ensures k in live ==> (live - {k}) + gone[k := live[k]] == live + gone
    ensures k !in live ==> (live - {k}) + gone == live + gone
  {
  }

  lemma SamePut<V>(m: map<string, V>, k: string, v: V)
    requires k in m && m[k] == v
    ensures m[k := v] == m
  {
  }

  lemma UpsertSeen(schema: Schema, paths: seq<string>, all: map<string, Fields>, obj: Fields)
    requires forall p :: schema.Reads(p) && p != "" ==> p in paths
    ensures UpsertView(schema, Rebuild(schema, all), Seen(obj, paths))
         == Rebuild(schema, all[ResourceKey(obj) := obj])
  {
    SeenUpsert(schema, Rebuild(schema, all), obj, paths);
    RebuildPut(schema, all, obj);
  }

  lemma DeleteSeen(schema: Schema, paths: seq<string>, all: map<string, Fields>, obj: Fields)
    ensures DeleteView(Rebuild(schema, all), Seen(obj, paths)) == Rebuild(schema, all - {ResourceKey(obj)})
  {
    SeenKeepsIdentity(obj, paths);
    RebuildTake(schema, all, ResourceKey(obj));
  }

  /** One step, whatever the event, on a view that is a rebuild of live and forgotten objects. */
  lemma StepIsRebuild(schema: Schema, paths: seq<string>, e: Event,
                      live: map<string, Fields>, forgotten: map<string, Fields>)
    requires forall p :: schema.Reads(p) && p != "" ==> p in paths
    requires LegalStep(live, e)
    requires forgotten.Keys !! live.Keys
    ensures ReplayStep(schema, paths, Rebuild(schema, live + forgotten), e)
         == Rebuild(schema, LiveStep(live, e) + ForgottenStep(live, forgotten, e))
  {
    match e {
      case Added(obj) =>
        UpsertSeen(schema, paths, live + forgotten, obj);
        MergePut(live, forgotten, ResourceKey(obj), obj);
      case Updated(before, after) =>
        UpdatedIsRebuild(schema, paths, before, after, live, forgotten);
      case Deleted(obj) =>
        DeleteSeen(schema, paths, live + forgotten, obj);
        MergeTake(live, forgotten, ResourceKey(obj));
      case DeletedWhileDisconnected(last) =>
        DeleteSeen(schema, paths, live + forgotten, last);
        MergeTake(live, forgotten, ResourceKey(last));
      case DeletedWithoutTrace(key) =>
        MergeMove(live, forgotten, key);
      case Foreign =>
    }
  }

  lemma UpdatedIsRebuild(schema: Schema, paths: seq<string>, before: Fields, after: Fields,
                         live: map<string, Fields>, forgotten: map<string, Fields>)
    requires forall p :: schema.Reads(p) && p != "" ==> p in paths
    requires LegalStep(live, Updated(before, after))
    requires forgotten.Keys !! live.Keys
    ensures ReplayStep(schema, paths, Rebuild(schema, live + forgotten), Updated(before, after))
         == Rebuild(schema, live[ResourceKey(after) := after] + forgotten)
  {
    var key := ResourceKey(after);
    MergePut(live, forgotten, key, after);
    SeenKeepsIdentity(before, paths);
    SeenKeepsIdentity(after, paths);
    if GetResourceVersion(before) == GetResourceVersion(after) {
      SamePut(live, key, after);
    } else {
      UpsertSeen(schema, paths, live + forgotten, after);
    }
  }

  /** The view after any history is that of the live objects, plus the forgotten ones. */
  lemma {:induction false} ReplayIsRebuild(schema: Schema, paths: seq<string>, h: seq<Event>)
    requires forall p :: schema.Reads(p) && p != "" ==> p in paths
    requires Legal(h)
    ensures Replay(schema, paths, h) == Rebuild(schema, Live(h) + Forgotten(h))
  {
    if h == [] {
      assert Live(h) + Forgotten(h) == map[];
    } else {
      var init := h[..|h| - 1];
      ReplayIsRebuild(schema, paths, init);
      ForgottenIsNotLive(init);
      StepIsRebuild(schema, paths, h[|h| - 1], Live(init), Forgotten(init));
    }
  }

  ghost function Filtered<V, W>(m: map<string, V>, keep: set<string>, f: V -> W): map<string, W>
  {
    map k | k in m && k in keep :: f(m[k])
  }

  lemma FilteredAgreesIff<V, W>(live: map<string, V>, gone: map<string, V>, f: V -> W,
                                keepBoth: set<string>, keepLive: set<string>)
    requires live.Keys !! gone.Keys
    requires keepLive == keepBoth * live.Keys
    requires keepBoth <= live.Keys + gone.Keys
    ensures Filtered(live + gone, keepBoth, f) == Filtered(live, keepLive, f) <==> keepBoth * gone.Keys == {}
  {
    if keepBoth * gone.Keys == {} {
      assert forall k :: k in keepBoth ==> k !in keepBoth * gone.Keys;
      assert keepBoth == keepLive;
      assert Filtered(live + gone, keepBoth, f) == Filtered(live, keepLive, f);
    } else {
      var k :| k in keepBoth * gone.Keys;
      assert k in Filtered(live + gone, keepBoth, f) && k !in Filtered(live, keepLive, f);
    }
  }

  /** The keys of the objects in allowed namespaces. */
  function AllowedKeys(schema: Schema, objects: map<string, Fields>): set<string>
  {
    set k | k in objects && schema.Allows(GetNamespace(objects[k]))
  }

  lemma RebuildFiltered(schema: Schema, objects: map<string, Fields>)
    ensures Rebuild(schema, objects) == Filtered(objects, AllowedKeys(schema, objects), o => schema.Derive(o))
  {
  }

  /**
    The store agrees with a rebuild from the live objects if and only if no object in an allowed
    namespace was deleted without the event carrying an object, and not seen again since.
   */
  lemma StoreAgreesIff(schema: Schema, paths: seq<string>, h: seq<Event>)
    requires forall p :: schema.Reads(p) && p != "" ==> p in paths
    requires Legal(h)
    ensures Replay(schema, paths, h) == Rebuild(schema, Live(h)) <==> Lingering(schema, h) == {}
  {
    ReplayIsRebuild(schema, paths, h);
    ForgottenIsNotLive(h);
    var live, gone := Live(h), Forgotten(h);
    RebuildFiltered(schema, live + gone);
    RebuildFiltered(schema, live);
    AllowedOfMerge(schema, live, gone);
    FilteredAgreesIff(live, gone, o => schema.Derive(o), AllowedKeys(schema, live + gone), AllowedKeys(schema, live));
  }

  lemma AllowedOfMerge(schema: Schema, live: map<string, Fields>, gone: map<string, Fields>)
    requires live.Keys !! gone.Keys
    ensures AllowedKeys(schema, live + gone) * live.Keys == AllowedKeys(schema, live)
    ensures AllowedKeys(schema, live + gone) * gone.Keys == AllowedKeys(schema, gone)
  {
  }

  /** The failing case: an object whose deletion is announced without it keeps its metrics. */
  lemma DeletedWithoutTraceLingers(schema: Schema, paths: seq<string>, obj: Fields)
    requires forall p :: schema.Reads(p) && p != "" ==> p in paths
    requires schema.Allows(GetNamespace(obj))
    ensures var h := [Added(obj), DeletedWithoutTrace(ResourceKey(obj))];
            Legal(h) && Live(h) == map[] && Replay(schema, paths, h) != Rebuild(schema, Live(h))
  {
    var one := [Added(obj)];
    var h := [Added(obj), DeletedWithoutTrace(ResourceKey(obj))];
    assert one[..0] == [] && h[..1] == one;
    assert Live(one) == map[ResourceKey(obj) := obj];
    assert Forgotten(one) == map[];
    assert Forgotten(h) == ForgottenStep(Live(one), Forgotten(one), h[1]);
    StoreAgreesIff(schema, paths, h);
    assert ResourceKey(obj) in Lingering(schema, h);
  }

  /** Histories whose deletions always carry an object leave nothing lingering. */
  lemma {:induction false} TracedDeletesLeaveNothing(schema: Schema, h: seq<Event>)
    requires forall i :: 0 <= i < |h| ==> !h[i].DeletedWithoutTrace?
    ensures Forgotten(h) == map[] && Lingering(schema, h) == {}
  {
    if h != [] {
      TracedDeletesLeaveNothing(schema, h[..|h| - 1]);
    }
  }

  /** A scrape after such a history shows what the live objects call for, as whole objects. */
  lemma ScrapeShowsLiveObjects(schema: Schema, paths: seq<string>, h: seq<Event>)
    requires forall p :: schema.Reads(p) && p != "" ==> p in paths
    requires Legal(h)
    requires Lingering(schema, h) == {}
    ensures Emitted(schema, Replay(schema, paths, h)) == Emitted(schema, Rebuild(schema, Live(h)))
  {
    StoreAgreesIff(schema, paths, h);
  }
}
