/** The registry of collector instances: creating them from factories, starting and stopping them. */
module Registry {
  import opened StringOrder
  import opened Wrappers

  /** An instance made by a factory; no two have the same number. */
  datatype Instance = Instance(id: nat, leader: bool)

  type Collectors = map<string, Instance>

  // ---------- Creating ----------

  /** What a factory call comes to: an instance that needs a leader or not, or an error. */
  datatype Made = NoFactory | Error | Made(leader: bool)

  datatype Creation = Creation(collectors: Collectors, failed: map<string, Made>, born: nat)

  /** One round for every enabled name, in order; `made[i]` is what the i-th factory call comes to. */
  function Create(enabled: seq<string>, made: seq<Made>, start: Creation): (c: Creation)
    requires |enabled| == |made|
    ensures c.born >= start.born
    decreases |enabled|
  {
    if enabled == [] then start
    else
      var n := |enabled| - 1;
      var c := Create(enabled[..n], made[..n], start);
      match made[n]
      case Made(leader) => Creation(c.collectors[enabled[n] := Instance(c.born, leader)], c.failed, c.born + 1)
      case error => Creation(c.collectors, c.failed[enabled[n] := error], c.born)
  }

  /** Different names have different instances, all made since `from`. */
  ghost predicate Distinct(collectors: Collectors, from: nat, born: nat)
  {
    && (forall n | n in collectors :: from <= collectors[n].id < born)
    && (forall m, n | m in collectors && n in collectors && collectors[m].id == collectors[n].id :: m == n)
  }

  lemma {:induction false} CreateMakesDistinct(enabled: seq<string>, made: seq<Made>, from: nat)
    requires |enabled| == |made|
    ensures var c := Create(enabled, made, Creation(map[], map[], from));
            && Distinct(c.collectors, from, c.born)
            && c.collectors.Keys + c.failed.Keys == (set i | 0 <= i < |enabled| :: enabled[i])
    decreases |enabled|
  {
    if enabled != [] {
      var n := |enabled| - 1;
      CreateMakesDistinct(enabled[..n], made[..n], from);
      assert (set i | 0 <= i < |enabled| :: enabled[i])
          == (set i | 0 <= i < n :: enabled[..n][i]) + {enabled[n]};
    }
  }

  /** A name has an instance when some factory call for it made one, and a failure when some call for it failed. */
  lemma {:induction false} CreatedIff(enabled: seq<string>, made: seq<Made>, from: nat, name: string)
    requires |enabled| == |made|
    ensures var c := Create(enabled, made, Creation(map[], map[], from));
            && (name in c.collectors <==> exists i :: 0 <= i < |enabled| && enabled[i] == name && made[i].Made?)
            && (name in c.failed <==> exists i :: 0 <= i < |enabled| && enabled[i] == name && !made[i].Made?)
    decreases |enabled|
  {
    if enabled != [] {
      var n := |enabled| - 1;
      CreatedIff(enabled[..n], made[..n], from, name);
      assert forall i | 0 <= i < n :: enabled[..n][i] == enabled[i] && made[..n][i] == made[i];
    }
  }

  /** The last call for a name that made an instance, or failed, is the one that counts. */
  lemma {:induction false} LastCallCounts(enabled: seq<string>, made: seq<Made>, from: nat, i: nat)
    requires |enabled| == |made| && i < |enabled|
    requires forall j | i < j < |enabled| && enabled[j] == enabled[i] :: made[j].Made? != made[i].Made?
    ensures var c, name := Create(enabled, made, Creation(map[], map[], from)), enabled[i];
            if made[i].Made? then name in c.collectors && c.collectors[name].leader == made[i].leader
            else name in c.failed && c.failed[name] == made[i]
    decreases |enabled|
  {
    var n := |enabled| - 1;
    if i < n {
      LastCallCounts(enabled[..n], made[..n], from, i);
    }
  }

  // ---------- Starting and stopping ----------

  /** None starts or stops all, Some(b) only those that need a leader or only those that do not. */
  type Filter = Option<bool>

  predicate Selected(i: Instance, filter: Filter)
  {
    filter.None? || filter.value == i.leader
  }

  function Select(collectors: Collectors, filter: Filter): set<Instance>
  {
    set n | n in collectors && Selected(collectors[n], filter) :: collectors[n]
  }

  /** Those of the selected whose start succeeds are started afterwards; a started one stays so. */
  function StartedAfter(collectors: Collectors, started: set<Instance>, filter: Filter, ok: set<Instance>): set<Instance>
  {
    started + Select(collectors, filter) * ok
  }

  function StoppedAfter(collectors: Collectors, started: set<Instance>, filter: Filter): set<Instance>
  {
    started - Select(collectors, filter)
  }

  function StartedOne(collectors: Collectors, started: set<Instance>, name: string, ok: bool): set<Instance>
  {
    if name in collectors && ok then started + {collectors[name]} else started
  }

  function StoppedOne(collectors: Collectors, started: set<Instance>, name: string): set<Instance>
  {
    if name in collectors then started - {collectors[name]} else started
  }

  /** The names of the leader-managed collectors in ascending order. */
  function LeaderManaged(collectors: Collectors): seq<string>
  {
    SortedKeys(set n | n in collectors && collectors[n].leader)
  }

  lemma LeaderManagedOnce(collectors: Collectors)
    ensures forall i, j :: 0 <= i < j < |LeaderManaged(collectors)| ==>
                             LeaderManaged(collectors)[i] != LeaderManaged(collectors)[j]
    ensures forall n :: n in LeaderManaged(collectors) <==> n in collectors && collectors[n].leader
  {
    var names := set n | n in collectors && collectors[n].leader;
    forall i, j | 0 <= i < j < |names|
      ensures SortedKeys(names)[i] != SortedKeys(names)[j]
    {
      SortedKeysAscend(names, i, j);
    }
  }

  class Registry {
    var collectors: Collectors
    var failed: map<string, Made>
    var born: nat
    var started: set<Instance>

    constructor ()
      ensures collectors == map[] && failed == map[] && born == 0 && started == {}
    {
      collectors, failed, born, started := map[], map[], 0, {};
    }

    method Initialize(enabled: seq<string>, made: seq<Made>) returns (ok: bool)
      requires |enabled| == |made|
      modifies this`collectors, this`failed, this`born
      ensures ok <==> old(collectors) == map[]
      ensures Creation(collectors, failed, born)
           == if ok then Create(enabled, made, Creation(map[], old(failed), old(born)))
              else Creation(old(collectors), old(failed), old(born))
    {
      if collectors != map[] {
        return false;
      }
      CreateCollectors(enabled, made);
      return true;
    }

    /** New instances for all names; the old ones are forgotten, started or not. */
    method Reinitialize(enabled: seq<string>, made: seq<Made>)
      requires |enabled| == |made|
      modifies this`collectors, this`failed, this`born
      ensures Creation(collectors, failed, born) == Create(enabled, made, Creation(map[], map[], old(born)))
    {
      collectors, failed := map[], map[];
      CreateCollectors(enabled, made);
    }

    method CreateCollectors(enabled: seq<string>, made: seq<Made>)
      requires |enabled| == |made|
      modifies this`collectors, this`failed, this`born
      ensures Creation(collectors, failed, born)
           == Create(enabled, made, Creation(old(collectors), old(failed), old(born)))
    {
      ghost var start := Creation(collectors, failed, born);
      for i := 0 to |enabled|
        invariant Creation(collectors, failed, born) == Create(enabled[..i], made[..i], start)
      {
        assert enabled[..i + 1][..i] == enabled[..i] && made[..i + 1][..i] == made[..i];
        var name := enabled[i];
        match made[i] {
          case NoFactory =>
            failed := failed[name := NoFactory];
          case Error =>
            failed := failed[name := Error];
          case Made(leader) =>
            collectors := collectors[name := Instance(born, leader)];
            born := born + 1;
        }
      }
      assert enabled[..|enabled|] == enabled && made[..|made|] == made;
    }

    /**
      Starts the selected collectors one by one in no particular order; `ok` are those whose start
      succeeds. Starting a started collector is an error and changes nothing.
     */
    method StartCollectors(filter: Filter, ok: set<Instance>) returns (errors: nat)
      modifies this`started
      ensures started == StartedAfter(collectors, old(started), filter, ok)
      ensures errors == 0 <==> Select(collectors, filter) <= ok && Select(collectors, filter) !! old(started)
    {
      errors := StartEach(Select(collectors, filter), ok);
    }

    method StartEach(all: set<Instance>, ok: set<Instance>) returns (errors: nat)
      modifies this`started
      ensures started == old(started) + all * ok
      ensures errors == 0 <==> all <= ok && all !! old(started)
    {
      errors := 0;
      var todo := all;
      while todo != {}
        invariant todo <= all
        invariant forall x :: x in started <==> x in old(started) || (x in all && x !in todo && x in ok)
        invariant errors == 0 <==> all - todo <= ok && (all - todo) !! old(started)
        decreases |todo|
      {
        var c :| c in todo;
        todo := todo - {c};
        if c in started || c !in ok {
          errors := errors + 1;
        } else {
          started := started + {c};
        }
      }
    }

    /** Stops the selected collectors; stopping one that is not started is an error and changes nothing. */
    method StopCollectors(filter: Filter) returns (errors: nat)
      modifies this`started
      ensures started == StoppedAfter(collectors, old(started), filter)
      ensures errors == 0 <==> Select(collectors, filter) <= old(started)
    {
      errors := 0;
      var todo := Select(collectors, filter);
      ghost var all := todo;
      while todo != {}
        invariant todo <= all
        invariant started == old(started) - (all - todo)
        invariant errors == 0 <==> all - todo <= old(started)
        decreases |todo|
      {
        var c :| c in todo;
        todo := todo - {c};
        if c in started {
          started := started - {c};
        } else {
          errors := errors + 1;
        }
      }
    }

    method StartCollector(name: string, starts: bool) returns (ok: bool)
      modifies this`started
      ensures ok == (name in collectors && collectors[name] !in old(started) && starts)
      ensures started == StartedOne(collectors, old(started), name, starts)
    {
      if name !in collectors || collectors[name] in started || !starts {
        return false;
      }
      started := started + {collectors[name]};
      return true;
    }

    method StopCollector(name: string) returns (ok: bool)
      modifies this`started
      ensures ok == (name in collectors && collectors[name] in old(started))
      ensures started == StoppedOne(collectors, old(started), name)
    {
      if name !in collectors || collectors[name] !in started {
        return false;
      }
      started := started - {collectors[name]};
      return true;
    }
  }
}
