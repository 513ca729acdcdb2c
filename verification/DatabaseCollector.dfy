/** The statuses of a poll by database, and the counts that go with them. */
module DatabaseCollector {
  import opened Distinct
  import opened DatabasePool
  import opened Slashes

  datatype Status = Status(namespace: string, name: string, typ: string, connected: bool)

  type Statuses = map<string, Status>

  function Key(namespace: string, name: string): string
  {
    namespace + ['/'] + name
  }

  /** With no slash in a namespace different databases have different keys. */
  lemma KeyInjective(a: string, m: string, b: string, n: string)
    requires '/' !in a && '/' !in b && Key(a, m) == Key(b, n)
    ensures a == b && m == n
  {
    FirstSlash(a, b, m, n);
  }

  function KeyOf(s: Status): string
  {
    Key(s.namespace, s.name)
  }

  /** A later value under the same key replaces the earlier. */
  function Latest<V>(keys: seq<string>, values: seq<V>): map<string, V>
    requires |keys| == |values|
    decreases |keys|
  {
    if keys == [] then map[]
    else
      var n := |keys| - 1;
      Latest(keys[..n], values[..n])[keys[n] := values[n]]
  }

  function KeysOf(received: seq<Status>): seq<string>
  {
    seq(|received|, i requires 0 <= i < |received| => KeyOf(received[i]))
  }

  function StatusMap(received: seq<Status>): Statuses
  {
    Latest(KeysOf(received), received)
  }

  method CollectStatuses(received: seq<Status>) returns (m: Statuses)
    ensures m == StatusMap(received)
  {
    m := map[];
    ghost var keys := KeysOf(received);
    for i := 0 to |received|
      invariant m == Latest(keys[..i], received[..i])
    {
      assert received[..i + 1][..i] == received[..i] && keys[..i + 1][..i] == keys[..i];
      m := m[KeyOf(received[i]) := received[i]];
    }
    assert received[..|received|] == received && keys[..|received|] == keys;
  }

  /** The map has exactly the keys received, and as many entries as different keys. */
  lemma {:induction false} LatestKeys<V>(keys: seq<string>, values: seq<V>)
    requires |keys| == |values|
    ensures forall k :: k in Latest(keys, values) <==> k in keys
    ensures |Latest(keys, values)| <= |keys|
    ensures |Latest(keys, values)| == |keys| <==> NoRepeats(keys)
    decreases |keys|
  {
    if keys != [] {
      var n := |keys| - 1;
      LatestKeys(keys[..n], values[..n]);
      LatestSize(Latest(keys[..n], values[..n]), keys[n], values[n]);
      assert keys == keys[..n] + [keys[n]];
      NoRepeatsSnoc(keys);
    }
  }

  lemma LatestSize<V>(m: map<string, V>, k: string, v: V)
    ensures |m[k := v]| == if k in m then |m| else |m| + 1
  {
    assert m[k := v].Keys == m.Keys + {k};
  }

  lemma NoRepeatsSnoc(keys: seq<string>)
    requires keys != []
    ensures var n := |keys| - 1; NoRepeats(keys) <==> NoRepeats(keys[..n]) && keys[n] !in keys[..n]
  {
    var n := |keys| - 1;
    if keys[n] in keys[..n] {
      var i :| 0 <= i < n && keys[..n][i] == keys[n];
      assert keys[i] == keys[n];
    }
  }

  /** The status of a task, given whether each task's check succeeds. */
  function StatusOf(plan: Plan, i: nat, connected: nat -> bool): Status
    requires i < |plan.tasks|
  {
    Status(plan.tasks[i].namespace, plan.tasks[i].name, plan.tasks[i].typ, connected(i))
  }

  /** The statuses the collector has received, in the order of their sending; all are those of tasks. */
  function Received(plan: Plan, log: seq<nat>, connected: nat -> bool): seq<Status>
  {
    seq(|log|, k requires 0 <= k < |log| =>
      if log[k] < |plan.tasks| then StatusOf(plan, log[k], connected) else Status("", "", "", false))
  }

  function TaskKeys(plan: Plan): seq<string>
  {
    seq(|plan.tasks|, i requires 0 <= i < |plan.tasks| => Key(plan.tasks[i].namespace, plan.tasks[i].name))
  }

  /** Each entry of the map is a value put under its key. */
  lemma {:induction false} LatestIsOne<V>(keys: seq<string>, values: seq<V>, k: string)
    requires |keys| == |values| && k in Latest(keys, values)
    ensures exists i :: 0 <= i < |keys| && keys[i] == k && values[i] == Latest(keys, values)[k]
    decreases |keys|
  {
    if keys != [] {
      var n := |keys| - 1;
      if k == keys[n] {
        assert keys[n] == k && values[n] == Latest(keys, values)[k];
      } else {
        LatestIsOne(keys[..n], values[..n], k);
        var i :| 0 <= i < n && keys[..n][i] == k && values[..n][i] == Latest(keys[..n], values[..n])[k];
        assert keys[i] == k && values[i] == Latest(keys, values)[k];
      }
    }
  }

  /** The entries of the map are results of checks of this poll, each under the key of its own task. */
  ghost predicate FromChecks(plan: Plan, m: Statuses, connected: nat -> bool)
  {
    forall k | k in m :: exists i: nat :: i < |plan.tasks| && TaskKeys(plan)[i] == k && m[k] == StatusOf(plan, i, connected)
  }

  lemma MapFromChecks(plan: Plan, log: seq<nat>, connected: nat -> bool)
    requires forall i | i in log :: i < |plan.tasks|
    ensures FromChecks(plan, StatusMap(Received(plan, log, connected)), connected)
  {
    var received := Received(plan, log, connected);
    var m := StatusMap(received);
    forall k | k in m
      ensures exists i: nat :: i < |plan.tasks| && TaskKeys(plan)[i] == k && m[k] == StatusOf(plan, i, connected)
    {
      LatestIsOne(KeysOf(received), received, k);
      var j :| 0 <= j < |received| && KeysOf(received)[j] == k && received[j] == m[k];
      assert log[j] in log && TaskKeys(plan)[log[j]] == k;
    }
  }

  lemma LoggedAreTasks(plan: Plan, states: seq<State>, events: seq<Event>, n: nat)
    requires Run(plan, states, events) && n < |states|
    ensures forall i | i in states[n].log :: i < |plan.tasks|
  {
    RunKeepsInv(plan, states, events, n);
  }

  /** With keys of their own, the tasks have the results of their own checks. */
  lemma OwnResults(plan: Plan, m: Statuses, connected: nat -> bool, i: nat)
    requires FromChecks(plan, m, connected) && NoRepeats(TaskKeys(plan))
    requires i < |plan.tasks| && TaskKeys(plan)[i] in m
    ensures m[TaskKeys(plan)[i]] == StatusOf(plan, i, connected)
  {
    var j: nat :| j < |plan.tasks| && TaskKeys(plan)[j] == TaskKeys(plan)[i]
                  && m[TaskKeys(plan)[i]] == StatusOf(plan, j, connected);
    assert j == i;
  }

  lemma PollKeys(plan: Plan, log: seq<nat>, connected: nat -> bool)
    requires |log| == |plan.tasks| && NoRepeats(log) && forall i: nat :: i in log <==> i < |plan.tasks|
    ensures var m := StatusMap(Received(plan, log, connected));
            && (forall k :: k in m <==> k in TaskKeys(plan))
            && (|m| == |plan.tasks| <==> NoRepeats(TaskKeys(plan)))
  {
    var received := Received(plan, log, connected);
    LatestKeys(KeysOf(received), received);
    Reordered(TaskKeys(plan), KeysOf(received), log);
  }

  /**
    If no launcher gave up, every task's database is in the map and nothing else is; with keys of their
    own none hides another, and each has the result of its own check.
   */
  lemma PollCoversTasks(plan: Plan, states: seq<State>, events: seq<Event>, connected: nat -> bool)
    requires Run(plan, states, events) && states[|events|].over && states[|events|].gaveUp == {}
    ensures var m := StatusMap(Received(plan, states[|events|].log, connected));
            && (forall k :: k in m <==> k in TaskKeys(plan))
            && (|m| == |plan.tasks| <==> NoRepeats(TaskKeys(plan)))
            && (NoRepeats(TaskKeys(plan)) ==>
                  forall i: nat | i < |plan.tasks| :: m[TaskKeys(plan)[i]] == StatusOf(plan, i, connected))
  {
    var log := states[|events|].log;
    var m := StatusMap(Received(plan, log, connected));
    LoggedAreTasks(plan, states, events, |events|);
    EachStatusOnce(plan, states, events, |events|);
    PollKeys(plan, log, connected);
    MapFromChecks(plan, log, connected);
    if NoRepeats(TaskKeys(plan)) {
      forall i: nat | i < |plan.tasks|
        ensures m[TaskKeys(plan)[i]] == StatusOf(plan, i, connected)
      {
        assert TaskKeys(plan)[i] in TaskKeys(plan);
        OwnResults(plan, m, connected, i);
      }
    }
  }

  /** A list taken in another order has the same elements, and repeats if the list does. */
  lemma Reordered(keys: seq<string>, taken: seq<string>, order: seq<nat>)
    requires |keys| == |taken| == |order| && NoRepeats(order) && forall i: nat :: i in order <==> i < |keys|
    requires forall k | 0 <= k < |order| :: order[k] < |keys| ==> taken[k] == keys[order[k]]
    ensures forall x :: x in keys <==> x in taken
    ensures NoRepeats(keys) <==> NoRepeats(taken)
  {
    forall i | 0 <= i < |keys|
      ensures exists k :: 0 <= k < |order| && order[k] == i && taken[k] == keys[i]
    {
      assert i in order;
      var k :| 0 <= k < |order| && order[k] == i;
    }
    forall k | 0 <= k < |order|
      ensures order[k] < |keys| && taken[k] == keys[order[k]]
    {
      assert order[k] in order;
    }
    if i, j :| 0 <= i < j < |keys| && keys[i] == keys[j] {
      var k :| 0 <= k < |order| && order[k] == i && taken[k] == keys[i];
      var l :| 0 <= l < |order| && order[l] == j && taken[l] == keys[j];
      assert k != l;
    }
    if k, l :| 0 <= k < l < |taken| && taken[k] == taken[l] {
      assert order[k] != order[l];
    }
  }

  // ---------- Counting ----------

  datatype Stats = Stats(total: nat, available: nat, unavailable: nat)

  function Connected(statuses: Statuses, keys: set<string>): set<string>
  {
    set k | k in keys && k in statuses && statuses[k].connected
  }

  function OfType(statuses: Statuses, keys: set<string>, typ: string): set<string>
  {
    set k | k in keys && k in statuses && statuses[k].typ == typ
  }

  function StatsOf(statuses: Statuses, keys: set<string>): Stats
  {
    var up := Connected(statuses, keys);
    Stats(|keys|, |up|, |keys - up|)
  }

  /** The figures are numbers of databases: all of them, the connected ones and the others, also of any one type. */
  lemma StatsSay(statuses: Statuses, typ: string)
    ensures var s := StatsOf(statuses, statuses.Keys);
            && s.total == |statuses|
            && s.available == |set k | k in statuses && statuses[k].connected|
            && s.unavailable == |set k | k in statuses && !statuses[k].connected|
    ensures typ in TypeStatsOf(statuses, statuses.Keys) <==> exists k :: k in statuses && statuses[k].typ == typ
    ensures typ in TypeStatsOf(statuses, statuses.Keys) ==>
              var s := TypeStatsOf(statuses, statuses.Keys)[typ];
              && s.total == |set k | k in statuses && statuses[k].typ == typ|
              && s.available == |set k | k in statuses && statuses[k].typ == typ && statuses[k].connected|
              && s.unavailable == |set k | k in statuses && statuses[k].typ == typ && !statuses[k].connected|
  {
    var all, some := statuses.Keys, OfType(statuses, statuses.Keys, typ);
    assert Connected(statuses, all) == set k | k in statuses && statuses[k].connected;
    assert all - Connected(statuses, all) == set k | k in statuses && !statuses[k].connected;
    assert some == set k | k in statuses && statuses[k].typ == typ;
    assert Connected(statuses, some) == set k | k in statuses && statuses[k].typ == typ && statuses[k].connected;
    assert some - Connected(statuses, some) == set k | k in statuses && statuses[k].typ == typ && !statuses[k].connected;
  }

  /** Nothing is counted on both sides or on neither. */
  lemma StatsAddUp(statuses: Statuses, keys: set<string>)
    ensures var s := StatsOf(statuses, keys); s.available + s.unavailable == s.total
  {
    var up := Connected(statuses, keys);
    assert keys == up + (keys - up);
  }

  function Counted(stats: Stats, connected: bool): Stats
  {
    if connected then Stats(stats.total + 1, stats.available + 1, stats.unavailable)
    else Stats(stats.total + 1, stats.available, stats.unavailable + 1)
  }

  lemma StatsOfOneMore(statuses: Statuses, keys: set<string>, k: string)
    requires k in statuses && k !in keys
    ensures StatsOf(statuses, keys + {k}) == Counted(StatsOf(statuses, keys), statuses[k].connected)
  {
    var up := Connected(statuses, keys);
    if statuses[k].connected {
      assert Connected(statuses, keys + {k}) == up + {k};
      assert keys + {k} - (up + {k}) == keys - up;
    } else {
      assert Connected(statuses, keys + {k}) == up;
      assert keys + {k} - up == (keys - up) + {k};
    }
  }

  lemma StatsOfNone(statuses: Statuses)
    ensures StatsOf(statuses, {}) == Stats(0, 0, 0)
  {
    assert Connected(statuses, {}) == {};
    assert {} - Connected(statuses, {}) == {};
  }

  method CalculateStatistics(statuses: Statuses) returns (stats: Stats)
    ensures stats == StatsOf(statuses, statuses.Keys)
  {
    stats := Stats(0, 0, 0);
    var done: set<string> := {};
    StatsOfNone(statuses);
    while done != statuses.Keys
      invariant done <= statuses.Keys
      invariant stats == StatsOf(statuses, done)
      decreases statuses.Keys - done
    {
      var k :| k in statuses.Keys && k !in done;
      StatsOfOneMore(statuses, done, k);
      stats := Counted(stats, statuses[k].connected);
      done := done + {k};
    }
  }

  function TypesIn(statuses: Statuses, keys: set<string>): set<string>
  {
    set k | k in keys && k in statuses :: statuses[k].typ
  }

  /** The figures of every type that some database has. */
  function TypeStatsOf(statuses: Statuses, keys: set<string>): map<string, Stats>
  {
    map typ | typ in TypesIn(statuses, keys) :: StatsOf(statuses, OfType(statuses, keys, typ))
  }

  lemma OfTypeOneMore(statuses: Statuses, keys: set<string>, k: string, typ: string)
    requires k in statuses && k !in keys
    ensures StatsOf(statuses, OfType(statuses, keys + {k}, typ))
         == if statuses[k].typ == typ then Counted(StatsOf(statuses, OfType(statuses, keys, typ)), statuses[k].connected)
            else StatsOf(statuses, OfType(statuses, keys, typ))
  {
    var before := OfType(statuses, keys, typ);
    if statuses[k].typ == typ {
      assert OfType(statuses, keys + {k}, typ) == before + {k};
      StatsOfOneMore(statuses, before, k);
    } else {
      assert OfType(statuses, keys + {k}, typ) == before;
    }
  }

  lemma NoneOfType(statuses: Statuses, keys: set<string>, typ: string)
    requires typ !in TypesIn(statuses, keys)
    ensures StatsOf(statuses, OfType(statuses, keys, typ)) == Stats(0, 0, 0)
  {
    assert OfType(statuses, keys, typ) == {};
    StatsOfNone(statuses);
  }

  /** A figure for a type, zero if there is none. */
  function At(stats: map<string, Stats>, typ: string): Stats
  {
    if typ in stats then stats[typ] else Stats(0, 0, 0)
  }

  lemma AtPut(stats: map<string, Stats>, t: string, v: Stats, typ: string)
    ensures At(stats[t := v], typ) == if typ == t then v else At(stats, typ)
  {
  }

  ghost predicate TypeStatsAre(stats: map<string, Stats>, statuses: Statuses, keys: set<string>)
  {
    && stats.Keys == TypesIn(statuses, keys)
    && forall typ :: At(stats, typ) == StatsOf(statuses, OfType(statuses, keys, typ))
  }

  lemma TypesInOneMore(statuses: Statuses, keys: set<string>, k: string)
    requires k in statuses
    ensures TypesIn(statuses, keys + {k}) == TypesIn(statuses, keys) + {statuses[k].typ}
  {
  }

  lemma TypeStatsAt(stats: map<string, Stats>, statuses: Statuses, keys: set<string>, k: string, typ: string)
    requires k in statuses && k !in keys && At(stats, typ) == StatsOf(statuses, OfType(statuses, keys, typ))
    ensures At(stats[statuses[k].typ := Counted(At(stats, statuses[k].typ), statuses[k].connected)], typ)
         == StatsOf(statuses, OfType(statuses, keys + {k}, typ))
  {
    OfTypeOneMore(statuses, keys, k, typ);
    AtPut(stats, statuses[k].typ, Counted(At(stats, statuses[k].typ), statuses[k].connected), typ);
  }

  lemma TypeStatsOneMore(stats: map<string, Stats>, statuses: Statuses, keys: set<string>, k: string)
    requires k in statuses && k !in keys && TypeStatsAre(stats, statuses, keys)
    ensures TypeStatsAre(stats[statuses[k].typ := Counted(At(stats, statuses[k].typ), statuses[k].connected)],
                         statuses, keys + {k})
  {
    var more := stats[statuses[k].typ := Counted(At(stats, statuses[k].typ), statuses[k].connected)];
    TypesInOneMore(statuses, keys, k);
    forall typ
      ensures At(more, typ) == StatsOf(statuses, OfType(statuses, keys + {k}, typ))
    {
      TypeStatsAt(stats, statuses, keys, k, typ);
    }
  }

  method CalculateTypeStatistics(statuses: Statuses) returns (stats: map<string, Stats>)
    ensures stats == TypeStatsOf(statuses, statuses.Keys)
  {
    stats := map[];
    var done: set<string> := {};
    forall typ
      ensures StatsOf(statuses, OfType(statuses, {}, typ)) == Stats(0, 0, 0)
    {
      NoneOfType(statuses, {}, typ);
    }
    while done != statuses.Keys
      invariant done <= statuses.Keys
      invariant TypeStatsAre(stats, statuses, done)
      decreases statuses.Keys - done
    {
      var k :| k in statuses.Keys && k !in done;
      TypeStatsOneMore(stats, statuses, done, k);
      stats := stats[statuses[k].typ := Counted(At(stats, statuses[k].typ), statuses[k].connected)];
      done := done + {k};
    }
    TypeStatsAreThose(stats, statuses, done);
  }

  lemma TypeStatsAreThose(stats: map<string, Stats>, statuses: Statuses, keys: set<string>)
    requires TypeStatsAre(stats, statuses, keys)
    ensures stats == TypeStatsOf(statuses, keys)
  {
    forall typ | typ in stats
      ensures stats[typ] == StatsOf(statuses, OfType(statuses, keys, typ))
    {
      assert stats[typ] == At(stats, typ);
    }
  }

  // ---------- The figures of the types sum to the figures for all ----------

  function AddStats(a: Stats, b: Stats): Stats
  {
    Stats(a.total + b.total, a.available + b.available, a.unavailable + b.unavailable)
  }

  lemma AddStatsCommute(a: Stats, b: Stats, c: Stats)
    ensures AddStats(AddStats(a, b), c) == AddStats(AddStats(a, c), b)
  {
  }

  /** The sum of the figures of the types, added in any order. */
  ghost function SumStats(stats: map<string, Stats>): Stats
    decreases |stats|
  {
    if stats == map[] then Stats(0, 0, 0)
    else
      var typ :| typ in stats;
      AddStats(SumStats(stats - {typ}), stats[typ])
  }

  lemma {:induction false} SumStatsTake(stats: map<string, Stats>, typ: string)
    requires typ in stats
    ensures SumStats(stats) == AddStats(SumStats(stats - {typ}), stats[typ])
    decreases |stats|
  {
    var t :| t in stats && SumStats(stats) == AddStats(SumStats(stats - {t}), stats[t]);
    if t != typ {
      SumStatsTake(stats - {t}, typ);
      SumStatsTake(stats - {typ}, t);
      assert stats - {t} - {typ} == stats - {typ} - {t};
      var rest := SumStats(stats - {t} - {typ});
      assert SumStats(stats - {t}) == AddStats(rest, stats[typ]);
      assert SumStats(stats - {typ}) == AddStats(rest, stats[t]);
      AddStatsCommute(rest, stats[t], stats[typ]);
    }
  }

  /** Counting one more database counts it once in the sum. */
  lemma SumStatsOneMore(stats: map<string, Stats>, typ: string, connected: bool)
    ensures SumStats(stats[typ := Counted(At(stats, typ), connected)]) == Counted(SumStats(stats), connected)
  {
    var more := stats[typ := Counted(At(stats, typ), connected)];
    SumStatsTake(more, typ);
    assert more - {typ} == stats - {typ};
    if typ in stats {
      SumStatsTake(stats, typ);
    } else {
      assert stats - {typ} == stats;
    }
  }

  lemma TypeStatsPut(statuses: Statuses, rest: set<string>, k: string)
    requires k in statuses && k !in rest
    ensures var stats := TypeStatsOf(statuses, rest);
            TypeStatsOf(statuses, rest + {k}) == stats[statuses[k].typ := Counted(At(stats, statuses[k].typ), statuses[k].connected)]
  {
    var stats := TypeStatsOf(statuses, rest);
    ThoseAreTypeStats(statuses, rest);
    TypeStatsOneMore(stats, statuses, rest, k);
    TypeStatsAreThose(stats[statuses[k].typ := Counted(At(stats, statuses[k].typ), statuses[k].connected)],
                      statuses, rest + {k});
  }

  lemma {:induction false} SumOfSome(statuses: Statuses, keys: set<string>)
    requires keys <= statuses.Keys
    ensures SumStats(TypeStatsOf(statuses, keys)) == StatsOf(statuses, keys)
    decreases keys
  {
    if keys == {} {
      StatsOfNone(statuses);
      assert TypeStatsOf(statuses, keys) == map[];
    } else {
      var k :| k in keys;
      var rest := keys - {k};
      SumOfSome(statuses, rest);
      assert rest + {k} == keys;
      TypeStatsPut(statuses, rest, k);
      SumStatsOneMore(TypeStatsOf(statuses, rest), statuses[k].typ, statuses[k].connected);
      StatsOfOneMore(statuses, rest, k);
    }
  }

  lemma ThoseAreTypeStats(statuses: Statuses, keys: set<string>)
    ensures TypeStatsAre(TypeStatsOf(statuses, keys), statuses, keys)
  {
    forall typ | typ !in TypesIn(statuses, keys)
      ensures StatsOf(statuses, OfType(statuses, keys, typ)) == Stats(0, 0, 0)
    {
      NoneOfType(statuses, keys, typ);
    }
  }

  /** The figures of the types sum to the figures for all. */
  lemma TypesSumToAll(statuses: Statuses)
    ensures SumStats(TypeStatsOf(statuses, statuses.Keys)) == StatsOf(statuses, statuses.Keys)
  {
    SumOfSome(statuses, statuses.Keys);
  }

  // ---------- The collector ----------

  /** What one collection emits: a line per database, the figures of every type, and those for all. */
  datatype Emission = Emission(databases: Statuses, types: map<string, Stats>, all: Stats)

  class Collector {
    var statuses: Statuses
    var stats: Stats

    ghost predicate Valid()
      reads this
    {
      stats == StatsOf(statuses, statuses.Keys)
    }

    constructor ()
      ensures Valid() && statuses == map[]
    {
      statuses, stats := map[], Stats(0, 0, 0);
      StatsOfNone(map[]);
    }

    /**
      One poll, with the run of the pool it waits for: the statuses received and the counts replace the
      old ones together, and cover all tasks unless a launcher gave up.
     */
    method Poll(plan: Plan, received: seq<Status>,
                ghost states: seq<State>, ghost events: seq<Event>, ghost connected: nat -> bool)
      requires Run(plan, states, events) && states[|events|].over
      requires received == Received(plan, states[|events|].log, connected)
      modifies this
      ensures Valid() && statuses == StatusMap(received) && FromChecks(plan, statuses, connected)
      ensures states[|events|].gaveUp == {} ==> forall k :: k in statuses <==> k in TaskKeys(plan)
    {
      var newStatus := CollectStatuses(received);
      var newStats := CalculateStatistics(newStatus);
      statuses, stats := newStatus, newStats;
      LoggedAreTasks(plan, states, events, |events|);
      MapFromChecks(plan, states[|events|].log, connected);
      if states[|events|].gaveUp == {} {
        PollCoversTasks(plan, states, events, connected);
      }
    }

    /** At every collection the figures fit the databases, and those of the types sum to those for all. */
    method Collect() returns (e: Emission)
      requires Valid()
      ensures e.databases == statuses
      ensures e.all == StatsOf(statuses, statuses.Keys) && e.all.available + e.all.unavailable == e.all.total
      ensures e.types == TypeStatsOf(statuses, statuses.Keys) && SumStats(e.types) == e.all
    {
      var types := CalculateTypeStatistics(statuses);
      TypesSumToAll(statuses);
      StatsAddUp(statuses, statuses.Keys);
      e := Emission(statuses, types, stats);
    }
  }
}
