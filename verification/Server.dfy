/**
  Hot reload with leader election: the steps of Init, Reload and Shutdown, and of the elector of each
  leader-managed collector, in every order they may come in.
 */
module Server {
  import opened Wrappers
  import opened Registry

  // ---------- States ----------

  /** An elector runs once: it campaigns, may lead, and is done. */
  datatype Phase = Campaigning | Leading | Done

  datatype Elector = Elector(name: string, phase: Phase, cancelled: bool)

  /** Where the server is in Init or Reload, which never overlap. */
  datatype Operation =
    | Unstarted
    | Idle
    | Waiting(taken: set<nat>)                          // Reload waits for the electors it cancelled
    | Quiet                                             // Reload has stopped the old collectors
    | Configured                                        // the new configuration is in force
    | Created                                           // new collectors are made and none is started
    | Electing(left: seq<string>, made: set<nat>)       // electors are made one by one
    | Aborting(taken: set<nat>)                         // making an elector failed; those made are waited for

  datatype Shutdown = Up | DownWaiting(taken: set<nat>) | Over

  datatype State = State(
    election: bool,
    collectors: Collectors,
    born: nat,
    started: set<Instance>,
    electors: map<nat, Elector>,
    bred: nat,
    handles: set<nat>,
    op: Operation,
    down: Shutdown)

  const INITIAL := State(false, map[], 0, {}, map[], 0, {}, Unstarted, Up)

  predicate Live(s: State, e: nat)
  {
    e in s.electors && s.electors[e].phase != Done
  }

  predicate AllDone(s: State, taken: set<nat>)
  {
    forall e | e in taken :: !Live(s, e)
  }

  function CancelAll(electors: map<nat, Elector>, taken: set<nat>): map<nat, Elector>
  {
    map e | e in electors :: if e in taken then electors[e].(cancelled := true) else electors[e]
  }

  // ---------- Steps ----------

  datatype Event =
    | Init(election: bool, collectors: Collectors, born: nat)
    | BeginReload
    | FinishStop
    | Configure(election: bool)
    | Recreate(collectors: Collectors, born: nat)
    | Launch(ok: set<Instance>, client: Option<seq<string>>)
    | MakeElector(made: bool)
    | Publish
    | Aborted
    | Lead(e: nat, starts: bool)
    | End(e: nat)
    | BeginShutdown
    | FinishShutdown

  /** When an event may happen; Reload and Shutdown may overlap here. */
  ghost predicate Enabled(s: State, event: Event)
  {
    match event
    case Init(_, collectors, born) => s.op.Unstarted? && s.down.Up? && NewCollectors(s, collectors, born)
    case BeginReload => s.op.Idle?
    case FinishStop => s.op.Waiting? && AllDone(s, s.op.taken)
    case Configure(_) => s.op.Quiet?
    case Recreate(collectors, born) => s.op.Configured? && NewCollectors(s, collectors, born)
    case Launch(_, client) => s.op.Created? && (client.Some? ==> LeaderNames(s.collectors, client.value))
    case MakeElector(_) => s.op.Electing? && s.op.left != []
    case Publish => s.op.Electing? && s.op.left == []
    case Aborted => s.op.Aborting? && AllDone(s, s.op.taken)
    case Lead(e, _) => e in s.electors && s.electors[e].phase == Campaigning
    case End(e) => Live(s, e)
    case BeginShutdown => s.down.Up? && !s.op.Unstarted?
    case FinishShutdown => s.down.DownWaiting? && AllDone(s, s.down.taken)
  }

  /** Collectors as Initialize and Reinitialize make them: instances that have not been before. */
  ghost predicate NewCollectors(s: State, collectors: Collectors, born: nat)
  {
    born >= s.born && Distinct(collectors, s.born, born)
  }

  /** The names of the leader-managed collectors, each once. */
  ghost predicate LeaderNames(collectors: Collectors, names: seq<string>)
  {
    && (forall i, j :: 0 <= i < j < |names| ==> names[i] != names[j])
    && forall n :: n in names <==> n in collectors && collectors[n].leader
  }

  /** Stopping by the configuration in force: electors first, or all collectors at once without election. */
  function Step(s: State, event: Event): State
  {
    match event
    case Init(election, collectors, born) =>
      s.(election := election, collectors := collectors, born := born, op := Created)
    case BeginReload =>
      if s.election then
        s.(electors := CancelAll(s.electors, s.handles), handles := {}, op := Waiting(s.handles))
      else
        s.(started := StoppedAfter(s.collectors, s.started, None), op := Quiet)
    case FinishStop =>
      s.(started := StoppedAfter(s.collectors, s.started, Some(false)), op := Quiet)
    case Configure(election) =>
      s.(election := election, op := Configured)
    case Recreate(collectors, born) =>
      s.(collectors := collectors, born := born, op := Created)
    case Launch(ok, client) =>
      if !s.election then
        s.(started := StartedAfter(s.collectors, s.started, None, ok), op := Idle)
      else
        s.(started := StartedAfter(s.collectors, s.started, Some(false), ok),
           op := if client.Some? then Electing(client.value, {}) else Idle)
    case MakeElector(made) =>
      if !(s.op.Electing? && s.op.left != []) then s
      else if made then
        s.(electors := s.electors[s.bred := Elector(s.op.left[0], Campaigning, false)], bred := s.bred + 1,
           op := Electing(s.op.left[1..], s.op.made + {s.bred}))
      else
        s.(electors := CancelAll(s.electors, s.op.made), op := Aborting(s.op.made))
    case Publish =>
      if s.op.Electing? then s.(handles := s.op.made, op := Idle) else s
    case Aborted => s.(op := Idle)
    case Lead(e, starts) =>
      if e !in s.electors then s
      else s.(electors := s.electors[e := s.electors[e].(phase := Leading)],
              started := StartedOne(s.collectors, s.started, s.electors[e].name, starts))
    case End(e) =>
      if e !in s.electors then s
      else s.(electors := s.electors[e := s.electors[e].(phase := Done)],
              started := StoppedOne(s.collectors, s.started, s.electors[e].name))
    case BeginShutdown =>
      if s.election then
        s.(electors := CancelAll(s.electors, s.handles), handles := {}, down := DownWaiting(s.handles))
      else
        s.(started := StoppedAfter(s.collectors, s.started, None), down := Over)
    case FinishShutdown =>
      s.(started := StoppedAfter(s.collectors, s.started, Some(false)), down := Over)
  }

  ghost predicate Run(states: seq<State>, events: seq<Event>)
  {
    && |states| == |events| + 1 && states[0] == INITIAL
    && forall i {:trigger events[i]} | 0 <= i < |events| ::
         Enabled(states[i], events[i]) && states[i + 1] == Step(states[i], events[i])
  }

  // ---------- The server ----------

  /** The server and its registry; each method is what one caller does without letting go. */
  class Server {
    const registry: Registry
    var election: bool
    var electors: map<nat, Elector>
    var bred: nat
    var handles: set<nat>
    var op: Operation
    var down: Shutdown

    ghost function Now(): State
      reads this, registry
    {
      State(election, registry.collectors, registry.born, registry.started, electors, bred, handles, op, down)
    }

    constructor ()
      ensures Now() == INITIAL && registry.failed == map[] && fresh(registry)
    {
      registry := new Registry();
      election, electors, bred, handles, op, down := false, map[], 0, {}, Unstarted, Up;
    }

    method Init(newElection: bool, enabled: seq<string>, made: seq<Made>)
      requires |enabled| == |made| && op.Unstarted? && down.Up?
      requires registry.collectors == map[] && registry.failed == map[]
      modifies this, registry
      ensures var e := Event.Init(newElection, registry.collectors, registry.born);
              Enabled(old(Now()), e) && Now() == Step(old(Now()), e)
    {
      CreateMakesDistinct(enabled, made, registry.born);
      election := newElection;
      var ok := registry.Initialize(enabled, made);
      op := Created;
    }

    /** The beginning of Reload: the configuration that is still in force says what to stop. */
    method BeginReload()
      requires op.Idle?
      modifies this, registry
      ensures Now() == Step(old(Now()), Event.BeginReload)
    {
      if election {
        var taken := StopLeaderElections();
        op := Waiting(taken);
      } else {
        var errors := registry.StopCollectors(None);
        op := Quiet;
      }
    }

    /** Takes the handles and cancels their electors; the caller waits for them. */
    method StopLeaderElections() returns (taken: set<nat>)
      modifies this`electors, this`handles
      ensures taken == old(handles) && handles == {} && electors == CancelAll(old(electors), taken)
    {
      taken := handles;
      handles := {};
      electors := CancelAll(electors, taken);
    }

    method FinishStop()
      requires op.Waiting? && AllDone(Now(), op.taken)
      modifies this, registry
      ensures Now() == Step(old(Now()), Event.FinishStop)
    {
      var errors := registry.StopCollectors(Some(false));
      op := Quiet;
    }

    method Configure(newElection: bool)
      requires op.Quiet?
      modifies this
      ensures Now() == Step(old(Now()), Event.Configure(newElection))
    {
      election := newElection;
      op := Configured;
    }

    /** The collectors are made anew, and the old ones are dropped. */
    method Recreate(enabled: seq<string>, made: seq<Made>)
      requires |enabled| == |made| && op.Configured?
      modifies this, registry
      ensures var e := Event.Recreate(registry.collectors, registry.born);
              Enabled(old(Now()), e) && Now() == Step(old(Now()), e)
    {
      CreateMakesDistinct(enabled, made, registry.born);
      registry.Reinitialize(enabled, made);
      op := Created;
    }

    /** Starts what can be started at once; `client` says whether electors can be made at all. */
    method StartCollectors(ok: set<Instance>, client: bool)
      requires op.Created?
      modifies this, registry
      ensures var e := Event.Launch(ok, if client then Some(LeaderManaged(registry.collectors)) else None);
              Enabled(old(Now()), e) && Now() == Step(old(Now()), e)
    {
      LeaderManagedOnce(registry.collectors);
      if !election {
        var errors := registry.StartCollectors(None, ok);
        op := Idle;
        return;
      }
      var errors := registry.StartCollectors(Some(false), ok);
      op := if client then Electing(LeaderManaged(registry.collectors), {}) else Idle;
    }

    /** One round of the loop that makes the electors, each running from then on. */
    method MakeElector(made: bool)
      requires op.Electing? && op.left != []
      modifies this
      ensures Now() == Step(old(Now()), Event.MakeElector(made))
    {
      if !made {
        electors := CancelAll(electors, op.made);
        op := Aborting(op.made);
        return;
      }
      electors := electors[bred := Elector(op.left[0], Campaigning, false)];
      op := Electing(op.left[1..], op.made + {bred});
      bred := bred + 1;
    }

    method Publish()
      requires op.Electing? && op.left == []
      modifies this
      ensures Now() == Step(old(Now()), Event.Publish)
    {
      handles := op.made;
      op := Idle;
    }

    method Abort()
      requires op.Aborting? && AllDone(Now(), op.taken)
      modifies this
      ensures Now() == Step(old(Now()), Event.Aborted)
    {
      op := Idle;
    }

    /** An elector acquires its lease and its start callback runs. */
    method Lead(e: nat, starts: bool)
      requires e in electors && electors[e].phase == Campaigning
      modifies this, registry
      ensures Now() == Step(old(Now()), Event.Lead(e, starts))
    {
      electors := electors[e := electors[e].(phase := Leading)];
      var ok := registry.StartCollector(electors[e].name, starts);
    }

    /** An elector loses its lease, is cancelled or fails; its stop callback runs, and it is done. */
    method End(e: nat)
      requires Live(Now(), e)
      modifies this, registry
      ensures Now() == Step(old(Now()), Event.End(e))
    {
      var ok := registry.StopCollector(electors[e].name);
      electors := electors[e := electors[e].(phase := Done)];
    }

    method BeginShutdown()
      requires down.Up? && !op.Unstarted?
      modifies this, registry
      ensures Now() == Step(old(Now()), Event.BeginShutdown)
    {
      if election {
        var taken := StopLeaderElections();
        down := DownWaiting(taken);
      } else {
        var errors := registry.StopCollectors(None);
        down := Over;
      }
    }

    method FinishShutdown()
      requires down.DownWaiting? && AllDone(Now(), down.taken)
      modifies this, registry
      ensures Now() == Step(old(Now()), Event.FinishShutdown)
    {
      var errors := registry.StopCollectors(Some(false));
      down := Over;
    }
  }
}
