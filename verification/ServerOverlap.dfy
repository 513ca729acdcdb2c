/** Reloads and shutdowns that overlap in any way: what is kept even so, and when exactly the rest is not. */
module ServerOverlap {
  import opened Wrappers
  import opened Registry
  import opened Server
  import opened ServerReload

  // ---------- Over all runs ----------

  /** What holds however reload and shutdown overlap. */
  ghost predicate Weak(s: State)
  {
    && Distinct(s.collectors, 0, s.born)
    && (forall i | i in s.started :: i.id < s.born)
    && (forall e | e in s.electors :: e < s.bred)
    && (s.op.Unstarted? ==> s.started == {} && s.electors == map[])
  }

  lemma StepNumbersElectors(s: State, event: Event)
    requires Enabled(s, event) && forall e | e in s.electors :: e < s.bred
    ensures forall e | e in Step(s, event).electors :: e < Step(s, event).bred
  {
  }

  lemma StepStartsCurrent(s: State, event: Event)
    requires Enabled(s, event)
    ensures Step(s, event).started <= s.started + Select(s.collectors, None)
  {
  }

  lemma StepKeepsWeak(s: State, event: Event)
    requires Weak(s) && Enabled(s, event)
    ensures Weak(Step(s, event))
  {
    StepNumbersElectors(s, event);
    StepStartsCurrent(s, event);
  }

  lemma {:induction false} RunKeepsWeak(states: seq<State>, events: seq<Event>, i: nat)
    requires Run(states, events) && i < |states|
    ensures Weak(states[i])
  {
    if i > 0 {
      RunKeepsWeak(states, events, i - 1);
      var s, event := states[i - 1], events[i - 1];
      assert Enabled(s, event) && states[i - 1 + 1] == Step(s, event);
      StepKeepsWeak(s, event);
    }
  }

  lemma StepKeepsDone(s: State, event: Event, e: nat)
    requires Weak(s) && Enabled(s, event) && e in s.electors && !Live(s, e)
    ensures e in Step(s, event).electors && !Live(Step(s, event), e)
  {
  }

  /** An elector that is done stays done, so waiting is over after one end for each. */
  lemma {:induction false} DoneStaysDone(states: seq<State>, events: seq<Event>, i: nat, k: nat, e: nat)
    requires Run(states, events) && i <= k < |states|
    requires e in states[i].electors && !Live(states[i], e)
    ensures e in states[k].electors && !Live(states[k], e)
    decreases k
  {
    if i < k {
      DoneStaysDone(states, events, i, k - 1, e);
      RunKeepsWeak(states, events, k - 1);
      assert Enabled(states[k - 1], events[k - 1]) && states[k - 1 + 1] == Step(states[k - 1], events[k - 1]);
      StepKeepsDone(states[k - 1], events[k - 1], e);
    }
  }

  ghost predicate Current(s: State)
  {
    s.started <= Select(s.collectors, None)
  }

  /** Started, but no longer in the registry, where nothing can stop it. */
  ghost predicate Dropped(s: State, c: Instance)
  {
    c in s.started && c !in Select(s.collectors, None)
  }

  lemma StepKeepsDropped(s: State, event: Event, c: Instance)
    requires Weak(s) && Enabled(s, event) && Dropped(s, c)
    ensures Dropped(Step(s, event), c)
  {
    assert Select(s.collectors, Some(false)) <= Select(s.collectors, None);
  }

  /** An instance that was dropped while started is never stopped, by any later reload or shutdown. */
  lemma {:induction false} DroppedStaysStarted(states: seq<State>, events: seq<Event>, i: nat, k: nat, c: Instance)
    requires Run(states, events) && i <= k < |states| && Dropped(states[i], c)
    ensures Dropped(states[k], c)
    decreases k
  {
    if i < k {
      DroppedStaysStarted(states, events, i, k - 1, c);
      RunKeepsWeak(states, events, k - 1);
      assert Enabled(states[k - 1], events[k - 1]) && states[k - 1 + 1] == Step(states[k - 1], events[k - 1]);
      StepKeepsDropped(states[k - 1], events[k - 1], c);
    }
  }

  lemma StepKeepsCurrent(s: State, event: Event)
    requires Weak(s) && Enabled(s, event) && Current(s)
    requires event.Recreate? ==> s.started == {}
    ensures Current(Step(s, event))
  {
  }

  lemma {:induction false} CurrentUpTo(states: seq<State>, events: seq<Event>, k: nat)
    requires Run(states, events) && k < |states|
    requires forall i | 0 <= i < k && events[i].Recreate? :: states[i].started == {}
    ensures Current(states[k])
  {
    if k > 0 {
      CurrentUpTo(states, events, k - 1);
      RunKeepsWeak(states, events, k - 1);
      assert Enabled(states[k - 1], events[k - 1]) && states[k - 1 + 1] == Step(states[k - 1], events[k - 1]);
      StepKeepsCurrent(states[k - 1], events[k - 1]);
    }
  }

  /** At any point of any run, all that is started is in the registry iff no replacement found anything started. */
  lemma CurrentIff(states: seq<State>, events: seq<Event>, k: nat)
    requires Run(states, events) && k < |states|
    ensures Current(states[k]) <==> forall i | 0 <= i < k && events[i].Recreate? :: states[i].started == {}
  {
    if i :| 0 <= i < k && events[i].Recreate? && states[i].started != {} {
      RunKeepsWeak(states, events, i);
      assert Enabled(states[i], events[i]) && states[i + 1] == Step(states[i], events[i]);
      var c :| c in states[i].started;
      assert Dropped(states[i + 1], c);
      DroppedStaysStarted(states, events, i + 1, k, c);
    } else {
      CurrentUpTo(states, events, k);
    }
  }

  // ---------- What may follow a state ----------

  /** The state that a list of events leads to. */
  function After(s: State, events: seq<Event>): State
  {
    if events == [] then s else Step(After(s, events[..|events| - 1]), events[|events| - 1])
  }

  /** Events each of which may happen when it comes. */
  ghost predicate Possible(s: State, events: seq<Event>)
  {
    events == []
    || (Possible(s, events[..|events| - 1]) && Enabled(After(s, events[..|events| - 1]), events[|events| - 1]))
  }

  lemma Then(s: State, events: seq<Event>, event: Event)
    requires Possible(s, events) && Enabled(After(s, events), event)
    ensures Possible(s, events + [event]) && After(s, events + [event]) == Step(After(s, events), event)
  {
    assert (events + [event])[..|events + [event]| - 1] == events;
  }

  lemma RunThen(states: seq<State>, events: seq<Event>, event: Event)
    requires Run(states, events) && Enabled(states[|events|], event)
    ensures Run(states + [Step(states[|events|], event)], events + [event])
  {
    var more, all := states + [Step(states[|events|], event)], events + [event];
    forall i | 0 <= i < |all|
      ensures Enabled(more[i], all[i]) && more[i + 1] == Step(more[i], all[i])
    {
      if i < |events| {
        assert all[i] == events[i];
      }
    }
  }

  lemma Further(states: seq<State>, events: seq<Event>, event: Event) returns (moreStates: seq<State>, more: seq<Event>)
    requires Run(states, events) && Enabled(states[|events|], event)
    ensures Run(moreStates, more) && states < moreStates && more == events + [event]
    ensures moreStates[|more|] == Step(states[|events|], event)
  {
    RunThen(states, events, event);
    moreStates, more := states + [Step(states[|events|], event)], events + [event];
  }

  /** What may follow the last state of a run continues the run. */
  lemma {:induction false} Continues(states: seq<State>, events: seq<Event>, more: seq<Event>)
    returns (longer: seq<State>)
    requires Run(states, events) && Possible(states[|events|], more)
    ensures Run(longer, events + more) && states <= longer
    ensures longer[|events + more|] == After(states[|events|], more)
  {
    if more == [] {
      longer := states;
      assert events + more == events;
    } else {
      var n := |more| - 1;
      longer := Continues(states, events, more[..n]);
      assert events + more == (events + more[..n]) + [more[n]];
      var all: seq<Event>;
      longer, all := Further(longer, events + more[..n], more[n]);
    }
  }

  // ---------- Shutdown ----------

  ghost predicate NoReload(events: seq<Event>)
  {
    forall i | 0 <= i < |events| :: !events[i].BeginReload?
  }

  /** Neither Init nor a reload is under way, or what is left of it has nothing to start and nobody to wait for. */
  ghost predicate Settled(s: State)
  {
    || s.op.Idle?
    || (s.op.Created? && s.collectors == map[])
    || (s.op.Electing? && s.op.left == [] && NoneLive(s))
    || (s.op.Aborting? && NoneLive(s))
  }

  /** What shutdown leads to from a settled state, until a reload begins. */
  ghost predicate WindingDown(s: State)
  {
    && Inv(s) && Settled(s)
    && match s.down
       case Up => false
       case DownWaiting(taken) => s.election && forall e | Live(s, e) :: e in taken
       case Over => AtRest(s)
  }

  lemma ShutdownWindsDown(s: State)
    requires Inv(s) && Enabled(s, BeginShutdown) && Settled(s)
    ensures WindingDown(Step(s, BeginShutdown))
  {
    var t := Step(s, BeginShutdown);
    StepKeepsInv(s, BeginShutdown);
    assert forall e :: Live(t, e) <==> Live(s, e);
    if t.down.Over? {
      assert AtRest(t);
    }
  }

  lemma StaysSettled(s: State, event: Event)
    requires WindingDown(s) && Enabled(s, event) && !event.BeginReload?
    ensures Settled(Step(s, event)) && !(event.MakeElector? && event.made)
  {
    NoneComesAlive(s, event);
    if event.Launch? && event.client.Some? {
      NoLeaderNames(event.client.value);
    }
  }

  lemma NothingStarts(s: State, event: Event)
    requires Settled(s) && AtRest(s) && Enabled(s, event) && !event.BeginReload?
    ensures Step(s, event).started == {}
  {
    assert event.Lead? ==> Live(s, event.e);
    assert s.collectors == map[] ==> Select(s.collectors, None) == {};
  }

  lemma StaysWindingDown(s: State, event: Event)
    requires WindingDown(s) && Enabled(s, event) && !event.BeginReload?
    ensures WindingDown(Step(s, event))
  {
    StepKeepsInv(s, event);
    NoneComesAlive(s, event);
    StaysSettled(s, event);
    if event.FinishShutdown? {
      FinishRests(s);
    } else if s.down.Over? {
      NothingStarts(s, event);
    }
  }

  /** Only making an elector adds a live one. */
  lemma NoneComesAlive(s: State, event: Event)
    requires Enabled(s, event)
    ensures forall e | Live(Step(s, event), e) :: Live(s, e) || (event.MakeElector? && event.made && e == s.bred)
  {
  }

  lemma NoLeaderNames(names: seq<string>)
    ensures LeaderNames(map[], names) ==> names == []
  {
    if names != [] {
      assert names[0] in names;
    }
  }

  lemma FinishRests(s: State)
    requires WindingDown(s) && Enabled(s, FinishShutdown)
    ensures AtRest(Step(s, FinishShutdown))
  {
    var t := Step(s, FinishShutdown);
    forall e
      ensures !Live(s, e) && !Live(t, e)
    {
    }
    forall i | i in t.started
      ensures false
    {
      assert i in s.started && i in Select(s.collectors, None) && i !in Select(s.collectors, Some(false));
      var e :| Leads(s, e, i);
      assert Live(s, e);
    }
  }

  /** A way for something to run after Shutdown is over, without a new reload. */
  ghost predicate RunsAgain(s: State, more: seq<Event>)
  {
    Possible(s, more) && NoReload(more) && After(s, more).down.Over? && !AtRest(After(s, more))
  }

  lemma {:induction false} WindsDownThroughout(s: State, more: seq<Event>)
    requires WindingDown(s) && Possible(s, more) && NoReload(more)
    ensures WindingDown(After(s, more))
  {
    if more != [] {
      var n := |more| - 1;
      WindsDownThroughout(s, more[..n]);
      StaysWindingDown(After(s, more[..n]), more[n]);
    }
  }

  lemma RunsFromElecting(s: State, before: seq<Event>) returns (more: seq<Event>)
    requires Possible(s, before) && NoReload(before) && After(s, before).down.Over?
    requires After(s, before).op.Electing? && After(s, before).op.left != []
    ensures RunsAgain(s, more)
  {
    var u := After(s, before);
    more := before + [MakeElector(true)];
    Then(s, before, MakeElector(true));
    assert Live(Step(u, MakeElector(true)), u.bred);
  }

  lemma RunsFromCreated(s: State, before: seq<Event>) returns (more: seq<Event>)
    requires Possible(s, before) && NoReload(before) && After(s, before).down.Over?
    requires After(s, before).op.Created? && After(s, before).collectors != map[]
    ensures RunsAgain(s, more)
  {
    var u := After(s, before);
    var n :| n in u.collectors;
    if u.election && u.collectors[n].leader {
      LeaderManagedOnce(u.collectors);
      var launch := Launch({}, Some(LeaderManaged(u.collectors)));
      Then(s, before, launch);
      assert n in LeaderManaged(u.collectors);
      more := RunsFromElecting(s, before + [launch]);
    } else {
      var c := u.collectors[n];
      more := before + [Launch({c}, None)];
      Then(s, before, Launch({c}, None));
      assert c in Step(u, Launch({c}, None)).started;
    }
  }

  lemma RunsFromConfigured(s: State, before: seq<Event>) returns (more: seq<Event>)
    requires Possible(s, before) && NoReload(before) && After(s, before).down.Over?
    requires After(s, before).op.Configured?
    ensures RunsAgain(s, more)
  {
    var u := After(s, before);
    var recreate := Recreate(map["" := Instance(u.born, false)], u.born + 1);
    Then(s, before, recreate);
    assert "" in After(s, before + [recreate]).collectors;
    more := RunsFromCreated(s, before + [recreate]);
  }

  lemma RunsFromQuiet(s: State, before: seq<Event>) returns (more: seq<Event>)
    requires Possible(s, before) && NoReload(before) && After(s, before).down.Over?
    requires After(s, before).op.Quiet?
    ensures RunsAgain(s, more)
  {
    Then(s, before, Configure(false));
    more := RunsFromConfigured(s, before + [Configure(false)]);
  }

  lemma RunsFromWaiting(s: State, before: seq<Event>) returns (more: seq<Event>)
    requires Possible(s, before) && NoReload(before) && After(s, before).down.Over?
    requires After(s, before).op.Waiting?
    ensures RunsAgain(s, more)
  {
    var u := After(s, before);
    if AllDone(u, u.op.taken) {
      Then(s, before, FinishStop);
      more := RunsFromQuiet(s, before + [FinishStop]);
    } else {
      more := before;
    }
  }

  lemma RunsFromUnsettled(s: State, before: seq<Event>) returns (more: seq<Event>)
    requires Possible(s, before) && NoReload(before)
    requires After(s, before).down.Over? && !After(s, before).op.Unstarted? && !Settled(After(s, before))
    ensures RunsAgain(s, more)
  {
    match After(s, before).op {
      case Waiting(_) => more := RunsFromWaiting(s, before);
      case Quiet => more := RunsFromQuiet(s, before);
      case Configured => more := RunsFromConfigured(s, before);
      case Created => more := RunsFromCreated(s, before);
      case Electing(left, _) =>
        if left != [] {
          more := RunsFromElecting(s, before);
        } else {
          more := before;
        }
      case Aborting(_) => more := before;
    }
  }

  lemma UnsettledRuns(s: State) returns (more: seq<Event>)
    requires Inv(s) && Enabled(s, BeginShutdown) && !Settled(s)
    ensures RunsAgain(Step(s, BeginShutdown), more)
  {
    var t := Step(s, BeginShutdown);
    assert forall e :: Live(t, e) <==> Live(s, e);
    if s.election {
      Then(t, [], FinishShutdown);
      assert forall e :: Live(Step(t, FinishShutdown), e) <==> Live(s, e);
      more := RunsFromUnsettled(t, [FinishShutdown]);
    } else {
      more := RunsFromUnsettled(t, []);
    }
  }

  lemma {:induction false} UpBefore(states: seq<State>, events: seq<Event>, i: nat, k: nat)
    requires Run(states, events) && i <= k < |states| && states[k].down.Up?
    ensures states[i].down.Up?
    decreases k
  {
    if i < k {
      assert Enabled(states[k - 1], events[k - 1]) && states[k - 1 + 1] == Step(states[k - 1], events[k - 1]);
      UpBefore(states, events, i, k - 1);
    }
  }

  lemma InvWhileUp(states: seq<State>, events: seq<Event>, k: nat)
    requires Run(states, events) && k < |states| && states[k].down.Up?
    ensures Inv(states[k])
  {
    forall j | 0 <= j < k
      ensures TurnAllows(states[j], events[j])
    {
      UpBefore(states, events, j, k);
    }
    RunKeepsInv(states, events, k);
  }

  /**
    Wherever Shutdown begins: nothing will run once it is over, until a new reload begins, exactly when
    the state is settled.
   */
  lemma AtRestAfterShutdownIff(states: seq<State>, events: seq<Event>, k: nat)
    requires Run(states, events) && k < |states| && Enabled(states[k], BeginShutdown)
    ensures (forall more :: !RunsAgain(Step(states[k], BeginShutdown), more)) <==> Settled(states[k])
  {
    InvWhileUp(states, events, k);
    var t := Step(states[k], BeginShutdown);
    if Settled(states[k]) {
      ShutdownWindsDown(states[k]);
      forall more | Possible(t, more) && NoReload(more)
        ensures !RunsAgain(t, more)
      {
        WindsDownThroughout(t, more);
      }
    } else {
      var more := UnsettledRuns(states[k]);
    }
  }

  /** A reload that begins after Shutdown is over can always bring collectors up again. */
  lemma ReloadRunsAgain(s: State) returns (more: seq<Event>)
    requires s.op.Idle? && s.down.Over? && AtRest(s)
    ensures RunsAgain(Step(s, BeginReload), more)
  {
    var t := Step(s, BeginReload);
    if s.election {
      more := RunsFromWaiting(t, []);
    } else {
      more := RunsFromQuiet(t, []);
    }
  }

  // ---------- Runs that show the failures ----------

  const OLD := Instance(0, true)
  const NEW := Instance(1, true)

  lemma SelectOne(name: string, c: Instance)
    ensures Select(map[name := c], None) == {c}
    ensures Select(map[name := c], Some(c.leader)) == {c} && Select(map[name := c], Some(!c.leader)) == {}
  {
    assert name in map[name := c];
  }

  const QUIET := State(false, map["node" := OLD], 1, {}, map[], 0, {}, Quiet, Up)

  lemma QuietRun() returns (states: seq<State>, events: seq<Event>)
    ensures Run(states, events) && |events| == 3 && events[2].BeginReload? && states[3] == QUIET
  {
    SelectOne("node", OLD);
    states, events := Further([INITIAL], [], Init(false, map["node" := OLD], 1));
    states, events := Further(states, events, Launch({OLD}, None));
    states, events := Further(states, events, BeginReload);
  }

  /** A Shutdown that begins in the middle of a Reload and is over before the new collectors are started. */
  lemma ShutdownInReload() returns (states: seq<State>, events: seq<Event>)
    ensures Run(states, events) && |events| == 7 && events[2].BeginReload? && events[3].BeginShutdown?
    ensures states[4].down.Over? && AtRest(states[4]) && NoReload(events[4..])
    ensures states[7].down.Over? && states[7].started == {NEW}
  {
    states, events := QuietRun();
    SelectOne("node", NEW);
    states, events := Further(states, events, BeginShutdown);
    states, events := Further(states, events, Configure(false));
    states, events := Further(states, events, Recreate(map["node" := NEW], 2));
    states, events := Further(states, events, Launch({NEW}, None));
  }

  const ELECTING := State(true, map["node" := OLD], 1, {}, map[], 0, {}, Electing(["node"], {}), Up)

  const LED := State(true, map["node" := OLD], 1, {OLD}, map[0 := Elector("node", Leading, false)], 1, {0}, Idle, Up)

  const OVERTAKEN := State(true, map["node" := OLD], 1, {OLD}, map[0 := Elector("node", Leading, true)], 1, {},
                           Waiting({}), DownWaiting({0}))

  const DROPPED := State(true, map["node" := NEW], 2, {OLD}, map[0 := Elector("node", Leading, true)], 1, {},
                         Created, DownWaiting({0}))

  lemma ElectingRun() returns (states: seq<State>, events: seq<Event>)
    ensures Run(states, events) && |events| == 2 && states[2] == ELECTING
  {
    SelectOne("node", OLD);
    states, events := Further([INITIAL], [], Init(true, map["node" := OLD], 1));
    states, events := Further(states, events, Launch({}, Some(["node"])));
  }

  lemma LedRun() returns (states: seq<State>, events: seq<Event>)
    ensures Run(states, events) && |events| == 5 && states[5] == LED
  {
    states, events := ElectingRun();
    states, events := Further(states, events, MakeElector(true));
    states, events := Further(states, events, Publish);
    states, events := Further(states, events, Lead(0, true));
  }

  lemma OvertakenRun() returns (states: seq<State>, events: seq<Event>)
    ensures Run(states, events) && |events| == 7 && events[5].BeginShutdown? && events[6].BeginReload?
    ensures states[7] == OVERTAKEN
  {
    states, events := LedRun();
    states, events := Further(states, events, BeginShutdown);
    states, events := Further(states, events, BeginReload);
  }

  lemma DroppedRun() returns (states: seq<State>, events: seq<Event>)
    ensures Run(states, events) && |events| == 10 && events[5].BeginShutdown? && events[6].BeginReload?
    ensures states[10] == DROPPED
  {
    states, events := OvertakenRun();
    SelectOne("node", OLD);
    states, events := Further(states, events, FinishStop);
    states, events := Further(states, events, Configure(true));
    states, events := Further(states, events, Recreate(map["node" := NEW], 2));
  }

  /**
    A Reload that begins while Shutdown waits for its electors finds no handle to wait for, and drops a
    collector that is still led: it is left started, though its elector ends and Shutdown finishes.
   */
  lemma ReloadInShutdown() returns (states: seq<State>, events: seq<Event>)
    ensures Run(states, events) && |events| == 13 && events[5].BeginShutdown? && events[6].BeginReload?
    ensures Dropped(states[10], OLD)
    ensures states[13].down.Over? && NoneLive(states[13]) && states[13].started == {OLD}
  {
    states, events := DroppedRun();
    SelectOne("node", NEW);
    states, events := Further(states, events, Launch({}, None));
    states, events := Further(states, events, End(0));
    states, events := Further(states, events, FinishShutdown);
  }
}
