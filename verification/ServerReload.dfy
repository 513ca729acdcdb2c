/** What every reload of the server keeps, also one that a shutdown overtakes. */
module ServerReload {
  import opened Wrappers
  import opened Registry
  import opened Server

  // ---------- What every step keeps ----------

  /** The electors that somebody will wait for. */
  function Owned(s: State): set<nat>
  {
    s.handles
    + (match s.op
       case Waiting(taken) => taken
       case Electing(_, made) => made
       case Aborting(taken) => taken
       case _ => {})
    + (if s.down.DownWaiting? then s.down.taken else {})
  }

  /** The electors that an operation has cancelled and waits for. */
  function WaitedFor(s: State): set<nat>
  {
    (if s.op.Waiting? || s.op.Aborting? then s.op.taken else {})
    + (if s.down.DownWaiting? then s.down.taken else {})
  }

  predicate Leads(s: State, e: nat, i: Instance)
  {
    e in s.electors && s.electors[e].phase == Leading
    && s.electors[e].name in s.collectors && s.collectors[s.electors[e].name] == i
  }

  ghost predicate NoneLive(s: State)
  {
    forall e :: !Live(s, e)
  }

  /** Nothing runs. */
  ghost predicate AtRest(s: State)
  {
    s.started == {} && NoneLive(s)
  }

  ghost predicate InvElectors(s: State)
  {
    && (forall e | e in s.electors :: e < s.bred)
    && (forall e | e in Owned(s) :: e in s.electors)
    && (forall e | Live(s, e) :: e in Owned(s) && s.election)
    && (forall e | Live(s, e) :: s.electors[e].name in s.collectors && s.collectors[s.electors[e].name].leader)
    && (forall d, e | Live(s, d) && Live(s, e) && s.electors[d].name == s.electors[e].name :: d == e)
  }

  ghost predicate InvStarted(s: State)
  {
    && Distinct(s.collectors, 0, s.born)
    && s.started <= Select(s.collectors, None)
    && (s.election ==> forall i | i in s.started && i.leader :: exists e :: Leads(s, e, i))
  }

  ghost predicate InvOperation(s: State)
  {
    && (s.op.Unstarted? || s.op.Quiet? || s.op.Configured? || s.op.Created? ==> AtRest(s))
    && (!s.op.Idle? || !s.election ==> s.handles == {})
    && (s.op.Waiting? ==> s.election)
    && (s.op.Electing? ==> s.election && LeftToElect(s, s.op.left))
    && (s.down.DownWaiting? && !s.op.Idle? ==> AllDone(s, s.down.taken))
    && (forall e | e in WaitedFor(s) && e in s.electors :: s.electors[e].cancelled)
  }

  /** Names that are still to get an elector. */
  ghost predicate LeftToElect(s: State, left: seq<string>)
  {
    && (forall i, j :: 0 <= i < j < |left| ==> left[i] != left[j])
    && (forall n | n in left :: n in s.collectors && s.collectors[n].leader)
    && (forall e | Live(s, e) :: s.electors[e].name !in left)
  }

  ghost predicate Inv(s: State)
  {
    InvElectors(s) && InvStarted(s) && InvOperation(s)
  }

  /** No reload begins while a shutdown still waits for an elector. */
  predicate TurnAllows(s: State, event: Event)
  {
    event.BeginReload? && s.down.DownWaiting? ==> AllDone(s, s.down.taken)
  }

  /** What is started stays led when no leader gives up and no collector is replaced. */
  lemma StartedStays(s: State, t: State)
    requires InvStarted(s) && t.started <= s.started
    requires t.collectors == s.collectors && t.born == s.born && t.election == s.election
    requires forall i, e | i in t.started && Leads(s, e, i) :: Leads(t, e, i)
    ensures InvStarted(t)
  {
    if t.election {
      forall i | i in t.started && i.leader
        ensures exists e :: Leads(t, e, i)
      {
        var e :| Leads(s, e, i);
        assert Leads(t, e, i);
      }
    }
  }

  lemma LeadKeepsElectors(s: State, e: nat, starts: bool)
    requires InvElectors(s) && Enabled(s, Lead(e, starts))
    ensures InvElectors(Step(s, Lead(e, starts)))
    ensures forall d :: Live(Step(s, Lead(e, starts)), d) <==> Live(s, d)
  {
    assert Live(s, e);
    assert Owned(Step(s, Lead(e, starts))) == Owned(s);
  }

  lemma LeadKeepsStarted(s: State, e: nat, starts: bool)
    requires InvStarted(s) && Enabled(s, Lead(e, starts)) && s.electors[e].name in s.collectors
    ensures InvStarted(Step(s, Lead(e, starts)))
  {
    var t := Step(s, Lead(e, starts));
    forall i | t.election && i in t.started && i.leader
      ensures exists d :: Leads(t, d, i)
    {
      if i in s.started {
        var d :| Leads(s, d, i);
        assert Leads(t, d, i);
      } else {
        assert Leads(t, e, i);
      }
    }
  }

  lemma LeadKeepsOperation(s: State, e: nat, starts: bool)
    requires InvOperation(s) && Enabled(s, Lead(e, starts))
    ensures InvOperation(Step(s, Lead(e, starts)))
  {
    assert Live(s, e) && forall d :: Live(Step(s, Lead(e, starts)), d) <==> Live(s, d);
    assert WaitedFor(Step(s, Lead(e, starts))) == WaitedFor(s);
  }

  lemma LiveAfterEnd(s: State, e: nat)
    requires Live(s, e)
    ensures forall d :: Live(Step(s, End(e)), d) <==> Live(s, d) && d != e
  {
  }

  lemma EndKeepsElectors(s: State, e: nat)
    requires InvElectors(s) && Live(s, e)
    ensures InvElectors(Step(s, End(e)))
  {
    LiveAfterEnd(s, e);
    assert Owned(Step(s, End(e))) == Owned(s);
  }

  lemma EndKeepsStarted(s: State, e: nat)
    requires InvStarted(s) && Live(s, e) && s.electors[e].name in s.collectors
    ensures InvStarted(Step(s, End(e)))
  {
    StartedStays(s, Step(s, End(e)));
  }

  lemma EndKeepsOperation(s: State, e: nat)
    requires InvOperation(s) && Live(s, e)
    ensures InvOperation(Step(s, End(e)))
  {
    LiveAfterEnd(s, e);
    assert WaitedFor(Step(s, End(e))) == WaitedFor(s);
  }

  /** Beginning to stop by the electors: nobody's phase changes, and all handles are waited for. */
  lemma CancelKeepsElectors(s: State, event: Event)
    requires InvElectors(s) && InvOperation(s) && Enabled(s, event) && s.election
    requires event.BeginReload? || event.BeginShutdown?
    ensures InvElectors(Step(s, event))
    ensures forall d :: Live(Step(s, event), d) <==> Live(s, d)
  {
    assert Owned(Step(s, event)) == Owned(s);
  }

  lemma CancelKeepsStarted(s: State, event: Event)
    requires InvStarted(s) && s.election
    requires event.BeginReload? || event.BeginShutdown?
    ensures InvStarted(Step(s, event))
  {
    StartedStays(s, Step(s, event));
  }

  lemma CancelKeepsOperation(s: State, event: Event)
    requires InvOperation(s) && Enabled(s, event) && TurnAllows(s, event) && s.election
    requires event.BeginReload? || event.BeginShutdown?
    requires forall d :: Live(Step(s, event), d) <==> Live(s, d)
    ensures InvOperation(Step(s, event))
  {
    assert WaitedFor(Step(s, event)) == WaitedFor(s) + s.handles;
  }

  /** Without election everything stops at once. */
  lemma StopAllKeeps(s: State, event: Event)
    requires Inv(s) && Enabled(s, event) && TurnAllows(s, event) && !s.election
    requires event.BeginReload? || event.BeginShutdown?
    ensures Inv(Step(s, event)) && AtRest(Step(s, event))
  {
    var t := Step(s, event);
    forall d
      ensures !Live(s, d) && !Live(t, d)
    {
    }
  }

  lemma FinishStopKeeps(s: State)
    requires Inv(s) && Enabled(s, FinishStop)
    ensures Inv(Step(s, FinishStop)) && AtRest(Step(s, FinishStop))
  {
    var t := Step(s, FinishStop);
    forall e
      ensures !Live(s, e) && !Live(t, e)
    {
    }
    forall i | i in s.started
      ensures !i.leader
    {
      if i.leader {
        var e :| Leads(s, e, i);
        assert Live(s, e);
      }
    }
  }

  lemma FinishShutdownKeeps(s: State)
    requires Inv(s) && Enabled(s, FinishShutdown)
    ensures Inv(Step(s, FinishShutdown))
  {
    var t := Step(s, FinishShutdown);
    forall e
      ensures Live(t, e) <==> Live(s, e)
    {
    }
    StartedStays(s, t);
  }

  /** What makes collectors or sets the configuration leaves the server at rest. */
  lemma CreateRests(s: State, event: Event)
    requires Inv(s) && Enabled(s, event)
    requires event.Init? || event.Configure? || event.Recreate?
    ensures AtRest(s) && AtRest(Step(s, event)) && s.handles == {}
  {
    var t := Step(s, event);
    forall e
      ensures !Live(t, e)
    {
      assert !Live(s, e);
    }
  }

  lemma CreateKeeps(s: State, event: Event)
    requires Inv(s) && Enabled(s, event)
    requires event.Init? || event.Configure? || event.Recreate?
    ensures Inv(Step(s, event))
  {
    CreateRests(s, event);
    assert InvElectors(Step(s, event));
    assert InvStarted(Step(s, event));
  }

  lemma LaunchKeeps(s: State, ok: set<Instance>, client: Option<seq<string>>)
    requires Inv(s) && Enabled(s, Launch(ok, client))
    ensures Inv(Step(s, Launch(ok, client)))
  {
    var t := Step(s, Launch(ok, client));
    forall e
      ensures !Live(s, e) && !Live(t, e)
    {
    }
    if s.election {
      forall i | i in t.started
        ensures !i.leader
      {
      }
    }
  }

  lemma ElectorMadeKeepsElectors(s: State)
    requires InvElectors(s) && InvOperation(s) && Enabled(s, MakeElector(true))
    ensures InvElectors(Step(s, MakeElector(true)))
    ensures forall d :: Live(Step(s, MakeElector(true)), d) <==> Live(s, d) || d == s.bred
  {
    var t := Step(s, MakeElector(true));
    assert s.op.left[0] in s.op.left;
    assert Owned(t) == Owned(s) + {s.bred};
  }

  lemma ElectorMadeKeepsStarted(s: State)
    requires InvElectors(s) && InvStarted(s) && Enabled(s, MakeElector(true))
    ensures InvStarted(Step(s, MakeElector(true)))
  {
    StartedStays(s, Step(s, MakeElector(true)));
  }

  lemma ElectorMadeKeepsOperation(s: State)
    requires InvElectors(s) && InvOperation(s) && Enabled(s, MakeElector(true))
    ensures InvOperation(Step(s, MakeElector(true)))
  {
    var t := Step(s, MakeElector(true));
    assert forall d :: Live(t, d) <==> Live(s, d) || d == s.bred;
    assert LeftToElect(t, t.op.left);
    assert WaitedFor(t) == WaitedFor(s);
  }

  lemma MakingFailsKeepsElectors(s: State)
    requires InvElectors(s) && Enabled(s, MakeElector(false))
    ensures InvElectors(Step(s, MakeElector(false)))
  {
    var t := Step(s, MakeElector(false));
    assert forall d :: Live(t, d) <==> Live(s, d);
    assert Owned(t) == Owned(s);
  }

  lemma MakingFailsKeepsOperation(s: State)
    requires InvOperation(s) && Enabled(s, MakeElector(false))
    ensures InvOperation(Step(s, MakeElector(false)))
  {
    var t := Step(s, MakeElector(false));
    assert forall d :: Live(t, d) <==> Live(s, d);
    assert WaitedFor(t) == WaitedFor(s) + s.op.made;
  }

  lemma ElectingEndsKeeps(s: State, event: Event)
    requires Inv(s) && Enabled(s, event)
    requires event.Publish? || event.Aborted?
    ensures Inv(Step(s, event))
  {
    var t := Step(s, event);
    assert forall d :: Live(t, d) <==> Live(s, d);
    StartedStays(s, t);
  }

  lemma StepKeepsInv(s: State, event: Event)
    requires Inv(s) && Enabled(s, event) && TurnAllows(s, event)
    ensures Inv(Step(s, event))
  {
    match event
    case Lead(e, starts) =>
      assert Live(s, e);
      LeadKeepsElectors(s, e, starts);
      LeadKeepsStarted(s, e, starts);
      LeadKeepsOperation(s, e, starts);
    case End(e) =>
      EndKeepsElectors(s, e);
      EndKeepsStarted(s, e);
      EndKeepsOperation(s, e);
    case BeginReload => BeginKeeps(s, event);
    case BeginShutdown => BeginKeeps(s, event);
    case FinishStop => FinishStopKeeps(s);
    case FinishShutdown => FinishShutdownKeeps(s);
    case Init(_, _, _) => CreateKeeps(s, event);
    case Configure(_) => CreateKeeps(s, event);
    case Recreate(_, _) => CreateKeeps(s, event);
    case Launch(ok, client) => LaunchKeeps(s, ok, client);
    case MakeElector(made) =>
      if made {
        ElectorMadeKeepsElectors(s);
        ElectorMadeKeepsStarted(s);
        ElectorMadeKeepsOperation(s);
      } else {
        MakingFailsKeepsElectors(s);
        StartedStays(s, Step(s, event));
        MakingFailsKeepsOperation(s);
      }
    case _ => ElectingEndsKeeps(s, event);
  }

  lemma BeginKeeps(s: State, event: Event)
    requires Inv(s) && Enabled(s, event) && TurnAllows(s, event)
    requires event.BeginReload? || event.BeginShutdown?
    ensures Inv(Step(s, event))
  {
    if s.election {
      CancelKeepsElectors(s, event);
      CancelKeepsStarted(s, event);
      CancelKeepsOperation(s, event);
    } else {
      StopAllKeeps(s, event);
    }
  }

  // ---------- What holds over every run ----------

  /** Shutdown may begin at any point of a reload; only the other way round has to wait. */
  ghost predicate InTurn(states: seq<State>, events: seq<Event>)
    requires Run(states, events)
  {
    forall i | 0 <= i < |events| :: TurnAllows(states[i], events[i])
  }

  lemma {:induction false} RunKeepsInv(states: seq<State>, events: seq<Event>, i: nat)
    requires Run(states, events) && i < |states|
    requires forall j | 0 <= j < i :: TurnAllows(states[j], events[j])
    ensures Inv(states[i])
  {
    if i > 0 {
      RunKeepsInv(states, events, i - 1);
      var s, event := states[i - 1], events[i - 1];
      assert Enabled(s, event) && states[i - 1 + 1] == Step(s, event);
      StepKeepsInv(s, event);
    }
  }

  /** Whatever is started is one of the collectors in the registry. */
  lemma StartedAreCurrent(states: seq<State>, events: seq<Event>, i: nat)
    requires Run(states, events) && InTurn(states, events) && i < |states|
    ensures states[i].started <= Select(states[i].collectors, None)
  {
    RunKeepsInv(states, events, i);
  }

  /** The last configuration that came into force before the i-th state is that of the j-th event. */
  predicate InForce(events: seq<Event>, i: nat, j: int)
    requires i <= |events|
  {
    && 0 <= j < i && (events[j].Init? || events[j].Configure?)
    && forall k | j < k < i :: !events[k].Init? && !events[k].Configure?
  }

  /** What the j-th event does to the election setting. */
  predicate SetsElection(states: seq<State>, events: seq<Event>, j: int)
    requires |states| == |events| + 1 && 0 <= j < |events|
  {
    states[j + 1].election == if events[j].Init? || events[j].Configure? then events[j].election else states[j].election
  }

  lemma RunSetsElection(states: seq<State>, events: seq<Event>, j: nat)
    requires Run(states, events) && j < |events|
    ensures SetsElection(states, events, j)
  {
    assert Enabled(states[j], events[j]) && states[j + 1] == Step(states[j], events[j]);
  }

  lemma {:induction false} ElectionSince(states: seq<State>, events: seq<Event>, i: nat, j: nat)
    requires |states| == |events| + 1 && i < |states| && InForce(events, i, j)
    requires forall k | 0 <= k < |events| :: SetsElection(states, events, k)
    ensures states[i].election == events[j].election
    decreases i
  {
    assert SetsElection(states, events, i - 1);
    if j < i - 1 {
      ElectionSince(states, events, i - 1, j);
    }
  }

  lemma {:induction false} NoElectionYet(states: seq<State>, events: seq<Event>, i: nat)
    requires |states| == |events| + 1 && i < |states| && !states[0].election
    requires forall k | 0 <= k < |events| :: SetsElection(states, events, k)
    requires forall k | 0 <= k < i :: !events[k].Init? && !events[k].Configure?
    ensures !states[i].election
  {
    if i > 0 {
      assert SetsElection(states, events, i - 1);
      NoElectionYet(states, events, i - 1);
    }
  }

  /** Whether there is election is what the last configuration says, in any run; at first there is none. */
  lemma ElectionInForce(states: seq<State>, events: seq<Event>, i: nat)
    requires Run(states, events) && i < |states|
    ensures forall j | InForce(events, i, j) :: states[i].election == events[j].election
    ensures (forall j | 0 <= j < i :: !events[j].Init? && !events[j].Configure?) ==> !states[i].election
  {
    forall k | 0 <= k < |events|
      ensures SetsElection(states, events, k)
    {
      RunSetsElection(states, events, k);
    }
    forall j | InForce(events, i, j)
      ensures states[i].election == events[j].election
    {
      ElectionSince(states, events, i, j);
    }
    if forall j | 0 <= j < i :: !events[j].Init? && !events[j].Configure? {
      NoElectionYet(states, events, i);
    }
  }

  /**
    With election on by the last configuration, a started instance that needs a leader has exactly one
    elector that leads: between its callbacks.
   */
  lemma LedWhileStarted(states: seq<State>, events: seq<Event>, i: nat, j: nat, c: Instance)
    requires Run(states, events) && InTurn(states, events) && i < |states|
    requires InForce(events, i, j) && events[j].election && c in states[i].started && c.leader
    ensures exists e :: Leads(states[i], e, c)
    ensures forall d, e | Leads(states[i], d, c) && Leads(states[i], e, c) :: d == e
  {
    RunKeepsInv(states, events, i);
    ElectionInForce(states, events, i);
    var s := states[i];
    forall d, e | Leads(s, d, c) && Leads(s, e, c)
      ensures d == e
    {
      assert Live(s, d) && Live(s, e);
    }
  }

  /** An operation cancels an elector whose handle it takes, or that it made before making another failed. */
  predicate Cancels(s: State, event: Event, e: nat)
  {
    || ((event.BeginReload? || event.BeginShutdown?) && s.election && e in s.handles)
    || (event == MakeElector(false) && s.op.Electing? && e in s.op.made)
  }

  lemma {:induction false} ElectorsBred(states: seq<State>, events: seq<Event>, i: nat)
    requires Run(states, events) && i < |states|
    ensures forall e | e in states[i].electors :: e < states[i].bred
  {
    if i > 0 {
      ElectorsBred(states, events, i - 1);
      assert Enabled(states[i - 1], events[i - 1]) && states[i - 1 + 1] == Step(states[i - 1], events[i - 1]);
    }
  }

  /** Over every run electors are cancelled by those operations and by nothing else, and stay cancelled. */
  lemma CancelledIff(states: seq<State>, events: seq<Event>, i: nat, e: nat)
    requires Run(states, events) && i < |events| && e in states[i].electors
    ensures e in states[i + 1].electors
    ensures states[i + 1].electors[e].cancelled <==> states[i].electors[e].cancelled || Cancels(states[i], events[i], e)
    ensures states[i + 1].electors[e].name == states[i].electors[e].name
  {
    ElectorsBred(states, events, i);
    assert Enabled(states[i], events[i]) && states[i + 1] == Step(states[i], events[i]);
  }

  predicate MadeSince(s: State, from: nat)
  {
    s.born >= from && forall n | n in s.collectors :: s.collectors[n].id >= from
  }

  lemma StepMakesNew(s: State, event: Event, from: nat)
    requires Enabled(s, event) && s.born >= from
    requires event.Recreate? || MadeSince(s, from)
    ensures MadeSince(Step(s, event), from)
  {
  }

  lemma {:induction false} CollectorsStayNew(states: seq<State>, events: seq<Event>, i: nat, k: nat)
    requires Run(states, events) && i < k < |states| && events[i].Recreate?
    ensures MadeSince(states[k], states[i].born)
    decreases k
  {
    if i < k - 1 {
      CollectorsStayNew(states, events, i, k - 1);
    }
    assert Enabled(states[k - 1], events[k - 1]) && states[k - 1 + 1] == Step(states[k - 1], events[k - 1]);
    StepMakesNew(states[k - 1], events[k - 1], states[i].born);
  }

  /** No instance made before a completed reload is ever started after it. */
  lemma OldStayStopped(states: seq<State>, events: seq<Event>, i: nat, k: nat, c: Instance)
    requires Run(states, events) && InTurn(states, events) && i < k < |states| && events[i].Recreate?
    requires c.id < states[i].born
    ensures c !in states[k].started
  {
    StartedAreCurrent(states, events, k);
    CollectorsStayNew(states, events, i, k);
  }

  /** When a reload creates the new collectors, all of the old ones have been stopped. */
  lemma ReloadStopsFirst(states: seq<State>, events: seq<Event>, i: nat)
    requires Run(states, events) && InTurn(states, events) && i < |events| && events[i].Recreate?
    ensures AtRest(states[i]) && AtRest(states[i + 1])
  {
    RunKeepsInv(states, events, i);
    RunKeepsInv(states, events, i + 1);
    assert Enabled(states[i], events[i]) && states[i + 1] == Step(states[i], events[i]);
  }

  /** Waiting for electors never gets stuck: whichever is not done has been cancelled, and can end. */
  lemma WaitingCanEnd(states: seq<State>, events: seq<Event>, i: nat, e: nat)
    requires Run(states, events) && InTurn(states, events) && i < |states|
    requires e in WaitedFor(states[i]) && Live(states[i], e)
    ensures states[i].electors[e].cancelled
    ensures Enabled(states[i], End(e)) && !Live(Step(states[i], End(e)), e)
  {
    RunKeepsInv(states, events, i);
  }
}
