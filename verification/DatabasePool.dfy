/**
  The database checks: a launcher for every type, a semaphore for every type, a status channel with
  room for all, and one collector of statuses, in every order their steps may come in.
 */
module DatabasePool {
  import opened Distinct

  datatype Task = Task(namespace: string, name: string, typ: string)

  /** The tasks of a poll and the number of checks of each type allowed at once. */
  datatype Plan = Plan(tasks: seq<Task>, limit: string -> nat)

  /** A task's goroutine: not launched, before the semaphore, checking, status sent, semaphore released. */
  datatype Phase = New | Launched | Checking | Sent | Finished

  /** A launcher launches, then has returned: after waiting for its tasks or, when cancelled, without. */
  datatype State = State(
    phases: seq<Phase>,
    returned: set<string>,
    gaveUp: set<string>,
    cancelled: bool,
    closed: bool,
    log: seq<nat>,        // the tasks whose status was sent, in order
    taken: nat,           // how many of those the collector has received
    over: bool,
    panicked: bool)

  function Initial(plan: Plan): State
  {
    State(seq(|plan.tasks|, i => New), {}, {}, false, false, [], 0, false, false)
  }

  function Types(plan: Plan): set<string>
  {
    set i | 0 <= i < |plan.tasks| :: plan.tasks[i].typ
  }

  /** The tasks of a type that hold its semaphore. */
  function Holders(plan: Plan, s: State, typ: string): set<nat>
  {
    set i | 0 <= i < |s.phases| && i < |plan.tasks| && plan.tasks[i].typ == typ
            && (s.phases[i].Checking? || s.phases[i].Sent?)
  }

  datatype Event =
    | Launch(i: nat)
    | Acquire(i: nat)
    | Send(i: nat)
    | Release(i: nat)
    | Return(typ: string)
    | Cancel
    | GiveUp(typ: string)
    | Close
    | Receive
    | End

  predicate InPhase(plan: Plan, s: State, i: nat, phase: Phase)
  {
    i < |plan.tasks| && i < |s.phases| && s.phases[i] == phase
  }

  predicate HasNew(plan: Plan, phases: seq<Phase>, typ: string)
  {
    exists i | 0 <= i < |plan.tasks| && i < |phases| :: plan.tasks[i].typ == typ && phases[i] == New
  }

  predicate Enabled(plan: Plan, s: State, e: Event)
  {
    !s.panicked &&
    match e
    case Launch(i) =>
      InPhase(plan, s, i, New) && plan.tasks[i].typ !in s.returned
      && forall j | 0 <= j < i && j < |s.phases| && plan.tasks[j].typ == plan.tasks[i].typ :: s.phases[j] != New
    case Acquire(i) => InPhase(plan, s, i, Launched) && |Holders(plan, s, plan.tasks[i].typ)| < plan.limit(plan.tasks[i].typ)
    case Send(i) => InPhase(plan, s, i, Checking) && (s.closed || |s.log| - s.taken < |plan.tasks|)
    case Release(i) => InPhase(plan, s, i, Sent)
    case Return(typ) =>
      typ in Types(plan) && typ !in s.returned
      && forall i | 0 <= i < |plan.tasks| && i < |s.phases| && plan.tasks[i].typ == typ :: s.phases[i] == Finished
    case Cancel => !s.cancelled
    case GiveUp(typ) =>
      s.cancelled && typ in Types(plan) && typ !in s.returned
      && HasNew(plan, s.phases, typ)
    case Close => !s.closed && s.returned == Types(plan)
    case Receive => s.taken < |s.log|
    case End => s.closed && s.taken == |s.log| && !s.over
  }

  function Moved(s: State, i: nat, phase: Phase): State
  {
    if i < |s.phases| then s.(phases := s.phases[i := phase]) else s
  }

  /** Sending on the closed channel is a panic. */
  function Step(s: State, e: Event): State
  {
    match e
    case Launch(i) => Moved(s, i, Launched)
    case Acquire(i) => Moved(s, i, Checking)
    case Send(i) => if s.closed then s.(panicked := true) else Moved(s, i, Sent).(log := s.log + [i])
    case Release(i) => Moved(s, i, Finished)
    case Return(typ) => s.(returned := s.returned + {typ})
    case Cancel => s.(cancelled := true)
    case GiveUp(typ) => s.(returned := s.returned + {typ}, gaveUp := s.gaveUp + {typ})
    case Close => s.(closed := true)
    case Receive => s.(taken := s.taken + 1)
    case End => s.(over := true)
  }

  // ---------- What every step keeps ----------

  ghost predicate InvLog(plan: Plan, s: State)
  {
    && |s.phases| == |plan.tasks|
    && s.taken <= |s.log|
    && NoRepeats(s.log)
    && (forall i: nat :: i in s.log <==> i < |s.phases| && (s.phases[i].Sent? || s.phases[i].Finished?))
  }

  ghost predicate InvReturned(plan: Plan, s: State)
  {
    && s.gaveUp <= s.returned <= Types(plan)
    && (s.gaveUp != {} ==> s.cancelled)
    && (forall i | 0 <= i < |plan.tasks| && i < |s.phases| && plan.tasks[i].typ in s.returned - s.gaveUp ::
          s.phases[i] == Finished)
    && (s.closed ==> s.returned == Types(plan))
    && (s.over ==> s.closed && s.taken == |s.log|)
    && (s.panicked ==> s.gaveUp != {})
  }

  ghost predicate InvLimits(plan: Plan, s: State)
  {
    forall typ :: |Holders(plan, s, typ)| <= plan.limit(typ)
  }

  ghost predicate Inv(plan: Plan, s: State)
  {
    InvLog(plan, s) && InvReturned(plan, s) && InvLimits(plan, s)
  }

  lemma StepKeepsLog(plan: Plan, s: State, e: Event)
    requires Inv(plan, s) && Enabled(plan, s, e)
    ensures InvLog(plan, Step(s, e))
  {
  }

  lemma StepKeepsReturned(plan: Plan, s: State, e: Event)
    requires Inv(plan, s) && Enabled(plan, s, e)
    ensures InvReturned(plan, Step(s, e))
  {
    if e.Launch? || e.Acquire? || e.Send? || e.Release? {
      assert plan.tasks[e.i].typ in Types(plan);
    }
  }

  predicate Holds(phase: Phase)
  {
    phase.Checking? || phase.Sent?
  }

  lemma HoldersMoved(plan: Plan, s: State, i: nat, phase: Phase, typ: string)
    requires i < |s.phases| == |plan.tasks|
    ensures Holders(plan, Moved(s, i, phase), typ)
         == if plan.tasks[i].typ != typ || Holds(phase) == Holds(s.phases[i]) then Holders(plan, s, typ)
            else if Holds(phase) then Holders(plan, s, typ) + {i}
            else Holders(plan, s, typ) - {i}
  {
  }

  lemma StepKeepsLimits(plan: Plan, s: State, e: Event)
    requires Inv(plan, s) && Enabled(plan, s, e)
    ensures InvLimits(plan, Step(s, e))
  {
    forall typ
      ensures |Holders(plan, Step(s, e), typ)| <= plan.limit(typ)
    {
      match e {
        case Launch(i) => HoldersMoved(plan, s, i, Launched, typ);
        case Acquire(i) => HoldersMoved(plan, s, i, Checking, typ);
        case Send(i) => HoldersMoved(plan, s, i, Sent, typ);
        case Release(i) => HoldersMoved(plan, s, i, Finished, typ);
        case _ =>
      }
    }
  }

  lemma InitialInv(plan: Plan)
    ensures Inv(plan, Initial(plan))
  {
    forall typ
      ensures |Holders(plan, Initial(plan), typ)| <= plan.limit(typ)
    {
      assert Holders(plan, Initial(plan), typ) == {};
    }
  }

  ghost predicate Run(plan: Plan, states: seq<State>, events: seq<Event>)
  {
    && |states| == |events| + 1 && states[0] == Initial(plan)
    && forall i {:trigger events[i]} | 0 <= i < |events| ::
         Enabled(plan, states[i], events[i]) && states[i + 1] == Step(states[i], events[i])
  }

  lemma {:induction false} RunKeepsInv(plan: Plan, states: seq<State>, events: seq<Event>, n: nat)
    requires Run(plan, states, events) && n < |states|
    ensures Inv(plan, states[n])
  {
    if n == 0 {
      InitialInv(plan);
    } else {
      RunKeepsInv(plan, states, events, n - 1);
      var s, e := states[n - 1], events[n - 1];
      assert Enabled(plan, s, e) && states[n - 1 + 1] == Step(s, e);
      StepKeepsLog(plan, s, e);
      StepKeepsReturned(plan, s, e);
      StepKeepsLimits(plan, s, e);
    }
  }

  // ---------- What holds over every run ----------

  /** Never more checks of a type at once than its limit. */
  lemma LimitsHold(plan: Plan, states: seq<State>, events: seq<Event>, n: nat, typ: string)
    requires Run(plan, states, events) && n < |states|
    ensures |Holders(plan, states[n], typ)| <= plan.limit(typ)
  {
    RunKeepsInv(plan, states, events, n);
  }

  /** A check that is done never waits for room in the status channel. */
  lemma SendingNeverBlocks(plan: Plan, states: seq<State>, events: seq<Event>, n: nat, i: nat)
    requires Run(plan, states, events) && n < |states| && InPhase(plan, states[n], i, Checking) && !states[n].panicked
    ensures Enabled(plan, states[n], Send(i))
  {
    RunKeepsInv(plan, states, events, n);
    var s := states[n];
    assert i !in s.log;
    FewWithoutRepeats(s.log + [i], |plan.tasks|);
  }

  /** Nothing is sent on the closed channel unless a launcher has given up. */
  lemma NoPanicUnlessGaveUp(plan: Plan, states: seq<State>, events: seq<Event>, n: nat)
    requires Run(plan, states, events) && n < |states| && states[n].gaveUp == {}
    ensures !states[n].panicked
    ensures states[n].closed ==> forall i | 0 <= i < |plan.tasks| :: InPhase(plan, states[n], i, Finished)
  {
    RunKeepsInv(plan, states, events, n);
    var s := states[n];
    if s.closed {
      forall i | 0 <= i < |plan.tasks|
        ensures s.phases[i] == Finished
      {
        assert plan.tasks[i].typ in Types(plan);
      }
    }
  }

  /** Every task's status is received exactly once by the time the collector is through. */
  lemma EachStatusOnce(plan: Plan, states: seq<State>, events: seq<Event>, n: nat)
    requires Run(plan, states, events) && n < |states| && states[n].over && states[n].gaveUp == {}
    ensures states[n].taken == |states[n].log| == |plan.tasks|
    ensures NoRepeats(states[n].log) && forall i: nat :: i in states[n].log <==> i < |plan.tasks|
  {
    RunKeepsInv(plan, states, events, n);
    NoPanicUnlessGaveUp(plan, states, events, n);
    var s := states[n];
    FewWithoutRepeats(s.log, |plan.tasks|);
  }

  // ---------- The panic ----------

  /** A launcher that gave up leaves a task unlaunched for good, and a panic leaves a check under way. */
  ghost predicate InvGaveUp(plan: Plan, s: State)
  {
    && (forall typ | typ in s.gaveUp :: HasNew(plan, s.phases, typ))
    && (s.panicked ==> s.closed && exists i: nat :: InPhase(plan, s, i, Checking))
  }

  lemma StepKeepsGaveUp(plan: Plan, s: State, e: Event)
    requires InvReturned(plan, s) && InvGaveUp(plan, s) && Enabled(plan, s, e)
    ensures InvGaveUp(plan, Step(s, e))
  {
    var t := Step(s, e);
    forall typ | typ in s.gaveUp
      ensures HasNew(plan, t.phases, typ)
    {
      var i :| 0 <= i < |plan.tasks| && i < |s.phases| && plan.tasks[i].typ == typ && s.phases[i] == New;
      assert t.phases[i] == New;
    }
    if e.Send? && s.closed {
      assert InPhase(plan, t, e.i, Checking);
    }
  }

  lemma {:induction false} RunKeepsGaveUp(plan: Plan, states: seq<State>, events: seq<Event>, n: nat)
    requires Run(plan, states, events) && n < |states|
    ensures InvGaveUp(plan, states[n])
  {
    if n > 0 {
      RunKeepsGaveUp(plan, states, events, n - 1);
      RunKeepsInv(plan, states, events, n - 1);
      assert Enabled(plan, states[n - 1], events[n - 1]) && states[n - 1 + 1] == Step(states[n - 1], events[n - 1]);
      StepKeepsGaveUp(plan, states[n - 1], events[n - 1]);
    }
  }

  /** Two tasks of one type whose limit lets a check begin. */
  predicate Share(plan: Plan, i: nat, j: nat)
  {
    i < j < |plan.tasks| && plan.tasks[i].typ == plan.tasks[j].typ && plan.limit(plan.tasks[i].typ) >= 1
  }

  lemma PanicNeedsShare(plan: Plan, states: seq<State>, events: seq<Event>) returns (i: nat, j: nat)
    requires Run(plan, states, events) && states[|events|].panicked
    ensures Share(plan, i, j)
  {
    var s := states[|events|];
    RunKeepsInv(plan, states, events, |events|);
    RunKeepsGaveUp(plan, states, events, |events|);
    var c: nat :| InPhase(plan, s, c, Checking);
    var typ := plan.tasks[c].typ;
    assert typ in Types(plan);
    assert c in Holders(plan, s, typ);
    var d :| 0 <= d < |plan.tasks| && d < |s.phases| && plan.tasks[d].typ == typ && s.phases[d] == New;
    i, j := if c < d then c else d, if c < d then d else c;
  }

  lemma Further(plan: Plan, states: seq<State>, events: seq<Event>, e: Event) returns (more: seq<State>, all: seq<Event>)
    requires Run(plan, states, events) && Enabled(plan, states[|events|], e)
    ensures Run(plan, more, all) && |all| == |events| + 1 && more[|all|] == Step(states[|events|], e)
  {
    more, all := states + [Step(states[|events|], e)], events + [e];
    forall i | 0 <= i < |all|
      ensures Enabled(plan, more[i], all[i]) && more[i + 1] == Step(more[i], all[i])
    {
      if i < |events| {
        assert all[i] == events[i];
      }
    }
  }

  /** Once cancelled, the launchers of types that have a task left may all give up, one after the other. */
  lemma {:induction false} AllGiveUp(plan: Plan, states: seq<State>, events: seq<Event>, left: set<string>)
    returns (more: seq<State>, all: seq<Event>)
    requires Run(plan, states, events)
    requires var s := states[|events|]; s.cancelled && !s.panicked && s.returned == Types(plan) - left
    requires left <= Types(plan) && forall typ | typ in left :: HasNew(plan, states[|events|].phases, typ)
    ensures Run(plan, more, all)
    ensures var s, t := states[|events|], more[|all|];
            t.phases == s.phases && t.closed == s.closed && !t.panicked && t.returned == Types(plan)
    decreases left
  {
    more, all := states, events;
    if left != {} {
      var typ :| typ in left;
      more, all := Further(plan, states, events, GiveUp(typ));
      assert Types(plan) - left + {typ} == Types(plan) - (left - {typ});
      more, all := AllGiveUp(plan, more, all, left - {typ});
    }
  }

  lemma FirstChecking(plan: Plan, i: nat, j: nat) returns (states: seq<State>, events: seq<Event>, first: nat)
    requires Share(plan, i, j)
    ensures first < j && plan.tasks[first].typ == plan.tasks[j].typ
    ensures Run(plan, states, events)
    ensures states[|events|] == Moved(Moved(Initial(plan), first, Launched), first, Checking)
  {
    var s := Initial(plan);
    first := FirstNew(plan, s, plan.tasks[i].typ, i);
    var t := Moved(s, first, Launched);
    assert Holders(plan, t, plan.tasks[first].typ) == {};
    states, events := Further(plan, [s], [], Launch(first));
    states, events := Further(plan, states, events, Acquire(first));
  }

  /** A check begins, everything is cancelled, all launchers give up, and the check ends too late. */
  lemma SharePanics(plan: Plan, i: nat, j: nat) returns (states: seq<State>, events: seq<Event>)
    requires Share(plan, i, j)
    ensures Run(plan, states, events) && states[|events|].panicked
  {
    var first: nat;
    states, events, first := FirstChecking(plan, i, j);
    var phases := states[|events|].phases;
    states, events := Further(plan, states, events, Cancel);
    forall typ | typ in Types(plan)
      ensures HasNew(plan, phases, typ)
    {
      if typ == plan.tasks[j].typ {
        assert phases[j] == New;
      } else {
        var k :| 0 <= k < |plan.tasks| && plan.tasks[k].typ == typ;
        assert phases[k] == New;
      }
    }
    states, events := AllGiveUp(plan, states, events, Types(plan));
    states, events := Further(plan, states, events, Close);
    states, events := Further(plan, states, events, Send(first));
  }

  ghost predicate PanicRun(plan: Plan, states: seq<State>, events: seq<Event>)
  {
    Run(plan, states, events) && states[|events|].panicked
  }

  /** Some run sends on the closed channel exactly when two tasks share a type that allows a check at all. */
  lemma PanicsIff(plan: Plan)
    ensures (exists states, events :: PanicRun(plan, states, events))
       <==> (exists i, j :: Share(plan, i, j))
  {
    if states, events :| PanicRun(plan, states, events) {
      var i, j := PanicNeedsShare(plan, states, events);
    }
    if i, j :| Share(plan, i, j) {
      var states, events := SharePanics(plan, i, j);
      assert PanicRun(plan, states, events);
    }
  }

  // ---------- Progress ----------

  /** With limits of at least one, something other than a cancellation can happen until the collector is through. */
  lemma NeverStuck(plan: Plan, states: seq<State>, events: seq<Event>, n: nat) returns (e: Event)
    requires Run(plan, states, events) && n < |states| && !states[n].over && !states[n].panicked
    requires forall typ | typ in Types(plan) :: plan.limit(typ) >= 1
    ensures Enabled(plan, states[n], e) && !e.Cancel? && !e.GiveUp?
  {
    RunKeepsInv(plan, states, events, n);
    var s := states[n];
    if i: nat :| i < |s.phases| && s.phases[i] == Checking {
      SendingNeverBlocks(plan, states, events, n, i);
      e := Send(i);
    } else if i: nat :| i < |s.phases| && s.phases[i] == Sent {
      e := Release(i);
    } else if i: nat :| i < |s.phases| && s.phases[i] == Launched {
      assert plan.tasks[i].typ in Types(plan);
      assert Holders(plan, s, plan.tasks[i].typ) == {};
      e := Acquire(i);
    } else if s.taken < |s.log| {
      e := Receive;
    } else if typ :| typ in Types(plan) && typ !in s.returned {
      e := LaunchOrReturn(plan, s, typ);
    } else {
      assert s.returned == Types(plan);
      e := if s.closed then End else Close;
    }
  }

  lemma LaunchOrReturn(plan: Plan, s: State, typ: string) returns (e: Event)
    requires |s.phases| == |plan.tasks| && typ in Types(plan) && typ !in s.returned && !s.panicked
    requires forall i | 0 <= i < |s.phases| :: s.phases[i] == New || s.phases[i] == Finished
    ensures Enabled(plan, s, e) && (e.Launch? || e.Return?)
  {
    if i: nat :| i < |s.phases| && plan.tasks[i].typ == typ && s.phases[i] == New {
      var first := FirstNew(plan, s, typ, i);
      e := Launch(first);
    } else {
      e := Return(typ);
    }
  }

  lemma {:induction false} FirstNew(plan: Plan, s: State, typ: string, i: nat) returns (first: nat)
    requires |s.phases| == |plan.tasks| && i < |s.phases| && plan.tasks[i].typ == typ && s.phases[i] == New
    ensures first < |s.phases| && plan.tasks[first].typ == typ && s.phases[first] == New
    ensures forall j | 0 <= j < first && plan.tasks[j].typ == typ :: s.phases[j] != New
    decreases i
  {
    if j: nat :| j < i && plan.tasks[j].typ == typ && s.phases[j] == New {
      first := FirstNew(plan, s, typ, j);
    } else {
      first := i;
    }
  }

  function Rank(phase: Phase): nat
  {
    match phase
    case New => 4
    case Launched => 3
    case Checking => 2
    case Sent => 1
    case Finished => 0
  }

  function WorkLeft(phases: seq<Phase>): nat
  {
    if phases == [] then 0 else WorkLeft(phases[..|phases| - 1]) + Rank(phases[|phases| - 1])
  }

  lemma {:induction false} WorkLeftUpdate(phases: seq<Phase>, i: nat, phase: Phase)
    requires i < |phases|
    ensures WorkLeft(phases[i := phase]) == WorkLeft(phases) - Rank(phases[i]) + Rank(phase)
  {
    var n := |phases| - 1;
    if i == n {
      assert phases[i := phase][..n] == phases[..n];
    } else {
      assert phases[i := phase][..n] == phases[..n][i := phase];
      WorkLeftUpdate(phases[..n], i, phase);
    }
  }

  /** How much is left to do: a task counts twice, for its check and for its status. */
  function Left(plan: Plan, s: State): int
  {
    2 * WorkLeft(s.phases) + (|s.log| - s.taken) + |Types(plan) - s.returned|
    + (if s.cancelled then 0 else 1) + (if s.closed then 0 else 1) + (if s.over then 0 else 1)
    + (if s.panicked then 0 else 1)
  }

  /** Every step leaves less to do, so every run ends. */
  lemma StepLeavesLess(plan: Plan, s: State, e: Event)
    requires Enabled(plan, s, e)
    ensures Left(plan, Step(s, e)) < Left(plan, s)
  {
    match e {
      case Launch(i) => WorkLeftUpdate(s.phases, i, Launched);
      case Acquire(i) => WorkLeftUpdate(s.phases, i, Checking);
      case Send(i) => WorkLeftUpdate(s.phases, i, Sent);
      case Release(i) => WorkLeftUpdate(s.phases, i, Finished);
      case Return(typ) => OneLess(Types(plan), s.returned, typ);
      case GiveUp(typ) => OneLess(Types(plan), s.returned, typ);
      case _ =>
    }
  }

  lemma OneLess(all: set<string>, gone: set<string>, x: string)
    requires x in all && x !in gone
    ensures |all - (gone + {x})| == |all - gone| - 1
  {
    assert all - gone == (all - (gone + {x})) + {x};
  }

  lemma LeftNotNegative(plan: Plan, s: State)
    requires s.taken <= |s.log|
    ensures Left(plan, s) >= 0
  {
  }

  lemma {:induction false} Falling(left: seq<int>, n: nat)
    requires n < |left| && forall i {:trigger left[i]} | 0 < i <= n :: left[i] < left[i - 1]
    ensures n + left[n] <= left[0]
  {
    if n > 0 {
      Falling(left, n - 1);
    }
  }

  lemma RunsEnd(plan: Plan, states: seq<State>, events: seq<Event>, n: nat)
    requires Run(plan, states, events) && n <= |events|
    ensures n + Left(plan, states[n]) <= Left(plan, Initial(plan)) && Left(plan, states[n]) >= 0
  {
    var left := seq(|states|, i requires 0 <= i < |states| => Left(plan, states[i]));
    forall i {:trigger left[i]} | 0 < i <= n
      ensures left[i] < left[i - 1]
    {
      assert Enabled(plan, states[i - 1], events[i - 1]) && states[i - 1 + 1] == Step(states[i - 1], events[i - 1]);
      StepLeavesLess(plan, states[i - 1], events[i - 1]);
    }
    Falling(left, n);
    RunKeepsInv(plan, states, events, n);
    LeftNotNegative(plan, states[n]);
  }

  // ---------- Finishing ----------

  /** Tasks of a type without a limit never get past being launched. */
  ghost predicate InvZero(plan: Plan, s: State)
  {
    forall i | 0 <= i < |plan.tasks| && i < |s.phases| && plan.limit(plan.tasks[i].typ) == 0 ::
      s.phases[i].New? || s.phases[i].Launched?
  }

  lemma {:induction false} RunKeepsZero(plan: Plan, states: seq<State>, events: seq<Event>, n: nat)
    requires Run(plan, states, events) && n < |states|
    ensures InvZero(plan, states[n])
  {
    if n > 0 {
      RunKeepsZero(plan, states, events, n - 1);
      assert Enabled(plan, states[n - 1], events[n - 1]) && states[n - 1 + 1] == Step(states[n - 1], events[n - 1]);
    }
  }

  /** A poll that is over has given up every type whose limit is zero. */
  lemma ZeroLimitGivesUp(plan: Plan, states: seq<State>, events: seq<Event>, n: nat, typ: string)
    requires Run(plan, states, events) && n < |states| && states[n].over
    requires typ in Types(plan) && plan.limit(typ) == 0
    ensures typ in states[n].gaveUp
  {
    RunKeepsInv(plan, states, events, n);
    RunKeepsZero(plan, states, events, n);
    var i :| 0 <= i < |plan.tasks| && plan.tasks[i].typ == typ;
    assert states[n].phases[i] != Finished;
  }

  /** With limits of at least one any run without cancellation goes on to the end without any launcher giving up. */
  lemma {:induction false} GoesOnToEnd(plan: Plan, states: seq<State>, events: seq<Event>)
    returns (more: seq<State>, all: seq<Event>)
    requires Run(plan, states, events) && states[|events|].gaveUp == {}
    requires forall typ | typ in Types(plan) :: plan.limit(typ) >= 1
    ensures Run(plan, more, all) && more[|all|].over && more[|all|].gaveUp == {}
    decreases Left(plan, states[|events|])
  {
    more, all := states, events;
    var s := states[|events|];
    if !s.over {
      NoPanicUnlessGaveUp(plan, states, events, |events|);
      var e := NeverStuck(plan, states, events, |events|);
      StepLeavesLess(plan, s, e);
      RunsEnd(plan, states, events, |events|);
      more, all := Further(plan, states, events, e);
      more, all := GoesOnToEnd(plan, more, all);
    }
  }

  ghost predicate FinishedRun(plan: Plan, states: seq<State>, events: seq<Event>)
  {
    Run(plan, states, events) && states[|events|].over && states[|events|].gaveUp == {}
  }

  /** A plan can be finished without giving up exactly when each of its types may be checked at least one at a time. */
  lemma FinishesIff(plan: Plan)
    ensures (exists states, events :: FinishedRun(plan, states, events))
       <==> forall typ | typ in Types(plan) :: plan.limit(typ) >= 1
  {
    if states, events :| FinishedRun(plan, states, events) {
      forall typ | typ in Types(plan)
        ensures plan.limit(typ) >= 1
      {
        if plan.limit(typ) == 0 {
          ZeroLimitGivesUp(plan, states, events, |events|, typ);
        }
      }
    }
    if forall typ | typ in Types(plan) :: plan.limit(typ) >= 1 {
      var states, events := GoesOnToEnd(plan, [Initial(plan)], []);
      assert FinishedRun(plan, states, events);
    }
  }
}
