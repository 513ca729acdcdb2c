/**
  The life of a collector: each critical section of Start, its late rollback, Stop, SetReady and
  WaitReady is one step, and steps of different callers come in any order.
 */
module Lifecycle {
  import opened Distinct
  import opened Wrappers

  /**
    Each Start makes a context, a ready channel and a stopped channel, all known by the number of the
    cycle it begins. The last three fields list every cancel and every close, in order.
   */
  datatype State = State(
    started: bool,
    ready: bool,
    readyCh: Option<nat>,
    stoppedCh: Option<nat>,
    cancel: Option<nat>,
    cycles: nat,
    cancels: seq<nat>,
    readyCloses: seq<nat>,
    stoppedCloses: seq<nat>)

  const INITIAL := State(false, false, None, None, None, 0, [], [], [])

  // ---------- The critical sections ----------

  function Begun(s: State): State
  {
    if s.started then s
    else s.(started := true, ready := false, readyCh := Some(s.cycles), stoppedCh := Some(s.cycles),
            cancel := Some(s.cycles), cycles := s.cycles + 1)
  }

  /** What Stop and the rollback of a failed Start both do. */
  function Ended(s: State): State
  {
    s.(started := false, ready := false, cancel := None, stoppedCh := None,
       cancels := if s.cancel.Some? then s.cancels + [s.cancel.value] else s.cancels,
       stoppedCloses := if s.stoppedCh.Some? then s.stoppedCloses + [s.stoppedCh.value] else s.stoppedCloses)
  }

  function Stopped(s: State): State
  {
    if s.started then Ended(s) else s
  }

  function MadeReady(s: State): State
  {
    if s.ready then s
    else s.(ready := true,
            readyCloses := if s.readyCh.Some? then s.readyCloses + [s.readyCh.value] else s.readyCloses)
  }

  /** SetReady panics when it closes a closed channel. */
  predicate ReadyPanics(s: State)
  {
    !s.ready && s.readyCh.Some? && s.readyCh.value in s.readyCloses
  }

  /** What WaitReady takes note of under the lock. */
  datatype Waiter = Waiter(ready: bool, readyCh: Option<nat>, stoppedCh: Option<nat>)

  function Captured(s: State): Waiter
  {
    Waiter(s.ready, s.readyCh, s.stoppedCh)
  }

  datatype Waited = IsReady | NotStarted | WasStopped | ContextDone

  /** The answers WaitReady may give in a later state; with none of them it goes on waiting. */
  predicate MayReturn(w: Waiter, s: State, contextDone: bool, r: Waited)
  {
    if w.ready then r == IsReady
    else if w.readyCh.None? || w.stoppedCh.None? then r == NotStarted
    else match r
      case IsReady => w.readyCh.value in s.readyCloses
      case WasStopped => w.stoppedCh.value in s.stoppedCloses
      case ContextDone => contextDone
      case NotStarted => false
  }

  class BaseCollector {
    var started: bool
    var ready: bool
    var readyCh: Option<nat>
    var stoppedCh: Option<nat>
    var cancel: Option<nat>
    var cycles: nat
    var cancels: seq<nat>
    var readyCloses: seq<nat>
    var stoppedCloses: seq<nat>

    function Now(): State
      reads this
    {
      State(started, ready, readyCh, stoppedCh, cancel, cycles, cancels, readyCloses, stoppedCloses)
    }

    constructor ()
      ensures Now() == INITIAL
    {
      started, ready, readyCh, stoppedCh, cancel, cycles := false, false, None, None, None, 0;
      cancels, readyCloses, stoppedCloses := [], [], [];
    }

    /** The first critical section of Start; the OnStart hook runs after it, without the lock. */
    method BeginStart() returns (ok: bool)
      modifies this
      ensures ok == !old(started) && Now() == Begun(old(Now()))
    {
      if started {
        return false;
      }
      cancel := Some(cycles);
      started := true;
      ready := false;
      readyCh := Some(cycles);
      stoppedCh := Some(cycles);
      cycles := cycles + 1;
      return true;
    }

    /** The second critical section of Start, entered when the OnStart hook has failed. */
    method RollBack()
      modifies this
      ensures Now() == Ended(old(Now()))
    {
      if cancel.Some? {
        cancels := cancels + [cancel.value];
        cancel := None;
      }
      started := false;
      ready := false;
      if stoppedCh.Some? {
        stoppedCloses := stoppedCloses + [stoppedCh.value];
        stoppedCh := None;
      }
    }

    method Stop() returns (ok: bool)
      modifies this
      ensures ok == old(started) && Now() == Stopped(old(Now()))
    {
      if !started {
        return false;
      }
      if cancel.Some? {
        cancels := cancels + [cancel.value];
        cancel := None;
      }
      started := false;
      ready := false;
      if stoppedCh.Some? {
        stoppedCloses := stoppedCloses + [stoppedCh.value];
        stoppedCh := None;
      }
      return true;
    }

    /** False stands for the panic of closing a closed channel. */
    method SetReady() returns (ok: bool)
      modifies this
      ensures ok == !ReadyPanics(old(Now()))
      ensures ok ==> Now() == MadeReady(old(Now()))
    {
      if ready {
        return true;
      }
      ready := true;
      if readyCh.Some? {
        if readyCh.value in readyCloses {
          return false;
        }
        readyCloses := readyCloses + [readyCh.value];
      }
      return true;
    }

    method BeginWait() returns (w: Waiter)
      ensures w == Captured(Now())
    {
      w := Waiter(ready, readyCh, stoppedCh);
    }
  }

  // ---------- Runs ----------

  datatype Event =
    | Begin
    | Fail(cycle: nat)   // the OnStart hook of that cycle's Start failed
    | Stop
    | SetReady

  function Step(s: State, e: Event): State
  {
    match e
    case Begin => Begun(s)
    case Fail(_) => Ended(s)
    case Stop => Stopped(s)
    case SetReady => MadeReady(s)
  }

  /** A hook can fail only for a cycle begun before; a panic ends the program, so no run goes past one. */
  predicate CanStep(s: State, e: Event)
  {
    match e
    case Fail(c) => c < s.cycles
    case SetReady => !ReadyPanics(s)
    case _ => true
  }

  ghost predicate Run(states: seq<State>, events: seq<Event>)
  {
    && |states| == |events| + 1 && states[0] == INITIAL
    && forall i | 0 <= i < |events| ::
         CanStep(states[i], events[i]) && states[i + 1] == Step(states[i], events[i])
  }

  /** The cycles that are over. */
  ghost predicate OverCycles(started: bool, cycles: nat, list: seq<nat>)
  {
    NoRepeats(list) && forall c: nat :: c in list <==> c < cycles && !(started && c + 1 == cycles)
  }

  lemma CycleOver(cycles: nat, list: seq<nat>)
    requires cycles > 0 && OverCycles(true, cycles, list)
    ensures OverCycles(false, cycles, list + [cycles - 1])
  {
    assert cycles - 1 !in list;
  }

  /** What every step keeps. */
  ghost predicate Inv(s: State)
  {
    && (s.started <==> s.cancel.Some?)
    && (s.started <==> s.stoppedCh.Some?)
    && (s.started ==> s.cycles > 0 && s.cancel == s.stoppedCh == Some(s.cycles - 1))
    && (s.readyCh == if s.cycles == 0 then None else Some(s.cycles - 1))
    && OverCycles(s.started, s.cycles, s.cancels)
    && OverCycles(s.started, s.cycles, s.stoppedCloses)
    && NoRepeats(s.readyCloses)
    && (forall c | c in s.readyCloses :: c < s.cycles)
    && (s.started ==> (s.ready <==> s.cycles - 1 in s.readyCloses))
    && (s.ready && s.cycles > 0 ==> s.cycles - 1 in s.readyCloses)
  }

  lemma StepKeepsInv(s: State, e: Event)
    requires Inv(s) && CanStep(s, e)
    ensures Inv(Step(s, e))
  {
    if (e.Stop? || e.Fail?) && s.started {
      CycleOver(s.cycles, s.cancels);
      CycleOver(s.cycles, s.stoppedCloses);
    }
  }

  lemma {:induction false} RunKeepsInv(states: seq<State>, events: seq<Event>, i: nat)
    requires Run(states, events) && i < |states|
    ensures Inv(states[i])
  {
    if i > 0 {
      RunKeepsInv(states, events, i - 1);
      assert CanStep(states[i - 1], events[i - 1]) && states[i - 1 + 1] == Step(states[i - 1], events[i - 1]);
      StepKeepsInv(states[i - 1], events[i - 1]);
    }
  }

  // ---------- What holds over every run ----------

  /** The contexts that nobody has cancelled: at most one, and one exactly while the collector is started. */
  function LiveContexts(s: State): set<nat>
  {
    set c | 0 <= c < s.cycles && c !in s.cancels
  }

  lemma OneContextWhileStarted(states: seq<State>, events: seq<Event>, i: nat)
    requires Run(states, events) && i < |states|
    ensures var s := states[i];
            && (s.started <==> s.cancel.Some?)
            && (s.started <==> s.stoppedCh.Some?)
            && LiveContexts(s) == (if s.started then {s.cancel.value} else {})
  {
    RunKeepsInv(states, events, i);
    var s := states[i];
    if s.started {
      assert s.cancel.value !in s.cancels;
    }
  }

  /** No channel is closed twice, and every cycle that is over has told its waiters. */
  lemma ChannelsCloseOnce(states: seq<State>, events: seq<Event>, i: nat)
    requires Run(states, events) && i < |states|
    ensures var s := states[i];
            && NoRepeats(s.stoppedCloses) && NoRepeats(s.readyCloses)
            && forall c: nat | c < s.cycles :: c in s.stoppedCloses <==> s.stoppedCh != Some(c)
  {
    RunKeepsInv(states, events, i);
  }

  /** While the collector is started SetReady never panics, and ready says whether the channel is closed. */
  lemma ReadyWhileStarted(states: seq<State>, events: seq<Event>, i: nat)
    requires Run(states, events) && i < |states| && states[i].started
    ensures !ReadyPanics(states[i])
    ensures states[i].readyCh.Some?
    ensures states[i].ready <==> states[i].readyCh.value in states[i].readyCloses
  {
    RunKeepsInv(states, events, i);
  }

  lemma {:induction false} ReadyClosedByReady(states: seq<State>, events: seq<Event>, c: nat, i: nat)
    requires Run(states, events) && i < |states|
    ensures c in states[i].readyCloses <==>
              exists j :: 0 <= j <= i && states[j].readyCh == Some(c) && states[j].ready
    decreases i
  {
    RunKeepsInv(states, events, i);
    if i > 0 {
      var s, t := states[i - 1], states[i];
      assert CanStep(s, events[i - 1]) && states[i - 1 + 1] == Step(s, events[i - 1]);
      RunKeepsInv(states, events, i - 1);
      ReadyClosedByReady(states, events, c, i - 1);
      if c in t.readyCloses && c !in s.readyCloses {
        assert states[i].readyCh == Some(c) && states[i].ready;
      }
    }
  }

  /** SetReady panics exactly when the collector is stopped, not ready, and was ready in its last cycle. */
  lemma ReadyPanicsIff(states: seq<State>, events: seq<Event>, i: nat)
    requires Run(states, events) && i < |states|
    ensures ReadyPanics(states[i]) <==>
              !states[i].started && !states[i].ready
              && exists j :: 0 <= j <= i && states[j].readyCh == states[i].readyCh != None && states[j].ready
  {
    RunKeepsInv(states, events, i);
    var s := states[i];
    if s.readyCh.Some? {
      ReadyClosedByReady(states, events, s.readyCh.value, i);
    }
  }

  /** A poll loop that outlives its cycle can bring it about, after the next cycle was ready and has ended. */
  lemma ReadyCanPanic() returns (states: seq<State>, events: seq<Event>)
    ensures Run(states, events)
    ensures events == [Begin, Stop, Begin, SetReady, Stop]
    ensures ReadyPanics(states[|events|])
  {
    events := [Begin, Stop, Begin, SetReady, Stop];
    var s1 := Begun(INITIAL);
    var s2 := Stopped(s1);
    var s3 := Begun(s2);
    var s4 := MadeReady(s3);
    states := [INITIAL, s1, s2, s3, s4, Stopped(s4)];
  }

  // ---------- What a history comes to ----------

  /** A Stop or a failed hook that has a cycle to end. */
  predicate Ends(s: State, e: Event)
  {
    e.Fail? || (e.Stop? && s.started)
  }

  /** A collector is started exactly when a Start has come since the last Stop and the last failed hook. */
  lemma {:induction false} StartedSince(states: seq<State>, events: seq<Event>, i: nat)
    requires Run(states, events) && i < |states|
    ensures states[i].started <==>
              exists j :: 0 <= j < i && events[j].Begin? && forall k | j < k < i :: !events[k].Stop? && !events[k].Fail?
  {
    if i > 0 {
      StartedSince(states, events, i - 1);
      var s, e := states[i - 1], events[i - 1];
      assert CanStep(s, e) && states[i - 1 + 1] == Step(s, e);
      if s.started && !e.Stop? && !e.Fail? {
        var j :| 0 <= j < i - 1 && events[j].Begin? && forall k | j < k < i - 1 :: !events[k].Stop? && !events[k].Fail?;
        assert forall k | j < k < i :: !events[k].Stop? && !events[k].Fail?;
      } else if e.Begin? {
        assert events[i - 1].Begin?;
      }
    }
  }

  /** It is ready exactly when SetReady has come and since then no cycle was begun and none was ended. */
  lemma {:induction false} ReadySince(states: seq<State>, events: seq<Event>, i: nat)
    requires Run(states, events) && i < |states|
    ensures states[i].ready <==>
              exists j :: 0 <= j < i && events[j].SetReady?
                          && forall k | j < k < i :: !Ends(states[k], events[k]) && (events[k].Begin? ==> states[k].started)
  {
    if i > 0 {
      ReadySince(states, events, i - 1);
      var s, e := states[i - 1], events[i - 1];
      assert CanStep(s, e) && states[i - 1 + 1] == Step(s, e);
      if e.SetReady? {
        assert events[i - 1].SetReady?;
      } else if s.ready && !Ends(s, e) && (e.Begin? ==> s.started) {
        var j :| 0 <= j < i - 1 && events[j].SetReady?
                 && forall k | j < k < i - 1 :: !Ends(states[k], events[k]) && (events[k].Begin? ==> states[k].started);
        assert forall k | j < k < i :: !Ends(states[k], events[k]) && (events[k].Begin? ==> states[k].started);
      }
    }
  }

  /** The Starts that began a cycle: those that found the collector stopped. */
  function CycleStarts(states: seq<State>, events: seq<Event>, i: nat): set<nat>
    requires |states| == |events| + 1 && i < |states|
  {
    set j: nat | j < i && events[j].Begin? && !states[j].started
  }

  lemma MoreStarts(states: seq<State>, events: seq<Event>, i: nat)
    requires |states| == |events| + 1 && 0 < i < |states|
    ensures |CycleStarts(states, events, i)|
         == |CycleStarts(states, events, i - 1)| + if events[i - 1].Begin? && !states[i - 1].started then 1 else 0
  {
    var before, begins := CycleStarts(states, events, i - 1), events[i - 1].Begin? && !states[i - 1].started;
    assert CycleStarts(states, events, i) == before + if begins then {i - 1} else {};
    assert i - 1 !in before;
  }

  /** Cycles are numbered in the order in which they were begun, and each has its own context and channels. */
  lemma {:induction false} CyclesBegun(states: seq<State>, events: seq<Event>, i: nat)
    requires Run(states, events) && i < |states|
    ensures states[i].cycles == |CycleStarts(states, events, i)|
    ensures states[i].readyCh == if states[i].cycles == 0 then None else Some(states[i].cycles - 1)
    ensures states[i].started ==> states[i].cancel == states[i].stoppedCh == states[i].readyCh
  {
    RunKeepsInv(states, events, i);
    if i == 0 {
      assert CycleStarts(states, events, 0) == {};
    } else {
      CyclesBegun(states, events, i - 1);
      var s, e := states[i - 1], events[i - 1];
      assert CanStep(s, e) && states[i - 1 + 1] == Step(s, e);
      MoreStarts(states, events, i);
    }
  }

  // ---------- Waiting ----------

  /** WaitReady says ready only if the collector was ready at some time in the cycle it took note of. */
  lemma ReadyWhenWaited(states: seq<State>, events: seq<Event>, i: nat, k: nat, contextDone: bool)
    requires Run(states, events) && i <= k < |states|
    requires MayReturn(Captured(states[i]), states[k], contextDone, IsReady)
    ensures states[i].ready
         || exists j :: 0 <= j <= k && states[j].readyCh == states[i].readyCh && states[j].ready
  {
    var w := Captured(states[i]);
    if !w.ready {
      ReadyClosedByReady(states, events, w.readyCh.value, k);
    }
  }

  lemma {:induction false} CyclesGrow(states: seq<State>, events: seq<Event>, i: nat, k: nat)
    requires Run(states, events) && i <= k < |states|
    ensures states[i].cycles <= states[k].cycles
    decreases k - i
  {
    if i < k {
      assert states[i + 1] == Step(states[i], events[i]);
      CyclesGrow(states, events, i + 1, k);
    }
  }

  /**
    The answers of WaitReady: ready when the collector was ready as it looked, or while started has been
    ready in the cycle it took note of; stopped when that cycle is over.
   */
  lemma WaitAnswersIff(states: seq<State>, events: seq<Event>, i: nat, k: nat, contextDone: bool, r: Waited)
    requires Run(states, events) && i <= k < |states|
    ensures MayReturn(Captured(states[i]), states[k], contextDone, r) <==>
            if states[i].ready then r == IsReady
            else if !states[i].started then r == NotStarted
            else match r
              case IsReady => exists j :: 0 <= j <= k && states[j].readyCh == states[i].readyCh && states[j].ready
              case WasStopped => states[k].stoppedCh != states[i].stoppedCh
              case ContextDone => contextDone
              case NotStarted => false
  {
    RunKeepsInv(states, events, i);
    RunKeepsInv(states, events, k);
    CyclesGrow(states, events, i, k);
    if states[i].started {
      ReadyClosedByReady(states, events, states[i].readyCh.value, k);
    }
  }

  /** Nobody waits past the end of a cycle: once it is over, or ready, every waiter of it can return. */
  lemma WaitersAreReleased(states: seq<State>, events: seq<Event>, i: nat, k: nat)
    requires Run(states, events) && i <= k < |states|
    requires states[k].ready || states[k].stoppedCh != states[i].stoppedCh || !states[i].started
    ensures exists r :: MayReturn(Captured(states[i]), states[k], false, r)
  {
    RunKeepsInv(states, events, i);
    RunKeepsInv(states, events, k);
    CyclesGrow(states, events, i, k);
    var w, s := Captured(states[i]), states[k];
    if w.ready {
      assert MayReturn(w, s, false, IsReady);
    } else if w.readyCh.None? || w.stoppedCh.None? {
      assert MayReturn(w, s, false, NotStarted);
    } else if s.stoppedCh != w.stoppedCh {
      assert MayReturn(w, s, false, WasStopped);
    } else {
      assert MayReturn(w, s, false, IsReady);
    }
  }

  /**
    Whether a collection that takes note of `first`, and with waiting turned on of `second`, may emit
    in `last`.
   */
  predicate MayEmit(waits: bool, first: State, second: State, last: State, contextDone: bool)
  {
    first.started && if waits then MayReturn(Captured(second), last, contextDone, IsReady) else first.ready
  }

  /** A collection emits only for a collector that was started, and ready in the same cycle or a later one. */
  lemma EmitsWhenReady(states: seq<State>, events: seq<Event>, i: nat, j: nat, k: nat, waits: bool, contextDone: bool)
    requires Run(states, events) && i <= j <= k < |states|
    requires MayEmit(waits, states[i], states[j], states[k], contextDone)
    ensures states[i].started && states[i].readyCh.Some?
    ensures exists m :: 0 <= m <= k && states[m].ready && states[m].readyCh.Some?
                        && states[m].readyCh.value >= states[i].readyCh.value
  {
    RunKeepsInv(states, events, i);
    RunKeepsInv(states, events, j);
    CyclesGrow(states, events, i, j);
    if waits {
      ReadyWhenWaited(states, events, j, k, contextDone);
    }
  }

  // ---------- The late rollback ----------

  /** A failed Start ends a cycle that is not its own exactly when a newer one is running by then. */
  lemma FailEndsOthersIff(states: seq<State>, events: seq<Event>, i: nat, c: nat)
    requires Run(states, events) && i < |states| && CanStep(states[i], Fail(c))
    ensures var s, t := states[i], Step(states[i], Fail(c));
            && !t.started
            && ((exists d :: d != c && d in LiveContexts(s) && d !in LiveContexts(t)) <==>
                s.started && s.cancel != Some(c))
  {
    RunKeepsInv(states, events, i);
    var s, t := states[i], Step(states[i], Fail(c));
    if s.started && s.cancel != Some(c) {
      var d := s.cancel.value;
      assert d in LiveContexts(s) && d !in LiveContexts(t);
    }
  }

  lemma FailCanEndNewer() returns (states: seq<State>, events: seq<Event>)
    ensures Run(states, events)
    ensures events == [Begin, Stop, Begin, Fail(0)]
    ensures states[3].started && LiveContexts(states[3]) == {1}
    ensures !states[4].started && LiveContexts(states[4]) == {}
  {
    events := [Begin, Stop, Begin, Fail(0)];
    var s1 := Begun(INITIAL);
    var s2 := Stopped(s1);
    var s3 := Begun(s2);
    states := [INITIAL, s1, s2, s3, Ended(s3)];
  }
}
