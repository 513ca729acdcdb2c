/** What a run of the reloader comes to: when its timer is set, and which contents it can deliver. */
module ReloaderHistory {
  import opened Wrappers
  import opened Reloader
  import opened ReloaderRuns

  // ---------- The timer ----------

  /** The last time before the i-th state that the timer was set, neither fired nor stopped since. */
  predicate SetAt(events: seq<Event>, i: int, m: int)
    requires i <= |events|
  {
    && 0 <= m < i && events[m].Schedule?
    && forall j | m < j < i :: !events[j].Schedule? && !events[j].Expire? && !events[j].StopTimer?
  }

  /** What the j-th event does to the timer. */
  predicate TimerChanges(c: Setup, states: seq<State>, events: seq<Event>, j: int)
    requires |states| == |events| + 1 && 0 <= j < |events|
  {
    states[j + 1].timer == if events[j].Schedule? then Some(states[j].now + c.debounce)
                           else if events[j].Expire? || events[j].StopTimer? then None
                           else states[j].timer
  }

  lemma RunChangesTimer(c: Setup, file: Option<string>, states: seq<State>, events: seq<Event>, j: nat)
    requires Run(c, file, states, events) && j < |events|
    ensures TimerChanges(c, states, events, j)
  {
    assert Enabled(c, states[j], events[j]) && states[j + 1] == Step(c, states[j], events[j]);
  }

  lemma {:induction false} TimerValue(c: Setup, states: seq<State>, events: seq<Event>, i: nat, m: nat)
    requires |states| == |events| + 1 && i < |states| && SetAt(events, i, m)
    requires forall j | 0 <= j < |events| :: TimerChanges(c, states, events, j)
    ensures states[i].timer == Some(states[m].now + c.debounce)
    decreases i
  {
    assert TimerChanges(c, states, events, i - 1);
    if m < i - 1 {
      TimerValue(c, states, events, i - 1, m);
    }
  }

  lemma {:induction false} TimerSetting(c: Setup, states: seq<State>, events: seq<Event>, i: nat) returns (m: nat)
    requires |states| == |events| + 1 && i < |states| && states[0].timer == None && states[i].timer.Some?
    requires forall j | 0 <= j < |events| :: TimerChanges(c, states, events, j)
    ensures SetAt(events, i, m)
    decreases i
  {
    assert TimerChanges(c, states, events, i - 1);
    if events[i - 1].Schedule? {
      m := i - 1;
    } else {
      m := TimerSetting(c, states, events, i - 1);
    }
  }

  /** The timer is pending exactly when it has been set since it last fired and was stopped, for a debounce later. */
  lemma TimerIff(c: Setup, file: Option<string>, states: seq<State>, events: seq<Event>, i: nat)
    requires Run(c, file, states, events) && i < |states|
    ensures states[i].timer.Some? <==> exists m :: SetAt(events, i, m)
    ensures forall m | SetAt(events, i, m) :: states[i].timer == Some(states[m].now + c.debounce)
  {
    forall j | 0 <= j < |events|
      ensures TimerChanges(c, states, events, j)
    {
      RunChangesTimer(c, file, states, events, j);
    }
    forall m | SetAt(events, i, m)
      ensures states[i].timer == Some(states[m].now + c.debounce)
    {
      TimerValue(c, states, events, i, m);
    }
    if states[i].timer.Some? {
      var m := TimerSetting(c, states, events, i);
    }
  }

  /** The timer fires a debounce or more after it was set, and only if it was not set again in between. */
  lemma FiresAfterDebounce(c: Setup, file: Option<string>, states: seq<State>, events: seq<Event>, i: nat)
    requires Run(c, file, states, events) && i < |events| && events[i].Expire?
    ensures exists m :: SetAt(events, i, m) && states[m].now + c.debounce <= states[i].now
  {
    TimerIff(c, file, states, events, i);
    assert Enabled(c, states[i], events[i]);
  }

  // ---------- Events ----------

  /** What the watcher has said until the i-th state: nothing after Stop has closed it. */
  function Said(states: seq<State>, events: seq<Event>, i: nat): seq<FileEvent>
    requires |states| == |events| + 1 && i < |states|
  {
    if i == 0 then []
    else
      var e := events[i - 1];
      Said(states, events, i - 1)
      + if states[i - 1].stopping.Up? && (e.Touch? || e.Notice?) then [e.e] else []
  }

  /** How much of it the watch loop has received. */
  function Received(events: seq<Event>, i: nat): nat
    requires i <= |events|
  {
    if i == 0 then 0 else Received(events, i - 1) + if events[i - 1].Receive? then 1 else 0
  }

  /** What the loop has yet to receive is what was said after what it has received, in that order. */
  lemma {:induction false} NothingMissed(c: Setup, file: Option<string>, states: seq<State>, events: seq<Event>, i: nat)
    requires Run(c, file, states, events) && i < |states|
    ensures Received(events, i) <= |Said(states, events, i)|
    ensures states[i].queue == Said(states, events, i)[Received(events, i)..]
  {
    if i > 0 {
      NothingMissed(c, file, states, events, i - 1);
      assert Enabled(c, states[i - 1], events[i - 1]) && states[i - 1 + 1] == Step(c, states[i - 1], events[i - 1]);
    }
  }

  /** After a relevant event was received the timer is set next, and once the loop has ended nothing more is received. */
  lemma LoopSays(c: Setup, file: Option<string>, states: seq<State>, events: seq<Event>, i: nat, k: nat)
    requires Run(c, file, states, events) && i < k < |events|
    ensures events[i].Exit? ==> !events[k].Receive? && !events[k].Schedule? && states[k].loop.Exited?
    ensures events[i].Receive? && states[i].queue != [] && events[k].Receive? && IsRelevant(c, states[i].queue[0]) ==>
              exists j :: i < j < k && events[j].Schedule?
  {
    assert Enabled(c, states[i], events[i]) && states[i + 1] == Step(c, states[i], events[i]);
    assert Enabled(c, states[k], events[k]);
    StaysInLoop(c, file, states, events, i + 1, k);
  }

  /** The loop leaves scheduling only by setting the timer, and never comes back once it has ended. */
  lemma {:induction false} StaysInLoop(c: Setup, file: Option<string>, states: seq<State>, events: seq<Event>, i: nat, k: nat)
    requires Run(c, file, states, events) && i <= k < |states|
    ensures states[i].loop.Exited? ==> states[k].loop.Exited?
    ensures states[i].loop.Scheduling? && !states[k].loop.Scheduling? ==> exists j :: i <= j < k && events[j].Schedule?
    decreases k
  {
    if i < k {
      StaysInLoop(c, file, states, events, i, k - 1);
      assert Enabled(c, states[k - 1], events[k - 1]) && states[k - 1 + 1] == Step(c, states[k - 1], events[k - 1]);
      if events[k - 1].Schedule? {
        assert i <= k - 1 < k;
      }
    }
  }

  // ---------- Contents ----------

  /** That the file had some content after some number of changes. */
  ghost predicate Had(states: seq<State>, i: nat, content: string, version: nat)
  {
    exists j :: 0 <= j <= i && j < |states| && states[j].file == Some(content) && states[j].version == version
  }

  ghost predicate InvRead(states: seq<State>, i: nat)
    requires i < |states|
  {
    && (forall id | id in states[i].reloads && states[i].reloads[id].HasRead? ::
          Had(states, i, states[i].reloads[id].content, states[i].reloads[id].version))
    && (forall d | d in states[i].delivered :: Had(states, i, d.content, d.version))
  }

  lemma HadStays(states: seq<State>, i: nat)
    ensures forall content, version | Had(states, i, content, version) :: Had(states, i + 1, content, version)
  {
    forall content, version | Had(states, i, content, version)
      ensures Had(states, i + 1, content, version)
    {
      var j :| 0 <= j <= i && j < |states| && states[j].file == Some(content) && states[j].version == version;
      assert 0 <= j <= i + 1;
    }
  }

  lemma ReadMore(c: Setup, states: seq<State>, i: nat, event: Event)
    requires i + 1 < |states| && InvRead(states, i)
    requires Enabled(c, states[i], event) && states[i + 1] == Step(c, states[i], event)
    ensures InvRead(states, i + 1)
  {
    var s := states[i];
    HadStays(states, i);
    if event.ReadFile? && s.file.Some? {
      assert Had(states, i, s.file.value, s.version);
    }
  }

  /** Every content delivered is one the file had, and what has been delivered stays delivered in that order. */
  lemma {:induction false} DeliveredWasFile(c: Setup, file: Option<string>, states: seq<State>, events: seq<Event>, i: nat)
    requires Run(c, file, states, events) && i < |states|
    ensures InvRead(states, i)
    ensures i > 0 ==> states[i - 1].delivered <= states[i].delivered
                      && |states[i].delivered| == |states[i - 1].delivered| + if events[i - 1].Callback? then 1 else 0
  {
    if i > 0 {
      DeliveredWasFile(c, file, states, events, i - 1);
      assert Enabled(c, states[i - 1], events[i - 1]) && states[i - 1 + 1] == Step(c, states[i - 1], events[i - 1]);
      ReadMore(c, states, i - 1, events[i - 1]);
    }
  }
}
