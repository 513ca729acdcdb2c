/**
  The configuration reloader with reloads that take time: the watch loop, the timer, the functions of
  timers that have fired and the two halves of Stop, in every order their steps may come in.
 */
module ReloaderRuns {
  import opened Wrappers
  import opened Reloader

  // ---------- States ----------

  /** A timer's function has begun, or has read the file as it was after some number of changes. */
  datatype Phase = Begun | HasRead(content: string, version: nat)

  datatype Loop = Selecting | Scheduling | Exited

  datatype Stopping = Up | Closed | Stopped

  datatype Delivery = Delivery(content: string, version: nat)

  /** `version` counts the changes of the file, and `seen` is the last at which it was read. */
  datatype State = State(
    now: int,
    file: Option<string>,
    version: nat,
    seen: nat,
    queue: seq<FileEvent>,
    loop: Loop,
    timer: Option<int>,
    reloads: map<nat, Phase>,
    made: nat,
    delivered: seq<Delivery>,
    stopping: Stopping)

  datatype Setup = Setup(paths: Paths, configPath: string, debounce: nat)

  function Initial(file: Option<string>): State
  {
    State(0, file, 0, 0, [], Selecting, None, map[], 0, [], Up)
  }

  // ---------- Steps ----------

  datatype Event =
    | Wait(ticks: nat)
    | Touch(file: Option<string>, e: FileEvent)    // the file changes, and the watcher says so
    | Notice(e: FileEvent)                          // the watcher says something else
    | Receive
    | Schedule
    | Expire
    | ReadFile(id: nat)
    | Callback(id: nat)                             // the content that was read takes effect
    | Close                                         // Stop closes its channel and the watcher
    | StopTimer                                     // and then stops the timer
    | Exit

  predicate IsRelevant(c: Setup, e: FileEvent)
  {
    Relevant(c.paths, c.configPath, e)
  }

  predicate Enabled(c: Setup, s: State, event: Event)
  {
    match event
    case Wait(_) => true
    case Touch(_, e) => s.stopping.Up? ==> IsRelevant(c, e)
    case Notice(_) => true
    case Receive => s.loop.Selecting? && s.queue != []
    case Schedule => s.loop.Scheduling?
    case Expire => s.timer.Some? && s.timer.value <= s.now
    case ReadFile(id) => id in s.reloads && s.reloads[id].Begun?
    case Callback(id) => id in s.reloads && s.reloads[id].HasRead?
    case Close => s.stopping.Up?
    case StopTimer => s.stopping.Closed?
    case Exit => s.loop.Selecting? && !s.stopping.Up?
  }

  /** A closed watcher says nothing more; what it has said may still be received. */
  function Queued(s: State, e: FileEvent): seq<FileEvent>
  {
    if s.stopping.Up? then s.queue + [e] else s.queue
  }

  function Step(c: Setup, s: State, event: Event): State
  {
    match event
    case Wait(ticks) => s.(now := s.now + ticks)
    case Touch(file, e) => s.(file := file, version := s.version + 1, queue := Queued(s, e))
    case Notice(e) => s.(queue := Queued(s, e))
    case Receive =>
      if s.queue == [] then s
      else s.(queue := s.queue[1..], loop := if IsRelevant(c, s.queue[0]) then Scheduling else Selecting)
    case Schedule => s.(timer := Some(s.now + c.debounce), loop := Selecting)
    case Expire => s.(timer := None, reloads := s.reloads[s.made := Begun], made := s.made + 1)
    case ReadFile(id) =>
      s.(seen := s.version,
         reloads := match s.file
                    case Some(content) => s.reloads[id := HasRead(content, s.version)]
                    case None => s.reloads - {id})
    case Callback(id) =>
      if !(id in s.reloads && s.reloads[id].HasRead?) then s
      else s.(delivered := s.delivered + [Delivery(s.reloads[id].content, s.reloads[id].version)], reloads := s.reloads - {id})
    case Close => s.(stopping := Closed)
    case StopTimer => s.(stopping := Stopped, timer := None)
    case Exit => s.(loop := Exited)
  }

  ghost predicate Run(c: Setup, file: Option<string>, states: seq<State>, events: seq<Event>)
  {
    && |states| == |events| + 1 && states[0] == Initial(file)
    && forall i {:trigger events[i]} | 0 <= i < |events| ::
         Enabled(c, states[i], events[i]) && states[i + 1] == Step(c, states[i], events[i])
  }

  // ---------- What every step keeps ----------

  predicate RelevantIn(c: Setup, queue: seq<FileEvent>)
  {
    exists e | e in queue :: IsRelevant(c, e)
  }

  predicate HasBegun(s: State, id: nat)
  {
    id in s.reloads && s.reloads[id].Begun?
  }

  /** Something is under way that will read the file again. */
  ghost predicate WillRead(c: Setup, s: State)
  {
    RelevantIn(c, s.queue) || s.loop.Scheduling? || s.timer.Some? || exists id: nat :: HasBegun(s, id)
  }

  predicate HoldsRead(s: State, id: nat)
  {
    id in s.reloads && s.reloads[id].HasRead? && s.reloads[id].version == s.seen
  }

  predicate HasDelivered(s: State, k: nat)
  {
    k < |s.delivered| && s.delivered[k].version == s.seen
  }

  /** What was read last is with a reload or has been delivered, unless it could not be read. */
  ghost predicate Carried(s: State)
  {
    (exists id: nat :: HoldsRead(s, id)) || exists k: nat :: HasDelivered(s, k)
  }

  ghost predicate InvContents(s: State)
  {
    && s.seen <= s.version
    && (forall id | id in s.reloads :: id < s.made)
    && (forall id | id in s.reloads && s.reloads[id].HasRead? ::
          s.reloads[id].version <= s.seen
          && (s.reloads[id].version == s.version ==> s.file == Some(s.reloads[id].content)))
    && (forall d | d in s.delivered :: d.version <= s.seen && (d.version == s.version ==> s.file == Some(d.content)))
  }

  /** As long as Stop has not begun, no change is forgotten. */
  ghost predicate InvSeen(c: Setup, s: State)
  {
    && (s.stopping.Up? ==> s.loop != Exited)
    && (s.stopping.Up? && s.version > 0 ==> WillRead(c, s) || s.seen == s.version)
    && (s.seen > 0 && s.seen == s.version && s.file.Some? ==> Carried(s))
  }

  lemma StepKeepsContents(c: Setup, s: State, event: Event)
    requires InvContents(s) && Enabled(c, s, event)
    ensures InvContents(Step(c, s, event))
  {
  }

  lemma StillWillRead(c: Setup, s: State, event: Event)
    requires InvSeen(c, s) && Enabled(c, s, event) && Step(c, s, event).stopping.Up?
    requires WillRead(c, s) || event.Touch?
    ensures WillRead(c, Step(c, s, event)) || event.ReadFile?
  {
    var t := Step(c, s, event);
    if !event.ReadFile? {
      forall d: nat | HasBegun(s, d)
        ensures HasBegun(t, d)
      {
      }
    }
    match event {
      case Touch(_, e) => assert e in t.queue;
      case Notice(e) => assert forall f | f in s.queue :: f in t.queue;
      case Receive => assert forall f | f in s.queue :: f == s.queue[0] || f in t.queue;
      case Expire => assert HasBegun(t, s.made);
      case _ =>
    }
  }

  lemma StillCarried(c: Setup, s: State, event: Event)
    requires InvContents(s) && Carried(s) && Enabled(c, s, event) && !event.ReadFile?
    ensures Carried(Step(c, s, event))
  {
    var t := Step(c, s, event);
    if k: nat :| HasDelivered(s, k) {
      assert HasDelivered(t, k);
    } else {
      var id: nat :| HoldsRead(s, id);
      if event == Callback(id) {
        assert HasDelivered(t, |s.delivered|);
      } else {
        assert HoldsRead(t, id);
      }
    }
  }

  lemma StepKeepsSeen(c: Setup, s: State, event: Event)
    requires InvContents(s) && InvSeen(c, s) && Enabled(c, s, event)
    ensures InvSeen(c, Step(c, s, event))
  {
    var t := Step(c, s, event);
    if t.stopping.Up? && (WillRead(c, s) || event.Touch?) {
      StillWillRead(c, s, event);
    }
    if event.ReadFile? {
      if s.file.Some? {
        assert HoldsRead(t, event.id);
      }
    } else if Carried(s) {
      StillCarried(c, s, event);
    }
  }

  lemma {:induction false} RunKeepsInv(c: Setup, file: Option<string>, states: seq<State>, events: seq<Event>, i: nat)
    requires Run(c, file, states, events) && i < |states|
    ensures InvContents(states[i]) && InvSeen(c, states[i])
  {
    if i > 0 {
      RunKeepsInv(c, file, states, events, i - 1);
      var s, event := states[i - 1], events[i - 1];
      assert Enabled(c, s, event) && states[i - 1 + 1] == Step(c, s, event);
      StepKeepsContents(c, s, event);
      StepKeepsSeen(c, s, event);
    }
  }

  // ---------- When nothing is under way ----------

  /** Every event has been received, the timer is not set, and no reload is under way. */
  predicate Settled(s: State)
  {
    s.stopping.Up? && s.queue == [] && s.loop.Selecting? && s.timer.None? && s.reloads == map[]
  }

  /** Once nothing is under way, the file as it is has been delivered, whatever overtook what. */
  lemma CurrentIsDelivered(c: Setup, file: Option<string>, states: seq<State>, events: seq<Event>, i: nat)
    requires Run(c, file, states, events) && i < |states| && Settled(states[i])
    requires states[i].version > 0 && states[i].file.Some?
    ensures Delivery(states[i].file.value, states[i].version) in states[i].delivered
  {
    RunKeepsInv(c, file, states, events, i);
    var s := states[i];
    var k: nat :| HasDelivered(s, k);
    assert s.delivered[k] in s.delivered;
  }

  /** What takes effect was read before something that has taken effect already. */
  ghost predicate Overtaken(s: State, id: nat)
  {
    id in s.reloads && s.reloads[id].HasRead? && exists d | d in s.delivered :: d.version > s.reloads[id].version
  }

  /** The last callback of a run up to some point. */
  ghost predicate LastCallback(events: seq<Event>, i: nat, k: nat)
  {
    k < i <= |events| && events[k].Callback? && forall j | k < j < i :: !events[j].Callback?
  }

  lemma {:induction false} DeliveredSince(c: Setup, file: Option<string>, states: seq<State>, events: seq<Event>,
                                          k: nat, i: nat)
    requires Run(c, file, states, events) && k <= i < |states| && forall j | k <= j < i :: !events[j].Callback?
    ensures states[i].delivered == states[k].delivered
    decreases i
  {
    if k < i {
      DeliveredSince(c, file, states, events, k, i - 1);
      assert Enabled(c, states[i - 1], events[i - 1]) && states[i - 1 + 1] == Step(c, states[i - 1], events[i - 1]);
    }
  }

  lemma {:induction false} SomeLastCallback(c: Setup, file: Option<string>, states: seq<State>, events: seq<Event>, i: nat)
    returns (k: nat)
    requires Run(c, file, states, events) && i < |states| && states[i].delivered != []
    ensures LastCallback(events, i, k)
  {
    assert Enabled(c, states[i - 1], events[i - 1]) && states[i - 1 + 1] == Step(c, states[i - 1], events[i - 1]);
    if events[i - 1].Callback? {
      k := i - 1;
    } else {
      k := SomeLastCallback(c, file, states, events, i - 1);
    }
  }

  /** Once nothing is under way, the last delivery is of the file as it is exactly when the last callback was not overtaken. */
  lemma FinalIsCurrentIff(c: Setup, file: Option<string>, states: seq<State>, events: seq<Event>, i: nat)
    requires Run(c, file, states, events) && i < |states| && Settled(states[i])
    requires states[i].version > 0 && states[i].file.Some?
    ensures states[i].delivered != []
    ensures exists k: nat :: LastCallback(events, i, k)
    ensures forall k: nat | LastCallback(events, i, k) ::
              states[i].delivered[|states[i].delivered| - 1] == Delivery(states[i].file.value, states[i].version)
              <==> !Overtaken(states[k], events[k].id)
  {
    CurrentIsDelivered(c, file, states, events, i);
    RunKeepsInv(c, file, states, events, i);
    var l := SomeLastCallback(c, file, states, events, i);
    forall k: nat | LastCallback(events, i, k)
      ensures states[i].delivered[|states[i].delivered| - 1] == Delivery(states[i].file.value, states[i].version)
              <==> !Overtaken(states[k], events[k].id)
    {
      FinalIsCurrentAt(c, file, states, events, i, k);
    }
  }

  lemma FinalIsCurrentAt(c: Setup, file: Option<string>, states: seq<State>, events: seq<Event>, i: nat, k: nat)
    requires Run(c, file, states, events) && i < |states| && LastCallback(events, i, k)
    requires states[i].file.Some? && Delivery(states[i].file.value, states[i].version) in states[i].delivered
    ensures states[i].delivered[|states[i].delivered| - 1] == Delivery(states[i].file.value, states[i].version)
            <==> !Overtaken(states[k], events[k].id)
  {
    var s, t, id := states[k], states[i], events[k].id;
    assert Enabled(c, s, events[k]) && states[k + 1] == Step(c, s, events[k]);
    DeliveredSince(c, file, states, events, k + 1, i);
    RunKeepsInv(c, file, states, events, i);
    var current, last := Delivery(t.file.value, t.version), Delivery(s.reloads[id].content, s.reloads[id].version);
    assert t.delivered == s.delivered + [last];
    assert last in t.delivered;
    if last != current {
      assert current in s.delivered && current.version > last.version;
    }
  }

  // ---------- Reloads that do not overlap ----------

  /** At most one reload is under way, and what it has read is no older than anything delivered. */
  ghost predicate InOrder(s: State)
  {
    && (forall i, j | i in s.reloads && j in s.reloads :: i == j)
    && (forall id, d | id in s.reloads && s.reloads[id].HasRead? && d in s.delivered :: d.version <= s.reloads[id].version)
  }

  lemma StepKeepsOrder(c: Setup, s: State, event: Event)
    requires InvContents(s) && InOrder(s) && Enabled(c, s, event) && (event.Expire? ==> s.reloads == map[])
    ensures InOrder(Step(c, s, event))
  {
  }

  lemma {:induction false} RunKeepsOrder(c: Setup, file: Option<string>, states: seq<State>, events: seq<Event>, i: nat)
    requires Run(c, file, states, events) && i < |states|
    requires forall j | 0 <= j < i && events[j].Expire? :: states[j].reloads == map[]
    ensures InOrder(states[i])
  {
    if i > 0 {
      RunKeepsOrder(c, file, states, events, i - 1);
      RunKeepsInv(c, file, states, events, i - 1);
      assert Enabled(c, states[i - 1], events[i - 1]) && states[i - 1 + 1] == Step(c, states[i - 1], events[i - 1]);
      StepKeepsOrder(c, states[i - 1], events[i - 1]);
    }
  }

  /** If every reload is through by the time the next begins, the last delivery is of the file as it is. */
  lemma FinalIsCurrent(c: Setup, file: Option<string>, states: seq<State>, events: seq<Event>, i: nat)
    requires Run(c, file, states, events) && i < |states| && Settled(states[i])
    requires states[i].version > 0 && states[i].file.Some?
    requires forall j | 0 <= j < i && events[j].Expire? :: states[j].reloads == map[]
    ensures states[i].delivered != []
    ensures states[i].delivered[|states[i].delivered| - 1] == Delivery(states[i].file.value, states[i].version)
  {
    FinalIsCurrentIff(c, file, states, events, i);
    var k: nat :| LastCallback(events, i, k);
    RunKeepsOrder(c, file, states, events, k);
  }

  // ---------- Runs ----------

  lemma RunThen(c: Setup, file: Option<string>, states: seq<State>, events: seq<Event>, event: Event)
    returns (more: seq<State>, all: seq<Event>)
    requires Run(c, file, states, events) && Enabled(c, states[|events|], event)
    ensures Run(c, file, more, all) && all == events + [event] && more[|all|] == Step(c, states[|events|], event)
    ensures states < more
  {
    more, all := states + [Step(c, states[|events|], event)], events + [event];
    forall i | 0 <= i < |all|
      ensures Enabled(c, more[i], all[i]) && more[i + 1] == Step(c, more[i], all[i])
    {
      if i < |events| {
        assert all[i] == events[i];
      }
    }
  }

  /** The file changes and the next reload reads it, but its callback is still to come. */
  lemma OneRead(c: Setup, file: Option<string>, states: seq<State>, events: seq<Event>, e: FileEvent, content: string)
    returns (more: seq<State>, all: seq<Event>)
    requires Run(c, file, states, events) && IsRelevant(c, e)
    requires var s := states[|events|]; s.stopping.Up? && s.loop.Selecting? && s.queue == []
    ensures Run(c, file, more, all)
    ensures var s, t := states[|events|], more[|all|];
            && t.stopping.Up? && t.loop.Selecting? && t.queue == [] && t.timer.None? && t.file == Some(content)
            && t.version == s.version + 1 && t.made == s.made + 1 && t.delivered == s.delivered
            && t.reloads == s.reloads[s.made := HasRead(content, s.version + 1)]
  {
    more, all := RunThen(c, file, states, events, Touch(Some(content), e));
    more, all := RunThen(c, file, more, all, Receive);
    more, all := RunThen(c, file, more, all, Schedule);
    more, all := RunThen(c, file, more, all, Wait(c.debounce));
    more, all := RunThen(c, file, more, all, Expire);
    more, all := RunThen(c, file, more, all, ReadFile(states[|events|].made));
  }

  /** Two changes a debounce apart: the reload of the first takes so long that the second overtakes it. */
  lemma StaleIsDelivered(c: Setup, e: FileEvent, first: string, second: string)
    returns (states: seq<State>, events: seq<Event>)
    requires IsRelevant(c, e)
    ensures Run(c, None, states, events) && Settled(states[|events|])
    ensures states[|events|].file == Some(second)
    ensures states[|events|].delivered == [Delivery(second, 2), Delivery(first, 1)]
  {
    states, events := OneRead(c, None, [Initial(None)], [], e, first);
    states, events := OneRead(c, None, states, events, e, second);
    states, events := RunThen(c, None, states, events, Callback(1));
    states, events := RunThen(c, None, states, events, Callback(0));
  }

  // ---------- After Stop ----------

  /** The state that a list of events leads to. */
  function After(c: Setup, s: State, events: seq<Event>): State
  {
    if events == [] then s else Step(c, After(c, s, events[..|events| - 1]), events[|events| - 1])
  }

  /** Events each of which may happen when it comes. */
  predicate Possible(c: Setup, s: State, events: seq<Event>)
  {
    events == []
    || (Possible(c, s, events[..|events| - 1]) && Enabled(c, After(c, s, events[..|events| - 1]), events[|events| - 1]))
  }

  lemma Then(c: Setup, s: State, events: seq<Event>, event: Event)
    requires Possible(c, s, events) && Enabled(c, After(c, s, events), event)
    ensures Possible(c, s, events + [event])
    ensures After(c, s, events + [event]) == Step(c, After(c, s, events), event)
  {
    assert (events + [event])[..|events + [event]| - 1] == events;
  }

  /** A way for something to be delivered after all. */
  ghost predicate Delivers(c: Setup, s: State, more: seq<Event>)
  {
    Possible(c, s, more) && |After(c, s, more).delivered| > |s.delivered|
  }

  /** Nothing is under way that could deliver anything. */
  predicate AtRest(c: Setup, s: State)
  {
    s.timer.None? && s.reloads == map[] && !s.loop.Scheduling? && (s.loop.Selecting? ==> !RelevantIn(c, s.queue))
  }

  lemma StaysAtRest(c: Setup, s: State, event: Event)
    requires s.stopping.Stopped? && AtRest(c, s) && Enabled(c, s, event)
    ensures Step(c, s, event).stopping.Stopped? && AtRest(c, Step(c, s, event))
    ensures Step(c, s, event).delivered == s.delivered
  {
    if event.Receive? {
      assert s.queue[0] in s.queue && forall e | e in s.queue[1..] :: e in s.queue;
    }
  }

  lemma {:induction false} RestsThroughout(c: Setup, s: State, more: seq<Event>)
    requires s.stopping.Stopped? && AtRest(c, s) && Possible(c, s, more)
    ensures var t := After(c, s, more); t.stopping.Stopped? && AtRest(c, t) && t.delivered == s.delivered
  {
    if more != [] {
      var n := |more| - 1;
      RestsThroughout(c, s, more[..n]);
      StaysAtRest(c, After(c, s, more[..n]), more[n]);
    }
  }

  /** Events so far, with Stop over and nothing taken back. */
  predicate SoFar(c: Setup, s: State, before: seq<Event>)
  {
    Possible(c, s, before) && After(c, s, before).stopping.Stopped? && |After(c, s, before).delivered| >= |s.delivered|
  }

  lemma DeliversFromReload(c: Setup, s: State, before: seq<Event>, id: nat) returns (more: seq<Event>)
    requires SoFar(c, s, before) && id in After(c, s, before).reloads
    ensures Delivers(c, s, more)
  {
    more := before;
    if After(c, s, before).reloads[id].Begun? {
      var touch := Touch(Some(""), FileEvent("", false, false, false));
      Then(c, s, before, touch);
      Then(c, s, before + [touch], ReadFile(id));
      more := before + [touch] + [ReadFile(id)];
    }
    Then(c, s, more, Callback(id));
    more := more + [Callback(id)];
  }

  lemma DeliversFromTimer(c: Setup, s: State, before: seq<Event>) returns (more: seq<Event>)
    requires SoFar(c, s, before) && After(c, s, before).timer.Some?
    ensures Delivers(c, s, more)
  {
    var u := After(c, s, before);
    var wait := Wait(if u.timer.value <= u.now then 0 else u.timer.value - u.now);
    Then(c, s, before, wait);
    Then(c, s, before + [wait], Expire);
    more := DeliversFromReload(c, s, before + [wait] + [Expire], u.made);
  }

  lemma DeliversFromScheduling(c: Setup, s: State, before: seq<Event>) returns (more: seq<Event>)
    requires SoFar(c, s, before) && After(c, s, before).loop.Scheduling?
    ensures Delivers(c, s, more)
  {
    Then(c, s, before, Schedule);
    more := DeliversFromTimer(c, s, before + [Schedule]);
  }

  lemma {:induction false} DeliversFromQueue(c: Setup, s: State, before: seq<Event>) returns (more: seq<Event>)
    requires SoFar(c, s, before)
    requires After(c, s, before).loop.Selecting? && RelevantIn(c, After(c, s, before).queue)
    ensures Delivers(c, s, more)
    decreases |After(c, s, before).queue|
  {
    var queue := After(c, s, before).queue;
    Then(c, s, before, Receive);
    if IsRelevant(c, queue[0]) {
      more := DeliversFromScheduling(c, s, before + [Receive]);
    } else {
      assert forall e | e in queue :: e == queue[0] || e in queue[1..];
      more := DeliversFromQueue(c, s, before + [Receive]);
    }
  }

  /** Once Stop is over: something may still be delivered exactly when something is under way. */
  lemma DeliversAfterStopIff(c: Setup, s: State)
    requires s.stopping.Stopped?
    ensures (exists more :: Delivers(c, s, more)) <==> !AtRest(c, s)
  {
    if AtRest(c, s) {
      forall more | Possible(c, s, more)
        ensures !Delivers(c, s, more)
      {
        RestsThroughout(c, s, more);
      }
    } else {
      var more: seq<Event>;
      if s.timer.Some? {
        more := DeliversFromTimer(c, s, []);
      } else if s.reloads != map[] {
        var id :| id in s.reloads;
        more := DeliversFromReload(c, s, [], id);
      } else if s.loop.Scheduling? {
        more := DeliversFromScheduling(c, s, []);
      } else {
        more := DeliversFromQueue(c, s, []);
      }
      assert Delivers(c, s, more);
    }
  }

  /** Stop is over while an event is being handled. */
  lemma StoppedWhileHandling(c: Setup, e: FileEvent, content: string) returns (states: seq<State>, events: seq<Event>)
    requires IsRelevant(c, e)
    ensures Run(c, None, states, events) && |events| == 4
    ensures states[4] == State(0, Some(content), 1, 0, [], Scheduling, None, map[], 0, [], Stopped)
  {
    states, events := RunThen(c, None, [Initial(None)], [], Touch(Some(content), e));
    states, events := RunThen(c, None, states, events, Receive);
    states, events := RunThen(c, None, states, events, Close);
    states, events := RunThen(c, None, states, events, StopTimer);
  }

  /** An event is being handled while Stop stops the timer: it is set anew, and the file is delivered after Stop. */
  lemma DeliveredAfterStop(c: Setup, e: FileEvent, content: string) returns (states: seq<State>, events: seq<Event>)
    requires IsRelevant(c, e)
    ensures Run(c, None, states, events) && |events| == 9 && states[4].stopping.Stopped? && states[4].delivered == []
    ensures states[9].delivered == [Delivery(content, 1)]
  {
    states, events := StoppedWhileHandling(c, e, content);
    states, events := RunThen(c, None, states, events, Schedule);
    states, events := RunThen(c, None, states, events, Wait(c.debounce));
    states, events := RunThen(c, None, states, events, Expire);
    states, events := RunThen(c, None, states, events, ReadFile(0));
    states, events := RunThen(c, None, states, events, Callback(0));
  }
}
