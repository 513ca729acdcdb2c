/**
  Collecting from all collectors at once: each sends its metrics into one channel, a wrapper labels
  them with the instance, and two metrics about each collector follow.
 */
module FanIn {
  import opened Distinct
  import opened Wrappers

  /** What a collector does in one collection: send so many metrics and return, or panic after them. */
  datatype Source = Source(name: string, metrics: nat, panics: bool)

  /** The collectors of the registry and its instance identity, empty when there is none. */
  datatype Plan = Plan(sources: seq<Source>, instance: string)

  /** The k-th metric of the i-th collector. */
  datatype Id = Id(i: nat, k: nat)

  /** What reaches the output: metrics, labelled with the instance or not, and two metrics about each collector. */
  datatype Output =
    | Metric(id: Id, label_: Option<string>)
    | Duration(name: string, instance: string)
    | Success(name: string, ok: bool, instance: string)

  const BUFFER := 100

  datatype Main = Collecting | Draining | Emitting(done: nat) | Over

  datatype State = State(
    sent: seq<nat>,          // how many metrics each collector has sent
    reported: seq<bool>,     // whether each collector's result is in
    results: seq<nat>,       // the collectors whose result is in, in order
    log: seq<Id>,            // every metric sent, in order
    queue: seq<Id>,          // the wrapper's channel
    held: seq<Id>,           // what the wrapper has taken and not passed on: one metric at most
    closed: bool,
    wrapperDone: bool,
    output: seq<Output>,
    main: Main)

  predicate Wraps(plan: Plan)
  {
    plan.instance != ""
  }

  function Initial(plan: Plan): State
  {
    var n := |plan.sources|;
    State(seq(n, i => 0), seq(n, i => false), [], [], [], [], false, !Wraps(plan), [], Collecting)
  }

  datatype Event =
    | Send(i: nat)
    | Report(i: nat)
    | Take
    | Forward
    | CloseChannels
    | WrapperEnds
    | StartEmitting
    | Emit
    | Finish

  predicate Enabled(plan: Plan, s: State, e: Event)
  {
    match e
    case Send(i) =>
      i < |plan.sources| && i < |s.sent| && i < |s.reported| && !s.reported[i] && s.sent[i] < plan.sources[i].metrics
      && (Wraps(plan) ==> |s.queue| < BUFFER)
    case Report(i) =>
      i < |plan.sources| && i < |s.sent| && i < |s.reported| && !s.reported[i] && s.sent[i] == plan.sources[i].metrics
      && |s.results| < |plan.sources|
    case Take => s.held == [] && s.queue != []
    case Forward => s.held != []
    case CloseChannels => s.main.Collecting? && forall i | 0 <= i < |s.reported| :: s.reported[i]
    case WrapperEnds => s.closed && s.queue == [] && s.held == [] && !s.wrapperDone
    case StartEmitting => s.main.Draining? && s.wrapperDone
    case Emit => s.main.Emitting? && s.main.done < 2 * |s.results|
    case Finish => s.main.Emitting? && s.main.done == 2 * |s.results|
  }

  /** The two metrics about a collector: how long it took and whether it came through. */
  function SelfMetric(plan: Plan, results: seq<nat>, n: nat): Output
    requires n < 2 * |results|
  {
    var i := results[n / 2];
    var source := if i < |plan.sources| then plan.sources[i] else Source("", 0, false);
    if n % 2 == 0 then Duration(source.name, plan.instance)
    else Success(source.name, !source.panics, plan.instance)
  }

  function Step(plan: Plan, s: State, e: Event): State
  {
    match e
    case Send(i) =>
      if i >= |s.sent| then s
      else
        var id := Id(i, s.sent[i]);
        var t := s.(sent := s.sent[i := s.sent[i] + 1], log := s.log + [id]);
        if Wraps(plan) then t.(queue := s.queue + [id]) else t.(output := s.output + [Metric(id, None)])
    case Report(i) =>
      if i >= |s.reported| then s else s.(reported := s.reported[i := true], results := s.results + [i])
    case Take => if s.queue == [] then s else s.(held := [s.queue[0]], queue := s.queue[1..])
    case Forward =>
      if s.held == [] then s else s.(output := s.output + [Metric(s.held[0], Some(plan.instance))], held := [])
    case CloseChannels => s.(main := Draining, closed := Wraps(plan))
    case WrapperEnds => s.(wrapperDone := true)
    case StartEmitting => s.(main := Emitting(0))
    case Emit =>
      if s.main.Emitting? && s.main.done < 2 * |s.results| then
        s.(output := s.output + [SelfMetric(plan, s.results, s.main.done)], main := Emitting(s.main.done + 1))
      else s
    case Finish => s.(main := Over)
  }

  // ---------- What every step keeps ----------

  /** Metrics as the output has them. */
  function Labelled(plan: Plan, ids: seq<Id>): seq<Output>
  {
    seq(|ids|, j requires 0 <= j < |ids| => Metric(ids[j], if Wraps(plan) then Some(plan.instance) else None))
  }

  function SelfMetrics(plan: Plan, results: seq<nat>, n: nat): seq<Output>
    requires n <= 2 * |results|
  {
    seq(n, j requires 0 <= j < n => SelfMetric(plan, results, j))
  }

  function EmittedCount(s: State): nat
  {
    match s.main
    case Emitting(n) => n
    case Over => 2 * |s.results|
    case _ => 0
  }

  ghost predicate InvLog(plan: Plan, s: State)
  {
    && |s.sent| == |s.reported| == |plan.sources|
    && (forall i | 0 <= i < |s.sent| :: s.sent[i] <= plan.sources[i].metrics)
    && (forall i: nat, k: nat :: Id(i, k) in s.log <==> i < |s.sent| && k < s.sent[i])
    && (forall a, b | 0 <= a < b < |s.log| && s.log[a].i == s.log[b].i :: s.log[a].k < s.log[b].k)
  }

  ghost predicate InvResults(plan: Plan, s: State)
  {
    && |s.sent| == |s.reported| == |plan.sources|
    && NoRepeats(s.results)
    && (forall i: nat :: i in s.results <==> i < |s.reported| && s.reported[i])
    && (forall i | 0 <= i < |s.reported| && s.reported[i] :: s.sent[i] == plan.sources[i].metrics)
    && (!s.main.Collecting? ==> forall i | 0 <= i < |s.reported| :: s.reported[i])
  }

  /** Every metric sent is on its way in the order of sending: in the output, in the wrapper's hand or queued. */
  ghost predicate InvFlow(plan: Plan, s: State)
  {
    && EmittedCount(s) <= 2 * |s.results|
    && |s.held| <= 1
    && (!Wraps(plan) ==> s.queue == [] && s.held == [] && s.wrapperDone)
    && (s.closed <==> Wraps(plan) && !s.main.Collecting?)
    && (Wraps(plan) && s.wrapperDone ==> s.closed && s.queue == [] && s.held == [])
    && (s.main.Emitting? || s.main.Over? ==> s.wrapperDone)
    && |s.held| + |s.queue| <= |s.log|
    && s.log == s.log[..Passed(s)] + s.held + s.queue
    && s.output == Labelled(plan, s.log[..Passed(s)]) + SelfMetrics(plan, s.results, EmittedCount(s))
  }

  /** How many metrics have reached the output. */
  function Passed(s: State): int
  {
    |s.log| - |s.held| - |s.queue|
  }

  ghost predicate Inv(plan: Plan, s: State)
  {
    InvLog(plan, s) && InvResults(plan, s) && InvFlow(plan, s)
  }

  lemma SendKeepsLog(plan: Plan, s: State, e: Event)
    requires InvLog(plan, s) && Enabled(plan, s, e) && e.Send?
    ensures InvLog(plan, Step(plan, s, e))
  {
    var t, id := Step(plan, s, e), Id(e.i, s.sent[e.i]);
    assert t.log == s.log + [id];
    forall i: nat, k: nat
      ensures Id(i, k) in t.log <==> i < |t.sent| && k < t.sent[i]
    {
      assert Id(i, k) in t.log <==> Id(i, k) in s.log || Id(i, k) == id;
    }
    forall a, b | 0 <= a < b < |t.log| && t.log[a].i == t.log[b].i
      ensures t.log[a].k < t.log[b].k
    {
      if b == |s.log| {
        assert s.log[a] in s.log;
      }
    }
  }

  lemma StepKeepsLog(plan: Plan, s: State, e: Event)
    requires Inv(plan, s) && Enabled(plan, s, e)
    ensures InvLog(plan, Step(plan, s, e))
  {
    if e.Send? {
      SendKeepsLog(plan, s, e);
    }
  }

  lemma StepKeepsResults(plan: Plan, s: State, e: Event)
    requires Inv(plan, s) && Enabled(plan, s, e)
    ensures InvResults(plan, Step(plan, s, e))
  {
    if e.Report? {
      assert e.i !in s.results;
    }
  }

  lemma SendKeepsFlow(plan: Plan, s: State, i: nat)
    requires Inv(plan, s) && Enabled(plan, s, Send(i))
    ensures InvFlow(plan, Step(plan, s, Send(i)))
  {
    var t := Step(plan, s, Send(i));
    assert s.main.Collecting?;
    assert SelfMetrics(plan, s.results, 0) == [];
    if Wraps(plan) {
      assert t.log[..Passed(t)] == s.log[..Passed(s)];
    } else {
      LabelledOneMore(plan, s.log, Id(i, s.sent[i]));
      assert s.log[..|s.log|] == s.log && t.log[..|t.log|] == t.log;
    }
  }

  lemma TakeKeepsFlow(plan: Plan, s: State)
    requires Inv(plan, s) && Enabled(plan, s, Take)
    ensures InvFlow(plan, Step(plan, s, Take))
  {
    var t := Step(plan, s, Take);
    assert Passed(t) == Passed(s);
    FirstMoves(s.log[..Passed(s)], s.queue);
  }

  lemma FirstMoves<T>(before: seq<T>, queue: seq<T>)
    requires queue != []
    ensures before + [] + queue == before + [queue[0]] + queue[1..]
  {
  }

  lemma ForwardKeepsFlow(plan: Plan, s: State)
    requires Inv(plan, s) && Enabled(plan, s, Forward)
    ensures InvFlow(plan, Step(plan, s, Forward))
  {
    var p := Passed(s);
    HeldIsNext(s.log, p, s.held, s.queue);
    LabelledOneMore(plan, s.log[..p], s.held[0]);
    assert SelfMetrics(plan, s.results, 0) == [];
  }

  lemma HeldIsNext<T>(log: seq<T>, p: nat, held: seq<T>, queue: seq<T>)
    requires |held| == 1 && p <= |log| && log == log[..p] + held + queue
    ensures p < |log| && log[..p + 1] == log[..p] + [held[0]]
    ensures log == log[..p + 1] + [] + queue
  {
    assert log[p] == held[0];
  }

  lemma LabelledOneMore(plan: Plan, ids: seq<Id>, id: Id)
    ensures Labelled(plan, ids + [id])
         == Labelled(plan, ids) + [Metric(id, if Wraps(plan) then Some(plan.instance) else None)]
  {
  }

  lemma EmitKeepsFlow(plan: Plan, s: State, e: Event)
    requires Inv(plan, s) && Enabled(plan, s, e) && !e.Send? && !e.Take? && !e.Forward?
    ensures InvFlow(plan, Step(plan, s, e))
  {
    var t := Step(plan, s, e);
    assert t.log[..Passed(t)] == s.log[..Passed(s)];
    if e.Emit? {
      assert SelfMetrics(plan, s.results, s.main.done + 1)
          == SelfMetrics(plan, s.results, s.main.done) + [SelfMetric(plan, s.results, s.main.done)];
    } else {
      assert SelfMetrics(plan, t.results, EmittedCount(t)) == SelfMetrics(plan, s.results, EmittedCount(s));
    }
  }

  lemma StepKeepsInv(plan: Plan, s: State, e: Event)
    requires Inv(plan, s) && Enabled(plan, s, e)
    ensures Inv(plan, Step(plan, s, e))
  {
    StepKeepsLog(plan, s, e);
    StepKeepsResults(plan, s, e);
    match e
    case Send(i) => SendKeepsFlow(plan, s, i);
    case Take => TakeKeepsFlow(plan, s);
    case Forward => ForwardKeepsFlow(plan, s);
    case _ => EmitKeepsFlow(plan, s, e);
  }

  ghost predicate Run(plan: Plan, states: seq<State>, events: seq<Event>)
  {
    && |states| == |events| + 1 && states[0] == Initial(plan)
    && forall i | 0 <= i < |events| ::
         Enabled(plan, states[i], events[i]) && states[i + 1] == Step(plan, states[i], events[i])
  }

  lemma {:induction false} RunKeepsInv(plan: Plan, states: seq<State>, events: seq<Event>, n: nat)
    requires Run(plan, states, events) && n < |states|
    ensures Inv(plan, states[n])
  {
    if n > 0 {
      RunKeepsInv(plan, states, events, n - 1);
      assert Enabled(plan, states[n - 1], events[n - 1])
          && states[n - 1 + 1] == Step(plan, states[n - 1], events[n - 1]);
      StepKeepsInv(plan, states[n - 1], events[n - 1]);
    }
  }

  // ---------- What holds over every run ----------

  /** Nothing is sent on the wrapper's channel once it is closed. */
  lemma NoSendAfterClose(plan: Plan, states: seq<State>, events: seq<Event>, n: nat, i: nat)
    requires Run(plan, states, events) && n < |states| && states[n].closed
    ensures !Enabled(plan, states[n], Send(i))
  {
    RunKeepsInv(plan, states, events, n);
  }

  /**
    When the collection is over the output is every metric of every collector once, in the order of
    sending, and then two metrics about each collector once.
   */
  lemma OutputIsComplete(plan: Plan, states: seq<State>, events: seq<Event>)
    requires Run(plan, states, events) && states[|events|].main.Over?
    ensures var s := states[|events|];
            && s.output == Labelled(plan, s.log) + SelfMetrics(plan, s.results, 2 * |s.results|)
            && (forall i: nat, k: nat :: Id(i, k) in s.log <==> i < |plan.sources| && k < plan.sources[i].metrics)
            && NoRepeats(s.log)
            && (forall i: nat :: i in s.results <==> i < |plan.sources|)
            && NoRepeats(s.results)
  {
    RunKeepsInv(plan, states, events, |events|);
    var s := states[|events|];
    assert s.held == [] && s.queue == [];
    assert s.log[..|s.log|] == s.log;
  }

  /**
    Everything in the output is a metric of a collector, labelled with the instance if there is one, or
    about a collector: how long it took, or whether it came through, which is whether it did not panic.
   */
  lemma OutputSays(plan: Plan, states: seq<State>, events: seq<Event>, x: nat)
    requires Run(plan, states, events) && states[|events|].main.Over? && x < |states[|events|].output|
    ensures |states[|events|].output| == |states[|events|].log| + 2 * |plan.sources|
    ensures match states[|events|].output[x]
            case Metric(id, l) =>
              && id.i < |plan.sources| && id.k < plan.sources[id.i].metrics
              && l == if plan.instance == "" then None else Some(plan.instance)
            case Duration(name, instance) =>
              exists j :: 0 <= j < |plan.sources| && name == plan.sources[j].name && instance == plan.instance
            case Success(name, ok, instance) =>
              exists j :: 0 <= j < |plan.sources| && name == plan.sources[j].name && ok == !plan.sources[j].panics
                          && instance == plan.instance
  {
    OutputIsComplete(plan, states, events);
    var s := states[|events|];
    FullWhenAll(s.results, |plan.sources|);
    var metrics, own := Labelled(plan, s.log), SelfMetrics(plan, s.results, 2 * |s.results|);
    if x < |metrics| {
      assert s.output[x] == metrics[x] && s.log[x] in s.log;
    } else {
      assert s.output[x] == own[x - |metrics|];
      assert s.results[(x - |metrics|) / 2] in s.results;
    }
  }

  /** No more than a hundred metrics wait for the wrapper, and without one none does. */
  lemma {:induction false} QueueBounded(plan: Plan, states: seq<State>, events: seq<Event>, n: nat)
    requires Run(plan, states, events) && n < |states|
    ensures |states[n].queue| <= if plan.instance == "" then 0 else 100
  {
    if n > 0 {
      QueueBounded(plan, states, events, n - 1);
      assert Enabled(plan, states[n - 1], events[n - 1])
          && states[n - 1 + 1] == Step(plan, states[n - 1], events[n - 1]);
    }
  }

  /** The metrics of one collector keep their order, and all metrics about collectors come last. */
  lemma OutputKeepsOrder(plan: Plan, states: seq<State>, events: seq<Event>, n: nat, a: nat, b: nat)
    requires Run(plan, states, events) && n < |states| && a < b < |states[n].output|
    ensures var o := states[n].output;
            && (o[a].Metric? && o[b].Metric? && o[a].id.i == o[b].id.i ==> o[a].id.k < o[b].id.k)
            && (!o[a].Metric? ==> !o[b].Metric?)
  {
    RunKeepsInv(plan, states, events, n);
    var s := states[n];
    var passed := Labelled(plan, s.log[..Passed(s)]);
    assert b < |passed| ==> s.output[a] == passed[a] && s.output[b] == passed[b];
  }

  /** A collector's success metric says whether it panicked, and what it sent before counts either way. */
  lemma PanicsAreReported(plan: Plan, states: seq<State>, events: seq<Event>, j: nat)
    requires Run(plan, states, events) && states[|events|].main.Over? && j < |plan.sources|
    ensures Success(plan.sources[j].name, !plan.sources[j].panics, plan.instance) in states[|events|].output
    ensures Duration(plan.sources[j].name, plan.instance) in states[|events|].output
    ensures forall k: nat | k < plan.sources[j].metrics ::
              Metric(Id(j, k), if plan.instance == "" then None else Some(plan.instance)) in states[|events|].output
  {
    OutputIsComplete(plan, states, events);
    var s := states[|events|];
    assert j in s.results;
    var r :| 0 <= r < |s.results| && s.results[r] == j;
    var metrics, own := Labelled(plan, s.log), SelfMetrics(plan, s.results, 2 * |s.results|);
    assert own[2 * r] == Duration(plan.sources[j].name, plan.instance);
    assert own[2 * r + 1] == Success(plan.sources[j].name, !plan.sources[j].panics, plan.instance);
    assert s.output[|metrics| + 2 * r] == own[2 * r] && s.output[|metrics| + 2 * r + 1] == own[2 * r + 1];
    forall k: nat | k < plan.sources[j].metrics
      ensures Metric(Id(j, k), if Wraps(plan) then Some(plan.instance) else None) in s.output
    {
      assert Id(j, k) in s.log;
      var a :| 0 <= a < |s.log| && s.log[a] == Id(j, k);
      assert s.output[a] == metrics[a];
    }
  }

  // ---------- Progress ----------

  /** While the reader drains the output the collection is never stuck. */
  lemma NeverStuck(plan: Plan, s: State) returns (e: Event)
    requires Inv(plan, s) && !s.main.Over?
    ensures Enabled(plan, s, e)
  {
    if s.held != [] {
      e := Forward;
    } else if s.queue != [] {
      e := Take;
    } else if i: nat :| i < |s.reported| && !s.reported[i] {
      if s.sent[i] < plan.sources[i].metrics {
        e := Send(i);
      } else {
        RoomForResult(plan, s, i);
        e := Report(i);
      }
    } else if s.main.Collecting? {
      e := CloseChannels;
    } else if !s.wrapperDone {
      e := WrapperEnds;
    } else if s.main.Draining? {
      e := StartEmitting;
    } else {
      e := if s.main.done < 2 * |s.results| then Emit else Finish;
    }
  }

  /** The result channel has room for every collector's result. */
  lemma RoomForResult(plan: Plan, s: State, i: nat)
    requires InvResults(plan, s) && i < |s.reported| && !s.reported[i]
    ensures |s.results| < |plan.sources|
  {
    assert i !in s.results;
    FewWithoutRepeats(s.results + [i], |plan.sources|);
  }

  function Unsent(sources: seq<Source>, sent: seq<nat>): int
    requires |sources| == |sent|
    decreases |sent|
  {
    if sent == [] then 0
    else
      var n := |sent| - 1;
      Unsent(sources[..n], sent[..n]) + sources[n].metrics - sent[n]
  }

  lemma {:induction false} UnsentOneLess(sources: seq<Source>, sent: seq<nat>, i: nat)
    requires |sources| == |sent| && i < |sent|
    ensures Unsent(sources, sent[i := sent[i] + 1]) == Unsent(sources, sent) - 1
    decreases |sent|
  {
    var n := |sent| - 1;
    if i == n {
      assert sent[i := sent[i] + 1][..n] == sent[..n];
    } else {
      assert sent[i := sent[i] + 1][..n] == sent[..n][i := sent[..n][i] + 1];
      UnsentOneLess(sources[..n], sent[..n], i);
    }
  }

  lemma {:induction false} UnsentNotNegative(sources: seq<Source>, sent: seq<nat>)
    requires |sources| == |sent| && forall i | 0 <= i < |sent| :: sent[i] <= sources[i].metrics
    ensures Unsent(sources, sent) >= 0
    decreases |sent|
  {
    if sent != [] {
      UnsentNotNegative(sources[..|sent| - 1], sent[..|sent| - 1]);
    }
  }

  /** How much is left to do: a metric is sent, taken and passed on, and a result comes in and is told twice. */
  function Left(plan: Plan, s: State): int
    requires |s.sent| == |plan.sources|
  {
    3 * Unsent(plan.sources, s.sent) + 2 * |s.queue| + |s.held| + (|plan.sources| - |s.results|)
    + (if s.wrapperDone then 0 else 1)
    + (match s.main
       case Collecting => 2 * |plan.sources| + 3
       case Draining => 2 * |plan.sources| + 2
       case Emitting(done) => 2 * |plan.sources| - done + 1
       case Over => 0)
  }

  lemma SendLeavesLess(plan: Plan, s: State, e: Event)
    requires InvResults(plan, s) && Enabled(plan, s, e) && e.Send?
    ensures |Step(plan, s, e).sent| == |plan.sources|
    ensures Left(plan, Step(plan, s, e)) < Left(plan, s)
  {
    UnsentOneLess(plan.sources, s.sent, e.i);
  }

  /** Every step leaves less to do. */
  lemma StepLeavesLess(plan: Plan, s: State, e: Event)
    requires InvResults(plan, s) && InvFlow(plan, s) && Enabled(plan, s, e)
    ensures |Step(plan, s, e).sent| == |plan.sources|
    ensures Left(plan, Step(plan, s, e)) < Left(plan, s)
  {
    FewWithoutRepeats(s.results, |plan.sources|);
    if e.Send? {
      SendLeavesLess(plan, s, e);
    }
  }

  lemma LeftNotNegative(plan: Plan, s: State)
    requires Inv(plan, s)
    ensures Left(plan, s) >= 0
  {
    UnsentNotNegative(plan.sources, s.sent);
    FewWithoutRepeats(s.results, |plan.sources|);
  }

  /** Every run ends. */
  lemma {:induction false} RunsEnd(plan: Plan, states: seq<State>, events: seq<Event>, n: nat)
    requires Run(plan, states, events) && n <= |events|
    ensures |states[n].sent| == |plan.sources|
    ensures n + Left(plan, states[n]) <= Left(plan, Initial(plan)) && Left(plan, states[n]) >= 0
  {
    RunKeepsInv(plan, states, events, n);
    LeftNotNegative(plan, states[n]);
    if n > 0 {
      RunsEnd(plan, states, events, n - 1);
      RunKeepsInv(plan, states, events, n - 1);
      assert Enabled(plan, states[n - 1], events[n - 1])
          && states[n - 1 + 1] == Step(plan, states[n - 1], events[n - 1]);
      StepLeavesLess(plan, states[n - 1], events[n - 1]);
    }
  }
}
