/**
  The pool that checks a domain's or a registry's addresses: workers take indexes off an unbuffered
  channel and each writes the result slot of the index it took, in every order this may happen.
 */
module WorkerPool {

  const MAX_WORKERS := 10

  /** The slots before any check, and what the k-th write of a check does to the slot of its index. */
  datatype Job<!S> = Job(slots: seq<S>, stages: nat, write: (nat, nat, S) -> S)

  /** Slot i after the first k writes of its check. */
  function Partial<S>(job: Job<S>, i: nat, k: nat): S
    requires i < |job.slots|
  {
    if k == 0 then job.slots[i] else job.write(i, k - 1, Partial(job, i, k - 1))
  }

  function Final<S>(job: Job<S>, i: nat): S
    requires i < |job.slots|
  {
    Partial(job, i, job.stages)
  }

  /** What checking one address after another leaves. */
  function Sequential<S>(job: Job<S>): seq<S>
  {
    seq(|job.slots|, i requires 0 <= i < |job.slots| => Final(job, i))
  }

  /** The branch without a pool. */
  method CheckInTurn<S>(job: Job<S>, results: array<S>)
    requires results[..] == job.slots
    modifies results
    ensures results[..] == Sequential(job)
  {
    for i := 0 to results.Length
      invariant forall j | 0 <= j < i :: results[j] == Final(job, j)
      invariant forall j | i <= j < results.Length :: results[j] == job.slots[j]
    {
      for k := 0 to job.stages
        invariant results[i] == Partial(job, i, k)
        invariant forall j | 0 <= j < i :: results[j] == Final(job, j)
        invariant forall j | i < j < results.Length :: results[j] == job.slots[j]
      {
        results[i] := job.write(i, k, results[i]);
      }
    }
  }

  // ---------- The pool ----------

  datatype Worker = Receiving | Checking(i: nat, k: nat) | Exited

  /** The sender enqueues, then has closed the channel and waits, then is done. */
  datatype Sender = Sending | Closed | Done

  datatype State<S> = State(next: nat, sender: Sender, cancelled: bool, workers: seq<Worker>, slots: seq<S>)

  function WorkerCount(n: nat): nat
  {
    if n < MAX_WORKERS then n else MAX_WORKERS
  }

  function Initial<S>(job: Job<S>): State<S>
  {
    State(0, Sending, false, seq(WorkerCount(|job.slots|), w => Receiving), job.slots)
  }

  datatype Event =
    | Hand(w: nat)      // a worker receives the next index
    | Write(w: nat)     // a worker makes the next write of its check
    | Finish(w: nat)    // a worker is through with its check
    | Cancel            // the context is cancelled
    | Close             // the sender has sent all, or saw the cancellation, and closes the channel
    | Exit(w: nat)      // a worker finds the channel closed
    | Join              // the sender has waited for all workers

  ghost predicate Enabled<S>(job: Job<S>, s: State<S>, e: Event)
  {
    match e
    case Hand(w) => s.sender.Sending? && s.next < |job.slots| && w < |s.workers| && s.workers[w].Receiving?
    case Write(w) => w < |s.workers| && s.workers[w].Checking? && s.workers[w].k < job.stages
    case Finish(w) => w < |s.workers| && s.workers[w].Checking? && s.workers[w].k == job.stages
    case Cancel => !s.cancelled
    case Close => s.sender.Sending? && (s.next == |job.slots| || s.cancelled)
    case Exit(w) => !s.sender.Sending? && w < |s.workers| && s.workers[w].Receiving?
    case Join => s.sender.Closed? && forall w | 0 <= w < |s.workers| :: s.workers[w].Exited?
  }

  function Step<S>(job: Job<S>, s: State<S>, e: Event): State<S>
  {
    match e
    case Hand(w) => if w < |s.workers| then s.(next := s.next + 1, workers := s.workers[w := Checking(s.next, 0)]) else s
    case Write(w) =>
      if w < |s.workers| && s.workers[w].Checking? && s.workers[w].i < |s.slots| then
        var (i, k) := (s.workers[w].i, s.workers[w].k);
        s.(slots := s.slots[i := job.write(i, k, s.slots[i])], workers := s.workers[w := Checking(i, k + 1)])
      else s
    case Finish(w) => if w < |s.workers| then s.(workers := s.workers[w := Receiving]) else s
    case Cancel => s.(cancelled := true)
    case Close => s.(sender := Closed)
    case Exit(w) => if w < |s.workers| then s.(workers := s.workers[w := Exited]) else s
    case Join => s.(sender := Done)
  }

  /** The worker that is checking index i. */
  predicate At<S>(s: State<S>, w: nat, i: nat)
  {
    w < |s.workers| && s.workers[w].Checking? && s.workers[w].i == i
  }

  /** What every step keeps: one worker an index, and every slot as far as its check has come. */
  ghost predicate Inv<S>(job: Job<S>, s: State<S>)
  {
    && |s.workers| == WorkerCount(|job.slots|)
    && |s.slots| == |job.slots|
    && s.next <= |job.slots|
    && (!s.sender.Sending? && !s.cancelled ==> s.next == |job.slots|)
    && (forall w | 0 <= w < |s.workers| && s.workers[w].Checking? ::
          s.workers[w].i < s.next && s.workers[w].k <= job.stages
          && s.slots[s.workers[w].i] == Partial(job, s.workers[w].i, s.workers[w].k))
    && (forall v, w, i: nat | At(s, v, i) && At(s, w, i) :: v == w)
    && (forall i | 0 <= i < s.next && (forall w: nat :: !At(s, w, i)) :: s.slots[i] == Final(job, i))
    && (forall i | s.next <= i < |job.slots| :: s.slots[i] == job.slots[i])
    && (forall w | 0 <= w < |s.workers| && s.workers[w].Exited? :: !s.sender.Sending?)
    && (s.sender.Done? ==> forall w | 0 <= w < |s.workers| :: s.workers[w].Exited?)
  }

  lemma InitialInv<S>(job: Job<S>)
    ensures Inv(job, Initial(job))
  {
    var s := Initial(job);
    assert forall w | 0 <= w < |s.workers| :: s.workers[w].Receiving?;
  }

  lemma HandKeeps<S>(job: Job<S>, s: State<S>, w: nat)
    requires Inv(job, s) && Enabled(job, s, Hand(w))
    ensures Inv(job, Step(job, s, Hand(w)))
  {
    var t := Step(job, s, Hand(w));
    forall v, i: nat
      ensures At(t, v, i) <==> if v == w then i == s.next else At(s, v, i)
    {
    }
    forall v | 0 <= v < |t.workers| && t.workers[v].Checking?
      ensures t.slots[t.workers[v].i] == Partial(job, t.workers[v].i, t.workers[v].k)
    {
      if v != w {
        assert t.workers[v] == s.workers[v];
      }
    }
    assert At(t, w, s.next);
  }

  lemma WriteKeeps<S>(job: Job<S>, s: State<S>, w: nat)
    requires Inv(job, s) && Enabled(job, s, Write(w))
    ensures Inv(job, Step(job, s, Write(w)))
  {
    var t := Step(job, s, Write(w));
    assert At(s, w, s.workers[w].i);
    forall v | 0 <= v < |t.workers| && t.workers[v].Checking?
      ensures t.slots[t.workers[v].i] == Partial(job, t.workers[v].i, t.workers[v].k)
    {
      assert At(s, v, s.workers[v].i);
    }
    forall v, i: nat
      ensures At(t, v, i) <==> At(s, v, i)
    {
    }
  }

  lemma FinishKeeps<S>(job: Job<S>, s: State<S>, w: nat)
    requires Inv(job, s) && Enabled(job, s, Finish(w))
    ensures Inv(job, Step(job, s, Finish(w)))
  {
    var t := Step(job, s, Finish(w));
    assert At(s, w, s.workers[w].i);
    forall v, i: nat
      ensures At(t, v, i) <==> v != w && At(s, v, i)
    {
    }
  }

  lemma OthersKeep<S>(job: Job<S>, s: State<S>, e: Event)
    requires Inv(job, s) && Enabled(job, s, e)
    requires e.Cancel? || e.Close? || e.Exit? || e.Join?
    ensures Inv(job, Step(job, s, e))
  {
    var t := Step(job, s, e);
    forall v, i: nat
      ensures At(t, v, i) <==> At(s, v, i)
    {
    }
  }

  lemma StepKeepsInv<S>(job: Job<S>, s: State<S>, e: Event)
    requires Inv(job, s) && Enabled(job, s, e)
    ensures Inv(job, Step(job, s, e))
  {
    match e
    case Hand(w) => HandKeeps(job, s, w);
    case Write(w) => WriteKeeps(job, s, w);
    case Finish(w) => FinishKeeps(job, s, w);
    case _ => OthersKeep(job, s, e);
  }

  // ---------- Runs ----------

  ghost predicate Run<S>(job: Job<S>, states: seq<State<S>>, events: seq<Event>)
  {
    && |states| == |events| + 1 && states[0] == Initial(job)
    && forall i | 0 <= i < |events| ::
         Enabled(job, states[i], events[i]) && states[i + 1] == Step(job, states[i], events[i])
  }

  lemma {:induction false} RunKeepsInv<S>(job: Job<S>, states: seq<State<S>>, events: seq<Event>, i: nat)
    requires Run(job, states, events) && i < |states|
    ensures Inv(job, states[i])
  {
    if i == 0 {
      InitialInv(job);
    } else {
      RunKeepsInv(job, states, events, i - 1);
      assert Enabled(job, states[i - 1], events[i - 1]) && states[i - 1 + 1] == Step(job, states[i - 1], events[i - 1]);
      StepKeepsInv(job, states[i - 1], events[i - 1]);
    }
  }

  lemma {:induction false} NextGrows<S>(job: Job<S>, states: seq<State<S>>, events: seq<Event>, i: nat, j: nat)
    requires Run(job, states, events) && i <= j < |states|
    ensures states[i].next <= states[j].next
    decreases j
  {
    if i < j {
      NextGrows(job, states, events, i, j - 1);
      assert Enabled(job, states[j - 1], events[j - 1]) && states[j - 1 + 1] == Step(job, states[j - 1], events[j - 1]);
    }
  }

  /** No index is handed out twice. */
  lemma HandedOnce<S>(job: Job<S>, states: seq<State<S>>, events: seq<Event>, i: nat, j: nat)
    requires Run(job, states, events) && i < j < |events| && events[i].Hand? && events[j].Hand?
    ensures states[i].next < states[j].next
  {
    assert Enabled(job, states[i], events[i]) && states[i + 1] == Step(job, states[i], events[i]);
    NextGrows(job, states, events, i + 1, j);
  }

  /** No two workers ever check the same index. */
  lemma OneWorkerEach<S>(job: Job<S>, states: seq<State<S>>, events: seq<Event>, n: nat, v: nat, w: nat, i: nat)
    requires Run(job, states, events) && n < |states| && At(states[n], v, i) && At(states[n], w, i)
    ensures v == w
  {
    RunKeepsInv(job, states, events, n);
  }

  /** There are never more than ten workers, and no more than addresses. */
  lemma TenAtMost<S>(job: Job<S>, states: seq<State<S>>, events: seq<Event>, n: nat)
    requires Run(job, states, events) && n < |states|
    ensures |states[n].workers| == if |job.slots| < 10 then |job.slots| else 10
  {
    RunKeepsInv(job, states, events, n);
  }

  /** When the pool is done, the addresses up to some index are fully checked and the rest not at all. */
  lemma DoneChecksPrefix<S>(job: Job<S>, states: seq<State<S>>, events: seq<Event>, n: nat)
    requires Run(job, states, events) && n < |states| && states[n].sender.Done?
    ensures states[n].next <= |job.slots|
    ensures states[n].slots == Sequential(job)[..states[n].next] + job.slots[states[n].next..]
    ensures !states[n].cancelled ==> states[n].next == |job.slots|
  {
    RunKeepsInv(job, states, events, n);
    var s := states[n];
    forall w, i: nat
      ensures !At(s, w, i)
    {
    }
  }

  /** Without cancellation the pool leaves what checking one address after another leaves. */
  lemma PoolIsSequential<S>(job: Job<S>, states: seq<State<S>>, events: seq<Event>, n: nat)
    requires Run(job, states, events) && n < |states| && states[n].sender.Done? && !states[n].cancelled
    ensures states[n].slots == Sequential(job)
  {
    DoneChecksPrefix(job, states, events, n);
  }

  /** `results` are what a run of the checks leaves: in turn for one address or none, in the pool for more. */
  ghost predicate Checked<S>(job: Job<S>, results: seq<S>, states: seq<State<S>>, events: seq<Event>)
  {
    if |job.slots| <= 1 then results == Sequential(job)
    else Run(job, states, events) && states[|events|].sender.Done? && results == states[|events|].slots
  }

  lemma CheckedLength<S>(job: Job<S>, results: seq<S>, states: seq<State<S>>, events: seq<Event>)
    requires Checked(job, results, states, events)
    ensures |results| == |job.slots|
  {
    if |job.slots| > 1 {
      DoneChecksPrefix(job, states, events, |events|);
    }
  }

  // ---------- Progress ----------

  /** Until the sender is done something other than a cancellation can happen. */
  lemma NeverStuck<S>(job: Job<S>, s: State<S>) returns (e: Event)
    requires Inv(job, s) && |job.slots| > 0 && !s.sender.Done?
    ensures Enabled(job, s, e) && !e.Cancel?
  {
    if w: nat :| w < |s.workers| && s.workers[w].Checking? {
      e := if s.workers[w].k < job.stages then Write(w) else Finish(w);
    } else if w: nat :| w < |s.workers| && s.workers[w].Receiving? {
      e := if !s.sender.Sending? then Exit(w) else if s.next < |job.slots| then Hand(w) else Close;
    } else {
      assert s.workers[0].Exited?;
      e := Join;
    }
  }

  /** How much is left to do. */
  function Left<S>(job: Job<S>, s: State<S>): int
  {
    Backlog(|job.slots| - s.next, job.stages) + WorkLeft(job.stages, s.workers)
    + (match s.sender case Sending => 2 case Closed => 1 case Done => 0)
    + (if s.cancelled then 0 else 1)
  }

  function Backlog(n: int, stages: nat): nat
    decreases n
  {
    if n <= 0 then 0 else stages + 3 + Backlog(n - 1, stages)
  }

  function WorkLeft(stages: nat, workers: seq<Worker>): int
  {
    if workers == [] then 0
    else
      WorkLeft(stages, workers[..|workers| - 1])
      + match workers[|workers| - 1]
        case Receiving => 1
        case Checking(_, k) => stages - k + 2
        case Exited => 0
  }

  lemma {:induction false} WorkLeftUpdate(stages: nat, workers: seq<Worker>, w: nat, to: Worker)
    requires w < |workers|
    ensures WorkLeft(stages, workers[w := to]) == WorkLeft(stages, workers) - WorkLeft(stages, [workers[w]])
                                                + WorkLeft(stages, [to])
  {
    var n := |workers| - 1;
    assert [workers[w]][..0] == [] && [to][..0] == [];
    if w == n {
      assert workers[w := to][..n] == workers[..n];
    } else {
      assert workers[w := to][..n] == workers[..n][w := to];
      WorkLeftUpdate(stages, workers[..n], w, to);
    }
  }

  /** Every step leaves less to do, so every run ends. */
  lemma StepLeavesLess<S>(job: Job<S>, s: State<S>, e: Event)
    requires s.next <= |job.slots| && Enabled(job, s, e)
    requires e.Write? ==> s.workers[e.w].i < |s.slots|
    ensures Left(job, Step(job, s, e)) < Left(job, s)
  {
    match e {
      case Hand(w) =>
        WorkLeftUpdate(job.stages, s.workers, w, Checking(s.next, 0));
      case Write(w) => WorkLeftUpdate(job.stages, s.workers, w, Checking(s.workers[w].i, s.workers[w].k + 1));
      case Finish(w) => WorkLeftUpdate(job.stages, s.workers, w, Receiving);
      case Exit(w) => WorkLeftUpdate(job.stages, s.workers, w, Exited);
      case _ =>
    }
  }

  lemma LeftNotNegative<S>(job: Job<S>, s: State<S>)
    requires forall w | 0 <= w < |s.workers| && s.workers[w].Checking? :: s.workers[w].k <= job.stages
    ensures Left(job, s) >= 0
  {
    WorkLeftNotNegative(job.stages, s.workers);
  }

  lemma {:induction false} WorkLeftNotNegative(stages: nat, workers: seq<Worker>)
    requires forall w | 0 <= w < |workers| && workers[w].Checking? :: workers[w].k <= stages
    ensures WorkLeft(stages, workers) >= 0
  {
    if workers != [] {
      WorkLeftNotNegative(stages, workers[..|workers| - 1]);
    }
  }

  /** No run is longer than there is to do at its start. */
  lemma {:induction false} RunsEnd<S>(job: Job<S>, states: seq<State<S>>, events: seq<Event>, n: nat)
    requires Run(job, states, events) && n <= |events|
    ensures n + Left(job, states[n]) <= Left(job, Initial(job)) && Left(job, states[n]) >= 0
  {
    RunKeepsInv(job, states, events, n);
    LeftNotNegative(job, states[n]);
    if n > 0 {
      RunsEnd(job, states, events, n - 1);
      RunKeepsInv(job, states, events, n - 1);
      assert Enabled(job, states[n - 1], events[n - 1]) && states[n - 1 + 1] == Step(job, states[n - 1], events[n - 1]);
      StepLeavesLess(job, states[n - 1], events[n - 1]);
    }
  }
}
