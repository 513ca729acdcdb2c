/** What the image pull tracker reports: the stored reason, how slow a slow pull is, and series that clash. */
module ImagePullReports {
  import opened Wrappers
  import opened Distinct
  import opened PullReasons
  import opened Slashes
  import opened ImagePull
  import opened ImagePullRuns

  // ---------- What is stored about a failing container ----------

  /** A container's failures on one node and image since it last was anything else. */
  datatype Attempt = Attempt(node: string, image: string, reasons: seq<Reason>)

  function AttemptAfterStatus(r: Rules, key: string, a: Option<Attempt>, pod: Pod, status: Status): Option<Attempt>
  {
    if Key(pod.namespace, pod.name, status.name) != key then a
    else if !r.failing(status) then None
    else if a.Some? && a.value.node == pod.node && a.value.image == status.image then
      Some(Attempt(pod.node, status.image, a.value.reasons + [r.classify(status)]))
    else Some(Attempt(pod.node, status.image, [r.classify(status)]))
  }

  function AttemptAfterStatuses(r: Rules, key: string, a: Option<Attempt>, pod: Pod, statuses: seq<Status>)
    : Option<Attempt>
  {
    if statuses == [] then a
    else
      var n := |statuses| - 1;
      AttemptAfterStatus(r, key, AttemptAfterStatuses(r, key, a, pod, statuses[..n]), pod, statuses[n])
  }

  function AttemptAfterEvent(r: Rules, key: string, a: Option<Attempt>, e: Event): Option<Attempt>
  {
    match e
    case Change(_, PodObject(pod)) => if pod.node == "" then a else AttemptAfterStatuses(r, key, a, pod, pod.statuses)
    case Delete(_, obj) =>
      (match DeletedPod(obj)
       case Some(pod) => if Under(pod.namespace, pod.name, key) then None else a
       case None => a)
    case _ => a
  }

  /** The attempt that a history ends in; timers have no part in it. */
  function AttemptAfter(r: Rules, key: string, events: seq<Event>): Option<Attempt>
  {
    if events == [] then None
    else AttemptAfterEvent(r, key, AttemptAfter(r, key, events[..|events| - 1]), events[|events| - 1])
  }

  /** A failure is stored for an attempt, with the reason its run of failures calls for. */
  ghost predicate Stores(r: Rules, s: State, key: string, a: Option<Attempt>)
  {
    match a
    case None => key !in s.failures
    case Some(attempt) =>
      && attempt.reasons != [] && key in s.failures
      && s.failures[key].node == attempt.node && s.failures[key].image == attempt.image
      && s.failures[key].registry == r.registry(attempt.image) && s.failures[key].reason == StoredAfter(attempt.reasons)
  }

  lemma StoredAfterMore(reasons: seq<Reason>, more: Reason)
    requires reasons != []
    ensures StoredAfter(reasons + [more]) == Stored(StoredAfter(reasons), more)
  {
    assert (reasons + [more])[..|reasons|] == reasons;
  }

  lemma FailuresAfter(r: Rules, s: State, at: int, pod: Pod, status: Status)
    ensures ProcessedOne(r, s, at, pod, status).failures
         == if r.failing(status) then s.failures[Key(pod.namespace, pod.name, status.name) := FailureOf(r, s, pod, status)]
            else s.failures - {Key(pod.namespace, pod.name, status.name)}
  {
  }

  lemma StatusStores(r: Rules, s: State, at: int, key: string, a: Option<Attempt>, pod: Pod, status: Status)
    requires Stores(r, s, key, a)
    ensures Stores(r, ProcessedOne(r, s, at, pod, status), key, AttemptAfterStatus(r, key, a, pod, status))
  {
    FailuresAfter(r, s, at, pod, status);
    if a.Some? {
      StoredAfterMore(a.value.reasons, r.classify(status));
    }
  }

  lemma {:induction false} StatusesStore(r: Rules, s: State, at: int, key: string, a: Option<Attempt>, pod: Pod,
                                         statuses: seq<Status>)
    requires Stores(r, s, key, a)
    ensures Stores(r, ProcessedAll(r, s, at, pod, statuses), key, AttemptAfterStatuses(r, key, a, pod, statuses))
  {
    if statuses != [] {
      var n := |statuses| - 1;
      StatusesStore(r, s, at, key, a, pod, statuses[..n]);
      StatusStores(r, ProcessedAll(r, s, at, pod, statuses[..n]), at, key,
                   AttemptAfterStatuses(r, key, a, pod, statuses[..n]), pod, statuses[n]);
    }
  }

  lemma EventStores(r: Rules, s: State, key: string, a: Option<Attempt>, e: Event)
    requires Stores(r, s, key, a) && CanStep(r, s, e)
    ensures Stores(r, Step(r, s, e), key, AttemptAfterEvent(r, key, a, e))
  {
    if e.Change? && e.obj.PodObject? && e.obj.pod.node != "" {
      StatusesStore(r, s, e.at, key, a, e.obj.pod, e.obj.pod.statuses);
    }
  }

  /**
    After any history of changes, deletions and timers, a failure is stored for a container exactly when
    it is in an attempt, and it is stored with that attempt's node and image and the reason of its run.
   */
  lemma {:induction false} StoredReason(r: Rules, states: seq<State>, events: seq<Event>, i: nat, key: string)
    requires Run(r, states, events) && i < |states|
    ensures Stores(r, states[i], key, AttemptAfter(r, key, events[..i]))
  {
    if i > 0 {
      StoredReason(r, states, events, i - 1, key);
      assert events[..i][..i - 1] == events[..i - 1];
      assert CanStep(r, states[i - 1], events[i - 1]) && states[i - 1 + 1] == Step(r, states[i - 1], events[i - 1]);
      EventStores(r, states[i - 1], key, AttemptAfter(r, key, events[..i - 1]), events[i - 1]);
    }
  }

  /** By the source's own rules: backoff is stored iff the attempt's last message says so and none specific came since an unknown one. */
  lemma BackOffStoredIff(p: Patterns, threshold: nat, states: seq<State>, events: seq<Event>, i: nat, key: string)
    requires Run(SourceRules(p, threshold), states, events) && i < |states|
    ensures var a := AttemptAfter(SourceRules(p, threshold), key, events[..i]);
            && (key in states[i].failures <==> a.Some?)
            && (a.Some? ==> a.value.reasons != [])
            && (a.Some? ==> (states[i].failures[key].reason == BackOff <==>
                               && a.value.reasons[|a.value.reasons| - 1] == BackOff
                               && forall j: nat | LastOther(a.value.reasons, j) :: a.value.reasons[j] == Unknown))
  {
    var r := SourceRules(p, threshold);
    StoredReason(r, states, events, i, key);
    var a := AttemptAfter(r, key, events[..i]);
    if a.Some? {
      BackOffIff(a.value.reasons);
    }
  }

  // ---------- How slow a slow pull is ----------

  /** Time does not run backwards. */
  ghost predicate Clocked(events: seq<Event>)
  {
    forall i, j | 0 <= i <= j < |events| :: events[i].at <= events[j].at
  }

  /** A change that shows a container of a pod being created, on a node and with an image, at the time a timer is set. */
  predicate ShowsPull(r: Rules, e: Event, t: Timer)
  {
    && e.Change? && e.at == t.setAt && e.obj.PodObject? && e.obj.pod.node != "" && e.obj.pod.node == t.node
    && e.obj.pod.namespace == t.namespace && e.obj.pod.name == t.pod
    && exists s | s in e.obj.pod.statuses :: s.name == t.container && s.image == t.image && r.creating(s)
  }

  ghost predicate Seen(r: Rules, events: seq<Event>, t: Timer)
  {
    exists i :: 0 <= i < |events| && ShowsPull(r, events[i], t)
  }

  ghost predicate TimersSeen(r: Rules, timers: map<nat, Timer>, events: seq<Event>)
  {
    forall id | id in timers :: Seen(r, events, timers[id])
  }

  function TimerFor(pod: Pod, status: Status, at: int): Timer
  {
    Timer(pod.namespace, pod.name, status.name, status.image, pod.node, at)
  }

  /** What a slow pull is about, as a timer for it that was set at a time. */
  function Watching(slow: Slow, at: int): Timer
  {
    Timer(slow.namespace, slow.pod, slow.container, slow.image, slow.node, at)
  }

  /** A slow pull was seen beginning, no later than it is said to have begun. */
  ghost predicate SeenBy(r: Rules, events: seq<Event>, slow: Slow)
  {
    exists t :: t <= slow.startedAt && Seen(r, events, Watching(slow, t))
  }

  /** A slow pull is said to have begun a threshold before a timer's function ran. */
  ghost predicate FoundBy(r: Rules, events: seq<Event>, slow: Slow)
  {
    exists i :: 0 <= i < |events| && events[i].Fire? && events[i].at == slow.startedAt + r.threshold
  }

  /** Timers were set when a container was seen being created, and a slow pull began after that, a threshold ago. */
  ghost predicate InvTimes(r: Rules, s: State, events: seq<Event>, now: int)
  {
    && TimersSeen(r, s.armed, events) && TimersSeen(r, s.running, events)
    && (forall id | id in s.running :: s.running[id].setAt + r.threshold <= now)
    && (forall k | k in s.slowPulls :: SeenBy(r, events, s.slowPulls[k]) && FoundBy(r, events, s.slowPulls[k])
                                       && s.slowPulls[k].startedAt + r.threshold <= now)
  }

  lemma SeenStays(r: Rules, events: seq<Event>, e: Event, t: Timer)
    requires Seen(r, events, t)
    ensures Seen(r, events + [e], t)
  {
    var i :| 0 <= i < |events| && ShowsPull(r, events[i], t);
    assert (events + [e])[i] == events[i];
  }

  lemma FoundStays(r: Rules, events: seq<Event>, e: Event, slow: Slow)
    requires FoundBy(r, events, slow)
    ensures FoundBy(r, events + [e], slow)
  {
    var i :| 0 <= i < |events| && events[i].Fire? && events[i].at == slow.startedAt + r.threshold;
    assert (events + [e])[i] == events[i];
  }

  lemma TimesStay(r: Rules, s: State, events: seq<Event>, now: int, e: Event)
    requires InvTimes(r, s, events, now) && now <= e.at
    ensures InvTimes(r, s, events + [e], e.at)
  {
    forall t | Seen(r, events, t)
      ensures Seen(r, events + [e], t)
    {
      SeenStays(r, events, e, t);
    }
    forall slow | FoundBy(r, events, slow)
      ensures FoundBy(r, events + [e], slow)
    {
      FoundStays(r, events, e, slow);
    }
  }

  lemma CleanedUpTimes(r: Rules, s: State, events: seq<Event>, now: int, key: string)
    requires InvTimes(r, s, events, now)
    ensures InvTimes(r, CleanedUp(s, key), events, now)
  {
  }

  lemma WatchedTimes(r: Rules, s: State, events: seq<Event>, now: int, key: string, timer: Timer)
    requires InvTimes(r, s, events, now) && Seen(r, events, timer)
    ensures InvTimes(r, Watched(s, key, timer), events, now)
  {
  }

  lemma StatusTimes(r: Rules, s: State, events: seq<Event>, at: int, pod: Pod, status: Status)
    requires InvTimes(r, s, events, at)
    requires r.creating(status) ==> Seen(r, events, TimerFor(pod, status, at))
    ensures InvTimes(r, ProcessedOne(r, s, at, pod, status), events, at)
  {
    var key := Key(pod.namespace, pod.name, status.name);
    if r.failing(status) {
      CleanedUpTimes(r, s.(failures := s.failures[key := FailureOf(r, s, pod, status)]), events, at, key);
    } else {
      var cleared := s.(failures := s.failures - {key});
      if r.creating(status) {
        WatchedTimes(r, cleared, events, at, key, TimerFor(pod, status, at));
      } else {
        CleanedUpTimes(r, cleared, events, at, key);
      }
    }
  }

  lemma {:induction false} StatusesTimes(r: Rules, s: State, events: seq<Event>, at: int, pod: Pod, n: nat)
    requires InvTimes(r, s, events, at) && n <= |pod.statuses| && pod.node != ""
    requires events != [] && events[|events| - 1] == Change(at, PodObject(pod))
    ensures InvTimes(r, ProcessedAll(r, s, at, pod, pod.statuses[..n]), events, at)
  {
    if n > 0 {
      StatusesTimes(r, s, events, at, pod, n - 1);
      assert pod.statuses[..n][..n - 1] == pod.statuses[..n - 1];
      var status := pod.statuses[n - 1];
      if r.creating(status) {
        assert status in pod.statuses && ShowsPull(r, events[|events| - 1], TimerFor(pod, status, at));
      }
      StatusTimes(r, ProcessedAll(r, s, at, pod, pod.statuses[..n - 1]), events, at, pod, status);
    }
  }

  lemma FiringTimes(r: Rules, s: State, events: seq<Event>, at: int, id: nat, read: Option<Pod>)
    requires InvTimes(r, s, events, at) && id in s.running
    requires events != [] && events[|events| - 1] == Fire(at, id, read)
    ensures InvTimes(r, Fired(r, s, at, id, read), events, at)
  {
    var timer := s.running[id];
    assert Seen(r, events, Watching(SlowOf(r, timer, at), timer.setAt));
    assert SeenBy(r, events, SlowOf(r, timer, at));
    assert events[|events| - 1].at == SlowOf(r, timer, at).startedAt + r.threshold;
    assert FoundBy(r, events, SlowOf(r, timer, at));
  }

  lemma StepTimes(r: Rules, s: State, events: seq<Event>, e: Event)
    requires InvTimes(r, s, events + [e], e.at) && CanStep(r, s, e)
    ensures InvTimes(r, Step(r, s, e), events + [e], e.at)
  {
    match e {
      case Change(at, obj) =>
        if obj.PodObject? && obj.pod.node != "" {
          StatusesTimes(r, s, events + [e], at, obj.pod, |obj.pod.statuses|);
          assert obj.pod.statuses[..|obj.pod.statuses|] == obj.pod.statuses;
        }
      case Delete(_, obj) =>
      case Expire(_, id) =>
      case Fire(at, id, read) => FiringTimes(r, s, events + [e], at, id, read);
    }
  }

  lemma {:induction false} RunTimes(r: Rules, states: seq<State>, events: seq<Event>, i: nat, now: int)
    requires Run(r, states, events) && Clocked(events) && i < |states|
    requires i > 0 ==> now == events[i - 1].at
    ensures InvTimes(r, states[i], events[..i], now)
  {
    if i > 0 {
      var e := events[i - 1];
      RunTimes(r, states, events, i - 1, if i > 1 then events[i - 2].at else e.at);
      assert events[..i] == events[..i - 1] + [e];
      assert CanStep(r, states[i - 1], e) && states[i - 1 + 1] == Step(r, states[i - 1], e);
      TimesStay(r, states[i - 1], events[..i - 1], if i > 1 then events[i - 2].at else e.at, e);
      StepTimes(r, states[i - 1], events[..i - 1], e);
    }
  }

  ghost predicate SlowRegistries(r: Rules, s: State)
  {
    forall k | k in s.slowPulls :: s.slowPulls[k].registry == r.registry(s.slowPulls[k].image)
  }

  lemma {:induction false} ProcessedKeepsRegistries(r: Rules, s: State, at: int, pod: Pod, statuses: seq<Status>)
    requires SlowRegistries(r, s)
    ensures SlowRegistries(r, ProcessedAll(r, s, at, pod, statuses))
  {
    if statuses != [] {
      ProcessedKeepsRegistries(r, s, at, pod, statuses[..|statuses| - 1]);
    }
  }

  lemma {:induction false} RunKeepsRegistries(r: Rules, states: seq<State>, events: seq<Event>, i: nat)
    requires Run(r, states, events) && i < |states|
    ensures SlowRegistries(r, states[i])
  {
    if i > 0 {
      RunKeepsRegistries(r, states, events, i - 1);
      var s, e := states[i - 1], events[i - 1];
      assert CanStep(r, s, e) && states[i - 1 + 1] == Step(r, s, e);
      if e.Change? && e.obj.PodObject? {
        ProcessedKeepsRegistries(r, s, e.at, e.obj.pod, e.obj.pod.statuses);
      }
    }
  }

  /** The seconds of a slow pull count from when it is said to have begun, and are 0 for a clock before that. */
  lemma SecondsCount(slow: Slow, seconds: nat)
    ensures SlowSample(slow, slow.startedAt + seconds).seconds == seconds
    ensures SlowSample(slow, slow.startedAt - seconds).seconds == 0
  {
  }

  /** A slow pull is emitted with the pod, node and image of a timer, and the seconds since its function ran. */
  predicate Emits(r: Rules, slow: Slow, now: int, shows: Event, fires: Event, t: Timer)
  {
    && ShowsPull(r, shows, t) && TimerKey(t) == Key(slow.namespace, slow.pod, slow.container)
    && fires.Fire? && shows.at + r.threshold <= fires.at
    && SlowSample(slow, now)
       == PullSlow(t.namespace, t.pod, t.node, r.registry(t.image), t.image, r.threshold + now - fires.at)
  }

  lemma SlowEmitted(r: Rules, events: seq<Event>, slow: Slow, now: int)
    requires SeenBy(r, events, slow) && FoundBy(r, events, slow)
    requires slow.registry == r.registry(slow.image) && slow.startedAt <= now
    ensures exists j, m, t :: 0 <= j < |events| && 0 <= m < |events| && Emits(r, slow, now, events[j], events[m], t)
  {
    var at :| at <= slow.startedAt && Seen(r, events, Watching(slow, at));
    var j :| 0 <= j < |events| && ShowsPull(r, events[j], Watching(slow, at));
    var m :| 0 <= m < |events| && events[m].Fire? && events[m].at == slow.startedAt + r.threshold;
    assert Emits(r, slow, now, events[j], events[m], Watching(slow, at));
  }

  /**
    A pull is reported as slow only past the threshold, and never as slower than it has been watched: the
    seconds emitted are the threshold and the time since its timer's function ran, and no more than the
    time since a change that showed it being created, with the pod, node and image of that change and the
    registry of its image.
   */
  lemma SlowPullsAreSlow(r: Rules, states: seq<State>, events: seq<Event>, i: nat, k: string, now: int)
    requires Run(r, states, events) && Clocked(events) && 0 < i < |states| && events[i - 1].at <= now
    requires k in states[i].slowPulls
    ensures exists j, m, t :: 0 <= j < i && 0 <= m < i && Emits(r, states[i].slowPulls[k], now, events[j], events[m], t)
    ensures k == Key(states[i].slowPulls[k].namespace, states[i].slowPulls[k].pod, states[i].slowPulls[k].container)
  {
    RunTimes(r, states, events, i, events[i - 1].at);
    RunKeepsWeak(r, states, events, i);
    RunKeepsRegistries(r, states, events, i);
    SlowEmitted(r, events[..i], states[i].slowPulls[k], now);
    var j, m, t :| 0 <= j < i && 0 <= m < i && Emits(r, states[i].slowPulls[k], now, events[..i][j], events[..i][m], t);
    assert events[..i][j] == events[j] && events[..i][m] == events[m];
  }

  // ---------- Series that clash ----------

  /** Two containers of one pod for which the same failure is stored: a sample does not tell containers apart. */
  predicate SameFailure(f: Failure, g: Failure)
  {
    f.namespace == g.namespace && f.pod == g.pod && f.node == g.node && f.image == g.image && f.reason == g.reason
  }

  lemma RegistryOfImage(r: Rules, states: seq<State>, events: seq<Event>, i: nat, k: string)
    requires Run(r, states, events) && i < |states| && k in states[i].failures
    ensures states[i].failures[k].registry == r.registry(states[i].failures[k].image)
  {
    StoredReason(r, states, events, i, k);
  }

  /** The failures emitted are different series exactly when no two containers of one pod have the same failure stored. */
  lemma StoredFailuresClashIff(r: Rules, states: seq<State>, events: seq<Event>, i: nat, order: seq<string>)
    requires Run(r, states, events) && i < |states| && Lists(order, states[i].failures.Keys)
    ensures NoRepeats(FailureSamples(states[i].failures, order)) <==>
              forall j, k | j in states[i].failures && k in states[i].failures
                            && states[i].failures[j].container != states[i].failures[k].container ::
                !SameFailure(states[i].failures[j], states[i].failures[k])
  {
    var failures := states[i].failures;
    var out := FailureSamples(failures, order);
    RunKeepsWeak(r, states, events, i);
    if a, b :| 0 <= a < b < |out| && out[a] == out[b] {
      var j, k := order[a], order[b];
      assert j in order && k in order && j != k;
      assert SameFailure(failures[j], failures[k]) && failures[j].container != failures[k].container;
    }
    if j, k :| j in failures && k in failures && failures[j].container != failures[k].container
               && SameFailure(failures[j], failures[k]) {
      assert j in order && k in order;
      var a :| 0 <= a < |order| && order[a] == j;
      var b :| 0 <= b < |order| && order[b] == k;
      RegistryOfImage(r, states, events, i, j);
      RegistryOfImage(r, states, events, i, k);
      assert out[a] == out[b] && a != b;
    }
  }

  /** The attempt a container of a pod is in after some events. */
  function AttemptOf(r: Rules, events: seq<Event>, namespace: string, pod: string, container: string): Option<Attempt>
  {
    AttemptAfter(r, Key(namespace, pod, container), events)
  }

  /** Two attempts that are reported in the same way. */
  predicate ReportedAlike(a: Option<Attempt>, b: Option<Attempt>)
  {
    && a.Some? && b.Some? && a.value.reasons != [] && b.value.reasons != []
    && a.value.node == b.value.node && a.value.image == b.value.image
    && StoredAfter(a.value.reasons) == StoredAfter(b.value.reasons)
  }

  lemma NamesFirst(n: string, p: string, c: string, namespace: string, pod: string, container: string)
    requires Plain(n) && Plain(p) && Plain(namespace) && Plain(pod)
    requires Key(n, p, c) == Key(namespace, pod, container)
    ensures n == namespace && p == pod && c == container
  {
    assert Key(n, p, c) == n + ['/'] + (p + ['/'] + c);
    assert Key(namespace, pod, container) == namespace + ['/'] + (pod + ['/'] + container);
    FirstSlash(n, namespace, p + ['/'] + c, pod + ['/'] + container);
    FirstSlash(p, pod, c, container);
  }

  /**
    After any history of plainly named pods: the failures emitted are different series exactly when no
    two containers of one pod are in attempts on the same node and image with the same reason to store.
   */
  lemma FailuresClashIff(r: Rules, states: seq<State>, events: seq<Event>, i: nat, order: seq<string>)
    requires Run(r, states, events) && i < |states| && Lists(order, states[i].failures.Keys)
    requires forall e | e in events :: PlainChange(e)
    ensures NoRepeats(FailureSamples(states[i].failures, order)) <==>
              forall namespace, pod, c, d | Plain(namespace) && Plain(pod) && c != d ::
                !ReportedAlike(AttemptOf(r, events[..i], namespace, pod, c), AttemptOf(r, events[..i], namespace, pod, d))
  {
    StoredFailuresClashIff(r, states, events, i, order);
    var failures := states[i].failures;
    forall j, k | j in failures && k in failures && failures[j].container != failures[k].container
                  && SameFailure(failures[j], failures[k])
      ensures exists namespace, pod, c, d :: Plain(namespace) && Plain(pod) && c != d
                && ReportedAlike(AttemptOf(r, events[..i], namespace, pod, c), AttemptOf(r, events[..i], namespace, pod, d))
    {
      FailureHasAttempt(r, states, events, i, j);
      FailureHasAttempt(r, states, events, i, k);
    }
    forall namespace, pod, c, d | Plain(namespace) && Plain(pod) && c != d
      && ReportedAlike(AttemptOf(r, events[..i], namespace, pod, c), AttemptOf(r, events[..i], namespace, pod, d))
      ensures exists j, k :: j in failures && k in failures && failures[j].container != failures[k].container
                             && SameFailure(failures[j], failures[k])
    {
      AttemptHasFailure(r, states, events, i, namespace, pod, c);
      AttemptHasFailure(r, states, events, i, namespace, pod, d);
      assert SameFailure(failures[Key(namespace, pod, c)], failures[Key(namespace, pod, d)]);
    }
  }

  lemma FailureHasAttempt(r: Rules, states: seq<State>, events: seq<Event>, i: nat, k: string)
    requires Run(r, states, events) && i < |states| && (forall e | e in events :: PlainChange(e))
    requires k in states[i].failures
    ensures var f := states[i].failures[k];
            && Plain(f.namespace) && Plain(f.pod)
            && var a := AttemptOf(r, events[..i], f.namespace, f.pod, f.container);
               a.Some? && a.value.reasons != []
               && a.value.node == f.node && a.value.image == f.image && StoredAfter(a.value.reasons) == f.reason
  {
    RunKeepsWeak(r, states, events, i);
    RunKeepsPlain(r, states, events, i);
    StoredReason(r, states, events, i, k);
  }

  lemma AttemptHasFailure(r: Rules, states: seq<State>, events: seq<Event>, i: nat, namespace: string, pod: string,
                          container: string)
    requires Run(r, states, events) && i < |states| && (forall e | e in events :: PlainChange(e))
    requires Plain(namespace) && Plain(pod) && AttemptOf(r, events[..i], namespace, pod, container).Some?
    ensures var k, a := Key(namespace, pod, container), AttemptOf(r, events[..i], namespace, pod, container).value;
            && k in states[i].failures && a.reasons != []
            && var f := states[i].failures[k];
               f.namespace == namespace && f.pod == pod && f.container == container
               && f.node == a.node && f.image == a.image && f.reason == StoredAfter(a.reasons)
  {
    var k := Key(namespace, pod, container);
    RunKeepsWeak(r, states, events, i);
    RunKeepsPlain(r, states, events, i);
    StoredReason(r, states, events, i, k);
    var f := states[i].failures[k];
    NamesFirst(f.namespace, f.pod, f.container, namespace, pod, container);
  }

  /**
    What is reported of a container's failure after any history: nothing outside an attempt, and within
    one its pod, node and image with the image's registry and the reason that its run of failures calls for.
   */
  lemma FailureReported(r: Rules, states: seq<State>, events: seq<Event>, i: nat, namespace: string, pod: string,
                        container: string)
    requires Run(r, states, events) && i < |states| && (forall e | e in events :: PlainChange(e))
    requires Plain(namespace) && Plain(pod)
    ensures var k, a := Key(namespace, pod, container), AttemptOf(r, events[..i], namespace, pod, container);
            && (k in states[i].failures <==> a.Some?)
            && (a.Some? ==> a.value.reasons != []
                            && FailureSample(states[i].failures[k])
                               == PullFailures(namespace, pod, a.value.node, r.registry(a.value.image), a.value.image,
                                               StoredAfter(a.value.reasons)))
  {
    var k := Key(namespace, pod, container);
    StoredReason(r, states, events, i, k);
    if AttemptOf(r, events[..i], namespace, pod, container).Some? {
      AttemptHasFailure(r, states, events, i, namespace, pod, container);
      RegistryOfImage(r, states, events, i, k);
    }
  }

  /** Any pod whose two containers fail alike on one image gives the same series twice as soon as it is seen. */
  lemma OneImageTwice(r: Rules, at: int, pod: Pod, order: seq<string>) returns (states: seq<State>, events: seq<Event>)
    requires pod.node != "" && |pod.statuses| == 2 && pod.statuses[0].name != pod.statuses[1].name
    requires r.failing(pod.statuses[0]) && r.failing(pod.statuses[1])
    requires pod.statuses[0].image == pod.statuses[1].image && r.classify(pod.statuses[0]) == r.classify(pod.statuses[1])
    ensures events == [Change(at, PodObject(pod))] && Run(r, states, events)
    ensures Lists(order, states[1].failures.Keys) ==> !NoRepeats(FailureSamples(states[1].failures, order))
  {
    var a, b := pod.statuses[0], pod.statuses[1];
    var j, k := Key(pod.namespace, pod.name, a.name), Key(pod.namespace, pod.name, b.name);
    KeysDiffer(pod.namespace, pod.name, a.name, b.name);
    events := [Change(at, PodObject(pod))];
    var s1 := ProcessedOne(r, INITIAL, at, pod, a);
    var s2 := ProcessedOne(r, s1, at, pod, b);
    assert pod.statuses[..1] == [a] && pod.statuses == [a] + [b];
    assert ProcessedAll(r, INITIAL, at, pod, [a]) == s1;
    states := [INITIAL, s2];
    FailuresAfter(r, INITIAL, at, pod, a);
    FailuresAfter(r, s1, at, pod, b);
    if Lists(order, s2.failures.Keys) {
      assert SameFailure(s2.failures[j], s2.failures[k]);
      StoredFailuresClashIff(r, states, events, 1, order);
    }
  }

  /** The series of a sample: its labels, whatever its value. */
  function Series(s: Sample): Sample
  {
    if s.PullSlow? then s.(seconds := 0) else s
  }

  function SeriesOf(out: seq<Sample>): seq<Sample>
  {
    seq(|out|, i requires 0 <= i < |out| => Series(out[i]))
  }

  /** Two containers of one pod that pull one image on one node. */
  predicate SamePull(s: Slow, t: Slow)
  {
    s.namespace == t.namespace && s.pod == t.pod && s.node == t.node && s.image == t.image
  }

  /** The slow pulls emitted are different series exactly when no two containers of one pod are slow on one image. */
  lemma SlowPullsClashIff(r: Rules, states: seq<State>, events: seq<Event>, i: nat, order: seq<string>, now: int)
    requires Run(r, states, events) && i < |states| && Lists(order, states[i].slowPulls.Keys)
    ensures NoRepeats(SeriesOf(SlowSamples(states[i].slowPulls, order, now))) <==>
              forall j, k | j in states[i].slowPulls && k in states[i].slowPulls
                            && states[i].slowPulls[j].container != states[i].slowPulls[k].container ::
                !SamePull(states[i].slowPulls[j], states[i].slowPulls[k])
  {
    var slow := states[i].slowPulls;
    var out := SeriesOf(SlowSamples(slow, order, now));
    RunKeepsWeak(r, states, events, i);
    RunKeepsRegistries(r, states, events, i);
    if a, b :| 0 <= a < b < |out| && out[a] == out[b] {
      var j, k := order[a], order[b];
      assert j in order && k in order && j != k;
      assert SamePull(slow[j], slow[k]) && slow[j].container != slow[k].container;
    }
    if j, k :| j in slow && k in slow && slow[j].container != slow[k].container && SamePull(slow[j], slow[k]) {
      assert j in order && k in order;
      var a :| 0 <= a < |order| && order[a] == j;
      var b :| 0 <= b < |order| && order[b] == k;
      assert out[a] == out[b] && a != b;
    }
  }

  /** Two containers of a pod that are slow on one image come to the same series twice. */
  lemma OneImageTwiceSlow(r: Rules, pod: Pod, order: seq<string>, now: int) returns (states: seq<State>, events: seq<Event>)
    requires pod.node != "" && |pod.statuses| == 2 && pod.statuses[0].name != pod.statuses[1].name
    requires !r.failing(pod.statuses[0]) && !r.failing(pod.statuses[1])
    requires r.creating(pod.statuses[0]) && r.creating(pod.statuses[1]) && pod.statuses[0].image == pod.statuses[1].image
    ensures events == [Change(0, PodObject(pod)), Expire(r.threshold, 0), Expire(r.threshold, 1),
                       Fire(r.threshold, 0, Some(pod)), Fire(r.threshold, 1, Some(pod))]
    ensures Run(r, states, events)
    ensures Lists(order, states[5].slowPulls.Keys) ==> !NoRepeats(SeriesOf(SlowSamples(states[5].slowPulls, order, now)))
  {
    var a, b := pod.statuses[0], pod.statuses[1];
    var j, k := Key(pod.namespace, pod.name, a.name), Key(pod.namespace, pod.name, b.name);
    KeysDiffer(pod.namespace, pod.name, a.name, b.name);
    FirstOfTwo(pod.statuses);
    states, events := TwoRunning(r, pod);
    states, events := Further(r, states, events, Fire(r.threshold, 0, Some(pod)));
    states, events := Further(r, states, events, Fire(r.threshold, 1, Some(pod)));
    if Lists(order, states[5].slowPulls.Keys) {
      assert SamePull(states[5].slowPulls[j], states[5].slowPulls[k]);
      SlowPullsClashIff(r, states, events, 5, order, now);
    }
  }

  /** Two containers are seen being created, and the time of both timers comes. */
  lemma TwoRunning(r: Rules, pod: Pod) returns (states: seq<State>, events: seq<Event>)
    requires pod.node != "" && |pod.statuses| == 2 && pod.statuses[0].name != pod.statuses[1].name
    requires !r.failing(pod.statuses[0]) && !r.failing(pod.statuses[1])
    requires r.creating(pod.statuses[0]) && r.creating(pod.statuses[1])
    ensures events == [Change(0, PodObject(pod)), Expire(r.threshold, 0), Expire(r.threshold, 1)] && Run(r, states, events)
    ensures states[3].running == map[0 := TimerFor(pod, pod.statuses[0], 0), 1 := TimerFor(pod, pod.statuses[1], 0)]
    ensures states[3].slowPulls == map[]
  {
    var a, b := pod.statuses[0], pod.statuses[1];
    KeysDiffer(pod.namespace, pod.name, a.name, b.name);
    assert pod.statuses[..1] == [a] && [a][..0] == [] && ProcessedAll(r, INITIAL, 0, pod, []) == INITIAL;
    var s := ProcessedOne(r, INITIAL, 0, pod, a);
    assert ProcessedAll(r, INITIAL, 0, pod, [a]) == s;
    assert Processed(r, INITIAL, 0, pod) == ProcessedOne(r, s, 0, pod, b);
    states, events := Further(r, [INITIAL], [], Change(0, PodObject(pod)));
    states, events := Further(r, states, events, Expire(r.threshold, 0));
    states, events := Further(r, states, events, Expire(r.threshold, 1));
  }

  lemma FirstOfTwo(statuses: seq<Status>)
    requires |statuses| == 2 && statuses[0].name != statuses[1].name
    ensures FirstStatus(statuses, statuses[0].name) == Some(statuses[0])
    ensures FirstStatus(statuses, statuses[1].name) == Some(statuses[1])
  {
  }

  lemma KeysDiffer(namespace: string, pod: string, a: string, b: string)
    requires a != b
    ensures Key(namespace, pod, a) != Key(namespace, pod, b)
  {
    var prefix := namespace + ['/'] + pod + ['/'];
    assert Key(namespace, pod, a)[|prefix|..] == a && Key(namespace, pod, b)[|prefix|..] == b;
  }

  // ---------- A timer's function that runs too late ----------

  function PodWaiting(reason: string): Pod
  {
    Pod("default", "web", "node-1", [Status("main", "nginx", "", Some(Waiting(reason, "")))])
  }

  function PodRunning(): Pod
  {
    Pod("default", "web", "node-1", [Status("main", "nginx", "containerd://1", None)])
  }

  lemma SourceAnswers(p: Patterns, threshold: nat)
    ensures !SourceRules(p, threshold).failing(PodWaiting("ContainerCreating").statuses[0])
    ensures SourceRules(p, threshold).creating(PodWaiting("ContainerCreating").statuses[0])
    ensures SourceRules(p, threshold).failing(PodWaiting("ErrImagePull").statuses[0])
  {
    var reason := "ContainerCreating";
    assert reason[0] == 'C' && |reason| == 17 && |ToLower(reason)| == 17;
    assert !IsImagePullFailure(reason);
    assert ToLower("") == "" && !Contains(ToLower(""), "back-off pulling image");
    assert ToLower(reason) != "imagepullbackoff";
    assert !IsBackOffPullingImage(reason, "");
    assert forall c | c in "nginx" :: c != '/';
    assert IsPublicRegistry("nginx") && IsImagePullFailure("ErrImagePull");
  }

  /**
    The time of a slow pull's timer comes, the pull fails before its function has the lock, and a pod
    read by then shows the container being created: it is reported as failing and as slow at once.
   */
  lemma LateTimerHarms(p: Patterns, threshold: nat) returns (states: seq<State>, events: seq<Event>)
    ensures var creating, failing := PodWaiting("ContainerCreating"), PodWaiting("ErrImagePull");
            events == [Change(0, PodObject(creating)), Expire(threshold, 0), Change(threshold, PodObject(failing)),
                       Fire(threshold, 0, Some(creating))]
    ensures Run(SourceRules(p, threshold), states, events)
    ensures var key := Key("default", "web", "main"); key in states[4].failures && key in states[4].slowPulls
  {
    var r := SourceRules(p, threshold);
    var creating, failing := PodWaiting("ContainerCreating"), PodWaiting("ErrImagePull");
    SourceAnswers(p, threshold);
    events := [Change(0, PodObject(creating)), Expire(threshold, 0), Change(threshold, PodObject(failing)),
               Fire(threshold, 0, Some(creating))];
    OneStatus(r, INITIAL, 0, creating);
    var s1 := Step(r, INITIAL, events[0]);
    var s2 := Step(r, s1, events[1]);
    OneStatus(r, s2, threshold, failing);
    var s3 := Step(r, s2, events[2]);
    states := [INITIAL, s1, s2, s3, Step(r, s3, events[3])];
  }

  lemma OneStatus(r: Rules, s: State, at: int, pod: Pod)
    requires |pod.statuses| == 1 && pod.node != ""
    ensures Processed(r, s, at, pod) == ProcessedOne(r, s, at, pod, pod.statuses[0])
  {
    assert pod.statuses[..0] == [] && ProcessedAll(r, s, at, pod, []) == s;
  }

  /** A pull is watched, and its timer is stopped only after its time has come. */
  lemma StoppedTooLate(p: Patterns, threshold: nat) returns (states: seq<State>, events: seq<Event>)
    ensures events == [Change(0, PodObject(PodWaiting("ContainerCreating"))), Expire(threshold, 0),
                       Change(threshold, PodObject(PodRunning()))]
    ensures Run(SourceRules(p, threshold), states, events)
    ensures var pod := PodWaiting("ContainerCreating");
            states[3] == State(map[], map[], map[], map[], map[0 := TimerFor(pod, pod.statuses[0], 0)], 1)
  {
    var r := SourceRules(p, threshold);
    SourceAnswers(p, threshold);
    OneStatus(r, INITIAL, 0, PodWaiting("ContainerCreating"));
    states, events := Further(r, [INITIAL], [], Change(0, PodObject(PodWaiting("ContainerCreating"))));
    states, events := Further(r, states, events, Expire(threshold, 0));
    OneStatus(r, states[2], threshold, PodRunning());
    states, events := Further(r, states, events, Change(threshold, PodObject(PodRunning())));
  }

  /**
    The pull then begins anew with another timer, and the function of the first takes that one out:
    deleting the pod no longer stops it.
   */
  lemma LateTimerLosesNewer(p: Patterns, threshold: nat) returns (states: seq<State>, events: seq<Event>)
    ensures var creating, up := PodWaiting("ContainerCreating"), PodRunning();
            events == [Change(0, PodObject(creating)), Expire(threshold, 0), Change(threshold, PodObject(up)),
                       Change(threshold, PodObject(creating)), Fire(threshold, 0, None), Delete(threshold, PodObject(creating))]
    ensures Run(SourceRules(p, threshold), states, events)
    ensures !Registered(states[5]) && states[6].armed.Keys == {1} && states[6].slowTimers == map[]
  {
    var r, creating := SourceRules(p, threshold), PodWaiting("ContainerCreating");
    SourceAnswers(p, threshold);
    states, events := StoppedTooLate(p, threshold);
    OneStatus(r, states[3], threshold, creating);
    states, events := Further(r, states, events, Change(threshold, PodObject(creating)));
    states, events := Further(r, states, events, Fire(threshold, 0, None));
    assert 1 in states[5].armed && states[5].slowTimers == map[];
    states, events := Further(r, states, events, Delete(threshold, PodObject(creating)));
  }
}
