/** Runs of the image pull tracker: pod events, timers that expire, and their functions, in every order. */
module ImagePullRuns {
  import opened Wrappers
  import opened Slashes
  import opened ImagePull

  datatype Event =
    | Change(at: int, obj: Object)
    | Delete(at: int, obj: Object)
    | Expire(at: int, id: nat)
    | Fire(at: int, id: nat, read: Option<Pod>)

  predicate CanStep(r: Rules, s: State, e: Event)
  {
    match e
    case Expire(at, id) => id in s.armed && s.armed[id].setAt + r.threshold <= at
    case Fire(_, id, _) => id in s.running
    case _ => true
  }

  function Step(r: Rules, s: State, e: Event): State
    requires CanStep(r, s, e)
  {
    match e
    case Change(at, obj) => Changed(r, s, at, obj)
    case Delete(_, obj) => DeletedObject(s, obj)
    case Expire(_, id) => Expired(s, id)
    case Fire(at, id, read) => Fired(r, s, at, id, read)
  }

  ghost predicate Run(r: Rules, states: seq<State>, events: seq<Event>)
  {
    && |states| == |events| + 1 && states[0] == INITIAL
    && forall i {:trigger events[i]} | 0 <= i < |events| ::
         CanStep(r, states[i], events[i]) && states[i + 1] == Step(r, states[i], events[i])
  }

  lemma Further(r: Rules, states: seq<State>, events: seq<Event>, e: Event) returns (more: seq<State>, all: seq<Event>)
    requires Run(r, states, events) && CanStep(r, states[|events|], e)
    ensures Run(r, more, all) && all == events + [e] && states < more && more[|all|] == Step(r, states[|events|], e)
  {
    more, all := states + [Step(r, states[|events|], e)], events + [e];
    forall i | 0 <= i < |all|
      ensures CanStep(r, more[i], all[i]) && more[i + 1] == Step(r, more[i], all[i])
    {
      if i < |events| {
        assert all[i] == events[i];
      }
    }
  }

  // ---------- What every step keeps ----------

  predicate Stands(timers: map<nat, Timer>, id: nat, key: string)
  {
    id in timers && TimerKey(timers[id]) == key
  }

  /** A key stands for a timer of its own, armed or running; no number is both, or new. */
  ghost predicate TimersKnown(s: State)
  {
    && (forall k | k in s.slowTimers :: Stands(s.armed, s.slowTimers[k], k) || Stands(s.running, s.slowTimers[k], k))
    && (forall id | id in s.armed :: id < s.made && id !in s.running)
    && (forall id | id in s.running :: id < s.made)
  }

  /** Entries are kept under the key of what they are about. */
  ghost predicate InvKeys(s: State)
  {
    && (forall k | k in s.failures :: k == Key(s.failures[k].namespace, s.failures[k].pod, s.failures[k].container))
    && (forall k | k in s.slowPulls :: k == Key(s.slowPulls[k].namespace, s.slowPulls[k].pod, s.slowPulls[k].container))
  }

  /** Every timer that can still be stopped is found under its key. */
  ghost predicate Registered(s: State)
  {
    forall id | id in s.armed :: TimerKey(s.armed[id]) in s.slowTimers && s.slowTimers[TimerKey(s.armed[id])] == id
  }

  /** No key but those of `but` has a failure and a slow pull or a timer. */
  ghost predicate Apart(s: State, but: set<string>)
  {
    forall k | k in s.failures && k !in but :: k !in s.slowPulls && k !in s.slowTimers
  }

  /** What holds however late a timer's function runs. */
  ghost predicate Weak(s: State)
  {
    TimersKnown(s) && InvKeys(s)
  }

  /** Failures are apart from slow pulls and timers, and every armed timer is found, one a key. */
  ghost predicate Inv(s: State)
  {
    Weak(s) && Registered(s) && Apart(s, {})
  }

  lemma CleanedUpKeeps(s: State, key: string)
    requires Weak(s)
    ensures Weak(CleanedUp(s, key))
    ensures Registered(s) ==> Registered(CleanedUp(s, key))
    ensures Apart(s, {key}) ==> Apart(CleanedUp(s, key), {})
  {
  }

  lemma WatchedKeeps(s: State, timer: Timer)
    requires Weak(s)
    ensures Weak(Watched(s, TimerKey(timer), timer))
    ensures Registered(s) ==> Registered(Watched(s, TimerKey(timer), timer))
    ensures Apart(s, {}) && TimerKey(timer) !in s.failures ==> Apart(Watched(s, TimerKey(timer), timer), {})
  {
  }

  lemma FailureStored(s: State, f: Failure)
    requires Weak(s)
    ensures var key := Key(f.namespace, f.pod, f.container);
            var t := s.(failures := s.failures[key := f]);
            Weak(t) && (Registered(s) ==> Registered(t)) && (Apart(s, {}) ==> Apart(t, {key}))
  {
  }

  lemma FailureCleared(s: State, key: string)
    requires Weak(s)
    ensures var t := s.(failures := s.failures - {key});
            Weak(t) && (Registered(s) ==> Registered(t)) && (Apart(s, {}) ==> Apart(t, {}))
  {
  }

  lemma ProcessedOneKeeps(r: Rules, s: State, at: int, pod: Pod, status: Status)
    requires Weak(s)
    ensures Weak(ProcessedOne(r, s, at, pod, status))
    ensures Inv(s) ==> Inv(ProcessedOne(r, s, at, pod, status))
  {
    var key := Key(pod.namespace, pod.name, status.name);
    if r.failing(status) {
      var f := FailureOf(r, s, pod, status);
      FailureStored(s, f);
      CleanedUpKeeps(s.(failures := s.failures[key := f]), key);
    } else {
      FailureCleared(s, key);
      var cleared := s.(failures := s.failures - {key});
      if r.creating(status) {
        WatchedKeeps(cleared, Timer(pod.namespace, pod.name, status.name, status.image, pod.node, at));
      } else {
        CleanedUpKeeps(cleared, key);
      }
    }
  }

  lemma {:induction false} ProcessedAllKeeps(r: Rules, s: State, at: int, pod: Pod, statuses: seq<Status>)
    requires Weak(s)
    ensures Weak(ProcessedAll(r, s, at, pod, statuses))
    ensures Inv(s) ==> Inv(ProcessedAll(r, s, at, pod, statuses))
  {
    if statuses != [] {
      var n := |statuses| - 1;
      ProcessedAllKeeps(r, s, at, pod, statuses[..n]);
      ProcessedOneKeeps(r, ProcessedAll(r, s, at, pod, statuses[..n]), at, pod, statuses[n]);
    }
  }

  lemma ExpiredKeeps(s: State, id: nat)
    requires Weak(s) && id in s.armed
    ensures Weak(Expired(s, id))
    ensures Inv(s) ==> Inv(Expired(s, id))
  {
  }

  lemma FiredKeepsWeak(r: Rules, s: State, at: int, id: nat, read: Option<Pod>)
    requires Weak(s) && id in s.running
    ensures Weak(Fired(r, s, at, id, read))
  {
  }

  /** The function of a timer that was stopped too late finds a newer timer of its key, or a failure where it puts a slow pull. */
  predicate Harmful(r: Rules, s: State, e: Event)
    requires CanStep(r, s, e)
  {
    e.Fire? &&
    var timer := s.running[e.id];
    var key := TimerKey(timer);
    || (key in s.slowTimers && s.slowTimers[key] in s.armed)
    || (key in s.failures && StillCreating(r, timer.container, e.read))
  }

  lemma RegisteredAfterFiring(r: Rules, s: State, at: int, id: nat, read: Option<Pod>)
    requires TimersKnown(s) && Registered(s) && id in s.running
    ensures var key := TimerKey(s.running[id]);
            Registered(Fired(r, s, at, id, read)) <==> !(key in s.slowTimers && s.slowTimers[key] in s.armed)
  {
    var key := TimerKey(s.running[id]);
    var t := Fired(r, s, at, id, read);
    assert t.armed == s.armed && t.slowTimers == s.slowTimers - {key};
    if key in s.slowTimers && s.slowTimers[key] in s.armed {
      assert TimerKey(t.armed[s.slowTimers[key]]) == key;
    }
  }

  lemma ApartAfterFiring(r: Rules, s: State, at: int, id: nat, read: Option<Pod>)
    requires Apart(s, {}) && id in s.running
    ensures Apart(Fired(r, s, at, id, read), {})
       <==> !(TimerKey(s.running[id]) in s.failures && StillCreating(r, s.running[id].container, read))
  {
    var key := TimerKey(s.running[id]);
    var t := Fired(r, s, at, id, read);
    assert t.failures == s.failures;
    if StillCreating(r, s.running[id].container, read) {
      assert t.slowPulls.Keys == s.slowPulls.Keys + {key};
    }
  }

  lemma FiredKeepsIff(r: Rules, s: State, at: int, id: nat, read: Option<Pod>)
    requires Inv(s) && id in s.running
    ensures Inv(Fired(r, s, at, id, read)) <==> !Harmful(r, s, Fire(at, id, read))
  {
    FiredKeepsWeak(r, s, at, id, read);
    RegisteredAfterFiring(r, s, at, id, read);
    ApartAfterFiring(r, s, at, id, read);
  }

  lemma DeletedKeeps(s: State, namespace: string, pod: string)
    requires Weak(s)
    ensures Weak(Deleted(s, namespace, pod))
    ensures Inv(s) ==> Inv(Deleted(s, namespace, pod))
  {
    var t := Deleted(s, namespace, pod);
    forall k | k in t.slowTimers
      ensures Stands(t.armed, t.slowTimers[k], k) || Stands(t.running, t.slowTimers[k], k)
    {
      forall j | j in s.slowTimers && Under(namespace, pod, j)
        ensures s.slowTimers[j] != s.slowTimers[k]
      {
        assert Stands(s.armed, s.slowTimers[j], j) || Stands(s.running, s.slowTimers[j], j);
      }
    }
  }

  lemma StepKeepsWeak(r: Rules, s: State, e: Event)
    requires Weak(s) && CanStep(r, s, e)
    ensures Weak(Step(r, s, e))
  {
    match e {
      case Change(at, obj) =>
        if obj.PodObject? {
          ProcessedAllKeeps(r, s, at, obj.pod, obj.pod.statuses);
        }
      case Delete(_, obj) =>
        if DeletedPod(obj).Some? {
          DeletedKeeps(s, DeletedPod(obj).value.namespace, DeletedPod(obj).value.name);
        }
      case Expire(_, id) => ExpiredKeeps(s, id);
      case Fire(at, id, read) => FiredKeepsWeak(r, s, at, id, read);
    }
  }

  /** The only step that can break anything is a timer's function that runs too late, and it does so exactly when harmful. */
  lemma StepKeepsInvIff(r: Rules, s: State, e: Event)
    requires Inv(s) && CanStep(r, s, e)
    ensures Inv(Step(r, s, e)) <==> !Harmful(r, s, e)
  {
    match e {
      case Change(at, obj) =>
        if obj.PodObject? {
          ProcessedAllKeeps(r, s, at, obj.pod, obj.pod.statuses);
        }
      case Delete(_, obj) =>
        if DeletedPod(obj).Some? {
          DeletedKeeps(s, DeletedPod(obj).value.namespace, DeletedPod(obj).value.name);
        }
      case Expire(_, id) => ExpiredKeeps(s, id);
      case Fire(at, id, read) => FiredKeepsIff(r, s, at, id, read);
    }
  }

  lemma {:induction false} RunKeepsWeak(r: Rules, states: seq<State>, events: seq<Event>, i: nat)
    requires Run(r, states, events) && i < |states|
    ensures Weak(states[i])
  {
    if i > 0 {
      RunKeepsWeak(r, states, events, i - 1);
      var s, e := states[i - 1], events[i - 1];
      assert CanStep(r, s, e) && states[i - 1 + 1] == Step(r, s, e);
      StepKeepsWeak(r, s, e);
    }
  }

  ghost predicate HarmlessAt(r: Rules, states: seq<State>, events: seq<Event>, i: nat)
    requires Run(r, states, events) && i < |events|
  {
    CanStep(r, states[i], events[i]) && !Harmful(r, states[i], events[i])
  }

  lemma {:induction false} RunKeepsInv(r: Rules, states: seq<State>, events: seq<Event>, n: nat)
    requires Run(r, states, events) && n < |states|
    requires forall i: nat | i < n :: HarmlessAt(r, states, events, i)
    ensures Inv(states[n])
  {
    if n > 0 {
      RunKeepsInv(r, states, events, n - 1);
      assert HarmlessAt(r, states, events, n - 1);
      var s, e := states[n - 1], events[n - 1];
      assert CanStep(r, s, e) && states[n - 1 + 1] == Step(r, s, e);
      StepKeepsInvIff(r, s, e);
    }
  }

  /** Over any run: the maps and timers are in step throughout exactly when no timer's function does harm. */
  lemma InStepThroughoutIff(r: Rules, states: seq<State>, events: seq<Event>)
    requires Run(r, states, events)
    ensures (forall i | 0 <= i < |states| :: Inv(states[i]))
       <==> (forall i: nat | i < |events| :: HarmlessAt(r, states, events, i))
  {
    if forall i | 0 <= i < |states| :: Inv(states[i]) {
      forall i: nat | i < |events|
        ensures HarmlessAt(r, states, events, i)
      {
        assert CanStep(r, states[i], events[i]) && states[i + 1] == Step(r, states[i], events[i]);
        assert Inv(states[i]) && Inv(states[i + 1]);
        StepKeepsInvIff(r, states[i], events[i]);
      }
    }
    if forall i: nat | i < |events| :: HarmlessAt(r, states, events, i) {
      forall i | 0 <= i < |states|
        ensures Inv(states[i])
      {
        RunKeepsInv(r, states, events, i);
      }
    }
  }

  /** A function that runs while its key still stands for its timer never does harm. */
  lemma InTimeIsHarmless(r: Rules, s: State, e: Event)
    requires Inv(s) && CanStep(r, s, e) && e.Fire?
    requires TimerKey(s.running[e.id]) in s.slowTimers && s.slowTimers[TimerKey(s.running[e.id])] == e.id
    ensures !Harmful(r, s, e)
  {
  }

  // ---------- Deleting a pod ----------

  predicate Plain(name: string)
  {
    name != "" && '/' !in name
  }

  /** A key is under a pod's prefix exactly when it is a key of that pod. */
  lemma UnderIff(namespace: string, pod: string, n: string, p: string, container: string)
    requires Plain(namespace) && Plain(pod) && Plain(n) && Plain(p) && container != ""
    ensures Under(namespace, pod, Key(n, p, container)) <==> n == namespace && p == pod
  {
    var prefix, key := namespace + ['/'] + pod + ['/'], Key(n, p, container);
    if n == namespace && p == pod {
      assert key == prefix + container;
    }
    if Under(namespace, pod, key) {
      var rest := key[|prefix|..];
      assert key == namespace + ['/'] + (pod + ['/'] + rest);
      assert key == n + ['/'] + (p + ['/'] + container);
      FirstSlash(namespace, n, pod + ['/'] + rest, p + ['/'] + container);
      FirstSlash(pod, p, rest, container);
    }
  }

  predicate PlainTimer(t: Timer)
  {
    Plain(t.namespace) && Plain(t.pod) && t.container != ""
  }

  predicate PlainPod(pod: Pod)
  {
    Plain(pod.namespace) && Plain(pod.name) && forall s | s in pod.statuses :: s.name != ""
  }

  predicate PlainFailure(f: Failure)
  {
    Plain(f.namespace) && Plain(f.pod) && f.container != ""
  }

  predicate PlainSlow(s: Slow)
  {
    Plain(s.namespace) && Plain(s.pod) && s.container != ""
  }

  ghost predicate PlainNames(s: State)
  {
    && (forall k | k in s.failures :: PlainFailure(s.failures[k]))
    && (forall k | k in s.slowPulls :: PlainSlow(s.slowPulls[k]))
    && (forall id | id in s.armed :: PlainTimer(s.armed[id]))
    && (forall id | id in s.running :: PlainTimer(s.running[id]))
  }

  lemma CleanedUpPlain(s: State, key: string)
    requires PlainNames(s)
    ensures PlainNames(CleanedUp(s, key))
  {
  }

  lemma WatchedPlain(s: State, key: string, timer: Timer)
    requires PlainNames(s) && PlainTimer(timer)
    ensures PlainNames(Watched(s, key, timer))
  {
  }

  lemma ProcessedOnePlain(r: Rules, s: State, at: int, pod: Pod, status: Status)
    requires PlainNames(s) && Plain(pod.namespace) && Plain(pod.name) && status.name != ""
    ensures PlainNames(ProcessedOne(r, s, at, pod, status))
  {
    var key := Key(pod.namespace, pod.name, status.name);
    if r.failing(status) {
      var f := FailureOf(r, s, pod, status);
      assert PlainFailure(f);
      CleanedUpPlain(s.(failures := s.failures[key := f]), key);
    } else {
      var cleared := s.(failures := s.failures - {key});
      CleanedUpPlain(cleared, key);
      WatchedPlain(cleared, key, Timer(pod.namespace, pod.name, status.name, status.image, pod.node, at));
    }
  }

  lemma {:induction false} ProcessedAllPlain(r: Rules, s: State, at: int, pod: Pod, statuses: seq<Status>)
    requires PlainNames(s) && Plain(pod.namespace) && Plain(pod.name) && forall x | x in statuses :: x.name != ""
    ensures PlainNames(ProcessedAll(r, s, at, pod, statuses))
  {
    if statuses != [] {
      var n := |statuses| - 1;
      ProcessedAllPlain(r, s, at, pod, statuses[..n]);
      ProcessedOnePlain(r, ProcessedAll(r, s, at, pod, statuses[..n]), at, pod, statuses[n]);
    }
  }

  predicate PlainChange(e: Event)
  {
    e.Change? && e.obj.PodObject? ==> PlainPod(e.obj.pod)
  }

  lemma FiredPlain(r: Rules, s: State, at: int, id: nat, read: Option<Pod>)
    requires PlainNames(s) && id in s.running
    ensures PlainNames(Fired(r, s, at, id, read))
  {
    assert PlainSlow(SlowOf(r, s.running[id], at));
  }

  lemma StepKeepsPlain(r: Rules, s: State, e: Event)
    requires PlainNames(s) && CanStep(r, s, e) && PlainChange(e)
    ensures PlainNames(Step(r, s, e))
  {
    match e {
      case Change(at, obj) =>
        if obj.PodObject? {
          ProcessedAllPlain(r, s, at, obj.pod, obj.pod.statuses);
        }
      case Delete(_, obj) =>
      case Expire(_, id) =>
      case Fire(at, id, read) => FiredPlain(r, s, at, id, read);
    }
  }

  lemma {:induction false} RunKeepsPlain(r: Rules, states: seq<State>, events: seq<Event>, i: nat)
    requires Run(r, states, events) && i < |states| && forall e | e in events :: PlainChange(e)
    ensures PlainNames(states[i])
  {
    if i > 0 {
      RunKeepsPlain(r, states, events, i - 1);
      assert CanStep(r, states[i - 1], events[i - 1]) && states[i - 1 + 1] == Step(r, states[i - 1], events[i - 1]);
      assert events[i - 1] in events;
      StepKeepsPlain(r, states[i - 1], events[i - 1]);
    }
  }

  predicate Of(namespace: string, pod: string, n: string, p: string)
  {
    n == namespace && p == pod
  }

  lemma KeysDeleted(s: State, namespace: string, pod: string)
    requires InvKeys(s) && PlainNames(s) && Plain(namespace) && Plain(pod)
    ensures forall k | k in s.failures ::
              Under(namespace, pod, k) <==> Of(namespace, pod, s.failures[k].namespace, s.failures[k].pod)
    ensures forall k | k in s.slowPulls ::
              Under(namespace, pod, k) <==> Of(namespace, pod, s.slowPulls[k].namespace, s.slowPulls[k].pod)
  {
    forall k | k in s.failures
      ensures Under(namespace, pod, k) <==> Of(namespace, pod, s.failures[k].namespace, s.failures[k].pod)
    {
      UnderIff(namespace, pod, s.failures[k].namespace, s.failures[k].pod, s.failures[k].container);
    }
    forall k | k in s.slowPulls
      ensures Under(namespace, pod, k) <==> Of(namespace, pod, s.slowPulls[k].namespace, s.slowPulls[k].pod)
    {
      UnderIff(namespace, pod, s.slowPulls[k].namespace, s.slowPulls[k].pod, s.slowPulls[k].container);
    }
  }

  lemma TimerDeleted(s: State, namespace: string, pod: string, id: nat)
    requires TimersKnown(s) && PlainNames(s) && Plain(namespace) && Plain(pod) && id in s.armed
    requires TimerKey(s.armed[id]) in s.slowTimers && s.slowTimers[TimerKey(s.armed[id])] == id
    ensures id in Deleted(s, namespace, pod).armed <==> !Of(namespace, pod, s.armed[id].namespace, s.armed[id].pod)
  {
    var timer := s.armed[id];
    UnderIff(namespace, pod, timer.namespace, timer.pod, timer.container);
    forall k | k in s.slowTimers && s.slowTimers[k] == id
      ensures k == TimerKey(timer)
    {
      assert Stands(s.armed, id, k) || Stands(s.running, id, k);
    }
  }

  /**
    At any point of a run, deleting a pod removes its failures and slow pulls, and no other pod's. Its
    timers are stopped and no others, unless one is no longer found under its key.
   */
  lemma DeleteIsExact(r: Rules, states: seq<State>, events: seq<Event>, i: nat, namespace: string, pod: string)
    requires Run(r, states, events) && i < |states| && (forall e | e in events :: PlainChange(e))
    requires Plain(namespace) && Plain(pod)
    ensures var s, t := states[i], Deleted(states[i], namespace, pod);
            && t.failures == (map k | k in s.failures && !Of(namespace, pod, s.failures[k].namespace, s.failures[k].pod)
                                :: s.failures[k])
            && t.slowPulls == (map k | k in s.slowPulls && !Of(namespace, pod, s.slowPulls[k].namespace, s.slowPulls[k].pod)
                                 :: s.slowPulls[k])
            && t.running == s.running
            && (Registered(s) ==>
                  t.armed == map id | id in s.armed && !Of(namespace, pod, s.armed[id].namespace, s.armed[id].pod)
                               :: s.armed[id])
  {
    var s, t := states[i], Deleted(states[i], namespace, pod);
    RunKeepsWeak(r, states, events, i);
    RunKeepsPlain(r, states, events, i);
    KeysDeleted(s, namespace, pod);
    if Registered(s) {
      forall id | id in s.armed
        ensures id in t.armed <==> !Of(namespace, pod, s.armed[id].namespace, s.armed[id].pod)
      {
        TimerDeleted(s, namespace, pod, id);
      }
    }
  }
}
