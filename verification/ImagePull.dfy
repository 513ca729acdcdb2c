/**
  The image pull tracker: how pod events and slow-pull timers change its three maps, and what a
  collection emits from them.
 */
module ImagePull {
  import opened Wrappers
  import opened Distinct
  import opened PullReasons

  // ---------- Pods ----------

  datatype Waiting = Waiting(reason: string, message: string)

  datatype Status = Status(name: string, image: string, containerID: string, waiting: Option<Waiting>)

  /** The statuses are those of the init containers and then those of the others. */
  datatype Pod = Pod(namespace: string, name: string, node: string, statuses: seq<Status>)

  /** What a handler is given: a pod, the last known state of a deleted object, or something else. */
  datatype Object = PodObject(pod: Pod) | DeletedFinalStateUnknown(last: Object) | Unrecognized

  /** What the tracker asks about a status, and how long a pull may take. */
  datatype Rules = Rules(
    failing: Status -> bool,
    classify: Status -> Reason,
    registry: string -> string,
    creating: Status -> bool,
    threshold: nat)

  /** The questions as the source answers them. */
  function SourceRules(p: Patterns, threshold: nat): Rules
  {
    Rules(
      (s: Status) => s.waiting.Some? && IsImagePullFailure(s.waiting.value.reason) && IsPublicRegistry(s.image),
      (s: Status) => if s.waiting.Some? then Classify(p, s.waiting.value.reason, s.waiting.value.message) else Unknown,
      ParseRegistry,
      (s: Status) => s.containerID == "" && s.waiting.Some? && s.waiting.value.reason == "ContainerCreating"
                     && !IsBackOffPullingImage(s.waiting.value.reason, s.waiting.value.message),
      threshold)
  }

  /** What fails is a wait of one of seven kinds for a public image; what is being created waits for nothing else. */
  lemma SourceRulesSay(p: Patterns, threshold: nat, s: Status)
    ensures SourceRules(p, threshold).failing(s) <==>
              && s.waiting.Some? && IsPublicRegistry(s.image)
              && s.waiting.value.reason in ["ErrImagePull", "ImagePullBackOff", "Cancelled", "RegistryUnavailable",
                                            "InvalidImageName", "ImageInspectError", "ErrImageNeverPull"]
    ensures SourceRules(p, threshold).creating(s) <==>
              && s.containerID == "" && s.waiting.Some? && s.waiting.value.reason == "ContainerCreating"
              && !Contains(ToLower(s.waiting.value.message), "back-off pulling image")
    ensures s.waiting.Some? ==>
              SourceRules(p, threshold).classify(s) == Classify(p, s.waiting.value.reason, s.waiting.value.message)
    ensures SourceRules(p, threshold).registry(s.image) == ParseRegistry(s.image)
    ensures SourceRules(p, threshold).threshold == threshold
  {
    if s.waiting.Some? && s.waiting.value.reason == "ContainerCreating" {
      assert |ToLower("ContainerCreating")| != |"imagepullbackoff"|;
    }
  }

  // ---------- State ----------

  datatype Failure = Failure(
    namespace: string, pod: string, container: string, image: string, node: string, registry: string, reason: Reason)

  datatype Slow = Slow(
    namespace: string, pod: string, container: string, image: string, node: string, registry: string, startedAt: int)

  /** What a timer's function was made with, and when. */
  datatype Timer = Timer(namespace: string, pod: string, container: string, image: string, node: string, setAt: int)

  /**
    Timers by number: those armed can still be stopped, while the functions of those running have begun
    and wait for the lock. `slowTimers` has the number of the timer that a key stands for.
   */
  datatype State = State(
    failures: map<string, Failure>,
    slowPulls: map<string, Slow>,
    slowTimers: map<string, nat>,
    armed: map<nat, Timer>,
    running: map<nat, Timer>,
    made: nat)

  const INITIAL := State(map[], map[], map[], map[], map[], 0)

  function Key(namespace: string, pod: string, container: string): string
  {
    namespace + ['/'] + pod + ['/'] + container
  }

  function TimerKey(t: Timer): string
  {
    Key(t.namespace, t.pod, t.container)
  }

  // ---------- Steps ----------

  /** Stopping a timer whose function has begun does nothing. */
  function CleanedUp(s: State, key: string): State
  {
    s.(slowPulls := s.slowPulls - {key},
       armed := if key in s.slowTimers then s.armed - {s.slowTimers[key]} else s.armed,
       slowTimers := s.slowTimers - {key})
  }

  function Watched(s: State, key: string, timer: Timer): State
  {
    if key in s.slowTimers then s
    else s.(slowTimers := s.slowTimers[key := s.made], armed := s.armed[s.made := timer], made := s.made + 1)
  }

  /** The reason to store: backoff gives way to what is known about the same pull. */
  function ReasonFor(r: Rules, s: State, key: string, node: string, status: Status): Reason
  {
    if key in s.failures && s.failures[key].node == node && s.failures[key].image == status.image
       && s.failures[key].registry == r.registry(status.image) then
      Stored(s.failures[key].reason, r.classify(status))
    else r.classify(status)
  }

  function FailureOf(r: Rules, s: State, pod: Pod, status: Status): Failure
  {
    Failure(pod.namespace, pod.name, status.name, status.image, pod.node, r.registry(status.image),
            ReasonFor(r, s, Key(pod.namespace, pod.name, status.name), pod.node, status))
  }

  function ProcessedOne(r: Rules, s: State, at: int, pod: Pod, status: Status): State
  {
    var key := Key(pod.namespace, pod.name, status.name);
    if r.failing(status) then
      CleanedUp(s.(failures := s.failures[key := FailureOf(r, s, pod, status)]), key)
    else
      var cleared := s.(failures := s.failures - {key});
      if r.creating(status) then
        Watched(cleared, key, Timer(pod.namespace, pod.name, status.name, status.image, pod.node, at))
      else CleanedUp(cleared, key)
  }

  function ProcessedAll(r: Rules, s: State, at: int, pod: Pod, statuses: seq<Status>): State
  {
    if statuses == [] then s
    else
      var n := |statuses| - 1;
      ProcessedOne(r, ProcessedAll(r, s, at, pod, statuses[..n]), at, pod, statuses[n])
  }

  function Processed(r: Rules, s: State, at: int, pod: Pod): State
  {
    if pod.node == "" then s else ProcessedAll(r, s, at, pod, pod.statuses)
  }

  function Changed(r: Rules, s: State, at: int, obj: Object): State
  {
    if obj.PodObject? then Processed(r, s, at, obj.pod) else s
  }

  /** The first status of a container, if the pod has one. */
  function FirstStatus(statuses: seq<Status>, container: string): Option<Status>
  {
    if statuses == [] then None
    else if statuses[0].name == container then Some(statuses[0])
    else FirstStatus(statuses[1..], container)
  }

  /** Whether the pod read again shows the container still being created; None when it cannot be read. */
  predicate StillCreating(r: Rules, container: string, read: Option<Pod>)
  {
    read.Some? && match FirstStatus(read.value.statuses, container)
                  case None => false
                  case Some(status) => r.creating(status)
  }

  function SlowOf(r: Rules, timer: Timer, at: int): Slow
  {
    Slow(timer.namespace, timer.pod, timer.container, timer.image, timer.node, r.registry(timer.image), at - r.threshold)
  }

  /** The time of a timer has come: its function begins, and from then on cannot be stopped. */
  function Expired(s: State, id: nat): State
    requires id in s.armed
  {
    s.(armed := s.armed - {id}, running := s.running[id := s.armed[id]])
  }

  /** A timer's function has the lock: it takes out whatever timer its key stands for, and looks at the pod again. */
  function Fired(r: Rules, s: State, at: int, id: nat, read: Option<Pod>): State
    requires id in s.running
  {
    var timer := s.running[id];
    var key := TimerKey(timer);
    var t := s.(running := s.running - {id}, slowTimers := s.slowTimers - {key});
    if StillCreating(r, timer.container, read) then t.(slowPulls := t.slowPulls[key := SlowOf(r, timer, at)]) else t
  }

  predicate Under(namespace: string, pod: string, key: string)
  {
    var prefix := namespace + ['/'] + pod + ['/'];
    |key| > |prefix| && key[..|prefix|] == prefix
  }

  function Deleted(s: State, namespace: string, pod: string): State
  {
    s.(failures := map k | k in s.failures && !Under(namespace, pod, k) :: s.failures[k],
       slowPulls := map k | k in s.slowPulls && !Under(namespace, pod, k) :: s.slowPulls[k],
       armed := s.armed - (set k | k in s.slowTimers && Under(namespace, pod, k) :: s.slowTimers[k]),
       slowTimers := map k | k in s.slowTimers && !Under(namespace, pod, k) :: s.slowTimers[k])
  }

  /** The pod that a deletion is about, given outright or as a last known state. */
  function DeletedPod(obj: Object): Option<Pod>
  {
    match obj
    case PodObject(pod) => Some(pod)
    case DeletedFinalStateUnknown(last) => if last.PodObject? then Some(last.pod) else None
    case Unrecognized => None
  }

  function DeletedObject(s: State, obj: Object): State
  {
    match DeletedPod(obj)
    case Some(pod) => Deleted(s, pod.namespace, pod.name)
    case None => s
  }

  // ---------- What is emitted ----------

  datatype Sample =
    | PullFailures(namespace: string, pod: string, node: string, registry: string, image: string, reason: Reason)
    | PullSlow(namespace: string, pod: string, node: string, registry: string, image: string, seconds: int)

  function FailureSample(f: Failure): Sample
  {
    PullFailures(f.namespace, f.pod, f.node, f.registry, f.image, f.reason)
  }

  function SlowSample(s: Slow, now: int): Sample
  {
    PullSlow(s.namespace, s.pod, s.node, s.registry, s.image, if now < s.startedAt then 0 else now - s.startedAt)
  }

  function FailureSamples(failures: map<string, Failure>, order: seq<string>): seq<Sample>
    requires forall k | k in order :: k in failures
  {
    seq(|order|, i requires 0 <= i < |order| && order[i] in order => FailureSample(failures[order[i]]))
  }

  function SlowSamples(slowPulls: map<string, Slow>, order: seq<string>, now: int): seq<Sample>
    requires forall k | k in order :: k in slowPulls
  {
    seq(|order|, i requires 0 <= i < |order| && order[i] in order => SlowSample(slowPulls[order[i]], now))
  }

  // ---------- The tracker ----------

  class Tracker {
    const rules: Rules
    var failures: map<string, Failure>
    var slowPulls: map<string, Slow>
    var slowTimers: map<string, nat>
    var armed: map<nat, Timer>
    var running: map<nat, Timer>
    var made: nat

    function Now(): State
      reads this
    {
      State(failures, slowPulls, slowTimers, armed, running, made)
    }

    constructor (rules: Rules)
      ensures this.rules == rules && Now() == INITIAL
    {
      this.rules := rules;
      failures, slowPulls, slowTimers, armed, running, made := map[], map[], map[], map[], map[], 0;
    }

    method HandlePodAdd(at: int, obj: Object)
      modifies this
      ensures Now() == Changed(rules, old(Now()), at, obj)
    {
      if obj.PodObject? {
        ProcessPod(at, obj.pod);
      }
    }

    /** Only the new object counts. */
    method HandlePodUpdate(at: int, before: Object, after: Object)
      modifies this
      ensures Now() == Changed(rules, old(Now()), at, after)
    {
      if after.PodObject? {
        ProcessPod(at, after.pod);
      }
    }

    method ProcessPod(at: int, pod: Pod)
      modifies this
      ensures Now() == Processed(rules, old(Now()), at, pod)
    {
      if pod.node == "" {
        return;
      }
      ghost var start := Now();
      for i := 0 to |pod.statuses|
        invariant Now() == ProcessedAll(rules, start, at, pod, pod.statuses[..i])
      {
        assert pod.statuses[..i + 1][..i] == pod.statuses[..i];
        ProcessStatus(at, pod, pod.statuses[i]);
      }
      assert pod.statuses[..|pod.statuses|] == pod.statuses;
    }

    method ProcessStatus(at: int, pod: Pod, status: Status)
      modifies this
      ensures Now() == ProcessedOne(rules, old(Now()), at, pod, status)
    {
      var key := Key(pod.namespace, pod.name, status.name);
      if rules.failing(status) {
        var registry := rules.registry(status.image);
        var reason := rules.classify(status);
        if key in failures && failures[key].node == pod.node && failures[key].image == status.image
           && failures[key].registry == registry && reason == BackOff && IsSpecific(failures[key].reason) {
          reason := failures[key].reason;
        }
        failures := failures[key := Failure(pod.namespace, pod.name, status.name, status.image, pod.node, registry,
                                            reason)];
        CleanupSlowPull(key);
        return;
      }
      failures := failures - {key};
      if rules.creating(status) {
        CheckSlowPull(key, Timer(pod.namespace, pod.name, status.name, status.image, pod.node, at));
      } else {
        CleanupSlowPull(key);
      }
    }

    method CheckSlowPull(key: string, timer: Timer)
      modifies this
      ensures Now() == Watched(old(Now()), key, timer)
    {
      if key in slowTimers {
        return;
      }
      armed := armed[made := timer];
      slowTimers := slowTimers[key := made];
      made := made + 1;
    }

    method CleanupSlowPull(key: string)
      modifies this
      ensures Now() == CleanedUp(old(Now()), key)
    {
      slowPulls := slowPulls - {key};
      if key in slowTimers {
        armed := armed - {slowTimers[key]};
        slowTimers := slowTimers - {key};
      }
    }

    /** What the runtime does when a timer's time has come: it starts the function, which waits for the lock. */
    method Expire(id: nat)
      requires id in armed
      modifies this
      ensures Now() == Expired(old(Now()), id)
    {
      running := running[id := armed[id]];
      armed := armed - {id};
    }

    method HandleSlowPullTimer(at: int, id: nat, read: Option<Pod>)
      requires id in running
      modifies this
      ensures Now() == Fired(rules, old(Now()), at, id, read)
    {
      var timer := running[id];
      var key := TimerKey(timer);
      running := running - {id};
      slowTimers := slowTimers - {key};
      if read.None? {
        return;
      }
      var statuses := read.value.statuses;
      for i := 0 to |statuses|
        invariant FirstStatus(statuses, timer.container) == FirstStatus(statuses[i..], timer.container)
        invariant Now() == old(Now()).(running := running, slowTimers := slowTimers)
        invariant running == old(running) - {id} && slowTimers == old(slowTimers) - {key}
      {
        assert statuses[i..][0] == statuses[i] && statuses[i..][1..] == statuses[i + 1..];
        if statuses[i].name == timer.container {
          if rules.creating(statuses[i]) {
            slowPulls := slowPulls[key := Slow(timer.namespace, timer.pod, timer.container, timer.image, timer.node,
                                               rules.registry(timer.image), at - rules.threshold)];
          }
          return;
        }
      }
    }

    method HandlePodDelete(obj: Object)
      modifies this
      ensures Now() == DeletedObject(old(Now()), obj)
    {
      var pod: Pod;
      match obj {
        case PodObject(p) =>
          pod := p;
        case DeletedFinalStateUnknown(last) =>
          if !last.PodObject? {
            return;
          }
          pod := last.pod;
        case Unrecognized =>
          return;
      }
      failures := Kept(failures, pod.namespace, pod.name);
      slowPulls := Kept(slowPulls, pod.namespace, pod.name);
      armed := StopUnder(slowTimers, armed, pod.namespace, pod.name);
      slowTimers := Kept(slowTimers, pod.namespace, pod.name);
    }

    /** One sample for each failure and each slow pull, the maps being ranged over in no particular order. */
    method Collect(now: int) returns (out: seq<Sample>, ghost fs: seq<string>, ghost ss: seq<string>)
      ensures Lists(fs, failures.Keys) && Lists(ss, slowPulls.Keys)
      ensures out == FailureSamples(failures, fs) + SlowSamples(slowPulls, ss, now)
    {
      var order := AnyOrder(failures.Keys);
      fs := order;
      out := [];
      for i := 0 to |order|
        invariant out == FailureSamples(failures, order[..i])
      {
        out := out + [FailureSample(failures[order[i]])];
      }
      order := AnyOrder(slowPulls.Keys);
      ss := order;
      for i := 0 to |order|
        invariant out == FailureSamples(failures, fs) + SlowSamples(slowPulls, order[..i], now)
      {
        out := out + [SlowSample(slowPulls[order[i]], now)];
      }
    }

    /** Stops the timers under a pod's prefix one by one. */
    static method StopUnder(timers: map<string, nat>, armed: map<nat, Timer>, namespace: string, pod: string)
      returns (left: map<nat, Timer>)
      ensures left == armed - (set k | k in timers && Under(namespace, pod, k) :: timers[k])
    {
      left := armed;
      var done: set<string> := {};
      while done != timers.Keys
        invariant done <= timers.Keys
        invariant left == armed - (set k | k in done && k in timers && Under(namespace, pod, k) :: timers[k])
        decreases timers.Keys - done
      {
        var k :| k in timers && k !in done;
        done := done + {k};
        if Under(namespace, pod, k) {
          left := left - {timers[k]};
        }
      }
    }

    /** The entries of a map that are not under a pod's prefix, the others being deleted one by one. */
    static method Kept<V>(m: map<string, V>, namespace: string, pod: string) returns (kept: map<string, V>)
      ensures kept == map k | k in m && !Under(namespace, pod, k) :: m[k]
    {
      kept := m;
      var todo := m.Keys;
      while todo != {}
        invariant todo <= m.Keys
        invariant kept == map k | k in m && !(k !in todo && Under(namespace, pod, k)) :: m[k]
        decreases |todo|
      {
        var k :| k in todo;
        todo := todo - {k};
        if Under(namespace, pod, k) {
          kept := kept - {k};
        }
      }
    }
  }
}
