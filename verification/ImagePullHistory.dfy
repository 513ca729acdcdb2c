/** What the image pull tracker holds after any history: which pulls are watched, and which are slow. */
module ImagePullHistory {
  import opened Histories
  import opened ImagePull
  import opened ImagePullRuns

  // ---------- What events say about a container ----------

  /** A container of a pod is shown being created, and not failing. */
  predicate Pulling(r: Rules, status: Status)
  {
    r.creating(status) && !r.failing(status)
  }

  predicate IsOf(k: string, pod: Pod, status: Status)
  {
    Key(pod.namespace, pod.name, status.name) == k
  }

  /** Of the statuses of a container in a list the last shows it being created. */
  predicate LastPulls(r: Rules, k: string, pod: Pod, statuses: seq<Status>)
  {
    exists x :: 0 <= x < |statuses| && IsOf(k, pod, statuses[x]) && Pulling(r, statuses[x])
                && forall y | x < y < |statuses| :: IsOf(k, pod, statuses[y]) ==> Pulling(r, statuses[y])
  }

  /** No status shows the container otherwise than being created. */
  predicate NoneStops(r: Rules, k: string, pod: Pod, statuses: seq<Status>)
  {
    forall x | 0 <= x < |statuses| :: IsOf(k, pod, statuses[x]) ==> Pulling(r, statuses[x])
  }

  /** An event after which the container is watched: a pod on a node that shows it being created. */
  predicate Starts(r: Rules, e: Event, k: string)
  {
    e.Change? && e.obj.PodObject? && e.obj.pod.node != "" && LastPulls(r, k, e.obj.pod, e.obj.pod.statuses)
  }

  /** An event that leaves the container alone: no pod on a node shows it otherwise, and its pod is not deleted. */
  predicate Leaves(r: Rules, e: Event, k: string)
  {
    match e
    case Change(_, PodObject(pod)) => pod.node == "" || NoneStops(r, k, pod, pod.statuses)
    case Delete(_, PodObject(pod)) => !Under(pod.namespace, pod.name, k)
    case Delete(_, DeletedFinalStateUnknown(PodObject(pod))) => !Under(pod.namespace, pod.name, k)
    case _ => true
  }

  /** The function of a timer for the container runs. */
  predicate Runs(s: State, e: Event, k: string)
  {
    e.Fire? && e.id in s.running && TimerKey(s.running[e.id]) == k
  }

  /** It reads the pod again, whose first status of the container's name shows it still being created. */
  predicate FindsSlow(r: Rules, s: State, e: Event, k: string)
  {
    Runs(s, e, k) && e.read.Some?
    && var statuses, name := e.read.value.statuses, s.running[e.id].container;
       exists x :: 0 <= x < |statuses| && statuses[x].name == name && r.creating(statuses[x])
                   && forall y | 0 <= y < x :: statuses[y].name != name
  }

  // ---------- One event ----------

  lemma {:induction false} StatusesLeave(r: Rules, s: State, at: int, pod: Pod, statuses: seq<Status>, k: string)
    ensures var t := ProcessedAll(r, s, at, pod, statuses);
            && (k in t.slowPulls <==> k in s.slowPulls && NoneStops(r, k, pod, statuses))
            && (k in t.slowTimers <==>
                  LastPulls(r, k, pod, statuses) || (k in s.slowTimers && NoneStops(r, k, pod, statuses)))
  {
    if statuses != [] {
      var n := |statuses| - 1;
      var init := statuses[..n];
      StatusesLeave(r, s, at, pod, init, k);
      OneStatusLeaves(r, ProcessedAll(r, s, at, pod, init), at, pod, statuses[n], k);
      LastOfMore(r, k, pod, init, statuses[n]);
      assert statuses == init + [statuses[n]];
    }
  }

  lemma OneStatusLeaves(r: Rules, s: State, at: int, pod: Pod, status: Status, k: string)
    ensures var t := ProcessedOne(r, s, at, pod, status);
            if !IsOf(k, pod, status) then
              (k in t.slowPulls <==> k in s.slowPulls) && (k in t.slowTimers <==> k in s.slowTimers)
            else if Pulling(r, status) then (k in t.slowPulls <==> k in s.slowPulls) && k in t.slowTimers
            else k !in t.slowPulls && k !in t.slowTimers
  {
  }

  lemma LastOfMore(r: Rules, k: string, pod: Pod, init: seq<Status>, last: Status)
    ensures NoneStops(r, k, pod, init + [last]) <==> NoneStops(r, k, pod, init) && (IsOf(k, pod, last) ==> Pulling(r, last))
    ensures LastPulls(r, k, pod, init + [last]) <==>
              if IsOf(k, pod, last) then Pulling(r, last) else LastPulls(r, k, pod, init)
  {
    var all, n := init + [last], |init|;
    assert all[n] == last && forall x | 0 <= x < n :: all[x] == init[x];
    if IsOf(k, pod, last) && Pulling(r, last) {
      assert LastPulls(r, k, pod, all);
    }
    if LastPulls(r, k, pod, init) && !IsOf(k, pod, last) {
      var x :| 0 <= x < n && IsOf(k, pod, init[x]) && Pulling(r, init[x])
               && forall y | x < y < n :: IsOf(k, pod, init[y]) ==> Pulling(r, init[y]);
      assert IsOf(k, pod, all[x]) && Pulling(r, all[x]);
      assert forall y | x < y < |all| :: IsOf(k, pod, all[y]) ==> Pulling(r, all[y]);
    }
  }

  lemma {:induction false} FirstStatusIs(statuses: seq<Status>, name: string)
    ensures match FirstStatus(statuses, name)
            case None => forall x | 0 <= x < |statuses| :: statuses[x].name != name
            case Some(status) =>
              exists x :: 0 <= x < |statuses| && statuses[x] == status && status.name == name
                          && forall y | 0 <= y < x :: statuses[y].name != name
  {
    if statuses != [] && statuses[0].name != name {
      FirstStatusIs(statuses[1..], name);
      if FirstStatus(statuses[1..], name).Some? {
        var status := FirstStatus(statuses[1..], name).value;
        var x :| 0 <= x < |statuses[1..]| && statuses[1..][x] == status && status.name == name
                 && forall y | 0 <= y < x :: statuses[1..][y].name != name;
        assert statuses[x + 1] == status;
        assert forall y | 0 <= y < x + 1 :: statuses[y].name != name by {
          assert forall y | 1 <= y < x + 1 :: statuses[y] == statuses[1..][y - 1];
        }
      } else {
        assert forall x | 1 <= x < |statuses| :: statuses[x] == statuses[1..][x - 1];
      }
    }
  }

  lemma FireFinds(r: Rules, s: State, e: Event, k: string)
    requires e.Fire? && CanStep(r, s, e) && Runs(s, e, k)
    ensures StillCreating(r, s.running[e.id].container, e.read) <==> FindsSlow(r, s, e, k)
  {
    if e.read.Some? {
      FirstStatusIs(e.read.value.statuses, s.running[e.id].container);
    }
  }

  /** Which keys have a slow pull and a timer after one event. */
  lemma StepLeaves(r: Rules, s: State, e: Event, k: string)
    requires CanStep(r, s, e)
    ensures k in Step(r, s, e).slowPulls <==> FindsSlow(r, s, e, k) || (k in s.slowPulls && Leaves(r, e, k))
    ensures k in Step(r, s, e).slowTimers <==> Starts(r, e, k) || (k in s.slowTimers && Leaves(r, e, k) && !Runs(s, e, k))
  {
    match e
    case Change(at, obj) =>
      if obj.PodObject? {
        StatusesLeave(r, s, at, obj.pod, obj.pod.statuses, k);
      }
    case Fire(at, id, read) =>
      if Runs(s, e, k) {
        FireFinds(r, s, e, k);
      }
    case _ =>
  }

  // ---------- Any history ----------

  /** That the function of a timer for a container finds it still being created in the j-th event of a run. */
  ghost function FindsSlowIn(r: Rules, states: seq<State>, events: seq<Event>, k: string): int -> bool
  {
    j => 0 <= j < |events| && j < |states| && FindsSlow(r, states[j], events[j], k)
  }

  /** That the j-th event leaves the container alone. */
  ghost function LeavesIn(r: Rules, events: seq<Event>, k: string): int -> bool
  {
    j => 0 <= j < |events| && Leaves(r, events[j], k)
  }

  ghost function StartsIn(r: Rules, events: seq<Event>, k: string): int -> bool
  {
    j => 0 <= j < |events| && Starts(r, events[j], k)
  }

  /** That the j-th event leaves the container alone and is not the function of a timer for it. */
  ghost function LeavesWatchIn(r: Rules, states: seq<State>, events: seq<Event>, k: string): int -> bool
  {
    j => 0 <= j < |events| && j < |states| && Leaves(r, events[j], k) && !Runs(states[j], events[j], k)
  }

  /** What the j-th event of a run does to a slow pull. */
  ghost predicate SlowChanges(r: Rules, states: seq<State>, events: seq<Event>, k: string, j: int)
    requires |states| == |events| + 1 && 0 <= j < |events|
  {
    k in states[j + 1].slowPulls <==>
      FindsSlow(r, states[j], events[j], k) || (k in states[j].slowPulls && Leaves(r, events[j], k))
  }

  /** What it does to the watch on a container. */
  ghost predicate WatchChanges(r: Rules, states: seq<State>, events: seq<Event>, k: string, j: int)
    requires |states| == |events| + 1 && 0 <= j < |events|
  {
    k in states[j + 1].slowTimers <==>
      || Starts(r, events[j], k)
      || (k in states[j].slowTimers && Leaves(r, events[j], k) && !Runs(states[j], events[j], k))
  }

  lemma EventLeaves(r: Rules, states: seq<State>, events: seq<Event>, k: string, j: nat)
    requires Run(r, states, events) && j < |events|
    ensures SlowChanges(r, states, events, k, j) && WatchChanges(r, states, events, k, j)
  {
    assert CanStep(r, states[j], events[j]) && states[j + 1] == Step(r, states[j], events[j]);
    StepLeaves(r, states[j], events[j], k);
  }

  lemma SlowSince(r: Rules, states: seq<State>, events: seq<Event>, i: nat, k: string)
    requires |states| == |events| + 1 && i < |states| && k !in states[0].slowPulls
    requires forall j | 0 <= j < |events| :: SlowChanges(r, states, events, k, j)
    ensures k in states[i].slowPulls <==> Since(i, FindsSlowIn(r, states, events, k), LeavesIn(r, events, k))
  {
    var slow := j => 0 <= j < |states| && k in states[j].slowPulls;
    forall j | 0 <= j < i
      ensures slow(j + 1) <==> FindsSlowIn(r, states, events, k)(j) || (slow(j) && LeavesIn(r, events, k)(j))
    {
      assert SlowChanges(r, states, events, k, j);
    }
    HoldsSince(i, slow, FindsSlowIn(r, states, events, k), LeavesIn(r, events, k));
  }

  lemma WatchedSince(r: Rules, states: seq<State>, events: seq<Event>, i: nat, k: string)
    requires |states| == |events| + 1 && i < |states| && k !in states[0].slowTimers
    requires forall j | 0 <= j < |events| :: WatchChanges(r, states, events, k, j)
    ensures k in states[i].slowTimers <==> Since(i, StartsIn(r, events, k), LeavesWatchIn(r, states, events, k))
  {
    var watched := j => 0 <= j < |states| && k in states[j].slowTimers;
    forall j | 0 <= j < i
      ensures watched(j + 1) <==>
                StartsIn(r, events, k)(j) || (watched(j) && LeavesWatchIn(r, states, events, k)(j))
    {
      assert WatchChanges(r, states, events, k, j);
    }
    HoldsSince(i, watched, StartsIn(r, events, k), LeavesWatchIn(r, states, events, k));
  }

  /**
    A pull is slow exactly since the function of a timer for it has found it still being created and as
    long as every event leaves it alone.
   */
  lemma SlowIff(r: Rules, states: seq<State>, events: seq<Event>, i: nat, k: string)
    requires Run(r, states, events) && i < |states|
    ensures k in states[i].slowPulls <==> Since(i, FindsSlowIn(r, states, events, k), LeavesIn(r, events, k))
  {
    forall j | 0 <= j < |events|
      ensures SlowChanges(r, states, events, k, j)
    {
      EventLeaves(r, states, events, k, j);
    }
    SlowSince(r, states, events, i, k);
  }

  /**
    A pull is watched exactly since a pod has shown it being created, as long as every event leaves it
    alone and no function of a timer for it runs.
   */
  lemma WatchedIff(r: Rules, states: seq<State>, events: seq<Event>, i: nat, k: string)
    requires Run(r, states, events) && i < |states|
    ensures k in states[i].slowTimers <==> Since(i, StartsIn(r, events, k), LeavesWatchIn(r, states, events, k))
  {
    forall j | 0 <= j < |events|
      ensures WatchChanges(r, states, events, k, j)
    {
      EventLeaves(r, states, events, k, j);
    }
    WatchedSince(r, states, events, i, k);
  }

  // ---------- Each timer once ----------

  /** A timer that was made, and is neither armed nor running. */
  predicate Gone(s: State, id: nat)
  {
    id < s.made && id !in s.armed && id !in s.running
  }

  lemma {:induction false} StatusesKeepGone(r: Rules, s: State, at: int, pod: Pod, statuses: seq<Status>, id: nat)
    requires Gone(s, id)
    ensures Gone(ProcessedAll(r, s, at, pod, statuses), id)
  {
    if statuses != [] {
      StatusesKeepGone(r, s, at, pod, statuses[..|statuses| - 1], id);
    }
  }

  lemma {:induction false} StaysGone(r: Rules, states: seq<State>, events: seq<Event>, i: nat, k: nat, id: nat)
    requires Run(r, states, events) && i <= k < |states| && Gone(states[i], id)
    ensures Gone(states[k], id)
    decreases k
  {
    if i < k {
      StaysGone(r, states, events, i, k - 1, id);
      var s, e := states[k - 1], events[k - 1];
      assert CanStep(r, s, e) && states[k - 1 + 1] == Step(r, s, e);
      if e.Change? && e.obj.PodObject? {
        StatusesKeepGone(r, s, e.at, e.obj.pod, e.obj.pod.statuses, id);
      }
    }
  }

  /** The function of a timer runs at most once, and once it has its time does not come again. */
  lemma RunsOnce(r: Rules, states: seq<State>, events: seq<Event>, i: nat, k: nat)
    requires Run(r, states, events) && i < k < |events| && events[i].Fire?
    ensures events[k].Fire? || events[k].Expire? ==> events[k].id != events[i].id
  {
    RunKeepsWeak(r, states, events, i);
    assert CanStep(r, states[i], events[i]) && states[i + 1] == Step(r, states[i], events[i]);
    assert Gone(states[i + 1], events[i].id);
    StaysGone(r, states, events, i + 1, k, events[i].id);
    assert CanStep(r, states[k], events[k]);
  }
}
