/**
  The configuration reloader: relevant file events are debounced, and the file is read when they have
  been quiet for the debounce. Time goes in ticks; within a tick the timer fires before events come in.
 */
module Reloader {
  import opened Wrappers

  // ---------- Events ----------

  datatype FileEvent = FileEvent(path: string, write: bool, create: bool, remove: bool)

  /** The path functions of the platform. */
  datatype Paths = Paths(clean: string -> string, base: string -> string)

  /** An event on the file itself or on the symlink that a mounted ConfigMap swaps. */
  predicate Relevant(p: Paths, configPath: string, e: FileEvent)
  {
    var path := p.clean(e.path);
    && (path == p.clean(configPath) || p.base(path) == p.base(configPath) || p.base(path) == "..data")
    && (e.write || e.create || e.remove)
  }

  /**
    What is written, created or removed matters when it is the file, has the file's name or is the "..data"
    symlink of a mounted ConfigMap; no other path matters, and nothing else that happens to one.
   */
  lemma RelevantIff(p: Paths, configPath: string, e: FileEvent)
    ensures p.clean(e.path) == p.clean(configPath) ==> (Relevant(p, configPath, e) <==> e.write || e.create || e.remove)
    ensures p.base(p.clean(e.path)) == p.base(configPath) ==>
              (Relevant(p, configPath, e) <==> e.write || e.create || e.remove)
    ensures p.base(p.clean(e.path)) == ['.', '.', 'd', 'a', 't', 'a'] ==>
              (Relevant(p, configPath, e) <==> e.write || e.create || e.remove)
    ensures && p.clean(e.path) != p.clean(configPath)
            && p.base(p.clean(e.path)) !in [p.base(configPath), ['.', '.', 'd', 'a', 't', 'a']] ==>
              !Relevant(p, configPath, e)
  {
    assert "..data" == ['.', '.', 'd', 'a', 't', 'a'];
  }

  // ---------- What should happen ----------

  /** What there is to see at each tick: the events, and then the file, if it can be read. */
  datatype Tick = Tick(events: seq<FileEvent>, file: Option<string>)

  /** `stop` is when Stop is called, before anything else that happens in its tick. */
  datatype World = World(paths: Paths, configPath: string, debounce: nat, ticks: seq<Tick>, stop: Option<nat>)

  predicate Up(w: World, t: int)
  {
    w.stop.Some? ==> t < w.stop.value
  }

  predicate RelevantAt(w: World, t: int)
  {
    0 <= t < |w.ticks| && exists e | e in w.ticks[t].events :: Relevant(w.paths, w.configPath, e)
  }

  predicate Quiet(w: World, after: int, before: int)
  {
    forall t | after < t < before :: !RelevantAt(w, t)
  }

  /** A reload at t: something relevant one debounce before, nothing since, and no Stop. */
  predicate FiresAt(w: World, t: int)
  {
    RelevantAt(w, t - w.debounce) && Quiet(w, t - w.debounce, t) && Up(w, t)
  }

  /** What is passed to the callback up to a tick: the file as it is whenever a reload fires and can read it. */
  function Delivered(w: World, n: nat): seq<(nat, string)>
    requires n <= |w.ticks|
  {
    if n == 0 then []
    else
      var t := n - 1;
      Delivered(w, t)
      + if FiresAt(w, t) && w.ticks[t].file.Some? then [(t, w.ticks[t].file.value)] else []
  }

  /** A timer that is pending at a tick belongs to the last relevant event, unless it has fired. */
  predicate Pending(w: World, timer: Option<int>, now: int)
  {
    if timer.Some? && timer.value >= now then
      var at := timer.value - w.debounce;
      RelevantAt(w, at) && Quiet(w, at, now) && at < now
    else Quiet(w, now - w.debounce - 1, now)
  }

  lemma StaysPending(w: World, timer: Option<int>, now: nat)
    requires w.debounce > 0 && now < |w.ticks| && Pending(w, timer, now)
    ensures timer == Some(now) <==> RelevantAt(w, now - w.debounce) && Quiet(w, now - w.debounce, now)
    ensures Pending(w, if RelevantAt(w, now) then Some(now + w.debounce) else timer, now + 1)
  {
  }

  // ---------- The reloader ----------

  class Reloader {
    const paths: Paths
    const configPath: string
    const debounce: nat
    var timer: Option<int>              // when the timer fires
    var delivered: seq<(nat, string)>   // what the callback was given, and when

    constructor (paths: Paths, configPath: string, debounce: nat)
      ensures this.paths == paths && this.configPath == configPath && this.debounce == debounce
      ensures timer == None && delivered == []
    {
      this.paths, this.configPath, this.debounce := paths, configPath, debounce;
      timer, delivered := None, [];
    }

    /** The watch loop's filter. */
    method HandleEvent(now: nat, e: FileEvent)
      modifies this`timer
      ensures timer == if Relevant(paths, configPath, e) then Some(now + debounce) else old(timer)
    {
      var eventPath := paths.clean(e.path);
      var isConfigFile := eventPath == paths.clean(configPath) || paths.base(eventPath) == paths.base(configPath);
      var isDataSymlink := paths.base(eventPath) == "..data";
      if !isConfigFile && !isDataSymlink {
        return;
      }
      if e.write || e.create || e.remove {
        ScheduleReload(now);
      }
    }

    /** The pending timer is stopped and a new one started. */
    method ScheduleReload(now: nat)
      modifies this`timer
      ensures timer == Some(now + debounce)
    {
      timer := Some(now + debounce);
    }

    method Reload(now: nat, file: Option<string>)
      modifies this`delivered
      ensures delivered == old(delivered) + if file.Some? then [(now, file.value)] else []
    {
      if file.Some? {
        delivered := delivered + [(now, file.value)];
      }
    }

    /** The watch loop ends and a pending timer is stopped. */
    method Stop()
      modifies this`timer
      ensures timer == None
    {
      timer := None;
    }

    /** The events of one tick. */
    method HandleEvents(now: nat, events: seq<FileEvent>)
      modifies this`timer
      ensures timer == if exists e | e in events :: Relevant(paths, configPath, e) then Some(now + debounce)
                       else old(timer)
    {
      for i := 0 to |events|
        invariant timer == if exists e | e in events[..i] :: Relevant(paths, configPath, e) then Some(now + debounce)
                           else old(timer)
      {
        assert events[..i + 1] == events[..i] + [events[i]];
        HandleEvent(now, events[i]);
      }
      assert events[..|events|] == events;
    }

    /** The whole watch: the callback gets the file exactly when a reload should fire. */
    method Watch(w: World)
      requires w.paths == paths && w.configPath == configPath && w.debounce == debounce > 0
      requires timer == None && delivered == []
      modifies this
      ensures delivered == Delivered(w, |w.ticks|)
    {
      for now := 0 to |w.ticks|
        invariant Pending(w, timer, now) && delivered == Delivered(w, now) && Up(w, now - 1)
      {
        StaysPending(w, timer, now);
        if w.stop == Some(now) {
          Stop();
          NothingMore(w, now, |w.ticks|);
          return;
        }
        if timer == Some(now) {
          Reload(now, w.ticks[now].file);
        }
        HandleEvents(now, w.ticks[now].events);
      }
    }
  }

  // ---------- What that means ----------

  /** Reloads are at least a debounce apart: a burst of events makes one. */
  lemma ReloadsAreApart(w: World, s: int, t: int)
    requires w.debounce > 0 && FiresAt(w, s) && FiresAt(w, t) && s < t
    ensures t - s >= w.debounce
  {
  }

  /** Something relevant happens within less than a debounce. */
  predicate GoesOn(w: World, t: int)
  {
    !Quiet(w, t, t + w.debounce)
  }

  /** While events keep coming closer together than the debounce, nothing is reloaded until the last has passed. */
  lemma BurstMakesOne(w: World, a: int, b: int, t: int)
    requires w.debounce > 0 && a <= b && RelevantAt(w, a) && RelevantAt(w, b) && Quiet(w, b, b + w.debounce)
    requires forall s | a <= s < b :: GoesOn(w, s)
    requires a <= t - w.debounce && t <= b + w.debounce
    ensures FiresAt(w, t) <==> t == b + w.debounce && Up(w, t)
  {
    assert t - w.debounce < b ==> GoesOn(w, t - w.debounce);
  }

  lemma {:induction false} NothingMore(w: World, m: nat, n: nat)
    requires m <= n <= |w.ticks| && forall t | m <= t < n :: !FiresAt(w, t)
    ensures Delivered(w, n) == Delivered(w, m)
  {
    if m < n {
      NothingMore(w, m, n - 1);
    }
  }

  predicate ChangeSeen(w: World, t: int)
  {
    0 < t < |w.ticks| && w.ticks[t].file != w.ticks[t - 1].file ==> RelevantAt(w, t)
  }

  /** The file changes only at ticks with a relevant event. */
  ghost predicate ChangesAreSeen(w: World)
  {
    forall t :: ChangeSeen(w, t)
  }

  lemma {:induction false} SameFile(w: World, s: nat, t: nat)
    requires ChangesAreSeen(w) && s <= t < |w.ticks| && Quiet(w, s, t + 1)
    ensures w.ticks[t].file == w.ticks[s].file
  {
    if s < t {
      SameFile(w, s, t - 1);
      assert ChangeSeen(w, t) && !RelevantAt(w, t);
    }
  }

  /** A run that ends in a quiet debounce, and is not stopped in it, has passed the file as it is at the end to the callback, last of all. */
  lemma FinalFileDelivered(w: World, last: nat)
    requires w.debounce > 0 && ChangesAreSeen(w)
    requires RelevantAt(w, last) && last + w.debounce < |w.ticks| && Quiet(w, last, |w.ticks|)
    requires w.ticks[|w.ticks| - 1].file.Some? && Up(w, last + w.debounce)
    ensures var d := Delivered(w, |w.ticks|);
            d != [] && d[|d| - 1] == (last + w.debounce, w.ticks[|w.ticks| - 1].file.value)
  {
    var t := last + w.debounce;
    SameFile(w, last, |w.ticks| - 1);
    SameFile(w, last, t);
    assert FiresAt(w, t);
    NothingMore(w, t + 1, |w.ticks|);
  }
}
