/** The health of a registry from the checks of its addresses: the same pool, another rule. */
module RegistryChecker {
  import opened Wrappers
  import opened Counting
  import opened WorkerPool

  datatype DNSError = NoError | Failed | NoIP

  datatype RegistryHealth = RegistryHealth(resolveOk: bool, ipCount: nat, healthyIPs: nat, unhealthyIPs: nat)

  datatype IPHealth = IPHealth(
    ip: string,
    dnsError: DNSError,
    apiChecked: bool,
    apiOk: bool,
    apiStatus: nat,
    manifestChecked: bool,
    manifestOk: bool,
    manifestStatus: nat)

  /** The answer to a request: a status, or no answer at all. */
  type Answer = Option<nat>

  datatype Outcome = Outcome(api: Answer, manifest: Answer)

  predicate IsRegistryAPIStatus(status: nat)
  {
    200 <= status < 300 || status == 401
  }

  predicate Accepted(answer: Answer, manifest: bool)
  {
    answer.Some? && if manifest then 200 <= answer.value < 300 else IsRegistryAPIStatus(answer.value)
  }

  function Status(answer: Answer): nat
  {
    if answer.Some? then answer.value else 0
  }

  function Write(outcomes: seq<Outcome>, i: nat, k: nat, h: IPHealth): IPHealth
  {
    if i >= |outcomes| then h
    else if k == 0 then
      h.(apiChecked := true, apiOk := Accepted(outcomes[i].api, false), apiStatus := Status(outcomes[i].api))
    else
      h.(manifestChecked := true, manifestOk := Accepted(outcomes[i].manifest, true),
         manifestStatus := Status(outcomes[i].manifest))
  }

  function Unchecked(ip: string): IPHealth
  {
    IPHealth(ip, NoError, false, false, 0, false, false, 0)
  }

  function Checks(ips: seq<string>, outcomes: seq<Outcome>): Job<IPHealth>
  {
    Job(seq(|ips|, i requires 0 <= i < |ips| => Unchecked(ips[i])), 2,
        (i: nat, k: nat, h: IPHealth) => Write(outcomes, i, k, h))
  }

  function Healthy(): IPHealth -> bool
  {
    (h: IPHealth) => h.apiOk && h.manifestOk
  }

  function Passes(): Outcome -> bool
  {
    (o: Outcome) => Accepted(o.api, false) && Accepted(o.manifest, true)
  }

  /**
    The health of a registry: `resolved` is the answer of the lookup, made only when no addresses are
    configured, and `checked` what the checks leave.
   */
  method CheckIPs(configured: seq<string>, resolved: Option<seq<string>>, checked: seq<IPHealth>,
                  ghost outcomes: seq<Outcome>, ghost states: seq<State<IPHealth>>, ghost events: seq<Event>)
    returns (health: RegistryHealth, results: seq<IPHealth>)
    requires var ips := if configured == [] && resolved.Some? then resolved.value else configured;
             |outcomes| == |ips| && Checked(Checks(ips, outcomes), checked, states, events)
    ensures if configured == [] && resolved.None? then
              && health == RegistryHealth(false, 0, 0, 0)
              && results == [Unchecked("").(dnsError := Failed)]
            else if configured == [] && resolved.value == [] then
              && health == RegistryHealth(true, 0, 0, 0)
              && results == [Unchecked("").(dnsError := NoIP)]
            else
              && results == checked
              && health == RegistryHealth(true, |checked|, Count(checked, Healthy()),
                                          |checked| - Count(checked, Healthy()))
  {
    var ips := configured;
    if ips == [] {
      if resolved.None? {
        return RegistryHealth(false, 0, 0, 0), [Unchecked("").(dnsError := Failed)];
      }
      ips := resolved.value;
    }
    if ips == [] {
      return RegistryHealth(true, 0, 0, 0), [Unchecked("").(dnsError := NoIP)];
    }
    results := checked;
    CheckedLength(Checks(ips, outcomes), checked, states, events);
    var healthy, unhealthy := CountHealthy(results);
    health := RegistryHealth(true, |ips|, healthy, unhealthy);
  }

  /** The counting at the end. */
  method CountHealthy(results: seq<IPHealth>) returns (healthy: nat, unhealthy: nat)
    ensures healthy == Count(results, Healthy()) && healthy + unhealthy == |results|
  {
    healthy := 0;
    for i := 0 to |results|
      invariant healthy == Count(results[..i], Healthy())
    {
      assert results[..i + 1][..i] == results[..i];
      if results[i].apiOk && results[i].manifestOk {
        healthy := healthy + 1;
      }
    }
    assert results[..|results|] == results;
    unhealthy := |results| - healthy;
  }

  /** A manifest is accepted with a status of two hundred and something, the API also when it asks for a login. */
  lemma AcceptedStatuses(status: nat)
    ensures Accepted(Some(status), true) <==> status / 100 == 2
    ensures Accepted(Some(status), false) <==> status / 100 == 2 || status == 401
    ensures !Accepted(None, true) && !Accepted(None, false)
  {
  }

  /** What the two requests to an address leave: its status, or 0 without an answer, and whether it was accepted. */
  lemma FinalSays(ips: seq<string>, outcomes: seq<Outcome>, i: nat)
    requires i < |ips| == |outcomes|
    ensures var h, api, manifest := Final(Checks(ips, outcomes), i), outcomes[i].api, outcomes[i].manifest;
            && h.ip == ips[i] && h.dnsError == NoError && h.apiChecked && h.manifestChecked
            && h.apiOk == Accepted(api, false) && h.apiStatus == (if api.Some? then api.value else 0)
            && h.manifestOk == Accepted(manifest, true)
            && h.manifestStatus == (if manifest.Some? then manifest.value else 0)
  {
    var job := Checks(ips, outcomes);
    assert Partial(job, i, 1) == Write(outcomes, i, 0, job.slots[i]);
    assert Partial(job, i, 2) == Write(outcomes, i, 1, Partial(job, i, 1));
  }

  /** A finished pool leaves the results of the addresses it got to, and says of the others that nothing was checked. */
  lemma ResultsSay(ips: seq<string>, outcomes: seq<Outcome>, states: seq<State<IPHealth>>, events: seq<Event>, i: nat)
    requires |ips| == |outcomes| && Run(Checks(ips, outcomes), states, events) && states[|events|].sender.Done?
    requires i < |ips|
    ensures |states[|events|].slots| == |ips|
    ensures var h, api, manifest := states[|events|].slots[i], outcomes[i].api, outcomes[i].manifest;
            if i < states[|events|].next then
              && h.ip == ips[i] && h.dnsError == NoError && h.apiChecked && h.manifestChecked
              && h.apiOk == Accepted(api, false) && h.apiStatus == (if api.Some? then api.value else 0)
              && h.manifestOk == Accepted(manifest, true)
              && h.manifestStatus == (if manifest.Some? then manifest.value else 0)
            else h == IPHealth(ips[i], NoError, false, false, 0, false, false, 0)
  {
    var job, s := Checks(ips, outcomes), states[|events|];
    DoneChecksPrefix(job, states, events, |events|);
    if i < s.next {
      assert s.slots[i] == Sequential(job)[..s.next][i];
      FinalSays(ips, outcomes, i);
    } else {
      assert s.slots[i] == job.slots[s.next..][i - s.next];
    }
  }

  lemma FinalHealth(ips: seq<string>, outcomes: seq<Outcome>, i: nat)
    requires i < |ips| == |outcomes|
    ensures Healthy()(Final(Checks(ips, outcomes), i)) == Passes()(outcomes[i])
  {
    var job := Checks(ips, outcomes);
    assert Partial(job, i, 1) == Write(outcomes, i, 0, job.slots[i]);
    assert Partial(job, i, 2) == Write(outcomes, i, 1, Partial(job, i, 1));
  }

  /** However the pool ends, the healthy addresses are those it got to whose two requests were accepted. */
  lemma HealthyArePassing(ips: seq<string>, outcomes: seq<Outcome>, states: seq<State<IPHealth>>, events: seq<Event>)
    requires |ips| == |outcomes| && Run(Checks(ips, outcomes), states, events) && states[|events|].sender.Done?
    ensures var n := states[|events|].next;
            && n <= |ips|
            && (!states[|events|].cancelled ==> n == |ips|)
            && Count(states[|events|].slots, Healthy()) == Count(outcomes[..n], Passes())
  {
    var job, s := Checks(ips, outcomes), states[|events|];
    DoneChecksPrefix(job, states, events, |events|);
    var done, rest := Sequential(job)[..s.next], job.slots[s.next..];
    CountConcat(done, rest, Healthy());
    forall i | 0 <= i < |done|
      ensures Healthy()(done[i]) == Passes()(outcomes[..s.next][i])
    {
      FinalHealth(ips, outcomes, i);
    }
    CountAs(done, outcomes[..s.next], Healthy(), Passes());
    CountNone(rest, Healthy());
  }
}
