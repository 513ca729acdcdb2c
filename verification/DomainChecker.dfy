/** The health of a domain from the checks of its addresses. */
module DomainChecker {
  import opened Wrappers
  import opened Counting
  import opened WorkerPool

  datatype Checker = Checker(checkHTTP: bool, checkDNS: bool, checkCert: bool)

  datatype IPHealth = IPHealth(
    ip: string,
    dnsChecked: bool,
    dnsOk: bool,
    httpChecked: bool,
    httpOk: bool,
    certChecked: bool,
    certOk: bool)

  datatype DomainHealth = DomainHealth(resolveOk: bool, ipCount: nat, healthyIPs: nat, unhealthyIPs: nat)

  /** What the HTTP and certificate checks of an address come to. */
  datatype Outcome = Outcome(http: bool, cert: bool)

  /** The writes of a check: the HTTP result, then the certificate result, as far as they are enabled. */
  function Write(dc: Checker, outcomes: seq<Outcome>, i: nat, k: nat, h: IPHealth): IPHealth
  {
    if i >= |outcomes| then h
    else if k == 0 then (if dc.checkHTTP then h.(httpChecked := true, httpOk := outcomes[i].http) else h)
    else (if dc.checkCert then h.(certChecked := true, certOk := outcomes[i].cert) else h)
  }

  function Unchecked(ip: string): IPHealth
  {
    IPHealth(ip, true, true, false, false, false, false)
  }

  function Checks(dc: Checker, ips: seq<string>, outcomes: seq<Outcome>): Job<IPHealth>
  {
    Job(seq(|ips|, i requires 0 <= i < |ips| => Unchecked(ips[i])), 2,
        (i: nat, k: nat, h: IPHealth) => Write(dc, outcomes, i, k, h))
  }

  /** All enabled checks passed. */
  function Healthy(dc: Checker): IPHealth -> bool
  {
    (h: IPHealth) => (dc.checkHTTP ==> h.httpOk) && (dc.checkCert ==> h.certOk)
  }

  function Passes(dc: Checker): Outcome -> bool
  {
    (o: Outcome) => (dc.checkHTTP ==> o.http) && (dc.checkCert ==> o.cert)
  }

  /**
    The health of a domain: `resolved` is the answer of the lookup, made only when no addresses are
    configured and something needs them, and `checked` what the checks leave.
   */
  method CheckIPs(dc: Checker, configured: seq<string>, resolved: Option<seq<string>>, checked: seq<IPHealth>,
                  ghost outcomes: seq<Outcome>, ghost states: seq<State<IPHealth>>, ghost events: seq<Event>)
    returns (health: DomainHealth, results: seq<IPHealth>)
    requires var looksUp := configured == [] && (dc.checkDNS || dc.checkHTTP);
             var ips := if looksUp && resolved.Some? then resolved.value else configured;
             |outcomes| == |ips| && Checked(Checks(dc, ips, outcomes), checked, states, events)
    ensures var looksUp := configured == [] && (dc.checkDNS || dc.checkHTTP);
            if looksUp && (resolved.None? || resolved.value == []) then
              && health == DomainHealth(resolved.Some?, 0, 0, 0)
              && results == [IPHealth("", true, false, false, false, false, false)]
            else
              && results == checked
              && health == DomainHealth(true, |checked|, Count(checked, Healthy(dc)),
                                        |checked| - Count(checked, Healthy(dc)))
  {
    var ips := configured;
    if ips == [] && (dc.checkDNS || dc.checkHTTP) {
      if resolved.None? {
        return DomainHealth(false, 0, 0, 0), [IPHealth("", true, false, false, false, false, false)];
      }
      ips := resolved.value;
      if ips == [] {
        return DomainHealth(true, 0, 0, 0), [IPHealth("", true, false, false, false, false, false)];
      }
    }
    results := checked;
    CheckedLength(Checks(dc, ips, outcomes), checked, states, events);
    var healthyCount := 0;
    for i := 0 to |results|
      invariant healthyCount == Count(results[..i], Healthy(dc))
    {
      assert results[..i + 1][..i] == results[..i];
      var isHealthy := true;
      if dc.checkHTTP && !results[i].httpOk {
        isHealthy := false;
      }
      if dc.checkCert && !results[i].certOk {
        isHealthy := false;
      }
      if isHealthy {
        healthyCount := healthyCount + 1;
      }
    }
    assert results[..|results|] == results;
    health := DomainHealth(true, |ips|, healthyCount, |ips| - healthyCount);
  }

  /** What the two checks of an address leave: what each enabled one found, and nothing for one that is not enabled. */
  lemma FinalSays(dc: Checker, ips: seq<string>, outcomes: seq<Outcome>, i: nat)
    requires i < |ips| == |outcomes|
    ensures var h := Final(Checks(dc, ips, outcomes), i);
            && h.ip == ips[i] && h.dnsChecked && h.dnsOk
            && h.httpChecked == dc.checkHTTP && h.httpOk == (dc.checkHTTP && outcomes[i].http)
            && h.certChecked == dc.checkCert && h.certOk == (dc.checkCert && outcomes[i].cert)
  {
    var job := Checks(dc, ips, outcomes);
    assert Partial(job, i, 1) == Write(dc, outcomes, i, 0, job.slots[i]);
    assert Partial(job, i, 2) == Write(dc, outcomes, i, 1, Partial(job, i, 1));
  }

  /** A finished pool leaves the results of the addresses it got to, and says of the others that nothing was checked. */
  lemma ResultsSay(dc: Checker, ips: seq<string>, outcomes: seq<Outcome>, states: seq<State<IPHealth>>,
                   events: seq<Event>, i: nat)
    requires |ips| == |outcomes| && Run(Checks(dc, ips, outcomes), states, events) && states[|events|].sender.Done?
    requires i < |ips|
    ensures |states[|events|].slots| == |ips|
    ensures var h, reached := states[|events|].slots[i], i < states[|events|].next;
            && h.ip == ips[i] && h.dnsChecked && h.dnsOk
            && h.httpChecked == (reached && dc.checkHTTP) && h.httpOk == (reached && dc.checkHTTP && outcomes[i].http)
            && h.certChecked == (reached && dc.checkCert) && h.certOk == (reached && dc.checkCert && outcomes[i].cert)
  {
    var job, s := Checks(dc, ips, outcomes), states[|events|];
    DoneChecksPrefix(job, states, events, |events|);
    if i < s.next {
      assert s.slots[i] == Sequential(job)[..s.next][i];
      FinalSays(dc, ips, outcomes, i);
    } else {
      assert s.slots[i] == job.slots[s.next..][i - s.next];
    }
  }

  lemma FinalHealth(dc: Checker, ips: seq<string>, outcomes: seq<Outcome>, i: nat)
    requires i < |ips| == |outcomes|
    ensures Healthy(dc)(Final(Checks(dc, ips, outcomes), i)) == Passes(dc)(outcomes[i])
  {
    var job := Checks(dc, ips, outcomes);
    assert Partial(job, i, 1) == Write(dc, outcomes, i, 0, job.slots[i]);
    assert Partial(job, i, 2) == Write(dc, outcomes, i, 1, Partial(job, i, 1));
  }

  /** Without cancellation the healthy addresses are those whose enabled checks pass. */
  lemma HealthyArePassing(dc: Checker, ips: seq<string>, outcomes: seq<Outcome>, results: seq<IPHealth>,
                          states: seq<State<IPHealth>>, events: seq<Event>)
    requires |ips| == |outcomes| && Checked(Checks(dc, ips, outcomes), results, states, events)
    requires |ips| > 1 ==> !states[|events|].cancelled
    ensures Count(results, Healthy(dc)) == Count(outcomes, Passes(dc))
  {
    var job := Checks(dc, ips, outcomes);
    if |ips| > 1 {
      PoolIsSequential(job, states, events, |events|);
    }
    forall i | 0 <= i < |results|
      ensures Healthy(dc)(results[i]) == Passes(dc)(outcomes[i])
    {
      FinalHealth(dc, ips, outcomes, i);
    }
    CountAs(results, outcomes, Healthy(dc), Passes(dc));
  }

  /**
    A cancelled pool has checked the addresses up to some index; the others count as unhealthy when
    some check is enabled, and as healthy when none is.
   */
  lemma CancelledCount(dc: Checker, ips: seq<string>, outcomes: seq<Outcome>, states: seq<State<IPHealth>>,
                       events: seq<Event>)
    requires |ips| == |outcomes| && Run(Checks(dc, ips, outcomes), states, events) && states[|events|].sender.Done?
    ensures var n := states[|events|].next;
            && n <= |ips|
            && Count(states[|events|].slots, Healthy(dc))
            == Count(outcomes[..n], Passes(dc)) + (if dc.checkHTTP || dc.checkCert then 0 else |ips| - n)
  {
    var job, s := Checks(dc, ips, outcomes), states[|events|];
    DoneChecksPrefix(job, states, events, |events|);
    var done, rest := Sequential(job)[..s.next], job.slots[s.next..];
    CountConcat(done, rest, Healthy(dc));
    forall i | 0 <= i < |done|
      ensures Healthy(dc)(done[i]) == Passes(dc)(outcomes[..s.next][i])
    {
      FinalHealth(dc, ips, outcomes, i);
    }
    CountAs(done, outcomes[..s.next], Healthy(dc), Passes(dc));
    if dc.checkHTTP || dc.checkCert {
      CountNone(rest, Healthy(dc));
    } else {
      CountAll(rest, Healthy(dc));
    }
  }
}
