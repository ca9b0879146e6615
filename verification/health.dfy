/** The service health monitor: a status map from service name to up/down,
    written by registration and by probe rounds, read by the router. */
module Health {
  import opened Wrappers

  /** Where and how a registered service is probed. */
  datatype Registration = Registration(url: string, headers: map<string, string>)

  datatype Monitor = Monitor(endpoints: map<string, Registration>, status: map<string, bool>)

  /** What one liveness probe observed: an HTTP status code, or an exception
      (connection error, timeout). */
  datatype ProbeOutcome = HttpStatus(code: int) | ProbeRaised

  /** The outcome of each registered service's probe in one refresh round;
      None where the probe produced no result. */
  type ProbeRound = string -> Option<ProbeOutcome>

  /** A new monitor knows no services. */
  function Empty(): Monitor {
    Monitor(map[], map[])
  }

  /** Every service with a status is registered. */
  predicate Valid(m: Monitor) {
    m.status.Keys <= m.endpoints.Keys
  }

  /** `register`: record the probe target (headers default to none) and mark
      the service down until a probe says otherwise. */
  function Register(m: Monitor, name: string, url: string, headers: Option<map<string, string>>): (r: Monitor)
    ensures Valid(m) ==> Valid(r)
    ensures r.endpoints.Keys == m.endpoints.Keys + {name}
    ensures name in r.status && !r.status[name]
    ensures forall n :: n != name ==> (n in r.status <==> n in m.status)
    ensures forall n :: n != name && n in m.status ==> r.status[n] == m.status[n]
    ensures r.endpoints[name] == Registration(url, if headers.Some? then headers.value else map[])
    ensures forall n :: n != name && n in m.endpoints ==> r.endpoints[n] == m.endpoints[n]
  {
    Monitor(m.endpoints[name := Registration(url, headers.GetOr(map[]))], m.status[name := false])
  }

  /** A probe reports up exactly when it got an HTTP status below 400. */
  function Verdict(o: ProbeOutcome): (up: bool)
    ensures up <==> o.HttpStatus? && o.code < 400
  {
    match o
    case HttpStatus(code) => code < 400
    case ProbeRaised => false
  }

  /** The verdicts a probe round collects: one per registered service that produced a result. */
  function Collect(m: Monitor, probe: ProbeRound): (results: map<string, bool>)
    ensures results.Keys <= m.endpoints.Keys
    ensures forall n :: n in m.endpoints && probe(n).Some? ==> n in results
  {
    map n | n in m.endpoints && probe(n).Some? :: Verdict(probe(n).value)
  }

  /** `refresh`: merge the round's verdicts into the status map and return a copy of it. */
  function Refresh(m: Monitor, probe: ProbeRound): (r: (Monitor, map<string, bool>))
    ensures r.0.endpoints == m.endpoints
    ensures r.1 == r.0.status
    ensures forall n :: n in m.endpoints && probe(n).Some? ==>
              n in r.0.status && r.0.status[n] == Verdict(probe(n).value)
    ensures forall n :: !(n in m.endpoints && probe(n).Some?) ==>
              (n in r.0.status <==> n in m.status) && (n in m.status ==> r.0.status[n] == m.status[n])
  {
    var merged := m.status + Collect(m, probe);
    (Monitor(m.endpoints, merged), merged)
  }

  /** `is_up`: the recorded status, down for any name without one. */
  predicate IsUp(m: Monitor, service: string) {
    service in m.status && m.status[service]
  }

  /** `get_all`: a copy of the status map. */
  function GetAll(m: Monitor): map<string, bool> {
    m.status
  }

  /** After a refresh a registered service whose probe produced a result is
      up exactly when that probe's verdict is up; every other name keeps
      its previous status. */
  lemma RefreshStatus(m: Monitor, probe: ProbeRound, n: string)
    ensures var m' := Refresh(m, probe).0;
            if n in m.endpoints && probe(n).Some?
            then IsUp(m', n) == Verdict(probe(n).value)
            else IsUp(m', n) == IsUp(m, n)
  {
  }

  /** Refreshing keeps the monitor well formed. */
  lemma RefreshValid(m: Monitor, probe: ProbeRound)
    requires Valid(m)
    ensures Valid(Refresh(m, probe).0)
  {
  }

  /** A second refresh with the same probe answers changes nothing further. */
  lemma RefreshIdempotent(m: Monitor, probe: ProbeRound)
    ensures var m1 := Refresh(m, probe).0;
            Refresh(m1, probe).0 == m1
  {
    var m1 := Refresh(m, probe).0;
    assert Collect(m1, probe) == Collect(m, probe);
    assert m1.status + Collect(m, probe) == m1.status;
  }

  /** A name never registered is reported down, however often the monitor
      was refreshed. */
  lemma UnknownIsDown(m: Monitor, service: string)
    requires Valid(m) && service !in m.endpoints
    ensures !IsUp(m, service)
  {
  }

  /** Registering a service (again) reports it down until the next probe
      round, and leaves every other service's report alone. */
  lemma RegisterReportsDown(m: Monitor, name: string, url: string, headers: Option<map<string, string>>, other: string)
    ensures !IsUp(Register(m, name, url, headers), name)
    ensures other != name ==> IsUp(Register(m, name, url, headers), other) == IsUp(m, other)
  {
  }
}
