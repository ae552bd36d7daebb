/** The API gateway's registry of back-end services: where each one lives
    and whether it is healthy, judged by a counter of consecutive failed
    health checks. The clock is a `now` parameter in whole seconds and the
    HTTP probe of `/health` is a boolean argument (true when it answered 200). */
module ServiceRegistries {

  datatype ServiceInfo = ServiceInfo(name: string, host: string, port: int, isHealthy: bool,
                                     lastCheck: int, consecutiveFailures: int)

  datatype Registry = Registry(services: map<string, ServiceInfo>, maxFailures: int)

  const DefaultMaxFailures: int := 3
  /** A cached health flag is trusted for this many seconds. */
  const HealthCacheSeconds: int := 30

  /** A value-initialised ServiceInfo: empty strings, zero numbers, not healthy. */
  const BlankInfo: ServiceInfo := ServiceInfo("", "", 0, false, 0, 0)

  function NewRegistry(maxFailures: int := DefaultMaxFailures): (r: Registry)
    ensures r.services == map[] && r.maxFailures == maxFailures
  {
    Registry(map[], maxFailures)
  }

  /** registerService: a fresh healthy entry with no failures, replacing
      any entry of the same name. */
  function RegisterService(reg: Registry, name: string, host: string, port: int, now: int): (r: Registry)
    ensures r.services.Keys == reg.services.Keys + {name}
    ensures r.services[name].isHealthy && r.services[name].consecutiveFailures == 0
    ensures r.services[name].host == host && r.services[name].port == port && r.services[name].name == name
    ensures forall k :: k in reg.services && k != name ==> r.services[k] == reg.services[k]
    ensures r.maxFailures == reg.maxFailures
  {
    reg.(services := reg.services[name := ServiceInfo(name, host, port, true, now, 0)])
  }

  /** markServiceHealthy: clears the failure count; unknown names change nothing. */
  function MarkHealthy(reg: Registry, name: string, now: int): (r: Registry)
    ensures name !in reg.services ==> r == reg
    ensures r.services.Keys == reg.services.Keys && r.maxFailures == reg.maxFailures
    ensures name in reg.services ==> r.services[name].isHealthy && r.services[name].consecutiveFailures == 0
    ensures forall k :: k in reg.services && k != name ==> r.services[k] == reg.services[k]
  {
    if name in reg.services then
      var info := reg.services[name];
      reg.(services := reg.services[name := info.(isHealthy := true, consecutiveFailures := 0, lastCheck := now)])
    else reg
  }

  /** markServiceUnhealthy: one more failure; the flag drops once the count
      reaches the maximum, and is never raised here. */
  function MarkUnhealthy(reg: Registry, name: string, now: int): (r: Registry)
    ensures name !in reg.services ==> r == reg
    ensures r.services.Keys == reg.services.Keys && r.maxFailures == reg.maxFailures
    ensures name in reg.services ==>
              var before, after := reg.services[name], r.services[name];
              after.consecutiveFailures == before.consecutiveFailures + 1 &&
              (after.isHealthy ==> before.isHealthy) &&
              (after.isHealthy <==> before.isHealthy && after.consecutiveFailures < reg.maxFailures)
    ensures forall k :: k in reg.services && k != name ==> r.services[k] == reg.services[k]
  {
    if name in reg.services then
      var info := reg.services[name];
      var failures := info.consecutiveFailures + 1;
      reg.(services := reg.services[name := info.(consecutiveFailures := failures, lastCheck := now,
                                                   isHealthy := info.isHealthy && failures < reg.maxFailures)])
    else reg
  }

  /** checkServiceHealth: the probe's verdict, bookkept as one of the two
      marks above; an unknown name is reported unhealthy and changes nothing. */
  function CheckServiceHealth(reg: Registry, name: string, probeOk: bool, now: int): (r: (bool, Registry))
    ensures r.0 <==> name in reg.services && probeOk
  {
    if name !in reg.services then (false, reg)
    else if probeOk then
      var info := reg.services[name];
      (true, reg.(services := reg.services[name := info.(isHealthy := true, consecutiveFailures := 0, lastCheck := now)]))
    else
      var info := reg.services[name];
      var failures := info.consecutiveFailures + 1;
      var updated := info.(consecutiveFailures := failures);
      var flagged := if failures >= reg.maxFailures then updated.(isHealthy := false) else updated;
      (false, reg.(services := reg.services[name := flagged.(lastCheck := now)]))
  }

  /** The probe's bookkeeping is exactly markServiceHealthy on success and
      markServiceUnhealthy on failure. */
  lemma CheckMatchesMarks(reg: Registry, name: string, probeOk: bool, now: int)
    ensures probeOk ==> CheckServiceHealth(reg, name, probeOk, now).1 == MarkHealthy(reg, name, now)
    ensures !probeOk ==> CheckServiceHealth(reg, name, probeOk, now).1 == MarkUnhealthy(reg, name, now)
  {
  }

  /** isServiceHealthy: unknown names are unhealthy; a flag checked less
      than 30 s ago is answered from the cache; otherwise the service is
      probed, and the answer is the probe's, not the flag's. */
  function IsServiceHealthy(reg: Registry, name: string, probeOk: bool, now: int): (r: (bool, Registry))
    ensures name !in reg.services ==> r == (false, reg)
    ensures name in reg.services && now - reg.services[name].lastCheck < HealthCacheSeconds ==>
              r == (reg.services[name].isHealthy, reg)
    ensures name in reg.services && now - reg.services[name].lastCheck >= HealthCacheSeconds ==>
              r == CheckServiceHealth(reg, name, probeOk, now) && (r.0 <==> probeOk)
  {
    if name !in reg.services then (false, reg)
    else if now - reg.services[name].lastCheck >= HealthCacheSeconds then CheckServiceHealth(reg, name, probeOk, now)
    else (reg.services[name].isHealthy, reg)
  }

  /** A stale entry whose probe fails is reported unhealthy even while its
      stored flag still says healthy (fewer failures than the maximum). */
  lemma StaleProbeOverridesFlag(reg: Registry, name: string, now: int)
    requires name in reg.services && now - reg.services[name].lastCheck >= HealthCacheSeconds
    requires reg.services[name].isHealthy && reg.services[name].consecutiveFailures + 1 < reg.maxFailures
    ensures !IsServiceHealthy(reg, name, false, now).0
    ensures IsServiceHealthy(reg, name, false, now).1.services[name].isHealthy
  {
  }

  /** getService is std::map::operator[]: an unknown name gets a blank
      entry inserted, and that blank is what is returned. */
  function GetService(reg: Registry, name: string): (r: (ServiceInfo, Registry))
    ensures name in reg.services ==> r == (reg.services[name], reg)
    ensures name !in reg.services ==> r.0 == BlankInfo && r.1.services.Keys == reg.services.Keys + {name}
    ensures r.1.maxFailures == reg.maxFailures
  {
    if name in reg.services then (reg.services[name], reg)
    else (BlankInfo, reg.(services := reg.services[name := BlankInfo]))
  }

  /** Looking up an unknown name grows the registry. The inserted entry
      was last checked at the clock's epoch and is unhealthy, so within
      30 s of the epoch it reads as unhealthy whatever the probe would say,
      and after that its health is whatever the probe says. */
  lemma LookupRegistersBlank(reg: Registry, name: string, probeOk: bool, now: int)
    requires name !in reg.services
    ensures |GetService(reg, name).1.services| == |reg.services| + 1
    ensures now < HealthCacheSeconds ==> !IsServiceHealthy(GetService(reg, name).1, name, probeOk, now).0
    ensures now >= HealthCacheSeconds ==> (IsServiceHealthy(GetService(reg, name).1, name, probeOk, now).0 <==> probeOk)
  {
  }

  /** markServiceUnhealthy applied n times. */
  function MarkUnhealthyTimes(reg: Registry, name: string, n: nat, now: int): (r: Registry)
    ensures r.services.Keys == reg.services.Keys && r.maxFailures == reg.maxFailures
    decreases n
  {
    if n == 0 then reg else MarkUnhealthy(MarkUnhealthyTimes(reg, name, n - 1, now), name, now)
  }

  /** After registration, n failed checks in a row leave n failures on
      record, and the service stays healthy exactly while n is below the
      maximum (registration itself always marks it healthy). */
  lemma {:induction false} ConsecutiveFailures(reg: Registry, name: string, host: string, port: int, n: nat, now: int)
    ensures var r := MarkUnhealthyTimes(RegisterService(reg, name, host, port, now), name, n, now);
            r.services[name].consecutiveFailures == n &&
            (r.services[name].isHealthy <==> n == 0 || n < reg.maxFailures)
    decreases n
  {
    var start := RegisterService(reg, name, host, port, now);
    if n > 0 {
      ConsecutiveFailures(reg, name, host, port, n - 1, now);
      var before := MarkUnhealthyTimes(start, name, n - 1, now);
      assert MarkUnhealthyTimes(start, name, n, now) == MarkUnhealthy(before, name, now);
      assert name in before.services;
    }
  }

  /** One successful check undoes any run of failures. */
  lemma RecoveryResets(reg: Registry, name: string, host: string, port: int, n: nat, now: int)
    ensures var r := MarkHealthy(MarkUnhealthyTimes(RegisterService(reg, name, host, port, now), name, n, now), name, now);
            r.services[name].isHealthy && r.services[name].consecutiveFailures == 0
  {
  }
}
