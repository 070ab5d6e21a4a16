/** A NAT service that discovers the real one (UPnP or NAT-PMP) lazily: the first
    operation that needs it runs the discovery, once, and every operation after
    that delegates to what was found or fails when nothing was. */
module AutodiscService {
  import opened Base

  /** The identity of a discovered NAT service; what it answers is given by the
      functions passed to each operation. */
  type ServiceId = nat

  /** A port mapping request. */
  datatype Mapping = Mapping(protocol: string, extport: int, intport: int, name: string, lifetime: int)

  class AutodiscService {
    /** The kind of router being discovered, and the discovery's outcome (`None`
        when it finds nothing). */
    const what: string
    const discovery: Option<ServiceId>
    /** Whether the discovery has run, and what it found. */
    var done: bool
    var found: Option<ServiceId>
    /** How many times the discovery has run. */
    ghost var runs: nat

    ghost predicate Valid()
      reads this
    {
      runs == (if done then 1 else 0) && found == (if done then discovery else None)
    }

    constructor (what: string, discovery: Option<ServiceId>)
      ensures Valid() && !done && this.what == what && this.discovery == discovery
    {
      this.what := what;
      this.discovery := discovery;
      done := false;
      found := None;
      runs := 0;
    }

    /** Runs the discovery if it has not run yet; fails when it found nothing. */
    method Wait() returns (err: Option<string>)
      requires Valid()
      modifies this`done, this`found, this`runs
      ensures Valid() && done && runs == 1
      ensures old(done) ==> runs == old(runs) && found == old(found)
      ensures err == (if discovery.None? then Some("no " + what + " router discovered") else None)
    {
      if !done {
        found := discovery;
        runs := runs + 1;
        done := true;
      }
      if found.None? {
        return Some("no " + what + " router discovered");
      }
      return None;
    }

    /** False when nothing was discovered. */
    method AllowMapping(allow: ServiceId -> bool) returns (r: bool)
      requires Valid()
      modifies this`done, this`found, this`runs
      ensures Valid() && done && runs == 1
      ensures r == (discovery.Some? && allow(discovery.value))
    {
      var err := Wait();
      if err.Some? {
        return false;
      }
      return allow(found.value);
    }

    method AddMapping(m: Mapping, add: (ServiceId, Mapping) -> Option<string>) returns (err: Option<string>)
      requires Valid()
      modifies this`done, this`found, this`runs
      ensures Valid() && done && runs == 1
      ensures err == if discovery.None? then Some("no " + what + " router discovered")
                     else add(discovery.value, m)
    {
      err := Wait();
      if err.Some? {
        return err;
      }
      err := add(found.value, m);
    }

    method DeleteMapping(protocol: string, extport: int, intport: int,
                         delete: (ServiceId, string, int, int) -> Option<string>) returns (err: Option<string>)
      requires Valid()
      modifies this`done, this`found, this`runs
      ensures Valid() && done && runs == 1
      ensures err == if discovery.None? then Some("no " + what + " router discovered")
                     else delete(discovery.value, protocol, extport, intport)
    {
      err := Wait();
      if err.Some? {
        return err;
      }
      err := delete(found.value, protocol, extport, intport);
    }

    method ExternalIp(externalIp: ServiceId -> Result<string>) returns (ip: Result<string>)
      requires Valid()
      modifies this`done, this`found, this`runs
      ensures Valid() && done && runs == 1
      ensures ip == if discovery.None? then Err("no " + what + " router discovered")
                    else externalIp(discovery.value)
    {
      var err := Wait();
      if err.Some? {
        return Err(err.value);
      }
      ip := externalIp(found.value);
    }

    /** The kind being discovered until a service is found, then that service's
        name; it does not run the discovery itself. */
    function ServiceName(serviceName: ServiceId -> string): (r: string)
      reads this
      requires Valid()
      ensures !done || discovery.None? ==> r == what
      ensures done && discovery.Some? ==> r == serviceName(discovery.value)
    {
      if found.None? then what else serviceName(found.value)
    }
  }
}
