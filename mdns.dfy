/**
 * The service registry of internal/mdns/mdns.go: one zeroconf registration per
 * domain, added at most once, removed on unregister and all removed on stop.
 * `zeroconf.Register` is an oracle that accepts or refuses a registration.
 */
module Mdns {
  import opened Wrappers
  import opened Text

  /** The arguments a domain is advertised with; it stands for the `*zeroconf.Server` kept in the map. */
  datatype Registration = Registration(instance: string, service: string, domain: string, port: int, text: seq<string>)

  /** The instance name advertised for a domain: one `.local` removed when something is left before it. */
  function InstanceName(domain: string): (r: string)
    ensures |domain| > 6 && HasSuffix(domain, ".local") ==> r + ".local" == domain && r != ""
    ensures !(|domain| > 6 && HasSuffix(domain, ".local")) ==> r == domain
  {
    if |domain| > 6 && domain[|domain| - 6..] == ".local" then domain[..|domain| - 6] else domain
  }

  /** A host name gets back its own name once `.local` is added. */
  lemma InstanceNameOfLocal(name: string)
    requires name != ""
    ensures InstanceName(name + ".local") == name
  {
    var d := name + ".local";
    assert d[..|d| - 6] == name && d[|d| - 6..] == ".local";
  }

  /** What `RegisterDomain` asks zeroconf to advertise. */
  function RegistrationFor(domain: string): Registration {
    Registration(InstanceName(domain), "_https._tcp", "local.", 443, ["path=/"])
  }

  class MDNSServer {
    var services: map<string, Registration>
    /** The domains whose servers were shut down, in order. */
    ghost var shutDown: seq<string>

    /** `New`: no service registered. */
    constructor New()
      ensures services == map[] && shutDown == []
    {
      services := map[];
      shutDown := [];
    }

    /**
     * `RegisterDomain`: nothing to do for a domain already registered; otherwise
     * `register` decides whether zeroconf accepts the advertisement, which is then
     * kept under the domain as passed.
     */
    method RegisterDomain(domain: string, register: Registration -> bool) returns (err: Option<string>)
      modifies this
      ensures shutDown == old(shutDown)
      ensures domain in old(services) ==> err == None && services == old(services)
      ensures domain !in old(services) && !register(RegistrationFor(domain)) ==>
        err == Some("failed to register mDNS service") && services == old(services)
      ensures domain !in old(services) && register(RegistrationFor(domain)) ==>
        err == None && services == old(services)[domain := RegistrationFor(domain)]
    {
      if domain in services {
        return None;
      }
      var name := domain;
      if |name| > 6 && name[|name| - 6..] == ".local" {
        name := name[..|name| - 6];
      }
      var registration := Registration(name, "_https._tcp", "local.", 443, ["path=/"]);
      if !register(registration) {
        return Some("failed to register mDNS service");
      }
      services := services[domain := registration];
      err := None;
    }

    /** `UnregisterDomain`: shuts down and forgets the domain's server if there is one; never fails. */
    method UnregisterDomain(domain: string) returns (err: Option<string>)
      modifies this
      ensures err == None
      ensures services == old(services) - {domain}
      ensures shutDown == old(shutDown) + (if domain in old(services) then [domain] else [])
    {
      if domain in services {
        shutDown := shutDown + [domain];
        services := services - {domain};
      }
      err := None;
    }

    /** `Stop`: shuts down every server, each once, and empties the registry; never fails. */
    method Stop() returns (err: Option<string>)
      modifies this
      ensures err == None && services == map[]
      ensures |shutDown| == |old(shutDown)| + |old(services)|
      ensures shutDown[..|old(shutDown)|] == old(shutDown)
      ensures forall d :: d in shutDown[|old(shutDown)|..] <==> d in old(services)
    {
      ghost var start := shutDown;
      ghost var all := services.Keys;
      while services != map[]
        invariant services.Keys <= all
        invariant |shutDown| == |start| + |all| - |services.Keys|
        invariant shutDown[..|start|] == start
        invariant forall d :: d in shutDown[|start|..] <==> d in all - services.Keys
        decreases |services.Keys|
      {
        var d :| d in services;
        assert (shutDown + [d])[|start|..] == shutDown[|start|..] + [d];
        shutDown := shutDown + [d];
        services := services - {d};
      }
      assert |all| == |old(services)|;
      err := None;
    }
  }
}
