/**
 * The tunnel manager of internal/tunnel/tunnel.go: the map of running tunnels
 * keyed by `.local` domain, the step order of `StartTunnel` with its failure
 * exits, `StopTunnel`, `Stop` and `ListTunnels`, and the hosts-file edits and
 * backup they make. The certificate, the outbound address, the listener and the
 * mDNS registration are oracles; the system hosts file and its backup copy are
 * a value the manager holds, with flags saying which OS calls on them succeed.
 */
module Tunnel {
  import opened Wrappers
  import opened Text
  import opened HostsEdit
  import Cert

  const LocalSuffix: string := ".local"

  /**
   * The hosts file and the backup copy: their contents, whether the hosts file can be
   * read and written, and whether the backup file can be created and removed.
   */
  datatype HostsFs = HostsFs(hosts: string, readable: bool, writable: bool, backup: Option<string>, backupWritable: bool)

  /** The file after `updateHostsFile(domain)`. */
  function Updated(fs: HostsFs, domain: string): HostsFs {
    if fs.readable && fs.writable then fs.(hosts := WithEntry(fs.hosts, domain)) else fs
  }

  /** The file after `removeFromHostsFile(domain)`. */
  function Removed(fs: HostsFs, domain: string): HostsFs {
    if fs.readable && fs.writable then fs.(hosts := WithoutEntry(fs.hosts, domain)) else fs
  }

  /** `updateHostsFile`: read, scan for the domain, append an entry when it is missing. */
  method UpdateHostsFile(fs: HostsFs, domain: string) returns (r: HostsFs, err: Option<string>)
    ensures r == Updated(fs, domain)
    ensures err == None <==> fs.readable && (fs.writable || HasEntry(fs.hosts, domain))
    ensures !fs.readable ==> err == Some("failed to read hosts file")
    ensures fs.readable && err.Some? ==> err == Some("failed to update hosts file")
  {
    if !fs.readable {
      return fs, Some("failed to read hosts file");
    }
    var updated, write := AddEntry(fs.hosts, domain);
    if !write {
      return fs, None;
    }
    if !fs.writable {
      return fs, Some("failed to update hosts file");
    }
    r, err := fs.(hosts := updated), None;
  }

  /** `removeFromHostsFile`: read, keep the lines without the domain, write them back. */
  method RemoveFromHostsFile(fs: HostsFs, domain: string) returns (r: HostsFs, err: Option<string>)
    ensures r == Removed(fs, domain)
    ensures err == None <==> fs.readable && fs.writable
    ensures !fs.readable ==> err == Some("failed to read hosts file")
    ensures fs.readable && !fs.writable ==> err == Some("failed to update hosts file")
  {
    if !fs.readable {
      return fs, Some("failed to read hosts file");
    }
    var updated := RemoveEntry(fs.hosts, domain);
    if !fs.writable {
      return fs, Some("failed to update hosts file");
    }
    r, err := fs.(hosts := updated), None;
  }

  /** `backupHostsFile`: copies the hosts file to the backup file. */
  function BackupHostsFile(fs: HostsFs): (r: (HostsFs, Option<string>))
    ensures r.1 == None <==> fs.readable && fs.backupWritable
    ensures r.1 == None ==> r.0 == fs.(backup := Some(fs.hosts))
    ensures r.1 != None ==> r.0 == fs
  {
    if !fs.readable then (fs, Some("failed to read hosts file"))
    else if !fs.backupWritable then (fs, Some("failed to create hosts backup"))
    else (fs.(backup := Some(fs.hosts)), None)
  }

  /**
   * `restoreHostsFile`: copies the backup over the hosts file and removes the backup
   * (a failed removal is only logged). The backup path is never empty, since the
   * manager sets it when it is created.
   */
  function RestoreHostsFile(fs: HostsFs): (r: (HostsFs, Option<string>))
    ensures r.1 == None <==> fs.backup.Some? && fs.writable
    ensures r.1 == None ==> r.0.hosts == fs.backup.value && (fs.backupWritable ==> r.0.backup == None)
    ensures r.1 != None ==> r.0 == fs
  {
    if fs.backup.None? then (fs, Some("failed to read hosts backup"))
    else if !fs.writable then (fs, Some("failed to restore hosts file"))
    else (fs.(hosts := fs.backup.value, backup := if fs.backupWritable then None else fs.backup), None)
  }

  /** The file after removing each domain in turn. */
  function RemovedAll(fs: HostsFs, domains: seq<string>): HostsFs
    decreases |domains|
  {
    if domains == [] then fs else RemovedAll(Removed(fs, domains[0]), domains[1..])
  }

  /** `d` ends in `.local`; spelled out by character, which the solver handles more cheaply than a slice. */
  predicate IsLocalName(d: string) {
    |d| >= 6 && d[|d| - 6] == '.' && d[|d| - 5] == 'l' && d[|d| - 4] == 'o'
    && d[|d| - 3] == 'c' && d[|d| - 2] == 'a' && d[|d| - 1] == 'l'
  }

  lemma LocalNameIsSuffix(d: string)
    ensures IsLocalName(d) <==> HasSuffix(d, LocalSuffix)
  {
    if IsLocalName(d) {
      assert d[|d| - 6..] == LocalSuffix;
    }
  }

  /** `domain` with `.local` appended unless it already ends so. */
  function Normalise(domain: string): (r: string)
    ensures HasSuffix(r, LocalSuffix) && IsLocalName(r)
    ensures HasSuffix(domain, LocalSuffix) ==> r == domain
    ensures !HasSuffix(domain, LocalSuffix) ==> r == domain + LocalSuffix
  {
    LocalNameIsSuffix(domain);
    if HasSuffix(domain, LocalSuffix) then domain
    else
      var r := domain + LocalSuffix;
      assert r[|r| - |LocalSuffix|..] == LocalSuffix;
      r
  }

  /** The port the tunnel listens on and is advertised at. */
  function ServicePort(https: bool, port: int, httpsPort: int): int {
    if https then httpsPort else port
  }

  /** The side effects of the manager, in the order they happen. */
  datatype Event =
    | CertEnsured(domain: string)
    | Listened(port: int)
    | Registered(domain: string, port: int)
    | Stopped(domain: string)
    | Unregistered(domain: string)
    | BackupAttempted
    | RestoreAttempted

  /** `Tunnel`. */
  class Tunnel {
    const port: int
    const httpsPort: int
    const domain: string
    const https: bool
    var targetIP: string
    var cert: Option<Cert.TlsCert>
    /** Whether the listener is open. */
    var listening: bool
    /** Whether `done` has been closed. */
    var done: bool

    constructor (port: int, httpsPort: int, domain: string, https: bool)
      ensures this.port == port && this.httpsPort == httpsPort && this.domain == domain && this.https == https
      ensures targetIP == "127.0.0.1" && cert == None && !listening && !done
    {
      this.port := port;
      this.httpsPort := httpsPort;
      this.domain := domain;
      this.https := https;
      targetIP := "127.0.0.1";
      cert := None;
      listening := false;
      done := false;
    }

    /**
     * `Manager.startTunnel`: points the tunnel at the outbound address, adds its hosts
     * entry (a failure there is only logged) and opens its listener, on the HTTPS port
     * for an HTTPS tunnel and on the plain port otherwise.
     */
    method Start(fs: HostsFs, outboundIP: string, listen: int -> bool) returns (r: HostsFs, err: Option<string>)
      requires !done && !listening
      modifies this
      ensures !done && cert == old(cert) && targetIP == outboundIP
      ensures r == Updated(fs, domain)
      ensures listening <==> listen(ServicePort(https, port, httpsPort))
      ensures err == None <==> listening
      ensures err != None ==> err == Some(if https then "failed to create base listener" else "failed to create listener")
    {
      targetIP := outboundIP;
      var hostsErr;
      r, hostsErr := UpdateHostsFile(fs, domain);
      var p := if https then httpsPort else port;
      if !listen(p) {
        return r, Some(if https then "failed to create base listener" else "failed to create listener");
      }
      listening := true;
      err := None;
    }

    /**
     * `stop`: closes the listener, removes the domain from the hosts file (a failure is
     * only logged), closes `done` and always succeeds. Closing `done` twice would panic.
     */
    method Stop(fs: HostsFs) returns (r: HostsFs, err: Option<string>)
      requires !done
      modifies this
      ensures done && !listening && err == None
      ensures r == Removed(fs, domain)
      ensures targetIP == old(targetIP) && cert == old(cert)
    {
      listening := false;
      var hostsErr;
      r, hostsErr := RemoveFromHostsFile(fs, domain);
      done := true;
      err := None;
    }
  }

  /**
   * The tunnel `StartTunnel` creates for the normalised domain, with its certificate
   * from `ensureCert` when it serves HTTPS.
   */
  method NewTunnel(port: int, httpsPort: int, domain: string, https: bool, ensureCert: string -> Result<Cert.TlsCert>)
    returns (t: Tunnel, err: Option<string>)
    ensures fresh(t) && t.port == port && t.httpsPort == httpsPort && t.domain == domain && t.https == https
    ensures t.targetIP == "127.0.0.1" && !t.done && !t.listening
    ensures https && ensureCert(domain).Err? ==> err == Some("failed to ensure certificate: " + ensureCert(domain).msg)
    ensures !(https && ensureCert(domain).Err?) ==>
      err == None && t.cert == (if https then Some(ensureCert(domain).value) else None)
  {
    t := new Tunnel(port, httpsPort, domain, https);
    err := None;
    if https {
      var c := ensureCert(domain);
      if c.Err? {
        return t, Some("failed to ensure certificate: " + c.msg);
      }
      t.cert := Some(c.value);
    }
  }

  /** One row of `ListTunnels`. */
  datatype TunnelInfo = TunnelInfo(domain: string, port: int, https: bool)

  /** The events `Stop` records for stopping the tunnels in the given order. */
  function StopEvents(order: seq<string>): seq<Event> {
    if order == [] then [] else [Stopped(order[0])] + StopEvents(order[1..])
  }

  /** The hosts file a starting tunnel edits: when it is the first one, after the backup. */
  function BeforeStart(fs: HostsFs, first: bool): HostsFs {
    if first then BackupHostsFile(fs).0 else fs
  }

  /** The backup event of a starting tunnel. */
  function BackupEvents(first: bool): seq<Event> {
    if first then [BackupAttempted] else []
  }

  /** `Manager`. */
  class Manager {
    var tunnels: map<string, Tunnel>
    var hosts: HostsFs
    ghost var events: seq<Event>

    /** Every running tunnel is kept under its own `.local` domain, listening and not yet stopped. */
    ghost predicate Valid()
      reads this`tunnels, tunnels.Values
    {
      Running() && forall d :: d in tunnels ==> IsLocalName(d)
    }

    /** Every tunnel is kept under its own domain, listening and not yet stopped. */
    ghost predicate Running()
      reads this`tunnels, tunnels.Values
    {
      forall d :: d in tunnels ==> tunnels[d].domain == d && tunnels[d].listening && !tunnels[d].done
    }

    /** `NewManager`, over the current state of the hosts file. */
    constructor (hosts: HostsFs)
      ensures tunnels == map[] && this.hosts == hosts && events == []
      ensures Valid()
    {
      tunnels := map[];
      this.hosts := hosts;
      events := [];
    }

    /**
     * The part of `StartTunnel` after the certificate and the backup: start the tunnel,
     * register it with mDNS (stopping it again when that fails) and keep it under its
     * domain.
     */
    method Activate(t: Tunnel, outboundIP: string, listen: int -> bool, register: (string, int) -> bool)
      returns (err: Option<string>)
      requires Valid() && IsLocalName(t.domain)
      requires (forall d :: d in tunnels ==> tunnels[d] != t) && !t.done && !t.listening
      modifies this, t
      ensures Valid() && t.cert == old(t.cert)
      ensures var p := ServicePort(t.https, t.port, t.httpsPort);
        !listen(p) ==>
        err == Some("failed to start tunnel: " + (if t.https then "failed to create base listener" else "failed to create listener"))
        && tunnels == old(tunnels) && hosts == Updated(old(hosts), t.domain) && events == old(events) + [Listened(p)]
      ensures var p := ServicePort(t.https, t.port, t.httpsPort);
        listen(p) && !register(t.domain, p) ==>
        err == Some("failed to register domain with mDNS")
        && tunnels == old(tunnels) && hosts == Removed(Updated(old(hosts), t.domain), t.domain)
        && events == old(events) + [Listened(p), Registered(t.domain, p), Stopped(t.domain)]
      ensures var p := ServicePort(t.https, t.port, t.httpsPort);
        listen(p) && register(t.domain, p) ==>
        err == None && tunnels == old(tunnels)[t.domain := t] && t.targetIP == outboundIP
        && hosts == Updated(old(hosts), t.domain) && events == old(events) + [Listened(p), Registered(t.domain, p)]
    {
      var p := ServicePort(t.https, t.port, t.httpsPort);
      var fs, startErr := t.Start(hosts, outboundIP, listen);
      if startErr.Some? {
        hosts := fs;
        events := events + [Listened(p)];
        return Some("failed to start tunnel: " + startErr.value);
      }
      if !register(t.domain, p) {
        var stopErr;
        hosts, stopErr := t.Stop(fs);
        events := events + [Listened(p), Registered(t.domain, p), Stopped(t.domain)];
        return Some("failed to register domain with mDNS");
      }
      events := events + [Listened(p), Registered(t.domain, p)];
      Track(t, fs);
      err := None;
    }

    /** The part of `StartTunnel` after the certificate: the first tunnel backs up the hosts file, then it is activated. */
    method Launch(t: Tunnel, outboundIP: string, listen: int -> bool, register: (string, int) -> bool)
      returns (err: Option<string>)
      requires Valid() && IsLocalName(t.domain)
      requires (forall d :: d in tunnels ==> tunnels[d] != t) && !t.done && !t.listening
      modifies this, t
      ensures Valid() && t.cert == old(t.cert)
      ensures var p := ServicePort(t.https, t.port, t.httpsPort);
        var first := |old(tunnels)| == 0;
        !listen(p) ==>
        err == Some("failed to start tunnel: " + (if t.https then "failed to create base listener" else "failed to create listener"))
        && tunnels == old(tunnels) && hosts == Updated(BeforeStart(old(hosts), first), t.domain)
        && events == old(events) + BackupEvents(first) + [Listened(p)]
      ensures var p := ServicePort(t.https, t.port, t.httpsPort);
        var first := |old(tunnels)| == 0;
        listen(p) && !register(t.domain, p) ==>
        err == Some("failed to register domain with mDNS")
        && tunnels == old(tunnels) && hosts == Removed(Updated(BeforeStart(old(hosts), first), t.domain), t.domain)
        && events == old(events) + BackupEvents(first) + [Listened(p), Registered(t.domain, p), Stopped(t.domain)]
      ensures var p := ServicePort(t.https, t.port, t.httpsPort);
        var first := |old(tunnels)| == 0;
        listen(p) && register(t.domain, p) ==>
        err == None && tunnels == old(tunnels)[t.domain := t] && t.targetIP == outboundIP
        && hosts == Updated(BeforeStart(old(hosts), first), t.domain)
        && events == old(events) + BackupEvents(first) + [Listened(p), Registered(t.domain, p)]
    {
      var first := |tunnels| == 0;
      hosts := BeforeStart(hosts, first);
      events := events + BackupEvents(first);
      err := Activate(t, outboundIP, listen, register);
    }

    /** The end of `StartTunnel`: keep the running tunnel under its domain. */
    method Track(t: Tunnel, fs: HostsFs)
      requires Valid() && IsLocalName(t.domain) && t.listening && !t.done
      modifies this
      ensures Valid() && tunnels == old(tunnels)[t.domain := t]
      ensures hosts == fs && events == old(events)
    {
      tunnels := tunnels[t.domain := t];
      hosts := fs;
    }

    /**
     * `StartTunnel` as its comments intend it: the duplicate check is on the key the
     * tunnel is kept under, and the backup is taken before the first edit of the hosts
     * file (`StartTunnelAsWritten` below is the code as written). `ensureCert` is the
     * certificate manager, `outboundIP` the address `GetOutboundIP` reports, `listen`
     * whether a listener can be opened on a port and `register` whether mDNS accepts
     * a domain at a port.
     */
    method StartTunnel(
      port: int, domain: string, https: bool, httpsPort: int,
      ensureCert: string -> Result<Cert.TlsCert>, outboundIP: string,
      listen: int -> bool, register: (string, int) -> bool)
      returns (err: Option<string>)
      requires Valid()
      modifies this
      ensures Valid()
      ensures IsDuplicate(old(tunnels).Keys, domain) ==>
        err == Some("tunnel for domain " + domain + " already exists")
        && tunnels == old(tunnels) && hosts == old(hosts) && events == old(events)
      ensures var d := Normalise(domain);
        d !in old(tunnels) && https && ensureCert(d).Err? ==>
        err == Some("failed to ensure certificate: " + ensureCert(d).msg)
        && tunnels == old(tunnels) && hosts == old(hosts) && events == old(events) + [CertEnsured(d)]
      ensures var d := Normalise(domain);
        var p := ServicePort(https, port, httpsPort);
        var first := |old(tunnels)| == 0;
        var certEvents := if https then [CertEnsured(d)] else [];
        d !in old(tunnels) && (!https || ensureCert(d).Ok?) && !listen(p) ==>
        err == Some("failed to start tunnel: " + (if https then "failed to create base listener" else "failed to create listener"))
        && tunnels == old(tunnels) && hosts == Updated(BeforeStart(old(hosts), first), d)
        && events == old(events) + certEvents + BackupEvents(first) + [Listened(p)]
      ensures var d := Normalise(domain);
        var p := ServicePort(https, port, httpsPort);
        var first := |old(tunnels)| == 0;
        var certEvents := if https then [CertEnsured(d)] else [];
        d !in old(tunnels) && (!https || ensureCert(d).Ok?) && listen(p) && !register(d, p) ==>
        err == Some("failed to register domain with mDNS")
        && tunnels == old(tunnels) && hosts == Removed(Updated(BeforeStart(old(hosts), first), d), d)
        && events == old(events) + certEvents + BackupEvents(first) + [Listened(p), Registered(d, p), Stopped(d)]
      ensures var d := Normalise(domain);
        d !in old(tunnels) && (!https || ensureCert(d).Ok?) && listen(ServicePort(https, port, httpsPort)) && register(d, ServicePort(https, port, httpsPort)) ==>
        err == None && d in tunnels && fresh(tunnels[d]) && tunnels == old(tunnels)[d := tunnels[d]]
      ensures var d := Normalise(domain);
        d !in old(tunnels) && (!https || ensureCert(d).Ok?) && listen(ServicePort(https, port, httpsPort)) && register(d, ServicePort(https, port, httpsPort)) ==>
        d in tunnels && tunnels[d].port == port && tunnels[d].httpsPort == httpsPort && tunnels[d].https == https
        && tunnels[d].targetIP == outboundIP
        && tunnels[d].cert == (if https then Some(ensureCert(d).value) else None)
      ensures var d := Normalise(domain);
        d !in old(tunnels) && (!https || ensureCert(d).Ok?) && listen(ServicePort(https, port, httpsPort)) && register(d, ServicePort(https, port, httpsPort)) ==>
        hosts == Updated(BeforeStart(old(hosts), |old(tunnels)| == 0), d)
      ensures var d := Normalise(domain);
        var p := ServicePort(https, port, httpsPort);
        var first := |old(tunnels)| == 0;
        var certEvents := if https then [CertEnsured(d)] else [];
        d !in old(tunnels) && (!https || ensureCert(d).Ok?) && listen(p) && register(d, p) ==>
        events == old(events) + certEvents + BackupEvents(first) + [Listened(p), Registered(d, p)]
    {
      var d := Normalise(domain);
      if d in tunnels {
        return Some("tunnel for domain " + domain + " already exists");
      }
      var tunnel, certErr := NewTunnel(port, httpsPort, d, https, ensureCert);
      events := events + (if https then [CertEnsured(d)] else []);
      if certErr.Some? {
        return certErr;
      }
      err := Launch(tunnel, outboundIP, listen, register);
    }

    /** The end of the source's `StartTunnel`: back up the hosts file when exactly one tunnel is kept. */
    method BackupIfOnly()
      modifies this`hosts, this`events
      ensures hosts == BeforeStart(old(hosts), |tunnels| == 1)
      ensures events == old(events) + BackupEvents(|tunnels| == 1)
    {
      if |tunnels| == 1 {
        hosts := BackupHostsFile(hosts).0;
        events := events + [BackupAttempted];
      }
    }

    /**
     * The part of the source's `StartTunnel` after the certificate: activate the tunnel,
     * and back up the hosts file when it is then the only one kept.
     */
    method LaunchAsWritten(t: Tunnel, outboundIP: string, listen: int -> bool, register: (string, int) -> bool)
      returns (err: Option<string>)
      requires Valid() && IsLocalName(t.domain)
      requires (forall d :: d in tunnels ==> tunnels[d] != t) && !t.done && !t.listening
      modifies this, t
      ensures Valid() && t.cert == old(t.cert)
      ensures var p := ServicePort(t.https, t.port, t.httpsPort);
        !listen(p) ==>
        err == Some("failed to start tunnel: " + (if t.https then "failed to create base listener" else "failed to create listener"))
        && tunnels == old(tunnels) && hosts == Updated(old(hosts), t.domain) && events == old(events) + [Listened(p)]
      ensures var p := ServicePort(t.https, t.port, t.httpsPort);
        listen(p) && !register(t.domain, p) ==>
        err == Some("failed to register domain with mDNS")
        && tunnels == old(tunnels) && hosts == Removed(Updated(old(hosts), t.domain), t.domain)
        && events == old(events) + [Listened(p), Registered(t.domain, p), Stopped(t.domain)]
      ensures var p := ServicePort(t.https, t.port, t.httpsPort);
        listen(p) && register(t.domain, p) ==>
        err == None && tunnels == old(tunnels)[t.domain := t] && t.targetIP == outboundIP
        && hosts == BeforeStart(Updated(old(hosts), t.domain), |tunnels| == 1)
        && events == old(events) + [Listened(p), Registered(t.domain, p)] + BackupEvents(|tunnels| == 1)
    {
      err := Activate(t, outboundIP, listen, register);
      if err == None {
        BackupIfOnly();
      }
    }

    /**
     * `StartTunnel` as tunnel.go writes it: the duplicate check looks up the domain as
     * given, before `.local` is added, so a bare name whose `.local` form runs gets
     * through and its tunnel replaces the running one in the map, which keeps
     * listening untracked; and the hosts file is backed up only after a successful
     * start, once the map holds exactly one tunnel, by when the tunnel's entry has
     * already been added.
     */
    method StartTunnelAsWritten(
      port: int, domain: string, https: bool, httpsPort: int,
      ensureCert: string -> Result<Cert.TlsCert>, outboundIP: string,
      listen: int -> bool, register: (string, int) -> bool)
      returns (err: Option<string>)
      requires Valid()
      modifies this
      ensures Valid()
      ensures IsDuplicateAsWritten(old(tunnels).Keys, domain) ==>
        err == Some("tunnel for domain " + domain + " already exists")
        && tunnels == old(tunnels) && hosts == old(hosts) && events == old(events)
      ensures var d := Normalise(domain);
        domain !in old(tunnels) && https && ensureCert(d).Err? ==>
        err == Some("failed to ensure certificate: " + ensureCert(d).msg)
        && tunnels == old(tunnels) && hosts == old(hosts) && events == old(events) + [CertEnsured(d)]
      ensures var d := Normalise(domain);
        var p := ServicePort(https, port, httpsPort);
        var certEvents := if https then [CertEnsured(d)] else [];
        domain !in old(tunnels) && (!https || ensureCert(d).Ok?) && !listen(p) ==>
        err == Some("failed to start tunnel: " + (if https then "failed to create base listener" else "failed to create listener"))
        && tunnels == old(tunnels) && hosts == Updated(old(hosts), d)
        && events == old(events) + certEvents + [Listened(p)]
      ensures var d := Normalise(domain);
        var p := ServicePort(https, port, httpsPort);
        var certEvents := if https then [CertEnsured(d)] else [];
        domain !in old(tunnels) && (!https || ensureCert(d).Ok?) && listen(p) && !register(d, p) ==>
        err == Some("failed to register domain with mDNS")
        && tunnels == old(tunnels) && hosts == Removed(Updated(old(hosts), d), d)
        && events == old(events) + certEvents + [Listened(p), Registered(d, p), Stopped(d)]
      ensures var d := Normalise(domain);
        var p := ServicePort(https, port, httpsPort);
        var certEvents := if https then [CertEnsured(d)] else [];
        domain !in old(tunnels) && (!https || ensureCert(d).Ok?) && listen(p) && register(d, p) ==>
        err == None && d in tunnels && fresh(tunnels[d]) && tunnels == old(tunnels)[d := tunnels[d]]
        && tunnels[d].port == port && tunnels[d].httpsPort == httpsPort && tunnels[d].https == https
        && tunnels[d].targetIP == outboundIP
        && tunnels[d].cert == (if https then Some(ensureCert(d).value) else None)
        && hosts == BeforeStart(Updated(old(hosts), d), |tunnels| == 1)
        && events == old(events) + certEvents + [Listened(p), Registered(d, p)] + BackupEvents(|tunnels| == 1)
      ensures var d := Normalise(domain);
        var p := ServicePort(https, port, httpsPort);
        domain !in old(tunnels) && d in old(tunnels) && (!https || ensureCert(d).Ok?) && listen(p) && register(d, p) ==>
        tunnels[d] != old(tunnels)[d] && old(tunnels)[d].listening && !old(tunnels)[d].done
        && (forall k :: k in tunnels ==> tunnels[k] != old(tunnels)[d])
    {
      if domain in tunnels {
        return Some("tunnel for domain " + domain + " already exists");
      }
      var d := Normalise(domain);
      var tunnel, certErr := NewTunnel(port, httpsPort, d, https, ensureCert);
      events := events + (if https then [CertEnsured(d)] else []);
      if certErr.Some? {
        return certErr;
      }
      ghost var before := tunnels;
      err := LaunchAsWritten(tunnel, outboundIP, listen, register);
      if err == None && d in before {
        ReplacedIsUntracked(before, tunnels, d, tunnel);
      }
    }

    /** `StopTunnel`: stops and forgets the tunnel under exactly this key; an mDNS failure is only logged. */
    method StopTunnel(domain: string) returns (err: Option<string>)
      requires Valid()
      modifies this, if domain in tunnels then {tunnels[domain]} else {}
      ensures Valid()
      ensures domain !in old(tunnels) ==>
        err == Some("tunnel for domain " + domain + " does not exist")
        && tunnels == old(tunnels) && hosts == old(hosts) && events == old(events)
      ensures domain in old(tunnels) ==>
        err == None && tunnels == old(tunnels) - {domain}
        && old(tunnels)[domain].done && !old(tunnels)[domain].listening
        && hosts == Removed(old(hosts), domain)
        && events == old(events) + [Stopped(domain), Unregistered(domain)]
    {
      if domain !in tunnels {
        return Some("tunnel for domain " + domain + " does not exist");
      }
      var tunnel := tunnels[domain];
      var stopErr;
      hosts, stopErr := tunnel.Stop(hosts);
      events := events + [Stopped(domain)];
      events := events + [Unregistered(domain)];
      tunnels := tunnels - {domain};
      err := None;
    }

    /**
     * `Stop`: stops every tunnel (in the map's iteration order, recorded in `order`),
     * empties the map and restores the hosts file from the backup. Stopping a tunnel
     * never fails, so the only error is a failed restore.
     */
    method Stop() returns (err: Option<string>, ghost order: seq<string>)
      requires forall d :: d in tunnels ==> tunnels[d].domain == d && !tunnels[d].done
      modifies this, tunnels.Values
      ensures tunnels == map[]
      ensures forall d :: d in old(tunnels) ==> old(tunnels)[d].done && !old(tunnels)[d].listening
      ensures |order| == |old(tunnels)| && forall d :: d in order <==> d in old(tunnels)
      ensures var restored := RestoreHostsFile(RemovedAll(old(hosts), order));
        hosts == restored.0
        && (restored.1 == None ==> err == None)
        && (restored.1 != None ==> err == Some("errors during shutdown: [failed to restore hosts file: " + restored.1.value + "]"))
      ensures events == old(events) + StopEvents(order) + [RestoreAttempted]
    {
      var fs;
      fs, order := StopEach(tunnels, hosts);
      tunnels := map[];
      var restored := RestoreHostsFile(fs);
      hosts := restored.0;
      events := events + StopEvents(order) + [RestoreAttempted];
      if restored.1.Some? {
        err := Some("errors during shutdown: [failed to restore hosts file: " + restored.1.value + "]");
      } else {
        err := None;
      }
    }

    /** `ListTunnels`: one row per running tunnel, in the map's iteration order. */
    method ListTunnels() returns (list: seq<TunnelInfo>)
      ensures |list| == |tunnels|
      ensures forall d :: d in tunnels ==> TunnelInfo(d, tunnels[d].port, tunnels[d].https) in list
      ensures forall k :: 0 <= k < |list| ==>
        list[k].domain in tunnels && list[k] == TunnelInfo(list[k].domain, tunnels[list[k].domain].port, tunnels[list[k].domain].https)
      ensures forall i, j :: 0 <= i < j < |list| ==> list[i].domain != list[j].domain
    {
      list := [];
      var remaining := tunnels.Keys;
      while remaining != {}
        invariant remaining <= tunnels.Keys
        invariant |list| + |remaining| == |tunnels.Keys|
        invariant forall d :: d in tunnels && d !in remaining ==> TunnelInfo(d, tunnels[d].port, tunnels[d].https) in list
        invariant forall k :: 0 <= k < |list| ==>
          list[k].domain in tunnels && list[k].domain !in remaining
          && list[k] == TunnelInfo(list[k].domain, tunnels[list[k].domain].port, tunnels[list[k].domain].https)
        invariant forall i, j :: 0 <= i < j < |list| ==> list[i].domain != list[j].domain
        decreases remaining
      {
        var d :| d in remaining;
        var tunnel := tunnels[d];
        list := list + [TunnelInfo(d, tunnel.port, tunnel.https)];
        remaining := remaining - {d};
      }
    }
  }

  /** The loop of `Manager.Stop`: stops every tunnel of `ts` once, in the map's iteration order. */
  method StopEach(ts: map<string, Tunnel>, fs: HostsFs) returns (r: HostsFs, ghost order: seq<string>)
    requires forall d :: d in ts ==> ts[d].domain == d && !ts[d].done
    modifies ts.Values
    ensures forall d :: d in ts ==> ts[d].done && !ts[d].listening
    ensures |order| == |ts| && forall d :: d in order <==> d in ts
    ensures r == RemovedAll(fs, order)
  {
    r := fs;
    order := [];
    var remaining := ts.Keys;
    while remaining != {}
      invariant remaining <= ts.Keys
      invariant forall d :: d in remaining ==> !ts[d].done
      invariant forall d :: d in ts && d !in remaining ==> ts[d].done && !ts[d].listening
      invariant |order| + |remaining| == |ts.Keys|
      invariant forall d :: d in order <==> d in ts && d !in remaining
      invariant r == RemovedAll(fs, order)
      decreases remaining
    {
      var d :| d in remaining;
      var tunnel := ts[d];
      var stopErr;
      r, stopErr := tunnel.Stop(r);
      RemovedAllSnoc(fs, order, d);
      order := order + [d];
      remaining := remaining - {d};
    }
  }

  lemma {:induction false} RemovedAllSnoc(fs: HostsFs, domains: seq<string>, d: string)
    ensures RemovedAll(fs, domains + [d]) == Removed(RemovedAll(fs, domains), d)
    decreases |domains|
  {
    if domains == [] {
      assert domains + [d] == [d];
    } else {
      assert (domains + [d])[1..] == domains[1..] + [d];
      RemovedAllSnoc(Removed(fs, domains[0]), domains[1..], d);
    }
  }

  lemma {:induction false} StopEventsSnoc(order: seq<string>, d: string)
    ensures StopEvents(order + [d]) == StopEvents(order) + [Stopped(d)]
    decreases |order|
  {
    if order == [] {
      assert order + [d] == [d];
    } else {
      assert (order + [d])[1..] == order[1..] + [d];
      StopEventsSnoc(order[1..], d);
    }
  }

  /** Whatever the tunnels removed, a successful restore puts the backup back exactly. */
  lemma RestoreUndoesRemovals(fs: HostsFs, domains: seq<string>)
    requires fs.backup.Some? && fs.writable
    ensures RestoreHostsFile(RemovedAll(fs, domains)).1 == None
    ensures RestoreHostsFile(RemovedAll(fs, domains)).0.hosts == fs.backup.value
  {
    RemovedAllKeeps(fs, domains);
  }

  /** Removals change only the hosts text. */
  lemma {:induction false} RemovedAllKeeps(fs: HostsFs, domains: seq<string>)
    ensures var r := RemovedAll(fs, domains);
      r.backup == fs.backup && r.readable == fs.readable && r.writable == fs.writable
      && r.backupWritable == fs.backupWritable
    decreases |domains|
  {
    if domains != [] {
      RemovedAllKeeps(Removed(fs, domains[0]), domains[1..]);
    }
  }

  /** Starting a tunnel adds its hosts entry, so a second start of another tunnel for that name changes nothing. */
  lemma UpdatedIdempotent(fs: HostsFs, domain: string)
    requires '\n' !in domain && (domain == [] || domain[|domain| - 1] != '\r')
    ensures Updated(Updated(fs, domain), domain) == Updated(fs, domain)
    ensures fs.readable && fs.writable ==> HasEntry(Updated(fs, domain).hosts, domain)
  {
    WithEntryIdempotent(fs.hosts, domain);
    WithEntryHasEntry(fs.hosts, domain);
  }

  /** After a tunnel is stopped, no line of the hosts file names its domain. */
  lemma RemovedHasNoEntry(fs: HostsFs, domain: string)
    requires domain != [] && fs.readable && fs.writable
    ensures !HasEntry(Removed(fs, domain).hosts, domain)
  {
    WithoutEntryHasNoEntry(fs.hosts, domain);
  }

  // ---- the duplicate check ----

  /** The check the source's `StartTunnel` makes: the domain as given, before `.local` is added, is a key. */
  predicate IsDuplicateAsWritten(keys: set<string>, domain: string) {
    domain in keys
  }

  /** A bare name passes the check while the `.local` key it is stored under is taken. */
  lemma DuplicateCheckMissesLocalKey()
    ensures !IsDuplicateAsWritten({"app.local"}, "app")
    ensures Normalise("app") in {"app.local"}
  {
    assert !HasSuffix("app", LocalSuffix);
    assert "app" + LocalSuffix == "app.local";
  }

  /** The check on the key the tunnel is stored under, as `Manager.StartTunnel` makes it. */
  predicate IsDuplicate(keys: set<string>, domain: string) {
    Normalise(domain) in keys
  }

  /** Storing a new tunnel under a taken key leaves the tunnel it replaces under no key at all. */
  lemma ReplacedIsUntracked(ts: map<string, Tunnel>, after: map<string, Tunnel>, d: string, t: Tunnel)
    requires forall k :: k in ts ==> ts[k].domain == k
    requires d in ts && t != ts[d] && after == ts[d := t]
    ensures forall k :: k in after ==> after[k] != ts[d]
  {
  }

  /** On keys the manager writes, the two checks differ exactly for a bare name whose `.local` form runs. */
  lemma DuplicateChecksAgreeOnLocalNames(keys: set<string>, domain: string)
    requires forall k :: k in keys ==> HasSuffix(k, LocalSuffix)
    ensures HasSuffix(domain, LocalSuffix) ==> (IsDuplicateAsWritten(keys, domain) <==> IsDuplicate(keys, domain))
    ensures !HasSuffix(domain, LocalSuffix) ==> !IsDuplicateAsWritten(keys, domain)
  {
  }

  // ---- the order of backup and first hosts update ----

  /** The files after the first tunnel starts, as written: entry added, then the backup taken. */
  function FirstStartAsWritten(fs: HostsFs, domain: string): HostsFs {
    BackupHostsFile(Updated(fs, domain)).0
  }

  /** Start of the only tunnel, then `Stop`: the restored file still holds the tunnel's entry. */
  lemma StartStopKeepsEntry(fs: HostsFs, domain: string)
    requires fs.readable && fs.writable && fs.backupWritable
    requires !HasEntry(fs.hosts, domain)
    ensures var after := RestoreHostsFile(RemovedAll(FirstStartAsWritten(fs, domain), [domain])).0;
      after.hosts == WithEntry(fs.hosts, domain) && after.hosts != fs.hosts
  {
    var started := FirstStartAsWritten(fs, domain);
    assert started.backup == Some(WithEntry(fs.hosts, domain));
    assert RemovedAll(started, [domain]) == RemovedAll(Removed(started, domain), []);
    assert |WithEntry(fs.hosts, domain)| > |fs.hosts|;
  }

  /** The files after the first tunnel starts, backup first as the source's comment intends. */
  function FirstStart(fs: HostsFs, domain: string): HostsFs {
    Updated(BeforeStart(fs, true), domain)
  }

  /** Backup first: starting the only tunnel and stopping everything gives back the original file. */
  lemma StartStopRestoresHosts(fs: HostsFs, domain: string)
    requires fs.readable && fs.writable && fs.backupWritable
    ensures var after := RestoreHostsFile(RemovedAll(FirstStart(fs, domain), [domain]));
      after.1 == None && after.0.hosts == fs.hosts && after.0.backup == None
  {
    var started := FirstStart(fs, domain);
    assert started.backup == Some(fs.hosts);
    assert RemovedAll(started, [domain]) == RemovedAll(Removed(started, domain), []);
  }
}
