/**
 * The built-in reverse proxy of internal/proxy/proxy.go: its configuration
 * defaults, the mode switch of `Start`, the route table that stores each route
 * under the domain with and without `.local`, the director's hit-or-miss
 * rewrite, the 404/502 error pages and the client-address precedence.
 * Listening, serving and forwarding are left to oracles or left out.
 */
module Proxy {
  import opened Wrappers
  import opened Text

  /** `ProxyConfig`; `mode` and `proxyType` are Go string types, kept as strings. */
  datatype ProxyConfig = ProxyConfig(
    mode: string, proxyType: string, httpPort: int, httpsPort: int,
    autoInstall: bool, configPath: string)

  /** `Route`: where requests for `domain` are forwarded. */
  datatype Route = Route(domain: string, targetHost: string, targetPort: int, https: bool)

  /** The part of `*url.URL` the director touches; `rest` stands for path, query and the other fields. */
  datatype Url = Url(scheme: string, host: string, rest: string)

  /** What `Start` does for a mode. */
  datatype StartAction = BuiltIn | Nginx | Caddy | ConfigFiles | Nothing | Unsupported

  const LocalSuffix: string := ".local"

  /** The `switch` of `Start`. */
  function ModeAction(mode: string): StartAction {
    if mode == "builtin" || mode == "auto" then BuiltIn
    else if mode == "nginx" then Nginx
    else if mode == "caddy" then Caddy
    else if mode == "config" then ConfigFiles
    else if mode == "none" then Nothing
    else Unsupported
  }

  /** Exactly the six declared modes are supported. */
  lemma ModeActionSupported(mode: string)
    ensures ModeAction(mode) != Unsupported <==>
      mode in ["none", "builtin", "nginx", "caddy", "auto", "config"]
  {
  }

  /** The port `startBuiltInProxy` listens on: a privileged port falls back to 8080 without root. */
  function ListenPort(port: int, privileged: bool): (r: int)
    ensures !privileged ==> r == 0 || r >= 1024
    ensures r == port || r == 8080
    ensures privileged || port == 0 || port >= 1024 ==> r == port
  {
    if port == 0 then port
    else if !privileged && port < 1024 then 8080
    else port
  }

  /** The domain with one trailing `.local` removed: how `AddRoute` normalises. */
  function Base(domain: string): (r: string)
    ensures HasSuffix(domain, LocalSuffix) ==> r + LocalSuffix == domain
    ensures !HasSuffix(domain, LocalSuffix) ==> r == domain
  {
    TrimSuffix(domain, LocalSuffix)
  }

  /** The other form of a domain that `RemoveRoute` deletes. */
  function Counterpart(domain: string): (r: string)
    ensures HasSuffix(domain, LocalSuffix) ==> r + LocalSuffix == domain
    ensures !HasSuffix(domain, LocalSuffix) ==> r == domain + LocalSuffix
  {
    if HasSuffix(domain, LocalSuffix) then TrimSuffix(domain, LocalSuffix) else domain + LocalSuffix
  }

  /** The two keys `AddRoute` writes. */
  function StorageKeys(domain: string): set<string> {
    {Base(domain) + LocalSuffix, Base(domain)}
  }

  /** The table after `AddRoute(route)`. */
  function WithRoute(routes: map<string, Route>, route: Route): map<string, Route> {
    var base := Base(route.domain);
    routes[base + LocalSuffix := route][base := route]
  }

  /** The table after `RemoveRoute(domain)`. */
  function WithoutRoute(routes: map<string, Route>, domain: string): map<string, Route> {
    routes - {domain, Counterpart(domain)}
  }

  /** `AddRoute` binds exactly its two keys to the route and leaves every other key as it was. */
  lemma WithRouteLaws(routes: map<string, Route>, route: Route)
    ensures var m := WithRoute(routes, route);
      (forall k :: k in m <==> k in routes || k in StorageKeys(route.domain))
      && (forall k :: k in StorageKeys(route.domain) ==> m[k] == route)
      && (forall k :: k in routes && k !in StorageKeys(route.domain) ==> m[k] == routes[k])
  {
  }

  /** A route is found under its domain as given, with `.local` and without it. */
  lemma WithRouteFinds(routes: map<string, Route>, route: Route)
    ensures var m := WithRoute(routes, route);
      route.domain in m && m[route.domain] == route
      && Base(route.domain) in m && m[Base(route.domain)] == route
      && Base(route.domain) + LocalSuffix in m && m[Base(route.domain) + LocalSuffix] == route
  {
    var b := Base(route.domain);
    if HasSuffix(route.domain, LocalSuffix) {
      assert route.domain == b + LocalSuffix;
    } else {
      assert route.domain == b;
    }
  }

  /** `RemoveRoute` deletes exactly the domain and its counterpart. */
  lemma WithoutRouteLaws(routes: map<string, Route>, domain: string)
    ensures var m := WithoutRoute(routes, domain);
      (forall k :: k in m <==> k in routes && k != domain && k != Counterpart(domain))
      && (forall k :: k in m ==> m[k] == routes[k])
  {
  }

  /** The two keys of `AddRoute(r)` are the two keys `RemoveRoute(r.domain)` deletes. */
  lemma StorageKeysAreRemovedKeys(domain: string)
    ensures StorageKeys(domain) == {domain, Counterpart(domain)}
  {
    var b := Base(domain);
    if HasSuffix(domain, LocalSuffix) {
      assert domain == b + LocalSuffix;
      assert Counterpart(domain) == b by {
        assert Counterpart(domain) + LocalSuffix == b + LocalSuffix;
        assert Counterpart(domain) == (b + LocalSuffix)[..|b|];
      }
    } else {
      assert b == domain;
    }
  }

  /** Adding a route and then removing its domain leaves neither form, and every other key as it was. */
  lemma AddThenRemove(routes: map<string, Route>, route: Route)
    ensures var m := WithoutRoute(WithRoute(routes, route), route.domain);
      (forall k :: k in StorageKeys(route.domain) ==> k !in m)
      && (forall k :: k !in StorageKeys(route.domain) ==> (k in m <==> k in routes))
      && (forall k :: k in m ==> m[k] == routes[k])
  {
    StorageKeysAreRemovedKeys(route.domain);
  }

  /** The host a request names, without its port: `strings.Split(host, ":")[0]`. */
  function StripPort(host: string): (r: string)
    ensures ':' !in r
    ensures HasPrefix(host, r) && (|r| < |host| ==> host[|r|] == ':')
  {
    BeforeFirst(host, ':')
  }

  /** A host header is found under its name whether or not it carries a port. */
  lemma StripPortOf(name: string, port: string)
    requires ':' !in name
    ensures StripPort(name + ":" + port) == name
    ensures StripPort(name) == name
  {
    assert (name + ":" + port)[..|name|] == name;
    IndexOfIs(name + ":" + port, ':', |name|);
  }

  /** `http.Header.Get` for one-valued headers: an absent key reads as the empty string. */
  function HeaderGet(header: map<string, string>, key: string): string {
    if key in header then header[key] else ""
  }

  /** `net.JoinHostPort`. */
  function JoinHostPort(host: string, port: string): string {
    if ':' in host then "[" + host + "]:" + port else host + ":" + port
  }

  datatype HostPort = HostPort(host: string, port: string)

  /** The bracket checks at the end of `net.SplitHostPort`: no `[` from `j` on, no `]` from `k` on. */
  function SplitChecked(hostport: string, host: string, j: nat, k: nat, i: nat): (r: Result<HostPort>)
    requires j <= i + 1 && k <= i + 1 && i < |hostport|
    ensures r.Ok? <==> '[' !in hostport[j..] && ']' !in hostport[k..]
    ensures r.Ok? ==>
      r.value == HostPort(host, hostport[i + 1..]) && '[' !in r.value.port && ']' !in r.value.port
  {
    if '[' in hostport[j..] then Err("unexpected '[' in address")
    else if ']' in hostport[k..] then Err("unexpected ']' in address")
    else
      assert hostport[i + 1..] == hostport[j..][i + 1 - j..] == hostport[k..][i + 1 - k..];
      Ok(HostPort(host, hostport[i + 1..]))
  }

  /** `net.SplitHostPort` for an address starting with `[`; `i` is the last colon. */
  function SplitBracketed(hostport: string, i: nat): (r: Result<HostPort>)
    requires i < |hostport| && hostport[0] == '[' && hostport[i] == ':'
    ensures r.Ok? ==>
      hostport == "[" + r.value.host + "]:" + r.value.port && r.value.port == hostport[i + 1..]
      && '[' !in r.value.port && ']' !in r.value.port
  {
    var end := IndexOf(hostport, ']');
    if end < 0 then Err("missing ']' in address")
    else if end + 1 == |hostport| then Err("missing port in address")
    else if end + 1 != i then
      if hostport[end + 1] == ':' then Err("too many colons in address") else Err("missing port in address")
    else
      assert hostport == "[" + hostport[1..end] + "]:" + hostport[i + 1..];
      SplitChecked(hostport, hostport[1..end], 1, end + 1, i)
  }

  /** `net.SplitHostPort` for an address not starting with `[`; `i` is the last colon. */
  function SplitPlain(hostport: string, i: nat): (r: Result<HostPort>)
    requires i < |hostport| && hostport[i] == ':'
    ensures r.Ok? ==>
      hostport == r.value.host + ":" + r.value.port && ':' !in r.value.host
      && r.value.port == hostport[i + 1..] && '[' !in r.value.port && ']' !in r.value.port
  {
    var host := hostport[..i];
    if ':' in host then Err("too many colons in address")
    else
      assert hostport == host + ":" + hostport[i + 1..];
      SplitChecked(hostport, host, 0, 0, i)
  }

  /** `net.SplitHostPort`: splits "host:port", "[host]:port" or "[host%zone]:port". */
  function SplitHostPort(hostport: string): (r: Result<HostPort>)
    ensures r.Ok? ==> ':' !in r.value.port && '[' !in r.value.port && ']' !in r.value.port
    ensures r.Ok? ==>
      (':' !in r.value.host && hostport == r.value.host + ":" + r.value.port)
      || hostport == "[" + r.value.host + "]:" + r.value.port
    ensures r.Ok? && ':' in r.value.host ==> hostport == JoinHostPort(r.value.host, r.value.port)
  {
    var i := LastIndexOf(hostport, ':');
    if i < 0 then Err("missing port in address")
    else if hostport[0] == '[' then SplitBracketed(hostport, i)
    else SplitPlain(hostport, i)
  }

  /** A plain host and port, free of colons and brackets, split back into themselves. */
  lemma SplitJoinHostPort(host: string, port: string)
    requires ':' !in host && '[' !in host && ']' !in host
    requires ':' !in port && '[' !in port && ']' !in port
    requires host == [] || host[0] != '['
    ensures SplitHostPort(JoinHostPort(host, port)) == Ok(HostPort(host, port))
  {
    var s := host + ":" + port;
    var i := |host|;
    assert s == JoinHostPort(host, port);
    assert s[..i] == host && s[i + 1..] == port && s[i] == ':';
    LastIndexOfIs(s, ':', i);
    assert s[0] != '[';
    assert s[0..] == s && '[' !in s && ']' !in s;
    assert SplitChecked(s, host, 0, 0, i) == Ok(HostPort(host, port));
    assert SplitPlain(s, i) == Ok(HostPort(host, port));
  }

  /** `getClientIP`: the first `X-Forwarded-For` element, else `X-Real-IP`, else the host of the remote address. */
  function ClientIP(header: map<string, string>, remoteAddr: string): (r: string)
    ensures var xff := HeaderGet(header, "X-Forwarded-For");
      xff != "" ==> HasPrefix(xff, r) && ',' !in r && (|r| < |xff| ==> xff[|r|] == ',')
    ensures HeaderGet(header, "X-Forwarded-For") == "" && HeaderGet(header, "X-Real-IP") != "" ==>
      r == HeaderGet(header, "X-Real-IP")
    ensures HeaderGet(header, "X-Forwarded-For") == "" && HeaderGet(header, "X-Real-IP") == "" ==>
      r == (match SplitHostPort(remoteAddr) case Ok(hp) => hp.host case Err(_) => "")
  {
    var xff := HeaderGet(header, "X-Forwarded-For");
    var xri := HeaderGet(header, "X-Real-IP");
    if xff != "" then BeforeFirst(xff, ',')
    else if xri != "" then xri
    else match SplitHostPort(remoteAddr)
      case Ok(hp) => hp.host
      case Err(_) => ""
  }

  /** The scheme the director sets for a route. */
  function Scheme(route: Route): string {
    if route.https then "https" else "http"
  }

  /** The `host:port` the director forwards to. */
  function TargetAddr(route: Route): (r: string)
    ensures HasPrefix(r, route.targetHost + ":")
    ensures var port := r[|route.targetHost| + 1..];
      port != [] && ':' !in port && ParseDecimal(port) == route.targetPort
  {
    var r := route.targetHost + ":" + Itoa(route.targetPort);
    assert r[|route.targetHost| + 1..] == Itoa(route.targetPort);
    r
  }

  /** `http.Request`, as far as the director and error handler read or write it. */
  class Request {
    var host: string
    var url: Option<Url>
    var header: map<string, string>
    var remoteAddr: string

    constructor (host: string, url: Option<Url>, header: map<string, string>, remoteAddr: string)
      ensures this.host == host && this.url == url && this.header == header && this.remoteAddr == remoteAddr
    {
      this.host := host;
      this.url := url;
      this.header := header;
      this.remoteAddr := remoteAddr;
    }
  }

  const NotFoundHead: string :=
    "<!DOCTYPE html>\n<html>\n<head><title>Tunnel Not Found</title></head>\n<body>\n"
    + "<h1>🚇 gotunnel - Route Not Found</h1>\n<p>No tunnel configured for <strong>"
  const NotFoundMid: string := "</strong></p>\n<p>Available routes:</p>\n<ul>"
  const NotFoundTail: string :=
    "</ul>\n<p><em>Configure a tunnel with: <code>gotunnel start [name] --port [port]</code></em></p>\n"
    + "</body>\n</html>"

  /** The `<li>` items of the route list, in the order given. */
  function ListItems(keys: seq<string>): string {
    if keys == [] then "" else ListItems(keys[..|keys| - 1]) + "<li>" + keys[|keys| - 1] + "</li>"
  }

  /** Every key of the list has its own item on the page. */
  lemma {:induction false} ListItemsContains(keys: seq<string>, k: string)
    requires k in keys
    ensures Contains(ListItems(keys), "<li>" + k + "</li>")
    decreases |keys|
  {
    var init := keys[..|keys| - 1];
    var last := keys[|keys| - 1];
    assert ListItems(keys) == ListItems(init) + ("<li>" + last + "</li>");
    if k == last {
      ContainsItself("<li>" + k + "</li>");
      ContainsRight(ListItems(init), "<li>" + last + "</li>", "<li>" + k + "</li>");
    } else {
      assert k in init;
      ListItemsContains(init, k);
      ContainsLeft(ListItems(init), "<li>" + last + "</li>", "<li>" + k + "</li>");
    }
  }

  /** The 404 page for a host, listing the keys in the order given. */
  function NotFoundPage(host: string, keys: seq<string>): string {
    NotFoundHead + host + NotFoundMid + ListItems(keys) + NotFoundTail
  }

  /** `Manager`: the proxy's configuration, route table and listening state. */
  class Manager {
    var config: ProxyConfig
    var routes: map<string, Route>
    var serving: bool
    var actualPort: int

    /** `NewManager`: zero ports and an empty mode get their defaults; the table starts empty. */
    constructor (config: ProxyConfig)
      ensures this.config.httpPort == (if config.httpPort == 0 then 80 else config.httpPort)
      ensures this.config.httpsPort == (if config.httpsPort == 0 then 443 else config.httpsPort)
      ensures this.config.mode == (if config.mode == "" then "auto" else config.mode)
      ensures this.config.(httpPort := config.httpPort, httpsPort := config.httpsPort, mode := config.mode) == config
      ensures routes == map[] && !serving && actualPort == 0
    {
      var c := config;
      if c.httpPort == 0 {
        c := c.(httpPort := 80);
      }
      if c.httpsPort == 0 {
        c := c.(httpsPort := 443);
      }
      if c.mode == "" {
        c := c.(mode := "auto");
      }
      this.config := c;
      routes := map[];
      serving := false;
      actualPort := 0;
    }

    /**
     * `Start`: the mode switch. The built-in proxy listens through `listen`,
     * which gives the port actually bound or the listener's error; the nginx, caddy
     * and config-file modes are handled by code that is not part of this model,
     * whose outcome is `delegated`.
     */
    method Start(privileged: bool, listen: int -> Result<int>, delegated: Option<string>) returns (err: Option<string>)
      modifies this
      ensures config == old(config) && routes == old(routes)
      ensures match ModeAction(config.mode)
        case BuiltIn =>
          var port := ListenPort(config.httpPort, privileged);
          (match listen(port)
           case Err(e) =>
             err == Some("failed to create proxy listener on port " + Itoa(port) + ": " + e)
             && serving == old(serving) && actualPort == old(actualPort)
           case Ok(bound) => err == None && serving && actualPort == bound)
        case Nothing => err == None && serving == old(serving) && actualPort == old(actualPort)
        case Unsupported =>
          err == Some("unsupported proxy mode: " + config.mode)
          && serving == old(serving) && actualPort == old(actualPort)
        case _ => err == delegated && serving == old(serving) && actualPort == old(actualPort)
    {
      var action := ModeAction(config.mode);
      match action {
        case BuiltIn =>
          var port := ListenPort(config.httpPort, privileged);
          var l := listen(port);
          if l.Err? {
            return Some("failed to create proxy listener on port " + Itoa(port) + ": " + l.msg);
          }
          serving := true;
          actualPort := l.value;
          err := None;
        case Nothing =>
          err := None;
        case Unsupported =>
          err := Some("unsupported proxy mode: " + config.mode);
        case _ =>
          err := delegated;
      }
    }

    /** `AddRoute`: the route under its domain without `.local` and with it; never fails. */
    method AddRoute(route: Route) returns (err: Option<string>)
      modifies this
      ensures routes == WithRoute(old(routes), route)
      ensures err == None
      ensures config == old(config) && serving == old(serving) && actualPort == old(actualPort)
    {
      var domain := route.domain;
      if HasSuffix(domain, LocalSuffix) {
        domain := TrimSuffix(domain, LocalSuffix);
      }
      routes := routes[domain + LocalSuffix := route];
      routes := routes[domain := route];
      err := None;
    }

    /** `RemoveRoute`: deletes the domain and its other form; never fails. */
    method RemoveRoute(domain: string) returns (err: Option<string>)
      modifies this
      ensures routes == WithoutRoute(old(routes), domain)
      ensures err == None
      ensures config == old(config) && serving == old(serving) && actualPort == old(actualPort)
    {
      routes := routes - {domain};
      if HasSuffix(domain, LocalSuffix) {
        routes := routes - {TrimSuffix(domain, LocalSuffix)};
      } else {
        routes := routes - {domain + LocalSuffix};
      }
      err := None;
    }

    /** `ListRoutes`: a copy of the table, made entry by entry. */
    method ListRoutes() returns (copy: map<string, Route>)
      ensures copy == routes
    {
      copy := map[];
      var remaining := routes.Keys;
      while remaining != {}
        invariant remaining <= routes.Keys
        invariant copy.Keys == routes.Keys - remaining
        invariant forall k :: k in copy ==> copy[k] == routes[k]
        decreases remaining
      {
        var k :| k in remaining;
        copy := copy[k := routes[k]];
        remaining := remaining - {k};
      }
    }

    /**
     * `proxyDirector`: on a miss the URL is cleared and nothing else changes; on a
     * hit the scheme and target come from the route and the forwarding headers are set.
     * Go requests that reach the director always carry a URL, which a hit dereferences.
     */
    method Director(req: Request)
      requires StripPort(req.host) in routes ==> req.url.Some?
      modifies req
      ensures req.remoteAddr == old(req.remoteAddr)
      ensures var host := StripPort(old(req.host));
        if host !in routes then
          req.url == None && req.host == old(req.host) && req.header == old(req.header)
        else
          var route := routes[host];
          req.url == Some(old(req.url).value.(scheme := Scheme(route), host := TargetAddr(route)))
          && req.host == TargetAddr(route)
          && req.header == old(req.header)
               ["X-Forwarded-For" := ClientIP(old(req.header), req.remoteAddr)]
               ["X-Forwarded-Proto" := Scheme(route)]
               ["X-Forwarded-Host" := host]
    {
      var host := StripPort(req.host);
      if host !in routes {
        req.url := None;
        return;
      }
      var route := routes[host];
      var scheme := if route.https then "https" else "http";
      var target := route.targetHost + ":" + Itoa(route.targetPort);
      req.url := Some(req.url.value.(scheme := scheme));
      req.url := Some(req.url.value.(host := target));
      req.host := target;
      var ip := ClientIP(req.header, req.remoteAddr);
      req.header := req.header["X-Forwarded-For" := ip];
      req.header := req.header["X-Forwarded-Proto" := scheme];
      req.header := req.header["X-Forwarded-Host" := host];
    }

    /**
     * `proxyErrorHandler`: a request the director cleared gets the 404 page naming
     * its host and listing every route key (in the table's iteration order, recorded
     * in `order`); any other failure gets 502 with the error text.
     */
    method ErrorHandler(req: Request, err: string) returns (status: int, body: string, ghost order: seq<string>)
      ensures req.url.None? ==>
        status == 404 && body == NotFoundPage(StripPort(req.host), order)
        && |order| == |routes| && (forall k :: k in order <==> k in routes)
        && Contains(body, StripPort(req.host))
        && (forall k :: k in routes ==> Contains(body, "<li>" + k + "</li>"))
      ensures req.url.Some? ==> status == 502 && body == "Proxy Error: " + err
    {
      var host := StripPort(req.host);
      if req.url.Some? {
        status, body, order := 502, "Proxy Error: " + err, [];
        return;
      }
      status := 404;
      var items := "";
      order := [];
      var remaining := routes.Keys;
      while remaining != {}
        invariant remaining <= routes.Keys
        invariant forall k :: k in order <==> k in routes.Keys - remaining
        invariant |order| + |remaining| == |routes.Keys|
        invariant items == ListItems(order)
        decreases remaining
      {
        var k :| k in remaining;
        assert (order + [k])[..|order|] == order;
        items := items + "<li>" + k + "</li>";
        order := order + [k];
        remaining := remaining - {k};
      }
      body := NotFoundHead + host + NotFoundMid + items + NotFoundTail;
      assert body == (NotFoundHead + host) + (NotFoundMid + items + NotFoundTail);
      ContainsItself(host);
      ContainsRight(NotFoundHead, host, host);
      ContainsLeft(NotFoundHead + host, NotFoundMid + items + NotFoundTail, host);
      forall k | k in routes
        ensures Contains(body, "<li>" + k + "</li>")
      {
        var li := "<li>" + k + "</li>";
        ListItemsContains(order, k);
        ContainsRight(NotFoundHead + host + NotFoundMid, items, li);
        ContainsLeft(NotFoundHead + host + NotFoundMid + items, NotFoundTail, li);
      }
    }
  }
}
