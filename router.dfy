/** The HTTP router (router/router.go): a table from host name to route
    configuration, filled once at start-up, and the per-request decision
    chain — client address, firewall gate, input validation, table lookup,
    hardening headers, dispatch by route type and exact path. */
module Router {
  import opened Common
  import opened Config
  import opened Validation
  import opened Registry

  // ---------------------------------------------------------------------------
  // The route table

  /** The table after installing `rs` in order on top of `m`: each entry is
      stored under its listen URL, overwriting what was there. */
  function Installed(m: map<string, ProxyConfig>, rs: seq<ProxyConfig>): map<string, ProxyConfig> {
    if rs == [] then m else Installed(m, rs[..|rs| - 1])[rs[|rs| - 1].listenUrl := rs[|rs| - 1]]
  }

  class RouteTable {
    var routes: map<string, ProxyConfig>

    /** The package-level table starts empty. */
    constructor ()
      ensures routes == map[]
    {
      routes := map[];
    }

    /** InitRouter: store every configuration under its listen URL, in order. */
    method InitRouter(routConf: seq<ProxyConfig>)
      modifies this
      ensures routes == Installed(old(routes), routConf)
    {
      for i := 0 to |routConf|
        invariant routes == Installed(old(routes), routConf[..i])
      {
        assert routConf[..i + 1][..i] == routConf[..i];
        routes := routes[routConf[i].listenUrl := routConf[i]];
      }
      assert routConf[..|routConf|] == routConf;
    }
  }

  /** The last configuration for a host is the one the table keeps. */
  lemma {:induction false} InitRouterLastWins(m: map<string, ProxyConfig>, rs: seq<ProxyConfig>, i: nat)
    requires i < |rs|
    requires forall j :: i < j < |rs| ==> rs[j].listenUrl != rs[i].listenUrl
    ensures rs[i].listenUrl in Installed(m, rs) && Installed(m, rs)[rs[i].listenUrl] == rs[i]
  {
    if i < |rs| - 1 {
      var pre := rs[..|rs| - 1];
      assert pre[i] == rs[i];
      InitRouterLastWins(m, pre, i);
    }
  }

  /** A host that no configuration names keeps whatever the table held for it. */
  lemma {:induction false} InitRouterUntouched(m: map<string, ProxyConfig>, rs: seq<ProxyConfig>, u: string)
    requires forall j :: 0 <= j < |rs| ==> rs[j].listenUrl != u
    ensures u in Installed(m, rs) <==> u in m
    ensures u in m ==> Installed(m, rs)[u] == m[u]
  {
    if rs != [] {
      var pre := rs[..|rs| - 1];
      assert forall j :: 0 <= j < |pre| ==> pre[j] == rs[j];
      InitRouterUntouched(m, pre, u);
    }
  }

  // ---------------------------------------------------------------------------
  // Requests and outcomes

  /** The parts of an HTTP request the router reads. `remoteIP` is the outcome
      of splitting `RemoteAddr` into host and port (None when it fails). */
  datatype Request = Request(host: string, remoteIP: Option<string>, path: string, isTLS: bool)

  /** What the router hands the request to. */
  datatype Action =
    | NoAction                 // static, redirect, or a path the portal does not serve
    | ProxyTo(route: ProxyConfig)
    | ServeFile(file: string)
    | Auth
    | Sse

  datatype Outcome =
    | Rejected(status: nat)
    | Routed(headers: map<string, string>, action: Action)

  const StatusInternalServerError: nat := 500
  const StatusProxyAuthRequired: nat := 407
  const StatusBadRequest: nat := 400

  const HeaderHSTS: string := "Strict-Transport-Security"
  const HeaderNoSniff: string := "X-Content-Type-Options"
  const HeaderCSP: string := "Content-Security-Policy"
  const HeaderReferrer: string := "Referrer-Policy"
  const HeaderPermissions: string := "Permissions-Policy"

  /** The hardening headers: four fixed ones, plus HSTS over TLS only. */
  function HardeningHeaders(isTLS: bool): map<string, string> {
    var base := map[
      HeaderNoSniff := "nosniff",
      HeaderCSP := "default-src 'self'; frame-ancestors 'none'",
      HeaderReferrer := "no-referrer",
      HeaderPermissions := "geolocation=(), camera=(), microphone=()"];
    if isTLS then base[HeaderHSTS := "max-age=63072000; includeSubDomains; preload"] else base
  }

  /** The routing key: the lower-cased Host up to its first ':' (all of it
      when it has none). */
  function HostKey(host: string): (key: string)
    ensures key <= ToLower(host) && ':' !in key
    ensures key == ToLower(host) || ToLower(host)[|key|] == ':'
  {
    SplitSpec(ToLower(host), ':');
    Split(ToLower(host), ':')[0]
  }

  /** The firewall gate of the router: with the firewall on and default-allow
      off, only whitelisted clients pass, except towards the portal itself. */
  predicate FirewallPasses(fw: FirewallConfig, web: WebserverConfig, reg: RegistryState, ip: string, key: string) {
    !fw.enableFirewall || fw.defaultAllow || Whitelisted(reg, ip) || key == web.listenURL
  }

  /** The portal's own pages: served only on these exact paths. */
  function FuncAction(path: string, web: WebserverConfig): Action {
    if path == "/" then ServeFile(web.staticDir)
    else if path == "/styles.css" || path == "/styles.css/" then ServeFile(web.staticDir + "/styles.css")
    else if path == "/script_v2.js" then ServeFile(web.staticDir + "/script_v2.js")
    else if path == "/auth" then Auth
    else if path == "/sse" then Sse
    else NoAction
  }

  function Dispatch(route: ProxyConfig, path: string, web: WebserverConfig): Action {
    if route.routeType == "proxy" then ProxyTo(route)
    else if route.routeType == "func" && web.enableWebServer then FuncAction(path, web)
    else NoAction
  }

  /** route: the decision for one request, against the route table and the
      registry as they stand. */
  function Route(req: Request, web: WebserverConfig, fw: FirewallConfig, routes: map<string, ProxyConfig>, reg: RegistryState): (o: Outcome)
    ensures o.Rejected? ==> o.status in {StatusInternalServerError, StatusProxyAuthRequired, StatusBadRequest}
    ensures o.Routed? ==> req.remoteIP.Some? && HostKey(req.host) in routes
    ensures o.Routed? ==> '\0' !in req.path && forall i :: 0 <= i < |req.path| - 1 ==> !(req.path[i] == '.' && req.path[i + 1] == '.')
    ensures o.Routed? && o.action.ProxyTo? ==> o.action.route == routes[HostKey(req.host)]
  {
    var key := HostKey(req.host);
    match req.remoteIP
    case None => Rejected(StatusInternalServerError)
    case Some(ip) =>
      if !FirewallPasses(fw, web, reg, ip, key) then Rejected(StatusProxyAuthRequired)
      else if !ValidateInput(req.path, TypePath) then Rejected(StatusBadRequest)
      else if !ValidateInput(key, TypeURL) then Rejected(StatusBadRequest)
      else if key !in routes then Rejected(StatusBadRequest)
      else
        var route := routes[key];
        Routed(if route.noHeaders then map[] else HardeningHeaders(req.isTLS), Dispatch(route, req.path, web))
  }

  // ---------------------------------------------------------------------------
  // Properties of the decision

  /** A request is routed exactly when its address parses, it passes the
      firewall gate, path and host are valid, and the host has a route. */
  lemma RouteAdmission(req: Request, web: WebserverConfig, fw: FirewallConfig, routes: map<string, ProxyConfig>, reg: RegistryState)
    ensures Route(req, web, fw, routes, reg).Routed? <==>
      && req.remoteIP.Some?
      && FirewallPasses(fw, web, reg, req.remoteIP.value, HostKey(req.host))
      && ValidateInput(req.path, TypePath)
      && ValidateInput(HostKey(req.host), TypeURL)
      && HostKey(req.host) in routes
  {
  }

  /** The checks run in a fixed order: an unparsable address is a 500 before
      anything else, the firewall's 407 comes before every 400, and every
      other rejection is a 400. */
  lemma RouteStatusOrder(req: Request, web: WebserverConfig, fw: FirewallConfig, routes: map<string, ProxyConfig>, reg: RegistryState)
    ensures req.remoteIP.None? ==> Route(req, web, fw, routes, reg) == Rejected(500)
    ensures req.remoteIP.Some? && !FirewallPasses(fw, web, reg, req.remoteIP.value, HostKey(req.host)) ==>
      Route(req, web, fw, routes, reg) == Rejected(407)
    ensures req.remoteIP.Some? && FirewallPasses(fw, web, reg, req.remoteIP.value, HostKey(req.host)) && Route(req, web, fw, routes, reg).Rejected? ==>
      Route(req, web, fw, routes, reg) == Rejected(400)
  {
  }

  /** A non-whitelisted client behind the firewall is refused everywhere but
      on the portal host, which answers whatever the whitelist says. */
  lemma PortalAlwaysReachable(req: Request, web: WebserverConfig, fw: FirewallConfig, routes: map<string, ProxyConfig>, reg: RegistryState, reg': RegistryState)
    requires HostKey(req.host) == web.listenURL
    ensures Route(req, web, fw, routes, reg) == Route(req, web, fw, routes, reg')
  {
  }

  /** Hardening headers are set iff the route does not opt out, and HSTS only
      over TLS. */
  lemma RouteHeaders(req: Request, web: WebserverConfig, fw: FirewallConfig, routes: map<string, ProxyConfig>, reg: RegistryState)
    requires Route(req, web, fw, routes, reg).Routed?
    ensures var o := Route(req, web, fw, routes, reg); var route := routes[HostKey(req.host)];
      && (o.headers == map[] <==> route.noHeaders)
      && (HeaderHSTS in o.headers <==> !route.noHeaders && req.isTLS)
      && (!route.noHeaders ==> forall h :: h in [HeaderNoSniff, HeaderCSP, HeaderReferrer, HeaderPermissions] ==> h in o.headers)
  {
    HardeningHeadersShape(req.isTLS);
    assert HeaderNoSniff in HardeningHeaders(req.isTLS);
  }

  /** The four fixed headers are always there; HSTS exactly over TLS. */
  lemma HardeningHeadersShape(isTLS: bool)
    ensures forall h :: h in [HeaderNoSniff, HeaderCSP, HeaderReferrer, HeaderPermissions] ==> h in HardeningHeaders(isTLS)
    ensures HeaderHSTS in HardeningHeaders(isTLS) <==> isTLS
  {
  }

  /** Dispatch: proxy routes go to the reverse proxy with their own
      configuration; static and redirect routes do nothing; portal routes do
      nothing unless the web server is enabled. */
  lemma RouteDispatch(req: Request, web: WebserverConfig, fw: FirewallConfig, routes: map<string, ProxyConfig>, reg: RegistryState)
    requires Route(req, web, fw, routes, reg).Routed?
    ensures var a := Route(req, web, fw, routes, reg).action; var route := routes[HostKey(req.host)];
      && (a.ProxyTo? <==> route.routeType == "proxy")
      && (a.ProxyTo? ==> a.route == route)
      && (route.routeType in {"static", "redirect"} ==> a == NoAction)
      && (route.routeType == "func" && !web.enableWebServer ==> a == NoAction)
      && (a.Auth? || a.Sse? || a.ServeFile? ==> route.routeType == "func" && web.enableWebServer)
  {
  }

  /** The portal serves exactly six paths; /auth and /sse only as themselves. */
  lemma FuncPaths(path: string, web: WebserverConfig)
    ensures FuncAction(path, web) != NoAction <==>
      path in ["/", "/styles.css", "/styles.css/", "/script_v2.js", "/auth", "/sse"]
    ensures FuncAction(path, web) == Auth <==> path == "/auth"
    ensures FuncAction(path, web) == Sse <==> path == "/sse"
  {
  }

  /** The port never takes part in the lookup: a host with a port has the
      key of the lower-cased host without it. */
  lemma HostKeyStripsPort(host: string, port: string)
    requires ':' !in host
    ensures HostKey(host + ":" + port) == ToLower(host)
  {
    var s := ToLower(host + ":" + port);
    assert s == ToLower(host) + [':'] + ToLower(port);
    SplitHead(ToLower(host), ToLower(port), ':');
  }
}
