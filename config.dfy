/** Configuration records and the two passes over the proxy list
    (config/config.go): ParseMulti expands `listen_urls`, then `ports`, then
    `a-b` port ranges into one entry each; ParseProxies builds the map from
    port to listener and rejects conflicting claims on a port. */
module Config {
  import opened Common

  datatype ProxyConfig = ProxyConfig(
    listenUrl: string,
    listenUrls: seq<string>,
    port: string,
    ports: seq<string>,
    targetAddr: string,
    routeType: string,
    protocol: string,
    allowInsecure: bool,
    noHeaders: bool,
    headers: map<string, string>)

  datatype TLSConfig = TLSConfig(enableTLS: bool, cert: string, key: string, domains: seq<string>)

  datatype FirewallConfig = FirewallConfig(enableFirewall: bool, defaultAllow: bool)

  datatype WebserverConfig = WebserverConfig(
    enableWebServer: bool, listenPort: string, listenURL: string, staticDir: string, keysDir: string)

  datatype ConfigError =
    | BadRangeBound(text: string)  // strconv.Atoi rejected a range bound
    | BadRangeOrder                // a range starting at a higher or the same number
    | RawWebClash                  // tcp/udp and web on one port
    | HttpThenHttps                // an https entry on a port opened for http
    | HttpsThenHttp                // an http entry on a port opened for https
    | RawRawClash                  // two tcp/udp proxies on one port

  // ===========================================================================
  // ParseMulti

  /** The entries one configuration becomes in the URL pass. */
  function ExpandUrl(conf: ProxyConfig): seq<ProxyConfig> {
    if |conf.listenUrls| > 0 then
      seq(|conf.listenUrls|, k requires 0 <= k < |conf.listenUrls| => conf.(listenUrl := conf.listenUrls[k]))
    else [conf]
  }

  function ExpandUrls(cs: seq<ProxyConfig>): seq<ProxyConfig> {
    if cs == [] then [] else ExpandUrls(cs[..|cs| - 1]) + ExpandUrl(cs[|cs| - 1])
  }

  /** The entries one configuration becomes in the port pass. */
  function ExpandPort(conf: ProxyConfig): seq<ProxyConfig> {
    if |conf.ports| > 0 then
      seq(|conf.ports|, k requires 0 <= k < |conf.ports| => conf.(port := conf.ports[k]))
    else [conf]
  }

  function ExpandPorts(cs: seq<ProxyConfig>): seq<ProxyConfig> {
    if cs == [] then [] else ExpandPorts(cs[..|cs| - 1]) + ExpandPort(cs[|cs| - 1])
  }

  /** The entries `conf` becomes for the port range `from-until`. */
  function RangeEntries(conf: ProxyConfig, from: int, until: int): seq<ProxyConfig>
    requires from <= until
  {
    seq(until - from + 1, k requires 0 <= k < until - from + 1 => conf.(port := ":" + Itoa(from + k)))
  }

  /** The range pass on one configuration: a port with a '-' in it is a range
      whose first two pieces must read as integers, the first below the second. */
  function ExpandRange(conf: ProxyConfig): Result<seq<ProxyConfig>, ConfigError> {
    var pieces := Split(conf.port, '-');
    if |pieces| > 1 then
      match Atoi(pieces[0])
      case None => Err(BadRangeBound(pieces[0]))
      case Some(from) =>
        match Atoi(pieces[1])
        case None => Err(BadRangeBound(pieces[1]))
        case Some(until) =>
          if from >= until then Err(BadRangeOrder) else Ok(RangeEntries(conf, from, until))
    else Ok([conf])
  }

  /** The range pass on a list: the first entry that fails decides the error. */
  function ExpandRanges(cs: seq<ProxyConfig>): Result<seq<ProxyConfig>, ConfigError> {
    if cs == [] then Ok([]) else Concat(ExpandRanges(cs[..|cs| - 1]), ExpandRange(cs[|cs| - 1]))
  }

  /** Two expansions one after the other: the first error, or both lists. */
  function Concat(r1: Result<seq<ProxyConfig>, ConfigError>, r2: Result<seq<ProxyConfig>, ConfigError>): Result<seq<ProxyConfig>, ConfigError> {
    match r1
    case Err(e) => Err(e)
    case Ok(x) => match r2 case Err(e) => Err(e) case Ok(y) => Ok(x + y)
  }

  /** What ParseMulti computes: URLs first, then ports, then ranges. */
  function Expanded(cfg: seq<ProxyConfig>): Result<seq<ProxyConfig>, ConfigError> {
    ExpandRanges(ExpandPorts(ExpandUrls(cfg)))
  }

  /** ParseMulti: three passes, each appending to a fresh list; a bad range
      aborts with an error. */
  method ParseMulti(cfg: seq<ProxyConfig>) returns (r: Result<seq<ProxyConfig>, ConfigError>)
    ensures r == Expanded(cfg)
  {
    var resultAfterUrls := UrlPass(cfg);
    var resultAfterPorts := PortPass(resultAfterUrls);
    r := RangePass(resultAfterPorts);
  }

  /** The first loop of ParseMulti. */
  method UrlPass(cfg: seq<ProxyConfig>) returns (resultAfterUrls: seq<ProxyConfig>)
    ensures resultAfterUrls == ExpandUrls(cfg)
  {
    resultAfterUrls := [];
    for i := 0 to |cfg|
      invariant resultAfterUrls == ExpandUrls(cfg[..i])
    {
      var conf := cfg[i];
      assert cfg[..i + 1][..i] == cfg[..i];
      if |conf.listenUrls| > 0 {
        for j := 0 to |conf.listenUrls|
          invariant resultAfterUrls == ExpandUrls(cfg[..i]) + ExpandUrl(conf)[..j]
        {
          assert ExpandUrl(conf)[..j + 1] == ExpandUrl(conf)[..j] + [conf.(listenUrl := conf.listenUrls[j])];
          resultAfterUrls := resultAfterUrls + [conf.(listenUrl := conf.listenUrls[j])];
        }
        assert ExpandUrl(conf)[..|conf.listenUrls|] == ExpandUrl(conf);
      } else {
        resultAfterUrls := resultAfterUrls + [conf];
      }
    }
    assert cfg[..|cfg|] == cfg;
  }

  /** The second loop of ParseMulti. */
  method PortPass(cfg: seq<ProxyConfig>) returns (resultAfterPorts: seq<ProxyConfig>)
    ensures resultAfterPorts == ExpandPorts(cfg)
  {
    resultAfterPorts := [];
    for i := 0 to |cfg|
      invariant resultAfterPorts == ExpandPorts(cfg[..i])
    {
      var conf := cfg[i];
      assert cfg[..i + 1][..i] == cfg[..i];
      if |conf.ports| > 0 {
        for j := 0 to |conf.ports|
          invariant resultAfterPorts == ExpandPorts(cfg[..i]) + ExpandPort(conf)[..j]
        {
          assert ExpandPort(conf)[..j + 1] == ExpandPort(conf)[..j] + [conf.(port := conf.ports[j])];
          resultAfterPorts := resultAfterPorts + [conf.(port := conf.ports[j])];
        }
        assert ExpandPort(conf)[..|conf.ports|] == ExpandPort(conf);
      } else {
        resultAfterPorts := resultAfterPorts + [conf];
      }
    }
    assert cfg[..|cfg|] == cfg;
  }

  /** The third loop of ParseMulti. */
  method RangePass(cfg: seq<ProxyConfig>) returns (r: Result<seq<ProxyConfig>, ConfigError>)
    ensures r == ExpandRanges(cfg)
  {
    var resultAfterRanges: seq<ProxyConfig> := [];
    for i := 0 to |cfg|
      invariant ExpandRanges(cfg[..i]) == Ok(resultAfterRanges)
    {
      var conf := cfg[i];
      RangeStep(cfg, i);
      var splitResult := Split(conf.port, '-');
      if |splitResult| > 1 {
        var fromInt := Atoi(splitResult[0]);
        if fromInt.None? {
          assert ExpandRange(conf).Err?;
          RangeErrorPersists(cfg, i + 1);
          return Err(BadRangeBound(splitResult[0]));
        }
        var untilInt := Atoi(splitResult[1]);
        if untilInt.None? {
          assert ExpandRange(conf).Err?;
          RangeErrorPersists(cfg, i + 1);
          return Err(BadRangeBound(splitResult[1]));
        }
        var from, until := fromInt.value, untilInt.value;
        if from >= until {
          assert ExpandRange(conf).Err?;
          RangeErrorPersists(cfg, i + 1);
          return Err(BadRangeOrder);
        }
        assert ExpandRange(conf) == Ok(RangeEntries(conf, from, until));
        resultAfterRanges := AppendRange(resultAfterRanges, conf, from, until);
      } else {
        assert ExpandRange(conf) == Ok([conf]);
        resultAfterRanges := resultAfterRanges + [conf];
      }
    }
    assert cfg[..|cfg|] == cfg;
    return Ok(resultAfterRanges);
  }

  /** One more entry of the range pass. */
  lemma RangeStep(cfg: seq<ProxyConfig>, i: nat)
    requires i < |cfg|
    ensures ExpandRanges(cfg[..i + 1]) == Concat(ExpandRanges(cfg[..i]), ExpandRange(cfg[i]))
  {
    assert cfg[..i + 1][..i] == cfg[..i];
  }

  /** The innermost loop of ParseMulti: one entry per port of the range. */
  method AppendRange(acc: seq<ProxyConfig>, conf: ProxyConfig, from: int, until: int)
    returns (result: seq<ProxyConfig>)
    requires from <= until
    ensures result == acc + RangeEntries(conf, from, until)
  {
    result := acc;
    var k := from;
    while k <= until
      invariant from <= k <= until + 1
      invariant result == acc + RangeEntries(conf, from, until)[..k - from]
    {
      assert RangeEntries(conf, from, until)[..k - from + 1]
        == RangeEntries(conf, from, until)[..k - from] + [conf.(port := ":" + Itoa(k))];
      result := result + [conf.(port := ":" + Itoa(k))];
      k := k + 1;
    }
    assert RangeEntries(conf, from, until)[..k - from] == RangeEntries(conf, from, until);
  }

  /** Once a prefix of the list fails the range pass, the whole list fails with
      the same error. */
  lemma {:induction false} RangeErrorPersists(cs: seq<ProxyConfig>, n: nat)
    requires n <= |cs| && ExpandRanges(cs[..n]).Err?
    ensures ExpandRanges(cs) == ExpandRanges(cs[..n])
    decreases |cs| - n
  {
    if n < |cs| {
      assert cs[..n + 1][..n] == cs[..n];
      RangeErrorPersists(cs, n + 1);
    } else {
      assert cs[..n] == cs;
    }
  }

  // ---------------------------------------------------------------------------
  // Properties of the expansion

  /** Each pass works entry by entry: the expansion of a concatenation is the
      concatenation of the expansions. */
  lemma {:induction false} ExpandUrlsAppend(a: seq<ProxyConfig>, b: seq<ProxyConfig>)
    ensures ExpandUrls(a + b) == ExpandUrls(a) + ExpandUrls(b)
    decreases |b|
  {
    if b != [] {
      assert (a + b)[..|a + b| - 1] == a + b[..|b| - 1];
      ExpandUrlsAppend(a, b[..|b| - 1]);
    } else {
      assert a + b == a;
    }
  }

  lemma {:induction false} ExpandPortsAppend(a: seq<ProxyConfig>, b: seq<ProxyConfig>)
    ensures ExpandPorts(a + b) == ExpandPorts(a) + ExpandPorts(b)
    decreases |b|
  {
    if b != [] {
      assert (a + b)[..|a + b| - 1] == a + b[..|b| - 1];
      ExpandPortsAppend(a, b[..|b| - 1]);
    } else {
      assert a + b == a;
    }
  }

  /** Entries without `listen_urls` pass through the URL pass unchanged. */
  lemma {:induction false} ExpandUrlsIdentity(cs: seq<ProxyConfig>)
    requires forall i :: 0 <= i < |cs| ==> cs[i].listenUrls == []
    ensures ExpandUrls(cs) == cs
  {
    if cs != [] {
      ExpandUrlsIdentity(cs[..|cs| - 1]);
      assert cs == cs[..|cs| - 1] + [cs[|cs| - 1]];
    }
  }

  /** Row u of the URL x port grid of `conf`: URL u with each port in turn. */
  function GridRow(conf: ProxyConfig, u: nat): seq<ProxyConfig>
    requires u < |conf.listenUrls|
  {
    seq(|conf.ports|, q requires 0 <= q < |conf.ports| => conf.(listenUrl := conf.listenUrls[u], port := conf.ports[q]))
  }

  /** The first n rows of the grid, in URL order. */
  function Grid(conf: ProxyConfig, n: nat): seq<ProxyConfig>
    requires n <= |conf.listenUrls|
  {
    if n == 0 then [] else Grid(conf, n - 1) + GridRow(conf, n - 1)
  }

  /** One entry with both `listen_urls` and `ports` and no range comes out
      url-major, port-minor: for each URL in order, one entry per port in
      order, every other field copied. */
  lemma UrlMajorPortMinor(conf: ProxyConfig)
    requires |conf.listenUrls| > 0 && |conf.ports| > 0
    requires forall q :: 0 <= q < |conf.ports| ==> '-' !in conf.ports[q]
    ensures Expanded([conf]) == Ok(Grid(conf, |conf.listenUrls|))
  {
    var byUrl := ExpandUrl(conf);
    assert ExpandUrls([conf]) == byUrl by { assert [conf][..0] == []; }
    ExpandPortsGrid(conf, |conf.listenUrls|);
    assert byUrl[..|conf.listenUrls|] == byUrl;
    GridPorts(conf, |conf.listenUrls|);
    ExpandRangesIdentity(Grid(conf, |conf.listenUrls|));
  }

  /** The port pass over the first n URL copies of `conf` gives the first n
      rows of the grid. */
  lemma {:induction false} ExpandPortsGrid(conf: ProxyConfig, n: nat)
    requires 0 < |conf.listenUrls| && n <= |conf.listenUrls| && |conf.ports| > 0
    ensures ExpandPorts(ExpandUrl(conf)[..n]) == Grid(conf, n)
  {
    if n > 0 {
      ExpandPortsGrid(conf, n - 1);
      var xs := ExpandUrl(conf)[..n];
      assert xs[..n - 1] == ExpandUrl(conf)[..n - 1];
      assert xs[n - 1] == conf.(listenUrl := conf.listenUrls[n - 1]);
      assert ExpandPort(xs[n - 1]) == GridRow(conf, n - 1);
    }
  }

  /** Every port in the grid is one of the configured ports. */
  lemma {:induction false} GridPorts(conf: ProxyConfig, n: nat)
    requires n <= |conf.listenUrls|
    requires forall q :: 0 <= q < |conf.ports| ==> '-' !in conf.ports[q]
    ensures forall i :: 0 <= i < |Grid(conf, n)| ==> '-' !in Grid(conf, n)[i].port
  {
    if n > 0 {
      GridPorts(conf, n - 1);
      var g: seq<ProxyConfig>, row: seq<ProxyConfig> := Grid(conf, n - 1), GridRow(conf, n - 1);
      forall i | 0 <= i < |g + row| ensures '-' !in (g + row)[i].port {
        if i >= |g| {
          assert (g + row)[i] == row[i - |g|];
        }
      }
    }
  }

  /** Entries whose port has no '-' pass through the range pass unchanged. */
  lemma {:induction false} ExpandRangesIdentity(cs: seq<ProxyConfig>)
    requires forall i :: 0 <= i < |cs| ==> '-' !in cs[i].port
    ensures ExpandRanges(cs) == Ok(cs)
  {
    if cs != [] {
      var pre, c := cs[..|cs| - 1], cs[|cs| - 1];
      ExpandRangesIdentity(pre);
      NoRange(c);
      assert ExpandRanges(cs) == Concat(Ok(pre), Ok([c]));
      assert cs == pre + [c];
    }
  }

  /** A port without '-' is not a range: the entry passes unchanged. */
  lemma NoRange(c: ProxyConfig)
    requires '-' !in c.port
    ensures ExpandRange(c) == Ok([c])
  {
    assert Join([c.port], '-') == c.port;
    SplitJoin([c.port], '-');
    assert Split(c.port, '-') == [c.port];
  }

  /** A rejected entry anywhere in the list fails the whole range pass. */
  lemma BadRangeFailsPass(xs: seq<ProxyConfig>, i: nat)
    requires i < |xs| && ExpandRange(xs[i]).Err?
    ensures ExpandRanges(xs).Err?
  {
    RangeStep(xs, i);
    ConcatErr(ExpandRanges(xs[..i]), ExpandRange(xs[i]));
    RangeErrorPersists(xs, i + 1);
  }

  lemma ConcatErr(r1: Result<seq<ProxyConfig>, ConfigError>, r2: Result<seq<ProxyConfig>, ConfigError>)
    requires r2.Err?
    ensures Concat(r1, r2).Err?
  {
  }

  /** ParseMulti fails as soon as, after the URL and port passes, some entry
      has a port with a '-' whose first two pieces are not integers, or whose
      first number is not below the second. */
  lemma BadRangeFails(cfg: seq<ProxyConfig>, i: nat)
    requires i < |ExpandPorts(ExpandUrls(cfg))| && BadRange(ExpandPorts(ExpandUrls(cfg))[i].port)
    ensures Expanded(cfg).Err?
  {
    var xs := ExpandPorts(ExpandUrls(cfg));
    RangeRejected(xs[i]);
    BadRangeFailsPass(xs, i);
  }

  /** A list with no rejected port passes the range pass. */
  lemma {:induction false} GoodRangesPass(xs: seq<ProxyConfig>)
    requires forall i :: 0 <= i < |xs| ==> !BadRange(xs[i].port)
    ensures ExpandRanges(xs).Ok?
    decreases |xs|
  {
    if xs != [] {
      var pre := xs[..|xs| - 1];
      assert forall i :: 0 <= i < |pre| ==> pre[i] == xs[i];
      GoodRangesPass(pre);
      RangeRejected(xs[|xs| - 1]);
    }
  }

  /** ParseMulti fails exactly when some entry after the URL and port passes
      has a rejected port range. */
  lemma ParseMultiFailsIff(cfg: seq<ProxyConfig>)
    ensures Expanded(cfg).Err? <==>
      exists i :: 0 <= i < |ExpandPorts(ExpandUrls(cfg))| && BadRange(ExpandPorts(ExpandUrls(cfg))[i].port)
  {
    var xs := ExpandPorts(ExpandUrls(cfg));
    if exists i :: 0 <= i < |xs| && BadRange(xs[i].port) {
      var i :| 0 <= i < |xs| && BadRange(xs[i].port);
      BadRangeFails(cfg, i);
    } else {
      GoodRangesPass(xs);
    }
  }

  lemma RangeRejected(c: ProxyConfig)
    ensures ExpandRange(c).Err? <==> BadRange(c.port)
  {
  }

  /** A port the range pass rejects. */
  predicate BadRange(port: string) {
    var pieces := Split(port, '-');
    && |pieces| > 1
    && (Atoi(pieces[0]).None? || Atoi(pieces[1]).None? || Atoi(pieces[0]).value >= Atoi(pieces[1]).value)
  }

  lemma {:induction false} ExpandRangesAppend(a: seq<ProxyConfig>, b: seq<ProxyConfig>)
    ensures ExpandRanges(a + b) == Concat(ExpandRanges(a), ExpandRanges(b))
    decreases |b|
  {
    if b == [] {
      assert a + b == a;
      if ExpandRanges(a).Ok? {
        assert ExpandRanges(a).value + [] == ExpandRanges(a).value;
      }
    } else {
      var b', last := b[..|b| - 1], b[|b| - 1];
      ExpandRangesAppend(a, b');
      assert (a + b)[..|a + b| - 1] == a + b' && (a + b)[|a + b| - 1] == last;
      assert ExpandRanges(a + b) == Concat(ExpandRanges(a + b'), ExpandRange(last));
      assert ExpandRanges(b) == Concat(ExpandRanges(b'), ExpandRange(last));
      ConcatAssoc(ExpandRanges(a), ExpandRanges(b'), ExpandRange(last));
    }
  }

  lemma ConcatAssoc(r1: Result<seq<ProxyConfig>, ConfigError>, r2: Result<seq<ProxyConfig>, ConfigError>, r3: Result<seq<ProxyConfig>, ConfigError>)
    ensures Concat(Concat(r1, r2), r3) == Concat(r1, Concat(r2, r3))
  {
    if r1.Ok? && r2.Ok? && r3.Ok? {
      assert r1.value + r2.value + r3.value == r1.value + (r2.value + r3.value);
    }
  }

  /** ParseMulti treats every entry on its own: if two lists expand, their
      concatenation expands to the concatenation, in the same order. */
  lemma ExpandedAppend(a: seq<ProxyConfig>, b: seq<ProxyConfig>, x: seq<ProxyConfig>, y: seq<ProxyConfig>)
    requires Expanded(a) == Ok(x) && Expanded(b) == Ok(y)
    ensures Expanded(a + b) == Ok(x + y)
  {
    ExpandUrlsAppend(a, b);
    ExpandPortsAppend(ExpandUrls(a), ExpandUrls(b));
    ExpandRangesAppend(ExpandPorts(ExpandUrls(a)), ExpandPorts(ExpandUrls(b)));
  }

  /** One entry with no port range expands to its URL copies, each split by
      its ports. */
  lemma ExpandedOne(conf: ProxyConfig)
    requires '-' !in conf.port && forall q :: 0 <= q < |conf.ports| ==> '-' !in conf.ports[q]
    ensures Expanded([conf]) == Ok(ExpandPorts(ExpandUrl(conf)))
  {
    var byUrl := ExpandUrl(conf);
    UrlCopies(conf);
    PortsOfExpansion(byUrl, conf);
    ExpandRangesIdentity(ExpandPorts(byUrl));
  }

  /** The URL pass on one entry copies its port and ports into every copy. */
  lemma UrlCopies(conf: ProxyConfig)
    ensures ExpandUrls([conf]) == ExpandUrl(conf)
    ensures forall k :: 0 <= k < |ExpandUrl(conf)| ==> ExpandUrl(conf)[k].port == conf.port && ExpandUrl(conf)[k].ports == conf.ports
  {
    assert ExpandUrls([conf]) == ExpandUrls([]) + ExpandUrl(conf) by { assert [conf][..0] == []; }
    forall k | 0 <= k < |ExpandUrl(conf)|
      ensures ExpandUrl(conf)[k].port == conf.port && ExpandUrl(conf)[k].ports == conf.ports
    {
      if |conf.listenUrls| > 0 {
        assert ExpandUrl(conf)[k] == conf.(listenUrl := conf.listenUrls[k]);
      }
    }
  }

  /** The port pass only ever writes the entry's own port or one of its ports. */
  lemma {:induction false} PortsOfExpansion(cs: seq<ProxyConfig>, conf: ProxyConfig)
    requires forall k :: 0 <= k < |cs| ==> cs[k].port == conf.port && cs[k].ports == conf.ports
    requires '-' !in conf.port && forall q :: 0 <= q < |conf.ports| ==> '-' !in conf.ports[q]
    ensures forall i :: 0 <= i < |ExpandPorts(cs)| ==> '-' !in ExpandPorts(cs)[i].port
    decreases |cs|
  {
    if cs != [] {
      var pre := cs[..|cs| - 1];
      PortsOfExpansion(pre, conf);
      var xs: seq<ProxyConfig>, last: seq<ProxyConfig> := ExpandPorts(pre), ExpandPort(cs[|cs| - 1]);
      assert ExpandPorts(cs) == xs + last;
      forall i | 0 <= i < |xs + last| ensures '-' !in (xs + last)[i].port {
        if i >= |xs| {
          assert (xs + last)[i] == last[i - |xs|];
        }
      }
    }
  }

  function Entry(url: string, urls: seq<string>, port: string, ports: seq<string>, target: string, routeType: string, protocol: string): ProxyConfig {
    ProxyConfig(url, urls, port, ports, target, routeType, protocol, false, false, map[])
  }

  const Tcp1 := Entry("", [], ":25565", [], "192.168.129.88:25565", "", "tcp")
  const Web1 := Entry("test1.domain.com", [], ":443", [], "192.168.129.88:80", "proxy", "web")
  const TcpPorts := Entry("", [], "", [":25565", ":3000"], "192.168.129.88:25565", "", "tcp")
  const WebPorts := Entry("test2.domain.com", [], "", [":443", ":80"], "192.168.129.88:80", "proxy", "web")
  const WebUrls := Entry("", ["test3.domain.com", "test4.domain.com"], ":80", [], "192.168.129.88:443", "proxy", "web")
  const WebBoth := Entry("", ["test5.domain.com", "test6.domain.com"], "", [":80", ":443"], "192.168.129.88:443", "proxy", "web")

  /** The input of the repository's expansion example. */
  function ExampleInput(): seq<ProxyConfig> {
    [Tcp1, Web1, TcpPorts, WebPorts, WebUrls, WebBoth]
  }

  /** The twelve entries it expands to; each is a copy of its input entry
      with the listed URL and port. */
  function ExampleOutput(): seq<ProxyConfig> {
    [ Tcp1,
      Web1,
      TcpPorts.(port := ":25565"), TcpPorts.(port := ":3000"),
      WebPorts.(port := ":443"), WebPorts.(port := ":80"),
      WebUrls.(listenUrl := "test3.domain.com"), WebUrls.(listenUrl := "test4.domain.com"),
      WebBoth.(listenUrl := "test5.domain.com", port := ":80"), WebBoth.(listenUrl := "test5.domain.com", port := ":443"),
      WebBoth.(listenUrl := "test6.domain.com", port := ":80"), WebBoth.(listenUrl := "test6.domain.com", port := ":443") ]
  }

  /** The repository's expansion example: the six entries come out as these
      twelve, in this order. */
  lemma ParseMultiExample()
    ensures Expanded(ExampleInput()) == Ok(ExampleOutput())
  {
    var o1 := ExTcp1();
    var o2 := ExWeb1();
    var o3 := ExTcpPorts();
    var o4 := ExWebPorts();
    var o5 := ExWebUrls();
    var o6 := ExWebBoth();
    ExpandedAppend([Tcp1], [Web1], o1, o2);
    ExpandedAppend([TcpPorts], [WebPorts], o3, o4);
    ExpandedAppend([WebUrls], [WebBoth], o5, o6);
    Pieces(o1, o2, o3, o4, o5, o6);
    ExpandedAppend([Tcp1, Web1], [TcpPorts, WebPorts], o1 + o2, o3 + o4);
    ExpandedAppend([Tcp1, Web1, TcpPorts, WebPorts], [WebUrls, WebBoth], o1 + o2 + (o3 + o4), o5 + o6);
  }

  /** The concatenations the example is assembled from. */
  lemma Pieces(o1: seq<ProxyConfig>, o2: seq<ProxyConfig>, o3: seq<ProxyConfig>, o4: seq<ProxyConfig>, o5: seq<ProxyConfig>, o6: seq<ProxyConfig>)
    requires o1 == [Tcp1] && o2 == [Web1]
    requires o3 == [TcpPorts.(port := ":25565"), TcpPorts.(port := ":3000")]
    requires o4 == [WebPorts.(port := ":443"), WebPorts.(port := ":80")]
    requires o5 == [WebUrls.(listenUrl := "test3.domain.com"), WebUrls.(listenUrl := "test4.domain.com")]
    requires o6 == [
      WebBoth.(listenUrl := "test5.domain.com", port := ":80"), WebBoth.(listenUrl := "test5.domain.com", port := ":443"),
      WebBoth.(listenUrl := "test6.domain.com", port := ":80"), WebBoth.(listenUrl := "test6.domain.com", port := ":443")]
    ensures [Tcp1] + [Web1] == [Tcp1, Web1]
    ensures [TcpPorts] + [WebPorts] == [TcpPorts, WebPorts]
    ensures [WebUrls] + [WebBoth] == [WebUrls, WebBoth]
    ensures [Tcp1, Web1] + [TcpPorts, WebPorts] == [Tcp1, Web1, TcpPorts, WebPorts]
    ensures [Tcp1, Web1, TcpPorts, WebPorts] + [WebUrls, WebBoth] == ExampleInput()
    ensures o1 + o2 + (o3 + o4) + (o5 + o6) == ExampleOutput()
  {
  }

  // The example entries one at a time.

  lemma ExTcp1() returns (out: seq<ProxyConfig>)
    ensures out == [Tcp1] && Expanded([Tcp1]) == Ok(out)
  {
    assert Tcp1.listenUrls == [] && Tcp1.ports == [];
    assert '-' !in Tcp1.port by { assert Tcp1.port == [':', '2', '5', '5', '6', '5']; }
    PlainEntry(Tcp1);
    out := [Tcp1];
  }

  lemma ExWeb1() returns (out: seq<ProxyConfig>)
    ensures out == [Web1] && Expanded([Web1]) == Ok(out)
  {
    assert Web1.listenUrls == [] && Web1.ports == [];
    assert '-' !in Web1.port by { assert Web1.port == [':', '4', '4', '3']; }
    PlainEntry(Web1);
    out := [Web1];
  }

  lemma ExTcpPorts() returns (out: seq<ProxyConfig>)
    ensures out == [TcpPorts.(port := ":25565"), TcpPorts.(port := ":3000")] && Expanded([TcpPorts]) == Ok(out)
  {
    PortsEntry(TcpPorts);
    out := [TcpPorts.(port := ":25565"), TcpPorts.(port := ":3000")];
  }

  lemma ExWebPorts() returns (out: seq<ProxyConfig>)
    ensures out == [WebPorts.(port := ":443"), WebPorts.(port := ":80")] && Expanded([WebPorts]) == Ok(out)
  {
    PortsEntry(WebPorts);
    out := [WebPorts.(port := ":443"), WebPorts.(port := ":80")];
  }

  lemma ExWebUrls() returns (out: seq<ProxyConfig>)
    ensures out == [WebUrls.(listenUrl := "test3.domain.com"), WebUrls.(listenUrl := "test4.domain.com")]
    ensures Expanded([WebUrls]) == Ok(out)
  {
    UrlsEntry(WebUrls);
    out := [WebUrls.(listenUrl := "test3.domain.com"), WebUrls.(listenUrl := "test4.domain.com")];
  }

  lemma ExWebBoth() returns (out: seq<ProxyConfig>)
    ensures out == [
      WebBoth.(listenUrl := "test5.domain.com", port := ":80"), WebBoth.(listenUrl := "test5.domain.com", port := ":443"),
      WebBoth.(listenUrl := "test6.domain.com", port := ":80"), WebBoth.(listenUrl := "test6.domain.com", port := ":443")]
    ensures Expanded([WebBoth]) == Ok(out)
  {
    BothEntry(WebBoth);
    out := [
      WebBoth.(listenUrl := "test5.domain.com", port := ":80"), WebBoth.(listenUrl := "test5.domain.com", port := ":443"),
      WebBoth.(listenUrl := "test6.domain.com", port := ":80"), WebBoth.(listenUrl := "test6.domain.com", port := ":443")];
  }

  lemma PlainEntry(c: ProxyConfig)
    requires c.listenUrls == [] && c.ports == [] && '-' !in c.port
    ensures Expanded([c]) == Ok([c])
  {
    assert [c][..0] == [];
    assert ExpandUrls([c]) == [c];
    assert ExpandPorts([c]) == [c];
    NoRange(c);
    assert [] + [c] == [c];
    assert ExpandRanges([c]) == Concat(ExpandRanges([]), ExpandRange(c));
  }

  lemma PortsEntry(c: ProxyConfig)
    requires c.listenUrls == [] && |c.ports| == 2 && '-' !in c.port && '-' !in c.ports[0] && '-' !in c.ports[1]
    ensures Expanded([c]) == Ok([c.(port := c.ports[0]), c.(port := c.ports[1])])
  {
    ExpandedOne(c);
    assert ExpandUrl(c) == [c];
    assert [c][..0] == [];
    assert ExpandPorts([c]) == ExpandPort(c);
    assert ExpandPort(c) == [c.(port := c.ports[0]), c.(port := c.ports[1])];
  }

  lemma UrlsEntry(c: ProxyConfig)
    requires |c.listenUrls| == 2 && c.ports == [] && '-' !in c.port
    ensures Expanded([c]) == Ok([c.(listenUrl := c.listenUrls[0]), c.(listenUrl := c.listenUrls[1])])
  {
    ExpandedOne(c);
    var c0, c1 := c.(listenUrl := c.listenUrls[0]), c.(listenUrl := c.listenUrls[1]);
    var us := ExpandUrl(c);
    assert us == [c0, c1];
    assert us[..1][..0] == [] && us[..1] == [c0];
    assert ExpandPorts(us[..1]) == ExpandPort(c0) == [c0];
    assert ExpandPort(c1) == [c1];
    assert us[..|us| - 1] == us[..1];
    assert ExpandPorts(us) == ExpandPorts(us[..1]) + ExpandPort(us[1]);
    assert [c0] + [c1] == [c0, c1];
  }

  lemma BothEntry(c: ProxyConfig)
    requires |c.listenUrls| == 2 && |c.ports| == 2 && '-' !in c.ports[0] && '-' !in c.ports[1]
    ensures Expanded([c]) == Ok([
      c.(listenUrl := c.listenUrls[0], port := c.ports[0]), c.(listenUrl := c.listenUrls[0], port := c.ports[1]),
      c.(listenUrl := c.listenUrls[1], port := c.ports[0]), c.(listenUrl := c.listenUrls[1], port := c.ports[1])])
  {
    UrlMajorPortMinor(c);
    assert Grid(c, 0) == [];
    assert Grid(c, 1) == GridRow(c, 0);
    assert GridRow(c, 0) == [c.(listenUrl := c.listenUrls[0], port := c.ports[0]), c.(listenUrl := c.listenUrls[0], port := c.ports[1])];
    assert GridRow(c, 1) == [c.(listenUrl := c.listenUrls[1], port := c.ports[0]), c.(listenUrl := c.listenUrls[1], port := c.ports[1])];
    assert Grid(c, 2) == Grid(c, 1) + GridRow(c, 1);
    assert Grid(c, 1) + GridRow(c, 1) == [
      c.(listenUrl := c.listenUrls[0], port := c.ports[0]), c.(listenUrl := c.listenUrls[0], port := c.ports[1]),
      c.(listenUrl := c.listenUrls[1], port := c.ports[0]), c.(listenUrl := c.listenUrls[1], port := c.ports[1])];
  }

  /** A port "a-b" with integers a < b expands to b - a + 1 entries with ports
      ":a", ..., ":b" in ascending order, everything else copied; with a >= b
      the range is rejected. */
  lemma PortRange(conf: ProxyConfig, a: nat, b: nat)
    requires a <= MaxInt64 && b <= MaxInt64
    requires conf.port == NatToDecimal(a) + "-" + NatToDecimal(b)
    ensures a < b ==> ExpandRange(conf) == Ok(RangeEntries(conf, a, b))
    ensures a >= b ==> ExpandRange(conf) == Err(BadRangeOrder)
  {
    SplitRange(a, b);
    AtoiItoa(a);
    AtoiItoa(b);
  }

  lemma SplitRange(a: nat, b: nat)
    ensures Split(NatToDecimal(a) + "-" + NatToDecimal(b), '-') == [NatToDecimal(a), NatToDecimal(b)]
  {
    var sa, sb := NatToDecimal(a), NatToDecimal(b);
    NoMinusInDecimal(sa);
    NoMinusInDecimal(sb);
    assert Join([sa, sb], '-') == sa + "-" + sb;
    SplitJoin([sa, sb], '-');
  }

  lemma NoMinusInDecimal(s: string)
    requires AllDigits(s)
    ensures '-' !in s
  {
  }

  // ===========================================================================
  // ParseProxies

  /** One listener: the port, "web" or "tcp/udp", whether it serves TLS, and
      the entries attached to it. */
  datatype ParsedProxy = ParsedProxy(port: string, protocol: string, tls: bool, linkedProxies: seq<ProxyConfig>)

  /** The three results of ParseProxies; on an error the map and the routed
      list are returned as they stood when the error was found. */
  datatype Parsed = Parsed(proxies: map<string, ParsedProxy>, toBeRouted: seq<ProxyConfig>, err: Option<ConfigError>)

  predicate IsRaw(p: ProxyConfig) { p.protocol == "tcp" || p.protocol == "udp" }

  /** The entry opens or joins a listener; entries with any other protocol are ignored. */
  predicate Claims(p: ProxyConfig) { p.protocol == "web" || IsRaw(p) }

  /** The listener a configuration opens when it is the first on its port. */
  function EntryFor(p: ProxyConfig, tls: TLSConfig): ParsedProxy {
    if p.protocol == "web" then ParsedProxy(p.port, p.protocol, p.listenUrl in tls.domains, [p])
    else ParsedProxy(p.port, "tcp/udp", false, [p])
  }

  /** One iteration of the loop of ParseProxies on an error-free state. */
  function ProxyStep(st: Parsed, p: ProxyConfig, tls: TLSConfig): Parsed {
    if p.protocol == "web" then
      var routed := st.toBeRouted + [p];
      if p.port in st.proxies then
        var allowed := st.proxies[p.port];
        if allowed.protocol != "web" then Parsed(st.proxies, routed, Some(RawWebClash))
        else if tls.enableTLS && p.listenUrl in tls.domains && !allowed.tls then Parsed(st.proxies, routed, Some(HttpThenHttps))
        else if allowed.tls && p.listenUrl !in tls.domains then Parsed(st.proxies, routed, Some(HttpsThenHttp))
        // the entry is appended to a copy of the listener, which is dropped
        else Parsed(st.proxies, routed, None)
      else Parsed(st.proxies[p.port := EntryFor(p, tls)], routed, None)
    else if IsRaw(p) then
      if p.port in st.proxies then
        if st.proxies[p.port].protocol != "tcp/udp" then Parsed(st.proxies, st.toBeRouted, Some(RawWebClash))
        else Parsed(st.proxies, st.toBeRouted, Some(RawRawClash))
      else Parsed(st.proxies[p.port := EntryFor(p, tls)], st.toBeRouted, None)
    else st
  }

  /** What ParseProxies returns: the loop run over the list, stopping at the
      first error. */
  function ParseProxiesSpec(ps: seq<ProxyConfig>, tls: TLSConfig): Parsed {
    if ps == [] then Parsed(map[], [], None)
    else
      var st := ParseProxiesSpec(ps[..|ps| - 1], tls);
      if st.err.Some? then st else ProxyStep(st, ps[|ps| - 1], tls)
  }

  method ParseProxies(toParse: seq<ProxyConfig>, tlsConf: TLSConfig)
    returns (parsedProxyMap: map<string, ParsedProxy>, toBeRouted: seq<ProxyConfig>, err: Option<ConfigError>)
    ensures Parsed(parsedProxyMap, toBeRouted, err) == ParseProxiesSpec(toParse, tlsConf)
  {
    parsedProxyMap, toBeRouted, err := map[], [], None;
    for i := 0 to |toParse|
      invariant ParseProxiesSpec(toParse[..i], tlsConf) == Parsed(parsedProxyMap, toBeRouted, None)
    {
      var proxies := toParse[i];
      assert toParse[..i + 1][..i] == toParse[..i];
      if proxies.protocol == "web" {
        toBeRouted := toBeRouted + [proxies];
        if proxies.port in parsedProxyMap {
          var allowed := parsedProxyMap[proxies.port];
          if allowed.protocol != "web" {
            err := Some(RawWebClash);
            ProxyErrorPersists(toParse, i + 1, tlsConf);
            return;
          }
          if tlsConf.enableTLS && proxies.listenUrl in tlsConf.domains && !allowed.tls {
            err := Some(HttpThenHttps);
            ProxyErrorPersists(toParse, i + 1, tlsConf);
            return;
          }
          if allowed.tls && proxies.listenUrl !in tlsConf.domains {
            err := Some(HttpsThenHttp);
            ProxyErrorPersists(toParse, i + 1, tlsConf);
            return;
          }
          allowed := allowed.(linkedProxies := allowed.linkedProxies + [proxies]);
          continue;
        }
        var newProxy := ParsedProxy(proxies.port, proxies.protocol, proxies.listenUrl in tlsConf.domains, [proxies]);
        parsedProxyMap := parsedProxyMap[newProxy.port := newProxy];
      } else if proxies.protocol == "tcp" || proxies.protocol == "udp" {
        if proxies.port in parsedProxyMap {
          var allowed := parsedProxyMap[proxies.port];
          if allowed.protocol != "tcp/udp" {
            err := Some(RawWebClash);
          } else {
            err := Some(RawRawClash);
          }
          ProxyErrorPersists(toParse, i + 1, tlsConf);
          return;
        }
        var newProxy := ParsedProxy(proxies.port, "tcp/udp", false, [proxies]);
        parsedProxyMap := parsedProxyMap[newProxy.port := newProxy];
      }
    }
    assert toParse[..|toParse|] == toParse;
  }

  /** Once a prefix of the list has failed, the whole list fails the same way. */
  lemma {:induction false} ProxyErrorPersists(ps: seq<ProxyConfig>, n: nat, tls: TLSConfig)
    requires n <= |ps| && ParseProxiesSpec(ps[..n], tls).err.Some?
    ensures ParseProxiesSpec(ps, tls) == ParseProxiesSpec(ps[..n], tls)
    decreases |ps| - n
  {
    if n < |ps| {
      assert ps[..n + 1][..n] == ps[..n];
      ProxyErrorPersists(ps, n + 1, tls);
    } else {
      assert ps[..n] == ps;
    }
  }

  // ---------------------------------------------------------------------------
  // What a successful ParseProxies guarantees

  /** No tcp/udp entry shares its port with any other claiming entry. */
  ghost predicate NoRawConflicts(ps: seq<ProxyConfig>) {
    forall i, j :: 0 <= i < j < |ps| && Claims(ps[i]) && Claims(ps[j]) && ps[i].port == ps[j].port ==>
      ps[i].protocol == "web" && ps[j].protocol == "web"
  }

  /** Entry i is the first one to claim its port. */
  ghost predicate FirstClaim(ps: seq<ProxyConfig>, i: int) {
    && 0 <= i < |ps| && Claims(ps[i])
    && forall k :: 0 <= k < i && Claims(ps[k]) ==> ps[k].port != ps[i].port
  }

  /** The map has one listener per claimed port, and it is the one the first
      claiming entry opened (later web entries leave it untouched). */
  ghost predicate Describes(m: map<string, ParsedProxy>, ps: seq<ProxyConfig>, tls: TLSConfig) {
    && (forall i :: 0 <= i < |ps| && Claims(ps[i]) ==> ps[i].port in m)
    && (forall port :: port in m ==>
          exists i :: FirstClaim(ps, i) && ps[i].port == port && m[port] == EntryFor(ps[i], tls))
  }

  /** No port carries both an https route and an http route: every web entry on
      a TLS listener is a TLS domain and, with TLS enabled, no web entry on a
      plain listener is. */
  ghost predicate TlsConsistent(m: map<string, ParsedProxy>, ps: seq<ProxyConfig>, tls: TLSConfig) {
    forall j :: 0 <= j < |ps| && ps[j].protocol == "web" && ps[j].port in m ==>
      && (m[ps[j].port].tls ==> ps[j].listenUrl in tls.domains)
      && (tls.enableTLS && !m[ps[j].port].tls ==> ps[j].listenUrl !in tls.domains)
  }

  /** The web entries of a list, in order. */
  function WebEntries(ps: seq<ProxyConfig>): seq<ProxyConfig> {
    if ps == [] then []
    else WebEntries(ps[..|ps| - 1]) + (if ps[|ps| - 1].protocol == "web" then [ps[|ps| - 1]] else [])
  }

  lemma FirstClaimExtends(ps: seq<ProxyConfig>, i: int)
    requires |ps| > 0 && FirstClaim(ps[..|ps| - 1], i)
    ensures FirstClaim(ps, i)
  {
  }

  /** A successful ParseProxies has no tcp/udp conflict and its map holds
      exactly the listeners the first entry on each port opened. */
  lemma {:induction false} ParseProxiesMap(ps: seq<ProxyConfig>, tls: TLSConfig)
    requires ParseProxiesSpec(ps, tls).err.None?
    ensures NoRawConflicts(ps)
    ensures Describes(ParseProxiesSpec(ps, tls).proxies, ps, tls)
  {
    if ps != [] {
      var pre, p := ps[..|ps| - 1], ps[|ps| - 1];
      assert ps == pre + [p];
      ParseProxiesMap(pre, tls);
      MapStep(pre, p, ParseProxiesSpec(pre, tls), tls);
    }
  }

  /** One successful step keeps the map describing the list. */
  lemma MapStep(pre: seq<ProxyConfig>, p: ProxyConfig, st: Parsed, tls: TLSConfig)
    requires st.err.None? && ProxyStep(st, p, tls).err.None?
    requires NoRawConflicts(pre) && Describes(st.proxies, pre, tls)
    ensures NoRawConflicts(pre + [p])
    ensures Describes(ProxyStep(st, p, tls).proxies, pre + [p], tls)
  {
    var m := st.proxies;
    if Claims(p) && p.port in m {
      assert ProxyStep(st, p, tls).proxies == m;
      JoinKeepsConflictFree(pre, p, m, tls);
      KeepDescribes(pre, p, m, tls);
    } else if Claims(p) {
      assert ProxyStep(st, p, tls).proxies == m[p.port := EntryFor(p, tls)];
      OpenKeepsConflictFree(pre, p, m, tls);
      OpenDescribes(pre, p, m, tls);
    } else {
      assert ProxyStep(st, p, tls) == st;
      IgnoredKeepsConflictFree(pre, p);
      KeepDescribes(pre, p, m, tls);
    }
  }

  /** A web entry joining a web listener adds no tcp/udp conflict. */
  lemma JoinKeepsConflictFree(pre: seq<ProxyConfig>, p: ProxyConfig, m: map<string, ParsedProxy>, tls: TLSConfig)
    requires NoRawConflicts(pre) && Describes(m, pre, tls)
    requires p.protocol == "web" && p.port in m && m[p.port].protocol == "web"
    ensures NoRawConflicts(pre + [p])
  {
    var ps := pre + [p];
    var f :| FirstClaim(pre, f) && pre[f].port == p.port && m[p.port] == EntryFor(pre[f], tls);
    assert pre[f].protocol == "web";
    forall i | 0 <= i < |pre| && Claims(pre[i]) && pre[i].port == p.port
      ensures pre[i].protocol == "web"
    {
    }
    forall i, j | 0 <= i < j < |ps| && Claims(ps[i]) && Claims(ps[j]) && ps[i].port == ps[j].port
      ensures ps[i].protocol == "web" && ps[j].protocol == "web"
    {
      if j < |pre| {
        assert ps[i] == pre[i] && ps[j] == pre[j];
      } else {
        assert ps[i] == pre[i];
      }
    }
  }

  /** An entry on a port nobody has claimed adds no tcp/udp conflict. */
  lemma OpenKeepsConflictFree(pre: seq<ProxyConfig>, p: ProxyConfig, m: map<string, ParsedProxy>, tls: TLSConfig)
    requires NoRawConflicts(pre) && Describes(m, pre, tls)
    requires p.port !in m
    ensures NoRawConflicts(pre + [p])
  {
    var ps := pre + [p];
    forall i, j | 0 <= i < j < |ps| && Claims(ps[i]) && Claims(ps[j]) && ps[i].port == ps[j].port
      ensures ps[i].protocol == "web" && ps[j].protocol == "web"
    {
      assert ps[i] == pre[i];
      if j < |pre| {
        assert ps[j] == pre[j];
      }
    }
  }

  /** An entry with another protocol adds no conflict. */
  lemma IgnoredKeepsConflictFree(pre: seq<ProxyConfig>, p: ProxyConfig)
    requires NoRawConflicts(pre) && !Claims(p)
    ensures NoRawConflicts(pre + [p])
  {
    var ps := pre + [p];
    forall i, j | 0 <= i < j < |ps| && Claims(ps[i]) && Claims(ps[j]) && ps[i].port == ps[j].port
      ensures ps[i].protocol == "web" && ps[j].protocol == "web"
    {
      assert ps[i] == pre[i] && ps[j] == pre[j];
    }
  }

  /** An entry that joins a listener or is ignored leaves the map describing
      the longer list. */
  lemma KeepDescribes(pre: seq<ProxyConfig>, p: ProxyConfig, m: map<string, ParsedProxy>, tls: TLSConfig)
    requires Describes(m, pre, tls)
    requires !Claims(p) || p.port in m
    ensures Describes(m, pre + [p], tls)
  {
    var ps := pre + [p];
    forall port | port in m
      ensures exists i :: FirstClaim(ps, i) && ps[i].port == port && m[port] == EntryFor(ps[i], tls)
    {
      var i :| FirstClaim(pre, i) && pre[i].port == port && m[port] == EntryFor(pre[i], tls);
      FirstClaimExtends(ps, i);
    }
  }

  /** An entry on an unclaimed port opens the listener the map then holds for it. */
  lemma OpenDescribes(pre: seq<ProxyConfig>, p: ProxyConfig, m: map<string, ParsedProxy>, tls: TLSConfig)
    requires Describes(m, pre, tls)
    requires Claims(p) && p.port !in m
    ensures Describes(m[p.port := EntryFor(p, tls)], pre + [p], tls)
  {
    var ps, m' := pre + [p], m[p.port := EntryFor(p, tls)];
    forall port | port in m'
      ensures exists i :: FirstClaim(ps, i) && ps[i].port == port && m'[port] == EntryFor(ps[i], tls)
    {
      if port == p.port {
        assert FirstClaim(ps, |pre|);
      } else {
        var i :| FirstClaim(pre, i) && pre[i].port == port && m[port] == EntryFor(pre[i], tls);
        FirstClaimExtends(ps, i);
      }
    }
  }

  /** A successful ParseProxies never puts an https and an http route on one port. */
  lemma {:induction false} ParseProxiesTls(ps: seq<ProxyConfig>, tls: TLSConfig)
    requires ParseProxiesSpec(ps, tls).err.None?
    ensures TlsConsistent(ParseProxiesSpec(ps, tls).proxies, ps, tls)
  {
    if ps != [] {
      var pre, p := ps[..|ps| - 1], ps[|ps| - 1];
      assert ps == pre + [p];
      ParseProxiesTls(pre, tls);
      ParseProxiesMap(pre, tls);
      TlsStep(pre, p, ParseProxiesSpec(pre, tls), tls);
    }
  }

  /** One successful step keeps the TLS flags consistent. */
  lemma TlsStep(pre: seq<ProxyConfig>, p: ProxyConfig, st: Parsed, tls: TLSConfig)
    requires st.err.None? && ProxyStep(st, p, tls).err.None?
    requires Describes(st.proxies, pre, tls) && TlsConsistent(st.proxies, pre, tls)
    ensures TlsConsistent(ProxyStep(st, p, tls).proxies, pre + [p], tls)
  {
    var m := st.proxies;
    if Claims(p) && p.port !in m {
      OpenKeepsTls(pre, p, m, tls);
    } else {
      assert ProxyStep(st, p, tls).proxies == m;
      var ps := pre + [p];
      forall j | 0 <= j < |ps| && ps[j].protocol == "web" && ps[j].port in m
        ensures && (m[ps[j].port].tls ==> ps[j].listenUrl in tls.domains)
                && (tls.enableTLS && !m[ps[j].port].tls ==> ps[j].listenUrl !in tls.domains)
      {
        if j < |pre| {
          assert ps[j] == pre[j];
        }
      }
    }
  }

  lemma OpenKeepsTls(pre: seq<ProxyConfig>, p: ProxyConfig, m: map<string, ParsedProxy>, tls: TLSConfig)
    requires Describes(m, pre, tls) && TlsConsistent(m, pre, tls)
    requires Claims(p) && p.port !in m
    ensures TlsConsistent(m[p.port := EntryFor(p, tls)], pre + [p], tls)
  {
    var ps, m' := pre + [p], m[p.port := EntryFor(p, tls)];
    forall j | 0 <= j < |ps| && ps[j].protocol == "web" && ps[j].port in m'
      ensures && (m'[ps[j].port].tls ==> ps[j].listenUrl in tls.domains)
              && (tls.enableTLS && !m'[ps[j].port].tls ==> ps[j].listenUrl !in tls.domains)
    {
      if j < |pre| {
        assert ps[j] == pre[j];
      }
    }
  }

  /** A successful ParseProxies routes exactly the web entries, in order. */
  lemma {:induction false} ParseProxiesRouted(ps: seq<ProxyConfig>, tls: TLSConfig)
    requires ParseProxiesSpec(ps, tls).err.None?
    ensures ParseProxiesSpec(ps, tls).toBeRouted == WebEntries(ps)
  {
    if ps != [] {
      ParseProxiesRouted(ps[..|ps| - 1], tls);
    }
  }

  /** Conversely, with no route on a TLS domain, a list without tcp/udp
      conflicts always parses. */
  lemma {:induction false} ParseProxiesPlainHttp(ps: seq<ProxyConfig>, tls: TLSConfig)
    requires NoRawConflicts(ps)
    requires forall j :: 0 <= j < |ps| && ps[j].protocol == "web" ==> ps[j].listenUrl !in tls.domains
    ensures ParseProxiesSpec(ps, tls).err.None?
  {
    if ps != [] {
      var n := |ps|;
      var pre, p := ps[..n - 1], ps[n - 1];
      assert NoRawConflicts(pre) by {
        forall i, j | 0 <= i < j < |pre| ensures pre[i] == ps[i] && pre[j] == ps[j] { }
      }
      ParseProxiesPlainHttp(pre, tls);
      ParseProxiesMap(pre, tls);
      var m := ParseProxiesSpec(pre, tls).proxies;
      if Claims(p) && p.port in m {
        var f :| FirstClaim(pre, f) && pre[f].port == p.port && m[p.port] == EntryFor(pre[f], tls);
        assert ps[f] == pre[f];
        assert p.protocol == "web" && pre[f].protocol == "web";
      }
    }
  }
}
