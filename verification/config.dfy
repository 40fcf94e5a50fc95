/** The configuration record `data` of main.go: the command-line values the
    injector is started with, the checks made on them before any file is
    touched, the parsing of the upstream list, and the derived Consul
    addresses whose scheme and port follow the TLS flag. */
module Config {
  import opened Wrappers
  import opened Strings

  const DefaultConsulServer: string := "consul-server.default.svc"
  const DefaultServerCaSecret: string := "consul-ca-cert"
  const DefaultClientSecret: string := "consul-client-acl-token"

  /** The command-line values, as parsed by the flag package. */
  datatype Flags = Flags(
    deployment: string,
    upstreams: string,
    service: string,
    port: string,
    aclEnabled: bool,
    tlsEnabled: bool,
    consulServer: string,
    serverCaSecret: string,
    clientSecret: string)

  /** Flags as they stand before the user sets any. */
  function DefaultFlags(): Flags {
    Flags("", "", "", "", false, false,
          DefaultConsulServer, DefaultServerCaSecret, DefaultClientSecret)
  }

  /** One upstream service the Envoy sidecar must be able to reach. */
  datatype Upstream = Upstream(service: string, port: string)

  /** The record the sidecar template is expanded against. */
  datatype Data = Data(
    upstreams: seq<Upstream>,
    service: string,
    port: string,
    aclsEnabled: bool,
    tlsEnabled: bool,
    consulHttpAddr: string,
    consulServer: string,
    consulServerHttpAddr: string,
    consulClientAclSecret: string,
    consulServerCaSecret: string)

  datatype ConfigError =
    | MissingService
    | MissingPort
    | InvalidUpstream(token: string)

  // ---------------------------------------------------------------------
  // Addresses

  /** Port of the Consul agents' LAN gossip (Serf) listener. */
  const SerfLanPort: string := "8301"

  /** The scheme part of a Consul HTTP address. */
  function SchemePrefix(tls: bool): string {
    if tls then "https://" else "http://"
  }

  /** The port part of a Consul HTTP address: 8501 serves HTTPS, 8500 HTTP. */
  function PortSuffix(tls: bool): string {
    if tls then ":8501" else ":8500"
  }

  /** `scheme://host:port` of a Consul HTTP API. */
  function HttpUrl(host: string, tls: bool): string {
    SchemePrefix(tls) + host + PortSuffix(tls)
  }

  /** A Consul HTTP endpoint: whether it is served over TLS, and its host. */
  datatype HttpEndpoint = HttpEndpoint(tls: bool, host: string)

  /** Reads back an address built by `HttpUrl`: the scheme and the port must
      both name the same protocol. */
  function ParseHttpUrl(url: string): (r: Option<HttpEndpoint>)
    ensures r.Some? ==> HttpUrl(r.value.host, r.value.tls) == url
  {
    if |url| >= 13 && IsPrefix("https://", url) && IsSuffix(":8501", url) then
      Affixes(url, 8, 5);
      Some(HttpEndpoint(true, url[8..|url| - 5]))
    else if |url| >= 12 && IsPrefix("http://", url) && IsSuffix(":8500", url) then
      Affixes(url, 7, 5);
      Some(HttpEndpoint(false, url[7..|url| - 5]))
    else None
  }

  /** A string is its prefix, middle and suffix put back together. */
  lemma Affixes(s: string, p: nat, q: nat)
    requires p + q <= |s|
    ensures s == s[..p] + s[p..|s| - q] + s[|s| - q..]
  {
  }

  /** The parts of a concatenation can be cut back out of it. */
  lemma CutAffixes(p: string, m: string, q: string)
    ensures IsPrefix(p, p + m + q)
    ensures IsSuffix(q, p + m + q)
    ensures (p + m + q)[|p|..|p + m + q| - |q|] == m
  {
    var s := p + m + q;
    assert s[..|p|] == p;
    assert s[|s| - |q|..] == q;
  }

  /** An address whose scheme and port both agree with the TLS flag. */
  predicate AgreesWithTls(url: string, tls: bool) {
    IsPrefix(SchemePrefix(tls), url) && IsSuffix(PortSuffix(tls), url)
  }

  /** Both HTTP addresses of a configuration follow its TLS flag. */
  predicate AddressesAgree(d: Data) {
    AgreesWithTls(d.consulHttpAddr, d.tlsEnabled)
    && AgreesWithTls(d.consulServerHttpAddr, d.tlsEnabled)
  }

  /** Reading an HTTP address back gives the host and protocol it was built
      from, whatever the host. */
  lemma HttpUrlRoundTrip(host: string, tls: bool)
    ensures ParseHttpUrl(HttpUrl(host, tls)) == Some(HttpEndpoint(tls, host))
    ensures AgreesWithTls(HttpUrl(host, tls), tls)
  {
    var url := HttpUrl(host, tls);
    CutAffixes(SchemePrefix(tls), host, PortSuffix(tls));
    if !tls {
      assert url[4] == ':';
    }
  }

  /** The scheme alone, and the port alone, each tell whether TLS is on. */
  lemma AgreementDeterminesTls(url: string, tls: bool)
    requires AgreesWithTls(url, tls)
    ensures IsPrefix("https://", url) <==> tls
    ensures IsSuffix(":8501", url) <==> tls
    ensures IsSuffix(":8500", url) <==> !tls
  {
    if !tls {
      assert url[4] == ':';
      assert url[|url| - 1] == '0';
    } else {
      assert url[|url| - 1] == '1';
    }
  }

  // ---------------------------------------------------------------------
  // Upstreams

  /** The `service:port` token an upstream is written as. */
  function FormatUpstream(u: Upstream): string {
    u.service + ":" + u.port
  }

  /** The space-delimited upstream list for a sequence of upstreams. */
  function FormatUpstreams(us: seq<Upstream>): string {
    Join(seq(|us|, i requires 0 <= i < |us| => FormatUpstream(us[i])), ' ')
  }

  /** Neither part of an upstream holds a separator of the list syntax. */
  predicate PlainUpstream(u: Upstream) {
    ':' !in u.service && ':' !in u.port && ' ' !in u.service && ' ' !in u.port
  }

  /** One `service:port` token. It must split on ':' into exactly two parts. */
  function ParseUpstream(token: string): (r: Result<Upstream, ConfigError>)
    ensures r.Ok? <==> Count(token, ':') == 1
    ensures r.Ok? ==> FormatUpstream(r.value) == token
    ensures r.Ok? ==> ':' !in r.value.service && ':' !in r.value.port
    ensures r.Err? ==> r.error == InvalidUpstream(token)
  {
    var parts := Split(token, ':');
    SplitCount(token, ':');
    if |parts| != 2 then Err(InvalidUpstream(token))
    else
      TwoParts(token, ':');
      Ok(Upstream(parts[0], parts[1]))
  }

  /** Parses tokens in order; the first bad token stops the parse. */
  function ParseTokens(tokens: seq<string>): (r: Result<seq<Upstream>, ConfigError>)
    ensures r.Ok? <==> forall i :: 0 <= i < |tokens| ==> Count(tokens[i], ':') == 1
    ensures r.Ok? ==> |r.value| == |tokens|
    ensures r.Ok? ==> forall i :: 0 <= i < |tokens| ==>
      FormatUpstream(r.value[i]) == tokens[i]
      && ':' !in r.value[i].service && ':' !in r.value[i].port
    ensures r.Err? ==> exists i :: (0 <= i < |tokens|
      && r.error == InvalidUpstream(tokens[i])
      && Count(tokens[i], ':') != 1
      && forall j :: 0 <= j < i ==> Count(tokens[j], ':') == 1)
    decreases |tokens|
  {
    if |tokens| == 0 then Ok([])
    else
      var u :- ParseUpstream(tokens[0]);
      var rest :- ParseTokens(tokens[1..]);
      Ok([u] + rest)
  }

  /** The tokens of the `-upstreams` value: none for the empty string,
      otherwise the pieces between single spaces (so doubled, leading or
      trailing spaces yield empty tokens). */
  function UpstreamTokens(s: string): seq<string> {
    if s == "" then [] else Split(s, ' ')
  }

  /** The `-upstreams` value: empty means no upstreams; otherwise every
      space-separated token must be `service:port`. */
  function ParseUpstreams(s: string): (r: Result<seq<Upstream>, ConfigError>)
    ensures s == "" ==> r == Ok([])
    ensures r.Ok? <==> forall i :: 0 <= i < |UpstreamTokens(s)| ==> Count(UpstreamTokens(s)[i], ':') == 1
    ensures r.Ok? ==> |r.value| == |UpstreamTokens(s)|
    ensures r.Ok? ==> forall i :: 0 <= i < |r.value| ==> FormatUpstream(r.value[i]) == UpstreamTokens(s)[i]
    ensures r.Ok? ==> forall i :: 0 <= i < |r.value| ==>
      ':' !in r.value[i].service && ':' !in r.value[i].port
    ensures r.Err? ==> exists i :: (0 <= i < |UpstreamTokens(s)|
      && r.error == InvalidUpstream(UpstreamTokens(s)[i])
      && Count(UpstreamTokens(s)[i], ':') != 1
      && forall j :: 0 <= j < i ==> Count(UpstreamTokens(s)[j], ':') == 1)
  {
    ParseTokens(UpstreamTokens(s))
  }

  /** A plain upstream's token parses back to that upstream. */
  lemma FormatParseUpstream(u: Upstream)
    requires PlainUpstream(u)
    ensures ParseUpstream(FormatUpstream(u)) == Ok(u)
    ensures ' ' !in FormatUpstream(u)
  {
    assert FormatUpstream(u) == Join([u.service, u.port], ':');
    SplitJoin([u.service, u.port], ':');
  }

  /** Two colon-free upstreams with the same token are the same upstream. */
  lemma FormatInjective(a: Upstream, b: Upstream)
    requires ':' !in a.service && ':' !in a.port
    requires ':' !in b.service && ':' !in b.port
    requires FormatUpstream(a) == FormatUpstream(b)
    ensures a == b
  {
    assert FormatUpstream(a) == Join([a.service, a.port], ':');
    assert FormatUpstream(b) == Join([b.service, b.port], ':');
    SplitJoin([a.service, a.port], ':');
    SplitJoin([b.service, b.port], ':');
  }

  /** Writing upstreams out and parsing them back gives the same list, in
      the same order. */
  lemma UpstreamsRoundTrip(us: seq<Upstream>)
    requires forall i :: 0 <= i < |us| ==> PlainUpstream(us[i])
    ensures ParseUpstreams(FormatUpstreams(us)) == Ok(us)
  {
    var tokens := seq(|us|, i requires 0 <= i < |us| => FormatUpstream(us[i]));
    var s := FormatUpstreams(us);
    if |us| > 0 {
      forall i | 0 <= i < |us|
        ensures ' ' !in tokens[i]
        ensures Count(tokens[i], ':') == 1
      {
        FormatParseUpstream(us[i]);
      }
      SplitJoin(tokens, ' ');
      assert Split(s, ' ')[0] == tokens[0];
      assert s != "";
      assert UpstreamTokens(s) == tokens;
      var r := ParseUpstreams(s);
      assert r.Ok? && |r.value| == |us|;
      forall i | 0 <= i < |us|
        ensures r.value[i] == us[i]
      {
        FormatInjective(r.value[i], us[i]);
      }
      assert r.value == us;
    }
  }

  /** A successfully parsed list, written back out, is the input string:
      nothing is dropped, reordered or invented. */
  lemma ParsedUpstreamsFormat(s: string)
    requires ParseUpstreams(s).Ok?
    ensures FormatUpstreams(ParseUpstreams(s).value) == s
    ensures forall i :: 0 <= i < |ParseUpstreams(s).value| ==>
      PlainUpstream(ParseUpstreams(s).value[i])
  {
    var us := ParseUpstreams(s).value;
    if s != "" {
      var parts := Split(s, ' ');
      assert UpstreamTokens(s) == parts;
      assert seq(|us|, i requires 0 <= i < |us| => FormatUpstream(us[i])) == parts;
      JoinSplit(s, ' ');
      forall i | 0 <= i < |us|
        ensures PlainUpstream(us[i])
      {
        assert ' ' !in parts[i];
        SpaceFreeToken(us[i]);
      }
    }
  }

  /** A space-free token has space-free fields. */
  lemma SpaceFreeToken(u: Upstream)
    requires ' ' !in FormatUpstream(u)
    ensures ' ' !in u.service && ' ' !in u.port
  {
    var t := FormatUpstream(u);
    assert forall k :: 0 <= k < |u.service| ==> u.service[k] == t[k];
    assert forall k :: 0 <= k < |u.port| ==> u.port[k] == t[|u.service| + 1 + k];
  }

  // ---------------------------------------------------------------------
  // Building the configuration

  /** `host:8301`, the address the agent joins the Consul servers on. */
  function AgentAddress(host: string): (a: string)
    ensures IsPrefix(host, a) && a[|host|..] == ":" + SerfLanPort
  {
    CutAffixes(host, ":" + SerfLanPort, "");
    host + ":" + SerfLanPort
  }

  /** The record built from checked flags and parsed upstreams, with the
      addresses derived from the server host and the TLS flag. */
  function Derive(f: Flags, ups: seq<Upstream>): (d: Data)
    ensures d.upstreams == ups && d.service == f.service && d.port == f.port
    ensures d.aclsEnabled == f.aclEnabled && d.tlsEnabled == f.tlsEnabled
    ensures d.consulClientAclSecret == f.clientSecret
    ensures d.consulServerCaSecret == f.serverCaSecret
    ensures IsPrefix(f.consulServer, d.consulServer)
    ensures d.consulServer[|f.consulServer|..] == ":" + SerfLanPort
    ensures ParseHttpUrl(d.consulHttpAddr) == Some(HttpEndpoint(f.tlsEnabled, "localhost"))
    ensures ParseHttpUrl(d.consulServerHttpAddr) == Some(HttpEndpoint(f.tlsEnabled, f.consulServer))
    ensures AddressesAgree(d)
  {
    HttpUrlRoundTrip("localhost", f.tlsEnabled);
    HttpUrlRoundTrip(f.consulServer, f.tlsEnabled);
    Data(
      ups, f.service, f.port, f.aclEnabled, f.tlsEnabled,
      HttpUrl("localhost", f.tlsEnabled),
      AgentAddress(f.consulServer),
      HttpUrl(f.consulServer, f.tlsEnabled),
      f.clientSecret, f.serverCaSecret)
  }

  /** Flags that pass every check of `BuildConfig`. */
  predicate Accepted(f: Flags)
  {
    f.service != "" && f.port != "" && ParseUpstreams(f.upstreams).Ok?
  }

  /** The checks `main` performs before it renders the template or reads
      the manifest: service first, then port, then the upstream list. */
  function BuildConfig(f: Flags): (r: Result<Data, ConfigError>)
    ensures r.Ok? <==> Accepted(f)
    ensures r == Err(MissingService) <==> f.service == ""
    ensures r == Err(MissingPort) <==> f.service != "" && f.port == ""
    ensures r.Err? && r.error.InvalidUpstream? <==>
      f.service != "" && f.port != "" && ParseUpstreams(f.upstreams).Err?
    ensures r.Err? && r.error.InvalidUpstream? ==> r.error == ParseUpstreams(f.upstreams).error
    ensures r.Ok? ==> r == Ok(Derive(f, ParseUpstreams(f.upstreams).value))
    ensures r.Ok? ==> r.value.service != "" && r.value.port != ""
  {
    if f.service == "" then Err(MissingService)
    else if f.port == "" then Err(MissingPort)
    else
      var ups :- ParseUpstreams(f.upstreams);
      Ok(Derive(f, ups))
  }

  /** Run without flags, the tool stops at the missing service name; once a
      service and port are given, the defaults alone are accepted and point
      the sidecars at `consul-server.default.svc` over plain HTTP, with the
      default secret names and no upstreams. */
  lemma DefaultsNeedServiceAndPort(service: string, port: string)
    requires service != "" && port != ""
    ensures BuildConfig(DefaultFlags()) == Err(MissingService)
    ensures BuildConfig(DefaultFlags().(service := service)) == Err(MissingPort)
    ensures var r := BuildConfig(DefaultFlags().(service := service, port := port));
      && r.Ok? && r.value.upstreams == []
      && r.value.consulServerHttpAddr == HttpUrl(DefaultConsulServer, false)
      && r.value.consulServer == AgentAddress(DefaultConsulServer)
      && r.value.consulServerCaSecret == DefaultServerCaSecret
      && r.value.consulClientAclSecret == DefaultClientSecret
  {
    var f := DefaultFlags().(service := service, port := port);
    assert ParseUpstreams(f.upstreams) == Ok([]);
    assert BuildConfig(f) == Ok(Derive(f, []));
  }
}
