/** The sidecar bundle of templates/sidecar.go, built directly from the
    configuration record instead of by expanding text. Each conditional
    block of the template becomes a list that is empty when its flag is
    off; the `range .Upstreams` loop becomes one stanza per upstream. Shell
    text, images, probes and ports the merge never looks at are kept as
    opaque strings. */
module Sidecar {
  import opened Wrappers
  import opened Config

  /** Where an environment variable takes its value from. */
  datatype EnvSource =
    | Literal(value: string)
    | FieldRef(path: string)
    | SecretKeyRef(secret: string, key: string)

  datatype EnvVar = EnvVar(name: string, source: EnvSource)

  datatype Mount = Mount(path: string, volume: string, readOnly: bool)

  /** Fixed stretches of the embedded shell scripts. Their wording is
      payload the injector never inspects, so each is named, not spelled. */
  datatype Fragment =
    | AgentStart              // `exec /bin/consul agent` with node, bind and client flags
    | AgentEnd                // config dir, datacenter, data dir, retry-join, domain
    | RegisterService         // `consul services register`
    | ServiceFile             // `/consul/envoy/service.hcl`
    | EnvoyBootstrap          // `consul connect envoy -proxy-id=…`
    | BootstrapFile           // `-bootstrap > /consul/envoy/envoy-bootstrap.yaml`
    | RunEnvoy                // `envoy --config-path …`
    | DeregisterService       // `consul services deregister`
    | ConfigServiceFile       // `/consul/config/service.hcl`
    | ServiceDefinitionStart  // service and proxy stanzas up to the upstreams
    | ServiceDefinitionEnd    // proxy checks and the agent config.json
    | FetchCaCert             // curl the Connect CA roots into /consul/tls
    | AclLogin                // `consul login` and the client ACL config
    | CopyConsul              // copy the consul binary for the other containers

  /** One piece of an embedded shell script. Only the pieces the flags or the
      configuration decide are told apart; the rest is a fixed `Text`. */
  datatype Step =
    | Text(fragment: Fragment)
    | Hcl(setting: string)
    | TokenFile(path: string)
    | Logout(tokenFile: string)
    | UpstreamStanza(destinationName: string, localBindPort: string)
    | LeaderCheck(httpAddr: string)

  type Script = seq<Step>

  datatype Container = Container(
    name: string,
    image: string,
    command: Script,
    preStop: Option<Script>,
    readiness: Option<Script>,
    env: seq<EnvVar>,
    mounts: seq<Mount>)

  datatype Volume =
    | EmptyDir(name: string)
    | SecretVolume(name: string, secretName: string, key: string, path: string)

  datatype SidecarBundle = SidecarBundle(
    containers: seq<Container>,
    initContainers: seq<Container>,
    volumes: seq<Volume>)

  const AgentName: string := "consul-agent"
  const EnvoyName: string := "consul-connect-envoy-sidecar"
  const InitName: string := "consul-init"
  const ConsulImage: string := "hashicorp/consul:1.9.1"
  const EnvoyImage: string := "envoyproxy/envoy-alpine:v1.16.0"
  const AclTokenFile: string := "/consul/envoy/acl-token"
  const TlsDir: string := "/consul/tls"
  const CaCertFile: string := "/consul/tls/tls.crt"

  /** Agent settings passed whatever the flags. */
  const BaseHclSettings: seq<string> :=
    ["leave_on_terminate = true", "ports { grpc = 8502 }"]

  /** Agent settings that switch the agent to auto-encrypted TLS. */
  const TlsHclSettings: seq<string> := [
    "ca_file = \"/consul/tls/tls.crt\"",
    "auto_encrypt = {tls = true}",
    "auto_encrypt = {ip_san = [\"$POD_IP\"]}",
    "verify_outgoing = true",
    "ports { https = 8501 }",
    "ports { http = -1 }"]

  /** The items of `xs` when `on`, none otherwise: a `{{if}}` block. */
  function Gate<T>(on: bool, xs: seq<T>): seq<T> {
    if on then xs else []
  }

  function HclSteps(settings: seq<string>): Script {
    seq(|settings|, i requires 0 <= i < |settings| => Hcl(settings[i]))
  }

  /** The `range .Upstreams` loop of the init script. */
  function UpstreamStanzas(us: seq<Upstream>): Script {
    seq(|us|, i requires 0 <= i < |us| => UpstreamStanza(us[i].service, us[i].port))
  }

  /** The three downward-API variables every injected container starts with. */
  function PodEnv(): seq<EnvVar> {
    [ EnvVar("POD_IP", FieldRef("status.podIP")),
      EnvVar("NAMESPACE", FieldRef("metadata.namespace")),
      EnvVar("POD_NAME", FieldRef("metadata.name")) ]
  }

  function TlsClientEnv(): seq<EnvVar> {
    [ EnvVar("CONSUL_HTTP_SSL_VERIFY", Literal("false")),
      EnvVar("CONSUL_CACERT", Literal(CaCertFile)) ]
  }

  function ProxyServiceId(service: string): string {
    "$(POD_NAME)-" + service + "-sidecar-proxy"
  }

  // ---------------------------------------------------------------------
  // The three containers

  /** `consul-agent`: the Consul client agent. */
  function AgentContainer(d: Data): Container {
    Container(
      AgentName,
      ConsulImage,
      [Text(AgentStart)]
        + HclSteps(BaseHclSettings)
        + Gate(d.tlsEnabled, HclSteps(TlsHclSettings))
        + [Text(AgentEnd)],
      None,
      Some([LeaderCheck(d.consulHttpAddr)]),
      PodEnv()
        + [ EnvVar("CONSUL_SVC_ADDRESS", Literal(d.consulServer)),
            EnvVar("SERVICE_NAME", Literal(d.service)),
            EnvVar("SERVICE_PORT", Literal(d.port)) ]
        + Gate(d.tlsEnabled, [EnvVar("CONSUL_HTTP_SSL_VERIFY", Literal("false"))]),
      [ Mount("/consul/data", "consul-agent-data", false),
        Mount("/consul/config", "consul-connect-config-data", false) ]
        + Gate(d.tlsEnabled, [Mount(TlsDir, "consul-ca-cert", true)]))
  }

  /** `consul-connect-envoy-sidecar`: registers the service and runs Envoy. */
  function EnvoyContainer(d: Data): Container {
    Container(
      EnvoyName,
      EnvoyImage,
      [Text(RegisterService)]
        + Gate(d.aclsEnabled, [TokenFile(AclTokenFile)])
        + [Text(ServiceFile),
           Text(EnvoyBootstrap)]
        + Gate(d.aclsEnabled, [TokenFile(AclTokenFile)])
        + [Text(BootstrapFile),
           Text(RunEnvoy)],
      Some(
        [Text(DeregisterService)]
          + Gate(d.aclsEnabled, [TokenFile(AclTokenFile)])
          + [Text(ConfigServiceFile)]
          + Gate(d.aclsEnabled, [Logout(AclTokenFile)])),
      None,
      [ EnvVar("POD_NAME", FieldRef("metadata.name")),
        EnvVar("PROXY_SERVICE_ID", Literal(ProxyServiceId(d.service))),
        EnvVar("CONSUL_HTTP_ADDR", Literal(d.consulHttpAddr)),
        EnvVar("CONSUL_GRPC_ADDR", Literal("localhost:8502")) ]
        + Gate(d.tlsEnabled, TlsClientEnv()),
      [ Mount("/consul/envoy", "consul-connect-envoy-data", false),
        Mount("/consul/bin", "consul-connect-bin-data", false) ]
        + Gate(d.tlsEnabled, [Mount(TlsDir, "consul-tls-data", false)]))
  }

  /** `consul-init`: writes the service definition (with its upstreams),
      fetches the CA when TLS is on, logs in when ACLs are on, and copies
      the Consul binary for the other containers. */
  function InitContainer(d: Data): Container {
    Container(
      InitName,
      ConsulImage,
      [Text(ServiceDefinitionStart)]
        + UpstreamStanzas(d.upstreams)
        + [Text(ServiceDefinitionEnd)]
        + Gate(d.tlsEnabled, [Text(FetchCaCert)])
        + Gate(d.aclsEnabled, [Text(AclLogin)])
        + [Text(CopyConsul)],
      None,
      None,
      PodEnv()
        + [ EnvVar("SERVICE_NAME", Literal(d.service)),
            EnvVar("SERVICE_ID", Literal("$(POD_NAME)-" + d.service)),
            EnvVar("PROXY_SERVICE_ID", Literal(ProxyServiceId(d.service))),
            EnvVar("SERVICE_PORT", Literal(d.port)),
            EnvVar("CONSUL_HTTP_ADDR", Literal(d.consulServerHttpAddr)) ]
        + Gate(d.aclsEnabled, [EnvVar("CLIENT_ACL_TOKEN", SecretKeyRef(d.consulClientAclSecret, "token"))])
        + Gate(d.tlsEnabled, TlsClientEnv()),
      [ Mount("/consul/envoy", "consul-connect-envoy-data", false),
        Mount("/consul/config", "consul-connect-config-data", false),
        Mount("/consul/bin", "consul-connect-bin-data", false),
        Mount(TlsDir, "consul-tls-data", false) ])
  }

  /** The pod volumes the containers above mount. */
  function Volumes(d: Data): seq<Volume> {
    [ EmptyDir("consul-connect-envoy-data"),
      EmptyDir("consul-connect-config-data"),
      EmptyDir("consul-connect-bin-data"),
      EmptyDir("consul-agent-data"),
      EmptyDir("consul-tls-data"),
      SecretVolume("consul-ca-cert", d.consulServerCaSecret, "tls.crt", "tls.crt") ]
  }

  /** The `SidecarContainers` template expanded against `d`: two containers,
      one init container and six volumes, whatever the flags. */
  function SidecarContainers(d: Data): (b: SidecarBundle)
    ensures |b.containers| == 2
    ensures b.containers[0].name == AgentName && b.containers[1].name == EnvoyName
    ensures |b.initContainers| == 1 && b.initContainers[0].name == InitName
    ensures |b.volumes| == 6
    ensures b.volumes[5].SecretVolume? && b.volumes[5].secretName == d.consulServerCaSecret
  {
    SidecarBundle([AgentContainer(d), EnvoyContainer(d)], [InitContainer(d)], Volumes(d))
  }

  // ---------------------------------------------------------------------
  // What the containers say

  /** No two variables of `env` share a name, so each name has one value. */
  predicate UniqueEnvNames(env: seq<EnvVar>) {
    forall i, j :: 0 <= i < j < |env| ==> env[i].name != env[j].name
  }

  predicate DefinesEnv(env: seq<EnvVar>, name: string) {
    exists i :: 0 <= i < |env| && env[i].name == name
  }

  predicate MountsAt(mounts: seq<Mount>, path: string) {
    exists i :: 0 <= i < |mounts| && mounts[i].path == path
  }

  predicate UsesTokenFile(script: Script) {
    exists i :: 0 <= i < |script| && script[i].TokenFile?
  }

  predicate LogsOut(script: Script) {
    exists i :: 0 <= i < |script| && script[i].Logout?
  }

  /** The upstreams a script declares, in the order its stanzas appear. */
  function StanzasOf(script: Script): seq<Upstream>
    decreases |script|
  {
    if |script| == 0 then []
    else
      var head := script[0];
      (if head.UpstreamStanza? then [Upstream(head.destinationName, head.localBindPort)] else [])
        + StanzasOf(script[1..])
  }

  lemma {:induction false} StanzasOfAppend(a: Script, b: Script)
    ensures StanzasOf(a + b) == StanzasOf(a) + StanzasOf(b)
    decreases |a|
  {
    if |a| > 0 {
      StanzasOfAppend(a[1..], b);
      assert (a + b)[1..] == a[1..] + b;
    } else {
      assert a + b == b;
    }
  }

  /** The upstream loop declares exactly the configured upstreams, in order. */
  lemma {:induction false} StanzasOfLoop(us: seq<Upstream>)
    ensures StanzasOf(UpstreamStanzas(us)) == us
    decreases |us|
  {
    if |us| > 0 {
      StanzasOfLoop(us[1..]);
      assert UpstreamStanzas(us)[1..] == UpstreamStanzas(us[1..]);
      assert us == [us[0]] + us[1..];
    }
  }

  /** A script built only from fixed text declares no upstreams. */
  lemma {:induction false} NoStanzas(script: Script)
    requires forall i :: 0 <= i < |script| ==> !script[i].UpstreamStanza?
    ensures StanzasOf(script) == []
    decreases |script|
  {
    if |script| > 0 {
      NoStanzas(script[1..]);
    }
  }

  /** The init container's service definition holds one upstream stanza per
      configured upstream, in list order, naming its service and port; no
      other container declares upstreams. */
  lemma InitStanzasFollowUpstreams(d: Data)
    ensures StanzasOf(InitContainer(d).command) == d.upstreams
    ensures StanzasOf(AgentContainer(d).command) == []
    ensures StanzasOf(EnvoyContainer(d).command) == []
  {
    var b := SidecarBundle([AgentContainer(d), EnvoyContainer(d)], [InitContainer(d)], Volumes(d));
    var pre: Script := [Text(ServiceDefinitionStart)];
    var post: Script := [Text(ServiceDefinitionEnd)]
      + Gate(d.tlsEnabled, [Text(FetchCaCert)])
      + Gate(d.aclsEnabled, [Text(AclLogin)])
      + [Text(CopyConsul)];
    assert InitContainer(d).command == pre + UpstreamStanzas(d.upstreams) + post;
    StanzasOfAppend(pre + UpstreamStanzas(d.upstreams), post);
    StanzasOfAppend(pre, UpstreamStanzas(d.upstreams));
    StanzasOfLoop(d.upstreams);
    NoStanzas(pre);
    NoStanzas(post);
    NoStanzas(AgentContainer(d).command);
    NoStanzas(EnvoyContainer(d).command);
  }

  /** The agent's TLS settings are passed exactly when TLS is enabled, and
      it is never passed any setting outside the fixed lists. */
  lemma AgentTlsSettings(d: Data)
    ensures forall s :: s in TlsHclSettings ==> (Hcl(s) in AgentContainer(d).command <==> d.tlsEnabled)
    ensures forall s :: Hcl(s) in AgentContainer(d).command ==> s in BaseHclSettings + TlsHclSettings
  {
    var cmd := AgentContainer(d).command;
    forall s | s in TlsHclSettings
      ensures Hcl(s) in cmd <==> d.tlsEnabled
    {
      var i :| 0 <= i < |TlsHclSettings| && TlsHclSettings[i] == s;
      if d.tlsEnabled {
        assert cmd[3 + i] == Hcl(s);
      }
    }
    forall s | Hcl(s) in cmd
      ensures s in BaseHclSettings + TlsHclSettings
    {
      var k :| 0 <= k < |cmd| && cmd[k] == Hcl(s);
      if k < 3 {
        assert s == BaseHclSettings[k - 1];
      } else {
        assert d.tlsEnabled && k < 9;
        assert s == TlsHclSettings[k - 3];
      }
    }
  }

  /** With TLS the agent verifies nothing over HTTPS and mounts the CA
      certificate read-only under /consul/tls; without TLS it has neither. */
  lemma AgentTlsEnvAndMount(d: Data)
    ensures DefinesEnv(AgentContainer(d).env, "CONSUL_HTTP_SSL_VERIFY") <==> d.tlsEnabled
    ensures MountsAt(AgentContainer(d).mounts, TlsDir) <==> d.tlsEnabled
    ensures d.tlsEnabled ==>
      EnvVar("CONSUL_HTTP_SSL_VERIFY", Literal("false")) in AgentContainer(d).env
      && Mount(TlsDir, "consul-ca-cert", true) in AgentContainer(d).mounts
  {
    var c := AgentContainer(d);
    if d.tlsEnabled {
      assert c.env[6].name == "CONSUL_HTTP_SSL_VERIFY";
      assert c.mounts[2].path == TlsDir;
    }
  }

  /** The envoy container passes the ACL token file, and logs out of Consul
      before it stops, exactly when ACLs are enabled. */
  lemma EnvoyAclSteps(d: Data)
    ensures UsesTokenFile(EnvoyContainer(d).command) <==> d.aclsEnabled
    ensures EnvoyContainer(d).preStop.Some?
    ensures UsesTokenFile(EnvoyContainer(d).preStop.value) <==> d.aclsEnabled
    ensures LogsOut(EnvoyContainer(d).preStop.value) <==> d.aclsEnabled
  {
    var c := EnvoyContainer(d);
    if d.aclsEnabled {
      assert c.command[1].TokenFile?;
      assert c.preStop.value[1].TokenFile?;
      assert c.preStop.value[3].Logout?;
    }
  }

  /** The init container reads the client ACL token from the configured
      secret exactly when ACLs are enabled, and logs in only then; it
      fetches the CA certificate only when TLS is enabled. */
  lemma InitFlagBlocks(d: Data)
    ensures DefinesEnv(InitContainer(d).env, "CLIENT_ACL_TOKEN") <==> d.aclsEnabled
    ensures d.aclsEnabled ==>
      EnvVar("CLIENT_ACL_TOKEN", SecretKeyRef(d.consulClientAclSecret, "token")) in InitContainer(d).env
    ensures Text(AclLogin) in InitContainer(d).command <==> d.aclsEnabled
    ensures Text(FetchCaCert) in InitContainer(d).command <==> d.tlsEnabled
  {
    var c := InitContainer(d);
    if d.aclsEnabled {
      assert c.env[8].name == "CLIENT_ACL_TOKEN";
    }
  }

  /** The service name and port reach both the agent and the init container;
      envoy talks to the local agent and the init container to the servers.
      Every container's variable names are distinct, so these are the values
      the containers see (`AgentEnvDistinct` and its siblings). */
  lemma ConfigSubstituted(d: Data)
    ensures EnvVar("SERVICE_NAME", Literal(d.service)) in AgentContainer(d).env
    ensures EnvVar("SERVICE_PORT", Literal(d.port)) in AgentContainer(d).env
    ensures EnvVar("SERVICE_NAME", Literal(d.service)) in InitContainer(d).env
    ensures EnvVar("SERVICE_PORT", Literal(d.port)) in InitContainer(d).env
    ensures EnvVar("CONSUL_SVC_ADDRESS", Literal(d.consulServer)) in AgentContainer(d).env
    ensures EnvVar("CONSUL_HTTP_ADDR", Literal(d.consulHttpAddr)) in EnvoyContainer(d).env
    ensures EnvVar("CONSUL_HTTP_ADDR", Literal(d.consulServerHttpAddr)) in InitContainer(d).env
    ensures AgentContainer(d).readiness == Some([LeaderCheck(d.consulHttpAddr)])
  {
    var a := AgentContainer(d);
    var e := EnvoyContainer(d);
    var c := InitContainer(d);
    assert a.env[4] == EnvVar("SERVICE_NAME", Literal(d.service));
    assert a.env[5] == EnvVar("SERVICE_PORT", Literal(d.port));
    assert a.env[3] == EnvVar("CONSUL_SVC_ADDRESS", Literal(d.consulServer));
    assert e.env[2] == EnvVar("CONSUL_HTTP_ADDR", Literal(d.consulHttpAddr));
    assert c.env[3] == EnvVar("SERVICE_NAME", Literal(d.service));
    assert c.env[6] == EnvVar("SERVICE_PORT", Literal(d.port));
    assert c.env[7] == EnvVar("CONSUL_HTTP_ADDR", Literal(d.consulServerHttpAddr));
  }

  /** No container defines one environment variable twice. */
  lemma AgentEnvDistinct(d: Data)
    ensures UniqueEnvNames(AgentContainer(d).env)
  {
  }

  lemma EnvoyEnvDistinct(d: Data)
    ensures UniqueEnvNames(EnvoyContainer(d).env)
  {
  }

  lemma InitEnvDistinct(d: Data)
    ensures UniqueEnvNames(InitContainer(d).env)
  {
    var service := [ EnvVar("SERVICE_NAME", Literal(d.service)),
                     EnvVar("SERVICE_ID", Literal("$(POD_NAME)-" + d.service)),
                     EnvVar("PROXY_SERVICE_ID", Literal(ProxyServiceId(d.service))),
                     EnvVar("SERVICE_PORT", Literal(d.port)),
                     EnvVar("CONSUL_HTTP_ADDR", Literal(d.consulServerHttpAddr)) ];
    var acl := Gate(d.aclsEnabled, [EnvVar("CLIENT_ACL_TOKEN", SecretKeyRef(d.consulClientAclSecret, "token"))]);
    var tls := Gate(d.tlsEnabled, TlsClientEnv());
    UniqueConcat(PodEnv(), service);
    UniqueConcat(PodEnv() + service, acl);
    UniqueConcat(PodEnv() + service + acl, tls);
  }

  /** Two lists without a name in common, each without repeats, concatenate
      to a list without repeats. */
  lemma UniqueConcat(a: seq<EnvVar>, b: seq<EnvVar>)
    requires UniqueEnvNames(a) && UniqueEnvNames(b)
    requires forall i, j :: 0 <= i < |a| && 0 <= j < |b| ==> a[i].name != b[j].name
    ensures UniqueEnvNames(a + b)
  {
    var c := a + b;
    forall i, j | 0 <= i < j < |c|
      ensures c[i].name != c[j].name
    {
      if j < |a| {
      } else if i >= |a| {
        assert c[i] == b[i - |a|] && c[j] == b[j - |a|];
      } else {
        assert c[j] == b[j - |a|];
      }
    }
  }

  /** The volumes depend on nothing but the CA secret's name: neither flag
      nor the upstreams change them. */
  lemma VolumesIgnoreFlags(d1: Data, d2: Data)
    requires d1.consulServerCaSecret == d2.consulServerCaSecret
    ensures SidecarContainers(d1).volumes == SidecarContainers(d2).volumes
  {
  }
}
