/** The sidecar bundle as the merge sees it: three lists of generic YAML
    nodes. In the Go program these come from expanding the template to
    text and unmarshalling that text into a map (main.go); here the nodes
    are built from the typed bundle, and `ParseBundle` takes the map apart
    with the same three list lookups `main` makes. It runs once and reports
    a failed lookup as an error, where `main` makes the lookups at each
    Deployment and would panic. */
module Render {
  import opened Wrappers
  import opened Yaml
  import opened Config
  import opened Sidecar

  /** The three lists spliced into every Deployment. */
  datatype Bundle = Bundle(containers: seq<Node>, initContainers: seq<Node>, volumes: seq<Node>)

  /** Stand-in wording for the fixed script fragments. */
  function FragmentText(f: Fragment): string {
    match f
    case AgentStart => "exec /bin/consul agent"
    case AgentEnd => "-config-dir=/consul/config -domain=consul"
    case RegisterService => "/consul/bin/consul services register"
    case ServiceFile => "/consul/envoy/service.hcl"
    case EnvoyBootstrap => "/consul/bin/consul connect envoy"
    case BootstrapFile => "-bootstrap > /consul/envoy/envoy-bootstrap.yaml"
    case RunEnvoy => "envoy --config-path /consul/envoy/envoy-bootstrap.yaml"
    case DeregisterService => "/consul/bin/consul services deregister"
    case ConfigServiceFile => "/consul/config/service.hcl"
    case ServiceDefinitionStart => "services { proxy {"
    case ServiceDefinitionEnd => "} }"
    case FetchCaCert => "curl ${CONSUL_HTTP_ADDR}/v1/connect/ca/roots?pem=true -k"
    case AclLogin => "/bin/consul login -method=\"consul-k8s-auth-method\""
    case CopyConsul => "cp /bin/consul /consul/bin/consul"
  }

  function StepText(st: Step): string {
    match st
    case Text(f) => FragmentText(f)
    case Hcl(setting) => "-hcl='" + setting + "'"
    case TokenFile(path) => "-token-file=\"" + path + "\""
    case Logout(path) => "/consul/bin/consul logout -token-file=\"" + path + "\""
    case UpstreamStanza(name, port) =>
      "upstreams { destination_type = \"service\" destination_name = \"" + name
        + "\" local_bind_port = " + port + " }"
    case LeaderCheck(addr) => "curl -k " + addr + "/v1/status/leader"
  }

  /** The script as one block of text, one step per line. */
  function ScriptText(script: Script): string
    decreases |script|
  {
    if |script| == 0 then "" else StepText(script[0]) + "\n" + ScriptText(script[1..])
  }

  /** `command: [/bin/sh, -ec, <script>]`. */
  function ShellCommand(script: Script): Node {
    List([Str("/bin/sh"), Str("-ec"), Str(ScriptText(script))])
  }

  function EnvNode(e: EnvVar): Node {
    match e.source
    case Literal(v) => Mapping(map["name" := Str(e.name), "value" := Str(v)])
    case FieldRef(path) =>
      Mapping(map["name" := Str(e.name),
                  "valueFrom" := Mapping(map["fieldRef" := Mapping(map["fieldPath" := Str(path)])])])
    case SecretKeyRef(secret, key) =>
      Mapping(map["name" := Str(e.name),
                  "valueFrom" := Mapping(map["secretKeyRef" := Mapping(map["name" := Str(secret), "key" := Str(key)])])])
  }

  function MountNode(m: Mount): Node {
    var base := map["mountPath" := Str(m.path), "name" := Str(m.volume)];
    Mapping(if m.readOnly then base["readOnly" := Bool(true)] else base)
  }

  function ContainerNode(c: Container): Node {
    var base := map[
      "name" := Str(c.name),
      "image" := Str(c.image),
      "imagePullPolicy" := Str("IfNotPresent"),
      "command" := ShellCommand(c.command),
      "env" := List(seq(|c.env|, i requires 0 <= i < |c.env| => EnvNode(c.env[i]))),
      "volumeMounts" := List(seq(|c.mounts|, i requires 0 <= i < |c.mounts| => MountNode(c.mounts[i])))];
    var withStop := match c.preStop
      case Some(script) =>
        base["lifecycle" := Mapping(map["preStop" := Mapping(map["exec" := Mapping(map["command" := ShellCommand(script)])])])]
      case None => base;
    var withProbe := match c.readiness
      case Some(script) =>
        withStop["readinessProbe" := Mapping(map["exec" := Mapping(map["command" := ShellCommand(script)])])]
      case None => withStop;
    Mapping(withProbe)
  }

  function VolumeNode(v: Volume): Node {
    match v
    case EmptyDir(name) => Mapping(map["name" := Str(name), "emptyDir" := Mapping(map[])])
    case SecretVolume(name, secretName, key, path) =>
      Mapping(map[
        "name" := Str(name),
        "secret" := Mapping(map[
          "secretName" := Str(secretName),
          "items" := List([Mapping(map["key" := Str(key), "path" := Str(path)])])])])
  }

  /** The `name` of a container or volume node, if it has one. */
  function NameOf(n: Node): Option<string> {
    if n.Mapping? && Field(n.fields, "name").Str? then Some(Field(n.fields, "name").s) else None
  }

  /** The typed bundle as generic nodes, list by list and in order. */
  function RenderBundle(b: SidecarBundle): (r: Bundle)
    ensures |r.containers| == |b.containers|
    ensures |r.initContainers| == |b.initContainers|
    ensures |r.volumes| == |b.volumes|
    ensures forall i :: 0 <= i < |b.containers| ==> NameOf(r.containers[i]) == Some(b.containers[i].name)
    ensures forall i :: 0 <= i < |b.initContainers| ==> NameOf(r.initContainers[i]) == Some(b.initContainers[i].name)
    ensures forall i :: 0 <= i < |b.volumes| ==> NameOf(r.volumes[i]) == Some(b.volumes[i].name)
  {
    Bundle(
      seq(|b.containers|, i requires 0 <= i < |b.containers| => ContainerNode(b.containers[i])),
      seq(|b.initContainers|, i requires 0 <= i < |b.initContainers| => ContainerNode(b.initContainers[i])),
      seq(|b.volumes|, i requires 0 <= i < |b.volumes| => VolumeNode(b.volumes[i])))
  }

  /** The rendered template as the single YAML mapping it unmarshals to. */
  function TemplateDocument(b: Bundle): Node {
    Mapping(map[
      "containers" := List(b.containers),
      "initContainers" := List(b.initContainers),
      "volumes" := List(b.volumes)])
  }

  datatype BundleError =
    | NotAMapping
    | MissingList(key: string)

  /** Reads the three lists out of the unmarshalled template: it must be a
      mapping, and `containers`, `initContainers` and `volumes` must each
      hold a list. */
  function ParseBundle(n: Node): (r: Result<Bundle, BundleError>)
    ensures r.Ok? <==>
      n.Mapping?
      && ListField(n.fields, "containers").Some?
      && ListField(n.fields, "initContainers").Some?
      && ListField(n.fields, "volumes").Some?
    ensures r.Ok? ==>
      && Field(n.fields, "containers") == List(r.value.containers)
      && Field(n.fields, "initContainers") == List(r.value.initContainers)
      && Field(n.fields, "volumes") == List(r.value.volumes)
    ensures r == Err(NotAMapping) <==> !n.Mapping?
  {
    if !n.Mapping? then Err(NotAMapping)
    else
      var m := n.fields;
      match (ListField(m, "containers"), ListField(m, "initContainers"), ListField(m, "volumes"))
      case (Some(cs), Some(ics), Some(vs)) => Ok(Bundle(cs, ics, vs))
      case (None, _, _) => Err(MissingList("containers"))
      case (_, None, _) => Err(MissingList("initContainers"))
      case (_, _, None) => Err(MissingList("volumes"))
  }

  /** Taking the rendered template apart gives back the bundle it was built
      from: the render-then-parse round trip loses and invents nothing. */
  lemma ParseRendered(b: Bundle)
    ensures ParseBundle(TemplateDocument(b)) == Ok(b)
  {
    var m := TemplateDocument(b).fields;
    assert Field(m, "containers") == List(b.containers);
    assert Field(m, "initContainers") == List(b.initContainers);
    assert Field(m, "volumes") == List(b.volumes);
  }

  /** The bundle `main` computes once, before reading any document. */
  function SidecarNodes(d: Data): (r: Bundle)
    ensures |r.containers| == 2 && |r.initContainers| == 1 && |r.volumes| == 6
    ensures NameOf(r.containers[0]) == Some(AgentName)
    ensures NameOf(r.containers[1]) == Some(EnvoyName)
    ensures NameOf(r.initContainers[0]) == Some(InitName)
  {
    RenderBundle(SidecarContainers(d))
  }

  /** Render, then parse back (main.go:116-133). Built as structured values,
      the bundle always reads back unchanged; flag values that would break
      the rendered YAML text are outside the model. */
  function BuildBundle(d: Data): (r: Result<Bundle, BundleError>)
    ensures r == Ok(SidecarNodes(d))
  {
    ParseRendered(SidecarNodes(d));
    ParseBundle(TemplateDocument(SidecarNodes(d)))
  }
}
