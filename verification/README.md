# Consul sidecar injection, modelled in Dafny

This project models the core of a small command-line tool that injects a
Consul service-mesh sidecar bundle into Kubernetes Deployment manifests.
The tool takes a service name, a port and a space-delimited list of
`service:port` upstreams, plus ACL and TLS switches. From these it builds a
configuration record and expands a fixed template into a bundle of two
containers (`consul-agent` and `consul-connect-envoy-sidecar`), one init
container (`consul-init`) and six volumes. It then walks the manifest one
YAML document at a time. Documents whose `kind` is not `Deployment` are
printed back unchanged. For a Deployment, the bundle's lists are appended to
the pod template spec found at `spec → template → spec`.

Modules, one per concern of the program:

- `Wrappers` (wrappers.dfy): `Option` and `Result`, which stand in for Go's `(value, error)` returns and `os.Exit(1)`.
- `Strings` (strings.dfy): Go's `strings.Split` on one character, with `Join` as its inverse.
- `Yaml` (yaml.dfy): the generic YAML value `Node`, Go's nil-on-missing map lookup (`Field`) and the two type assertions the program uses.
- `Config` (config.dfy): the `data` and `upstream` records, the required-field checks, upstream parsing and the derived Consul addresses.
- `Sidecar` (sidecar.dfy): the template as a typed bundle built from the configuration. Each `{{if}}` block is a list that is empty when its flag is off. The `range .Upstreams` loop becomes one stanza per upstream.
- `Render` (render.dfy): the typed bundle as `Node` lists, and the read-back of the three lists that `main` performs after unmarshalling the template.
- `Merge` (merge.dfy): `appendToDeployment`, both as written and corrected, plus the `kind` check. `Version` selects which of the two a document is merged by.
- `Pipeline` (pipeline.dfy): the main loop over decoded documents, with its separators and its stop-at-first-error behaviour. `Main` runs the merge as written, as the program does. The same loop with the corrected merge states what was intended.

Three points where the program's behaviour is easy to misread:

- Mappings are Go maps keyed by string (`map<string, Node>`), so key order is not kept. The documents are decoded into `map[string]interface{}`.
- The code does not test whether `initContainers` or `volumes` is "absent". It tests whether the key holds a list. A key holding null or a scalar is treated like a missing one and overwritten.
- The `---` separator is printed before the `kind` check. A Deployment that fails to merge therefore still leaves a separator on the output (`Run.separators`).

## Model

| member | source | states |
|---|---|---|
| Strings.Split | main.go:104-106 | `strings.Split` always returns at least one piece, and no piece contains the separator |
| Strings.SplitCount | main.go:106-107 | a token splits into exactly one more piece than it has separators, so "exactly two parts" means "exactly one colon" |
| Strings.JoinSplit | main.go:104-106 | joining the pieces with the separator rebuilds the original string, so splitting loses nothing |
| Strings.SplitJoin | main.go:104-106 | splitting a join of separator-free pieces gives back those pieces |
| Config.ParseUpstream | main.go:106-112 | a token is accepted iff it has exactly one `:`; the upstream's service and port are the colon-free text before and after it; otherwise the error names the token |
| Config.ParseTokens | main.go:105-113 | all tokens parse iff each has exactly one colon; the result keeps token order one-for-one; a failure names the first bad token, and every earlier token was good |
| Config.ParseUpstreams | main.go:103-114 | an empty string gives the empty list; otherwise the space-separated tokens are parsed in order into colon-free upstreams that format back to them, and the first bad token is reported |
| Config.UpstreamsRoundTrip | main.go:103-114 | formatting a list of upstreams with colon- and space-free fields and parsing it back gives the same list in the same order |
| Config.ParsedUpstreamsFormat | main.go:103-114 | a successful parse, formatted back, is exactly the input string, and every parsed field is free of `:` and space |
| Config.ParseHttpUrl | main.go:95-101 | reading an address back succeeds only when its scheme and port name the same protocol, and it recovers the parts the address was built from |
| Config.HttpUrlRoundTrip | main.go:95-101 | for any host and TLS flag, the derived address reads back as that host and protocol, and its scheme and port agree with the flag |
| Config.AgreementDeterminesTls | main.go:95-101 | for an address that agrees with the TLS flag, the `https://` scheme alone, or the `:8501` port alone, tells whether TLS is on |
| Config.AgentAddress | main.go:93 | the agent's join address is the server host followed by `:8301` |
| Config.Derive | main.go:86-101 | the record copies the flags; the agent address is `host:8301`; both HTTP addresses read back as (TLS flag, localhost) and (TLS flag, server host) |
| Config.DefaultsNeedServiceAndPort | main.go:17-86 | with no flags the run stops on the missing service, then on the missing port; with both given, the defaults are accepted: no upstreams, the server `consul-server.default.svc` over plain HTTP, and the default secret names |
| Config.BuildConfig | main.go:72-114 | an empty service is rejected first, then an empty port, then a bad upstream token; it succeeds iff none of these applies, and then the record holds the parsed upstreams and the derived addresses |
| Sidecar.SidecarContainers | templates/sidecar.go:5-345 | whatever the flags, the bundle has exactly two containers named `consul-agent` and `consul-connect-envoy-sidecar`, one init container named `consul-init`, and six volumes, the last reading the server CA secret |
| Sidecar.StanzasOfLoop | templates/sidecar.go:215-221 | the upstream loop declares exactly the given upstreams, in order |
| Sidecar.InitStanzasFollowUpstreams | templates/sidecar.go:215-221 | the init script holds one upstream stanza per configured upstream, in list order, with `destination_name` = service and `local_bind_port` = port; the other containers declare none |
| Sidecar.AgentTlsSettings | templates/sidecar.go:19-26 | each TLS agent setting (`ca_file`, both `auto_encrypt`s, `verify_outgoing`, https 8501, http off) is passed iff TLS is enabled, and no setting outside the fixed lists is ever passed |
| Sidecar.AgentTlsEnvAndMount | templates/sidecar.go:53-108 | the agent defines `CONSUL_HTTP_SSL_VERIFY`, and mounts something at `/consul/tls`, iff TLS is enabled; that mount is the read-only `consul-ca-cert` volume |
| Sidecar.EnvoyAclSteps | templates/sidecar.go:117-144 | the envoy commands pass `-token-file`, and its preStop hook logs out of Consul, iff ACLs are enabled |
| Sidecar.InitFlagBlocks | templates/sidecar.go:249-310 | the init container defines `CLIENT_ACL_TOKEN` iff ACLs are enabled, reading key `token` of the client ACL secret; it logs in iff ACLs are on and fetches the CA iff TLS is on |
| Sidecar.ConfigSubstituted | templates/sidecar.go:47-303 | service name and port reach `SERVICE_NAME`/`SERVICE_PORT` of the agent and the init container; envoy gets the local HTTP address, the init container the server HTTP address, and the agent's readiness probe the local one |
| Sidecar.AgentEnvDistinct | templates/sidecar.go:32-56 | no environment variable of the agent is defined twice, so each name has one value |
| Sidecar.EnvoyEnvDistinct | templates/sidecar.go:145-161 | no environment variable of the envoy container is defined twice |
| Sidecar.InitEnvDistinct | templates/sidecar.go:279-316 | no environment variable of the init container is defined twice, whichever flags are on |
| Sidecar.VolumesIgnoreFlags | templates/sidecar.go:328-344 | the volumes depend only on the CA secret name, not on either flag or on the upstreams |
| Render.RenderBundle | main.go:117-129 | rendering keeps each list's length and order, and each node carries its container's or volume's name |
| Render.ParseBundle | main.go:162-167 | reading the unmarshalled template succeeds iff it is a mapping whose three keys each hold a list, and returns exactly those lists |
| Render.ParseRendered | main.go:117-133 | the render-then-parse round trip returns the bundle unchanged |
| Render.BuildBundle | main.go:116-133 | reading back the bundle, built from structured values, always succeeds and yields exactly `SidecarNodes`; flag values that break the rendered YAML are outside the model |
| Render.SidecarNodes | templates/sidecar.go:5-345 | the bundle as nodes has two containers named `consul-agent` and `consul-connect-envoy-sidecar`, one init container named `consul-init`, and six volumes |
| Merge.PodSpec | main.go:188-202 | the pod spec is found at `spec → template → spec`; the first segment that is not a mapping gives its own error |
| Merge.WithPodSpec | main.go:199-229 | replacing the pod spec changes nothing else in the document, in `spec` or in `spec.template` |
| Merge.MergePodSpec | main.go:204-229 | fails iff `containers` is not a list; otherwise each list becomes its existing entries (none if it was not a list) followed by the bundle's, and every other key is unchanged |
| Merge.MergePodSpecAsWritten | main.go:204-227 | as written: when `volumes` is already a list, the merged volumes replace `initContainers` and `volumes` is left unchanged |
| Merge.AppendToDeployment | main.go:186-230 | the error is the path error, or else `MissingContainers` exactly when `containers` is not a list; on success the pod spec is merged append-only and nothing else changes |
| Merge.AppendToDeploymentAsWritten | main.go:186-230 | the same errors and path handling, with the as-written volumes step |
| Merge.ProcessDocument | main.go:156-172 | a document whose `kind` is not "Deployment" comes back unchanged; a Deployment is merged by the chosen version of `appendToDeployment` (the program's is `AsWritten`), and the merge never changes `kind` |
| Merge.MergeTwice | main.go:210-227 | with the corrected volumes step, merging twice appends two copies of the bundle to each list; there is no deduplication |
| Merge.MergeNotIdempotent | main.go:210-227 | with the corrected volumes step, a second merge changes the document again when the bundle has a container |
| Merge.MergeTwiceAsWritten | main.go:210-227 | the program's merge, applied twice: containers get two copies of the bundle's; `volumes` keeps the first merge's value, and `initContainers` becomes that list followed by the bundle's volumes, so without an original `volumes` list it holds the bundle's volumes twice |
| Merge.MergeNotIdempotentAsWritten | main.go:210-227 | the program's merge, applied a second time, changes the document again when the bundle has a container |
| Merge.AsWrittenAgreesWithoutVolumes | main.go:221-224 | when the pod has no volumes list, the as-written and corrected merges agree |
| Merge.VolumesDefectWitness | main.go:221-227 | on a Deployment with `volumes: []`, the code as written leaves `volumes` empty and writes the bundle's volumes over `initContainers`; the corrected merge keeps both lists |
| Pipeline.ProcessStream | main.go:142-182 | documents come out in input order, each processed once by the chosen merge version; processing stops at the first decode or merge error, keeping what was already printed; every printed document, and a failing Deployment, is preceded by one separator |
| Pipeline.Main | main.go:72-182 | a configuration error ends the run before the file is read; an unreadable file ends it with nothing printed; otherwise the stream is processed with the one bundle built from the configuration and the merge as written |
| Pipeline.ConfigCheckedFirst | main.go:72-135 | with a bad configuration, the outcome does not depend on the manifest and nothing is printed |
| Pipeline.EmptyManifest | main.go:142-147 | an empty manifest prints nothing and succeeds |
| Pipeline.PassThroughStream | main.go:154-160 | a stream without Deployments is printed back unchanged, document for document and in order, by either merge version |
| Pipeline.MergeableProcesses | main.go:156-172 | a document is processed without error, by either merge version, iff it is not a Deployment, or its pod spec is reachable and holds a `containers` list |
| Pipeline.MergeablePrefixEmitted | main.go:142-182 | if the first i+1 documents decode and are mergeable, the i-th is printed at position i, and a Deployment there is merged by the version's pod merge: the as-written one, or append-only for the corrected one |
| Pipeline.DeploymentsGainSidecars | main.go:162-180 | if the first i+1 documents decode and are mergeable, the Deployment `Main` prints at position i has its own containers followed by the bundle's two. Without a `volumes` list, `initContainers` is its own followed by the bundle's one and `volumes` is the six bundle volumes. With one, `volumes` is unchanged and `initContainers` is that list followed by the six bundle volumes |
| Pipeline.CorrectedListsGrow | main.go:162-180 | for any bundle, the corrected merge makes each of the three lists of the Deployment at position i its existing entries followed by the bundle's list, so each grows by exactly that list's length |
| Pipeline.CorrectedDeploymentsGainSidecars | main.go:162-180 | with the corrected merge, the same Deployment's containers, init containers and volumes would each be its own entries followed by the bundle's two, one and six |
| Pipeline.SidecarAddressesFollowTls | main.go:95-101 | envoy's `CONSUL_HTTP_ADDR` is the local address, and the init container's is the server address, both with the scheme and port of the TLS flag |
| Pipeline.SingleUpstreamConfig | main.go:103-114 | with `-upstreams api:9091`, the configuration holds one upstream and the init script one stanza, `api` on port 9091 |
| Pipeline.SingleDeployment | main.go:142-182 | a one-document manifest whose Deployment has one container and no init containers or volumes comes out with 3 containers, 1 init container and 6 volumes |

## Left out

- Flag parsing, the help text and its exit code, and the exit status of every error (main.go:17-28, 54-70). The flags are the `Flags` input. The error paths are `Failure` values.
- Reading the file, the YAML decoder and marshaller, and writing to standard output (main.go:135-182). These are I/O and library calls. The file is an `Input`: either unreadable or the decoder's sequence of documents and decode errors. The output is the list of printed documents plus the number of `---` separators.
- The wording of error messages, and the debug prints at main.go:190 and main.go:206, which write the offending value to standard output before the error is returned.
- The `text/template` engine, and the printing of the bundle as YAML text before it is parsed back. The bundle is built as structured data. `ParseBundle` models only the read-back of the three lists.
- The exact wording of the shell scripts (`Fragment`, stand-in text in `Render.FragmentText`), and the container ports, resource limits, termination-message settings and probe timings. This is fixed payload that the merge never inspects.
- Mapping keys other than strings, and YAML floats, anchors and tags. The injector only ever looks up string keys.
- The `apiVersion: v1` inside each downward-API `fieldRef` (templates/sidecar.go:36, 41, 283, 288). `Render.EnvNode` renders only the field path, which is the part that varies.
- Render.BuildBundle: it assumes flag values that render to well-formed YAML. The program pastes flag values into the template text unescaped. A `"` in `-service`, a ` #` in `-consul-server`, or a newline in `-port` or an upstream can make `yaml.Unmarshal` fail (main.go:129-133 then exits before the manifest is read). It can also yield different nodes, and then the type assertions at main.go:164-166 panic at the first Deployment. The model builds the bundle as structured values, so `Main` never takes either path.
- Merge.MergeTwice: it describes the corrected merge. The program's own merge is covered by `Merge.MergeTwiceAsWritten`.
- Merge.MergeNotIdempotent: it describes the corrected merge. The program's own merge is covered by `Merge.MergeNotIdempotentAsWritten`.
- Pipeline.CorrectedDeploymentsGainSidecars: it describes the corrected pipeline, not the program. What the program prints is `Pipeline.DeploymentsGainSidecars`.
- Pipeline.SingleDeployment: it is stated for any valid flags and any such Deployment, not only the literal `web`/`9090` example. The upstream half of that example is `Pipeline.SingleUpstreamConfig`.

## Findings

| source | as written | input that shows it | evidently intended | confidence | as-written member | corrected member |
|---|---|---|---|---|---|---|
| main.go:221-227 | when the pod spec already has a `volumes` list, the merged volumes are stored under `initContainers`. This overwrites the init containers just merged, and `volumes` keeps its old value. | a Deployment whose pod spec is `{containers: [app], volumes: []}` (`Merge.DefectDocument`) ends with `volumes: []` and `initContainers` = the six bundle volumes, with no `consul-init` | the merged volumes are stored under `volumes`, and `initContainers` keeps the merged init containers | high; not executed | Merge.AppendToDeploymentAsWritten, shown by Merge.VolumesDefectWitness and Pipeline.DeploymentsGainSidecars | Merge.AppendToDeployment, with Pipeline.CorrectedDeploymentsGainSidecars |
