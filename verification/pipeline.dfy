/** The body of `main` once the flags are parsed: build the configuration,
    build the bundle once, then decode the manifest one document at a time,
    printing a `---` separator and then the processed document, and stop at
    the first error. Reading the file and the YAML decoder are inputs; what
    is printed is a list of documents plus the number of separators. */
module Pipeline {
  import opened Wrappers
  import opened Yaml
  import opened Config
  import opened Sidecar
  import opened Render
  import opened Merge

  /** One call of the YAML decoder: a document, or a decode error. End of
      input is the end of the sequence. */
  datatype Decoded = Doc(doc: Document) | Malformed

  /** The manifest file: unreadable, or the decoder's output for it. */
  datatype Input = Unreadable | Contents(stream: seq<Decoded>)

  datatype Failure =
    | ConfigFailure(configError: ConfigError)
    | ReadFailure
    | DecodeFailure
    | MergeFailure(mergeError: MergeError)

  /** What a run printed and why it stopped, if it did not finish. */
  datatype Run = Run(emitted: seq<Document>, separators: nat, failure: Option<Failure>)

  /** The document loop of main.go:142-182, with either version of the
      merge; the program runs `AsWritten`. */
  function ProcessStream(v: Version, stream: seq<Decoded>, b: Bundle): (r: Run)
    ensures |r.emitted| <= |stream|
    ensures forall i :: 0 <= i < |r.emitted| ==>
      stream[i].Doc? && ProcessDocument(v, stream[i].doc, b) == Ok(r.emitted[i])
    ensures r.failure.None? <==> |r.emitted| == |stream|
    ensures r.failure == Some(DecodeFailure) <==>
      |r.emitted| < |stream| && stream[|r.emitted|].Malformed?
    ensures r.failure.Some? && r.failure.value.MergeFailure? ==>
      |r.emitted| < |stream| && stream[|r.emitted|].Doc?
      && ProcessDocument(v, stream[|r.emitted|].doc, b) == Err(r.failure.value.mergeError)
    ensures r.failure.None? || r.failure == Some(DecodeFailure) || r.failure.value.MergeFailure?
    ensures r.separators == |r.emitted| + (if r.failure.Some? && r.failure.value.MergeFailure? then 1 else 0)
    decreases |stream|
  {
    if |stream| == 0 then Run([], 0, None)
    else if stream[0].Malformed? then Run([], 0, Some(DecodeFailure))
    else
      var processed := ProcessDocument(v, stream[0].doc, b);
      if processed.Err? then Run([], 1, Some(MergeFailure(processed.error)))
      else
        var rest := ProcessStream(v, stream[1..], b);
        Run([processed.value] + rest.emitted, rest.separators + 1, rest.failure)
  }

  /** `main` after flag parsing. The configuration is checked first, the
      bundle is built once, and only then is the manifest consulted. The
      bundle is the same for every document, and each Deployment is merged
      as main.go:186-230 is written. */
  function Main(f: Flags, input: Input): (r: Run)
    ensures !Accepted(f) ==> r == Run([], 0, Some(ConfigFailure(BuildConfig(f).error)))
    ensures Accepted(f) && input.Unreadable? ==> r == Run([], 0, Some(ReadFailure))
    ensures Accepted(f) && input.Contents? ==>
      r == ProcessStream(AsWritten, input.stream, SidecarNodes(BuildConfig(f).value))
  {
    match BuildConfig(f)
    case Err(e) => Run([], 0, Some(ConfigFailure(e)))
    case Ok(d) =>
      // The bundle is built as structured values, so reading it back cannot
      // fail here (`BuildBundle`); flag values that would not render to
      // well-formed YAML are outside the model.
      var bundle := BuildBundle(d).value;
      match input
      case Unreadable => Run([], 0, Some(ReadFailure))
      case Contents(stream) => ProcessStream(AsWritten, stream, bundle)
  }

  // ---------------------------------------------------------------------
  // Properties of a run

  /** A bad configuration is reported before the manifest is looked at: the
      outcome does not depend on the input at all, and nothing is printed. */
  lemma ConfigCheckedFirst(f: Flags, a: Input, b: Input)
    requires !Accepted(f)
    ensures Main(f, a) == Main(f, b)
    ensures Main(f, a).emitted == [] && Main(f, a).separators == 0
  {
  }

  /** An empty manifest produces no documents and succeeds. */
  lemma EmptyManifest(f: Flags)
    requires Accepted(f)
    ensures Main(f, Contents([])) == Run([], 0, None)
  {
  }

  /** A stream without Deployments is printed back unchanged, document for
      document, in order. */
  lemma {:induction false} PassThroughStream(v: Version, docs: seq<Document>, b: Bundle)
    requires forall i :: 0 <= i < |docs| ==> !IsDeployment(docs[i])
    ensures ProcessStream(v, seq(|docs|, i requires 0 <= i < |docs| => Doc(docs[i])), b)
      == Run(docs, |docs|, None)
    decreases |docs|
  {
    var stream := seq(|docs|, i requires 0 <= i < |docs| => Doc(docs[i]));
    if |docs| > 0 {
      PassThroughStream(v, docs[1..], b);
      assert stream[1..] == seq(|docs[1..]|, i requires 0 <= i < |docs[1..]| => Doc(docs[1..][i]));
      assert docs == [docs[0]] + docs[1..];
    }
  }

  /** A document the merge accepts: anything but a Deployment, or a
      Deployment with a pod spec whose `containers` is a list. */
  predicate Mergeable(doc: Document)
  {
    IsDeployment(doc) ==> PodSpec(doc).Ok? && ListField(PodSpec(doc).value, "containers").Some?
  }

  /** A document is processed without error exactly when it is mergeable,
      whatever the bundle and whichever version of the merge. */
  lemma MergeableProcesses(v: Version, doc: Document, b: Bundle)
    ensures ProcessDocument(v, doc, b).Ok? <==> Mergeable(doc)
  {
  }

  /** When the first i+1 documents decode and are mergeable, the i-th is
      printed, in its input position. A Deployment there has the bundle's
      two containers appended after its own. If its pod had no `volumes`
      list, it also gains the bundle's init container after its own and the
      six bundle volumes; if it had one, `volumes` is left as it was and
      `initContainers` becomes those volumes followed by the six. */
  lemma DeploymentsGainSidecars(f: Flags, stream: seq<Decoded>, i: nat)
    requires Accepted(f)
    requires i < |stream|
    requires forall j :: 0 <= j <= i ==> stream[j].Doc? && Mergeable(stream[j].doc)
    requires IsDeployment(stream[i].doc)
    ensures BuildConfig(f).Ok?
    ensures i < |Main(f, Contents(stream)).emitted|
      && PodSpec(stream[i].doc).Ok? && PodSpec(Main(f, Contents(stream)).emitted[i]).Ok?
    ensures var pod := PodSpec(stream[i].doc).value;
      var pod' := PodSpec(Main(f, Contents(stream)).emitted[i]).value;
      var b := SidecarNodes(BuildConfig(f).value);
      && ListField(pod', "containers") == Some(ExistingList(pod, "containers") + b.containers)
      && |ExistingList(pod', "containers")| == |ExistingList(pod, "containers")| + 2
      && (ListField(pod, "volumes").None? ==>
            && ListField(pod', "initContainers") == Some(ExistingList(pod, "initContainers") + b.initContainers)
            && |ExistingList(pod', "initContainers")| == |ExistingList(pod, "initContainers")| + 1
            && ListField(pod', "volumes") == Some(b.volumes) && |b.volumes| == 6)
      && (ListField(pod, "volumes").Some? ==>
            && Field(pod', "volumes") == Field(pod, "volumes")
            && ListField(pod', "initContainers") == Some(ExistingList(pod, "volumes") + b.volumes)
            && |ExistingList(pod', "initContainers")| == |ExistingList(pod, "volumes")| + 6)
  {
    var b := SidecarNodes(BuildConfig(f).value);
    assert Main(f, Contents(stream)) == ProcessStream(AsWritten, stream, b);
    MergeablePrefixEmitted(AsWritten, stream, b, i);
  }

  /** What the corrected merge would print instead: the Deployment at
      position i gains two containers, one init container and six volumes,
      each after its own entries. */
  lemma CorrectedDeploymentsGainSidecars(f: Flags, stream: seq<Decoded>, i: nat)
    requires Accepted(f)
    requires i < |stream|
    requires forall j :: 0 <= j <= i ==> stream[j].Doc? && Mergeable(stream[j].doc)
    requires IsDeployment(stream[i].doc)
    ensures BuildConfig(f).Ok?
    ensures var run := ProcessStream(Corrected, stream, SidecarNodes(BuildConfig(f).value));
      i < |run.emitted| && PodSpec(stream[i].doc).Ok? && PodSpec(run.emitted[i]).Ok?
    ensures var b := SidecarNodes(BuildConfig(f).value);
      var run := ProcessStream(Corrected, stream, b);
      var pod := PodSpec(stream[i].doc).value;
      var pod' := PodSpec(run.emitted[i]).value;
      && ListField(pod', "containers") == Some(ExistingList(pod, "containers") + b.containers)
      && ListField(pod', "initContainers") == Some(ExistingList(pod, "initContainers") + b.initContainers)
      && ListField(pod', "volumes") == Some(ExistingList(pod, "volumes") + b.volumes)
      && |ExistingList(pod', "containers")| == |ExistingList(pod, "containers")| + 2
      && |ExistingList(pod', "initContainers")| == |ExistingList(pod, "initContainers")| + 1
      && |ExistingList(pod', "volumes")| == |ExistingList(pod, "volumes")| + 6
  {
    CorrectedListsGrow(stream, SidecarNodes(BuildConfig(f).value), i);
  }

  /** `CorrectedDeploymentsGainSidecars` for any bundle: each list becomes
      its existing entries followed by the bundle's list. */
  lemma CorrectedListsGrow(stream: seq<Decoded>, b: Bundle, i: nat)
    requires i < |stream|
    requires forall j :: 0 <= j <= i ==> stream[j].Doc? && Mergeable(stream[j].doc)
    requires IsDeployment(stream[i].doc)
    ensures i < |ProcessStream(Corrected, stream, b).emitted|
    ensures PodSpec(stream[i].doc).Ok? && PodSpec(ProcessStream(Corrected, stream, b).emitted[i]).Ok?
    ensures var pod := PodSpec(stream[i].doc).value;
      var pod' := PodSpec(ProcessStream(Corrected, stream, b).emitted[i]).value;
      && ListField(pod', "containers") == Some(ExistingList(pod, "containers") + b.containers)
      && ListField(pod', "initContainers") == Some(ExistingList(pod, "initContainers") + b.initContainers)
      && ListField(pod', "volumes") == Some(ExistingList(pod, "volumes") + b.volumes)
      && |ExistingList(pod', "containers")| == |ExistingList(pod, "containers")| + |b.containers|
      && |ExistingList(pod', "initContainers")| == |ExistingList(pod, "initContainers")| + |b.initContainers|
      && |ExistingList(pod', "volumes")| == |ExistingList(pod, "volumes")| + |b.volumes|
  {
    MergeablePrefixEmitted(Corrected, stream, b, i);
  }

  /** The stream-level half of the two lemmas above, for any bundle: the
      i-th document is printed and merged by the version's pod merge. */
  lemma MergeablePrefixEmitted(v: Version, stream: seq<Decoded>, b: Bundle, i: nat)
    requires i < |stream|
    requires forall j :: 0 <= j <= i ==> stream[j].Doc? && Mergeable(stream[j].doc)
    requires IsDeployment(stream[i].doc)
    ensures i < |ProcessStream(v, stream, b).emitted|
    ensures var out := ProcessStream(v, stream, b).emitted[i];
      && PodSpec(stream[i].doc).Ok? && PodSpec(out).Ok?
      && (v == AsWritten ==> MergedPodAsWritten(PodSpec(stream[i].doc).value, PodSpec(out).value, b))
      && (v == Corrected ==> MergedPod(PodSpec(stream[i].doc).value, PodSpec(out).value, b))
  {
    var r := ProcessStream(v, stream, b);
    var k := |r.emitted|;
    if k <= i {
      MergeableProcesses(v, stream[k].doc, b);
      assert false;
    }
    if v == AsWritten {
      assert AppendToDeploymentAsWritten(stream[i].doc, b) == Ok(r.emitted[i]);
    } else {
      assert AppendToDeployment(stream[i].doc, b) == Ok(r.emitted[i]);
    }
  }

  /** The HTTP addresses the sidecars are given follow the TLS flag: envoy
      reaches the local agent, the init container the Consul servers. */
  lemma SidecarAddressesFollowTls(f: Flags)
    requires Accepted(f)
    ensures var d := BuildConfig(f).value;
      && EnvVar("CONSUL_HTTP_ADDR", Literal(HttpUrl("localhost", f.tlsEnabled))) in EnvoyContainer(d).env
      && EnvVar("CONSUL_HTTP_ADDR", Literal(HttpUrl(f.consulServer, f.tlsEnabled))) in InitContainer(d).env
  {
    var d := BuildConfig(f).value;
    ConfigSubstituted(d);
    assert HttpUrl("localhost", f.tlsEnabled) == d.consulHttpAddr;
    assert HttpUrl(f.consulServer, f.tlsEnabled) == d.consulServerHttpAddr;
  }

  /** The worked example, configuration side: with `-upstreams api:9091`
      (and a service and port given) the flags are accepted and the init
      container declares exactly one upstream stanza, naming `api` and port
      9091. */
  lemma SingleUpstreamConfig(f: Flags)
    requires f.service != "" && f.port != "" && f.upstreams == "api:9091"
    ensures BuildConfig(f).Ok?
    ensures BuildConfig(f).value.upstreams == [Upstream("api", "9091")]
    ensures StanzasOf(InitContainer(BuildConfig(f).value).command) == [Upstream("api", "9091")]
  {
    var us := [Upstream("api", "9091")];
    assert FormatUpstreams(us) == "api:9091" by {
      assert FormatUpstream(us[0]) == "api:9091";
    }
    UpstreamsRoundTrip(us);
    InitStanzasFollowUpstreams(BuildConfig(f).value);
  }

  /** The worked example, manifest side: a one-document manifest holding a
      Deployment with one container and no init containers or volumes
      comes out as one document with three containers, one init container
      and the six bundle volumes. */
  lemma SingleDeployment(f: Flags, doc: Document)
    requires Accepted(f)
    requires IsDeployment(doc) && PodSpec(doc).Ok?
    requires ListField(PodSpec(doc).value, "containers").Some?
    requires |ListField(PodSpec(doc).value, "containers").value| == 1
    requires ListField(PodSpec(doc).value, "initContainers").None?
    requires ListField(PodSpec(doc).value, "volumes").None?
    ensures var r := Main(f, Contents([Doc(doc)]));
      && r.failure.None? && |r.emitted| == 1 && r.separators == 1
      && PodSpec(r.emitted[0]).Ok?
      && |ListField(PodSpec(r.emitted[0]).value, "containers").value| == 3
      && |ListField(PodSpec(r.emitted[0]).value, "initContainers").value| == 1
      && |ListField(PodSpec(r.emitted[0]).value, "volumes").value| == 6
  {
  }

}
