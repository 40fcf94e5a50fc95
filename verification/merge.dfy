/** `appendToDeployment` of main.go and the kind check in front of it: the
    bundle's lists are appended to the pod template spec found at
    spec → template → spec of every Deployment; other documents pass
    through. Two versions of the volumes step are given: the one the code
    performs, which stores the merged volumes under `initContainers`, and
    the intended one, which stores them under `volumes`. The program runs
    the first; the second is kept to state what was meant. */
module Merge {
  import opened Wrappers
  import opened Yaml
  import opened Render

  datatype MergeError =
    | MissingSpec        // `spec` is not a mapping
    | MissingTemplate    // `spec.template` is not a mapping
    | MissingPodSpec     // `spec.template.spec` is not a mapping
    | MissingContainers  // the pod spec's `containers` is not a list

  /** The three lists the merge writes. */
  const MergedKeys: set<string> := {"containers", "initContainers", "volumes"}

  /** Whether the main loop treats `doc` as a merge target: its `kind` must
      be the string "Deployment". */
  predicate IsDeployment(doc: Document) {
    Field(doc, "kind") == Str("Deployment")
  }

  function Require<T>(o: Option<T>, e: MergeError): Result<T, MergeError> {
    if o.Some? then Ok(o.value) else Err(e)
  }

  /** The pod template spec at spec → template → spec; the first segment that
      is not a mapping names the error. */
  function PodSpec(doc: Document): (r: Result<map<string, Node>, MergeError>)
    ensures r == Err(MissingSpec) <==> !Field(doc, "spec").Mapping?
    ensures r == Err(MissingTemplate) <==>
      Field(doc, "spec").Mapping? && !Field(Field(doc, "spec").fields, "template").Mapping?
    ensures r == Err(MissingPodSpec) <==>
      Field(doc, "spec").Mapping? && Field(Field(doc, "spec").fields, "template").Mapping?
      && !Field(Field(Field(doc, "spec").fields, "template").fields, "spec").Mapping?
    ensures r.Ok? ==>
      Field(Field(Field(doc, "spec").fields, "template").fields, "spec") == Mapping(r.value)
  {
    var spec :- Require(MappingField(doc, "spec"), MissingSpec);
    var template :- Require(MappingField(spec, "template"), MissingTemplate);
    Require(MappingField(template, "spec"), MissingPodSpec)
  }

  /** `doc` with its pod template spec replaced by `pod`; nothing else in the
      document, in `spec` or in `spec.template` changes. */
  function WithPodSpec(doc: Document, pod: map<string, Node>): (r: Document)
    requires PodSpec(doc).Ok?
    ensures PodSpec(r) == Ok(pod)
    ensures r.Keys == doc.Keys
    ensures forall k :: k in doc && k != "spec" ==> r[k] == doc[k]
    ensures r["spec"].Mapping? && r["spec"].fields.Keys == doc["spec"].fields.Keys
    ensures forall k :: k in doc["spec"].fields && k != "template" ==>
      r["spec"].fields[k] == doc["spec"].fields[k]
    ensures r["spec"].fields["template"].fields.Keys == doc["spec"].fields["template"].fields.Keys
    ensures forall k :: k in doc["spec"].fields["template"].fields && k != "spec" ==>
      r["spec"].fields["template"].fields[k] == doc["spec"].fields["template"].fields[k]
  {
    var spec := doc["spec"].fields;
    var template := spec["template"].fields;
    doc["spec" := Mapping(spec["template" := Mapping(template["spec" := Mapping(pod)])])]
  }

  /** The list under `k`, or the empty list when `k` holds no list. */
  function ExistingList(m: map<string, Node>, k: string): seq<Node> {
    match ListField(m, k)
    case Some(xs) => xs
    case None => []
  }

  /** `pod'` is `pod` with each bundle list appended after the existing
      entries of the same list (an absent list counting as empty), and every
      other key unchanged. */
  ghost predicate MergedPod(pod: map<string, Node>, pod': map<string, Node>, b: Bundle) {
    && ListField(pod', "containers") == Some(ExistingList(pod, "containers") + b.containers)
    && ListField(pod', "initContainers") == Some(ExistingList(pod, "initContainers") + b.initContainers)
    && ListField(pod', "volumes") == Some(ExistingList(pod, "volumes") + b.volumes)
    && pod'.Keys == pod.Keys + MergedKeys
    && forall k :: k in pod && k !in MergedKeys ==> pod'[k] == pod[k]
  }

  /** What main.go:221-227 does instead: when the pod already has volumes,
      the merged volumes land under `initContainers` (replacing the merged
      init containers) and `volumes` keeps its old value. */
  ghost predicate MergedPodAsWritten(pod: map<string, Node>, pod': map<string, Node>, b: Bundle) {
    && ListField(pod', "containers") == Some(ExistingList(pod, "containers") + b.containers)
    && (if ListField(pod, "volumes").Some? then
          && ListField(pod', "initContainers") == Some(ExistingList(pod, "volumes") + b.volumes)
          && Field(pod', "volumes") == Field(pod, "volumes")
        else
          && ListField(pod', "initContainers") == Some(ExistingList(pod, "initContainers") + b.initContainers)
          && ListField(pod', "volumes") == Some(b.volumes))
    && pod'.Keys == pod.Keys + MergedKeys
    && forall k :: k in pod && k !in MergedKeys ==> pod'[k] == pod[k]
  }

  /** Appends the bundle's containers and init containers (main.go:204-219). */
  function MergeContainers(pod: map<string, Node>, b: Bundle): Result<map<string, Node>, MergeError> {
    var existing :- Require(ListField(pod, "containers"), MissingContainers);
    var withContainers := pod["containers" := List(existing + b.containers)];
    Ok(withContainers["initContainers" := List(ExistingList(pod, "initContainers") + b.initContainers)])
  }

  /** The pod spec merge with the volumes written back under `volumes`. */
  function MergePodSpec(pod: map<string, Node>, b: Bundle): (r: Result<map<string, Node>, MergeError>)
    ensures r.Err? <==> ListField(pod, "containers").None?
    ensures r.Err? ==> r.error == MissingContainers
    ensures r.Ok? ==> MergedPod(pod, r.value, b)
  {
    var merged :- MergeContainers(pod, b);
    Ok(merged["volumes" := List(ExistingList(pod, "volumes") + b.volumes)])
  }

  /** The pod spec merge as main.go:221-227 performs it. */
  function MergePodSpecAsWritten(pod: map<string, Node>, b: Bundle): (r: Result<map<string, Node>, MergeError>)
    ensures r.Err? <==> ListField(pod, "containers").None?
    ensures r.Err? ==> r.error == MissingContainers
    ensures r.Ok? ==> MergedPodAsWritten(pod, r.value, b)
  {
    var merged :- MergeContainers(pod, b);
    match ListField(pod, "volumes")
    case Some(existing) => Ok(merged["initContainers" := List(existing + b.volumes)])
    case None => Ok(merged["volumes" := List(b.volumes)])
  }

  /** `appendToDeployment` with the volumes written back where they belong. */
  function AppendToDeployment(doc: Document, b: Bundle): (r: Result<Document, MergeError>)
    ensures PodSpec(doc).Err? ==> r == Err(PodSpec(doc).error)
    ensures PodSpec(doc).Ok? ==>
      (r.Err? <==> ListField(PodSpec(doc).value, "containers").None?)
    ensures r.Err? && PodSpec(doc).Ok? ==> r.error == MissingContainers
    ensures r.Ok? ==> PodSpec(doc).Ok? && PodSpec(r.value).Ok?
    ensures r.Ok? ==> MergedPod(PodSpec(doc).value, PodSpec(r.value).value, b)
    ensures r.Ok? ==> r.value == WithPodSpec(doc, PodSpec(r.value).value)
  {
    var pod :- PodSpec(doc);
    var pod' :- MergePodSpec(pod, b);
    Ok(WithPodSpec(doc, pod'))
  }

  /** `appendToDeployment` as main.go:186-230 writes it. */
  function AppendToDeploymentAsWritten(doc: Document, b: Bundle): (r: Result<Document, MergeError>)
    ensures PodSpec(doc).Err? ==> r == Err(PodSpec(doc).error)
    ensures PodSpec(doc).Ok? ==>
      (r.Err? <==> ListField(PodSpec(doc).value, "containers").None?)
    ensures r.Err? && PodSpec(doc).Ok? ==> r.error == MissingContainers
    ensures r.Ok? ==> PodSpec(doc).Ok? && PodSpec(r.value).Ok?
    ensures r.Ok? ==> MergedPodAsWritten(PodSpec(doc).value, PodSpec(r.value).value, b)
    ensures r.Ok? ==> r.value == WithPodSpec(doc, PodSpec(r.value).value)
  {
    var pod :- PodSpec(doc);
    var pod' :- MergePodSpecAsWritten(pod, b);
    Ok(WithPodSpec(doc, pod'))
  }

  /** Which volumes step a merge performs: the one main.go:221-227 performs,
      or the intended one. */
  datatype Version = AsWritten | Corrected

  /** One document of the main loop: anything that is not a Deployment comes
      back unchanged; a Deployment is merged by the given version of
      `appendToDeployment` and stays a Deployment. */
  function ProcessDocument(v: Version, doc: Document, b: Bundle): (r: Result<Document, MergeError>)
    ensures !IsDeployment(doc) ==> r == Ok(doc)
    ensures IsDeployment(doc) && v == AsWritten ==> r == AppendToDeploymentAsWritten(doc, b)
    ensures IsDeployment(doc) && v == Corrected ==> r == AppendToDeployment(doc, b)
    ensures r.Ok? ==> IsDeployment(r.value) == IsDeployment(doc)
  {
    if !IsDeployment(doc) then Ok(doc)
    else if v == AsWritten then AppendToDeploymentAsWritten(doc, b)
    else AppendToDeployment(doc, b)
  }

  // ---------------------------------------------------------------------
  // Properties of the merge

  /** The corrected merge is append-only: a second merge appends a second
      copy of every bundle entry to each of the three lists. */
  lemma MergeTwice(doc: Document, b: Bundle)
    requires AppendToDeployment(doc, b).Ok?
    ensures AppendToDeployment(AppendToDeployment(doc, b).value, b).Ok?
    ensures var pod := PodSpec(doc).value;
      var pod'' := PodSpec(AppendToDeployment(AppendToDeployment(doc, b).value, b).value).value;
      && ListField(pod'', "containers") == Some(ExistingList(pod, "containers") + b.containers + b.containers)
      && ListField(pod'', "initContainers") == Some(ExistingList(pod, "initContainers") + b.initContainers + b.initContainers)
      && ListField(pod'', "volumes") == Some(ExistingList(pod, "volumes") + b.volumes + b.volumes)
  {
    var once := AppendToDeployment(doc, b).value;
    var pod' := PodSpec(once).value;
    assert ListField(pod', "containers").Some?;
  }

  /** Hence the corrected merge is not idempotent whenever the bundle has a
      container. */
  lemma MergeNotIdempotent(doc: Document, b: Bundle)
    requires AppendToDeployment(doc, b).Ok?
    requires |b.containers| > 0
    ensures AppendToDeployment(AppendToDeployment(doc, b).value, b) != AppendToDeployment(doc, b)
  {
    MergeTwice(doc, b);
    var once := AppendToDeployment(doc, b).value;
    var twice := AppendToDeployment(once, b).value;
    var n := |ExistingList(PodSpec(doc).value, "containers")|;
    assert |ExistingList(PodSpec(twice).value, "containers")| == n + 2 * |b.containers|;
    assert |ExistingList(PodSpec(once).value, "containers")| == n + |b.containers|;
  }

  /** The merge as written, applied twice: the containers get a second copy
      of the bundle's; after the first merge `volumes` is always a list, so
      the second merge leaves it alone and writes that list followed by the
      bundle's volumes over `initContainers`. */
  lemma MergeTwiceAsWritten(doc: Document, b: Bundle)
    requires AppendToDeploymentAsWritten(doc, b).Ok?
    ensures AppendToDeploymentAsWritten(AppendToDeploymentAsWritten(doc, b).value, b).Ok?
    ensures var pod := PodSpec(doc).value;
      var pod'' := PodSpec(AppendToDeploymentAsWritten(AppendToDeploymentAsWritten(doc, b).value, b).value).value;
      && ListField(pod'', "containers") == Some(ExistingList(pod, "containers") + b.containers + b.containers)
      && (ListField(pod, "volumes").None? ==>
            && ListField(pod'', "volumes") == Some(b.volumes)
            && ListField(pod'', "initContainers") == Some(b.volumes + b.volumes))
      && (ListField(pod, "volumes").Some? ==>
            && Field(pod'', "volumes") == Field(pod, "volumes")
            && ListField(pod'', "initContainers") == Some(ExistingList(pod, "volumes") + b.volumes))
  {
    var once := AppendToDeploymentAsWritten(doc, b).value;
    var pod := PodSpec(doc).value;
    var pod' := PodSpec(once).value;
    assert MergedPodAsWritten(pod, pod', b);
    assert ListField(pod', "containers").Some?;
    assert ListField(pod', "volumes").Some?;
    var pod'' := PodSpec(AppendToDeploymentAsWritten(once, b).value).value;
    assert MergedPodAsWritten(pod', pod'', b);
  }

  /** The merge as written is not idempotent either whenever the bundle has
      a container. */
  lemma MergeNotIdempotentAsWritten(doc: Document, b: Bundle)
    requires AppendToDeploymentAsWritten(doc, b).Ok?
    requires |b.containers| > 0
    ensures AppendToDeploymentAsWritten(AppendToDeploymentAsWritten(doc, b).value, b)
      != AppendToDeploymentAsWritten(doc, b)
  {
    MergeTwiceAsWritten(doc, b);
    var once := AppendToDeploymentAsWritten(doc, b).value;
    var twice := AppendToDeploymentAsWritten(once, b).value;
    var n := |ExistingList(PodSpec(doc).value, "containers")|;
    assert |ExistingList(PodSpec(twice).value, "containers")| == n + 2 * |b.containers|;
    assert |ExistingList(PodSpec(once).value, "containers")| == n + |b.containers|;
  }

  /** Without existing volumes the code as written and the corrected merge
      produce the same document. */
  lemma AsWrittenAgreesWithoutVolumes(doc: Document, b: Bundle)
    requires PodSpec(doc).Ok? && ListField(PodSpec(doc).value, "volumes").None?
    ensures AppendToDeploymentAsWritten(doc, b) == AppendToDeployment(doc, b)
  {
    var pod := PodSpec(doc).value;
    assert ExistingList(pod, "volumes") + b.volumes == b.volumes;
    assert MergePodSpecAsWritten(pod, b) == MergePodSpec(pod, b);
  }

  /** A Deployment whose pod declares one container and an empty `volumes`
      list, and no init containers. */
  function DefectDocument(): Document {
    var pod := map["containers" := List([Str("app")]), "volumes" := List([])];
    map[
      "kind" := Str("Deployment"),
      "spec" := Mapping(map["template" := Mapping(map["spec" := Mapping(pod)])])]
  }

  /** The defect of main.go:226 on `DefectDocument`: the code as written
      leaves `volumes` empty and puts the bundle's volumes where the init
      containers belong, so the bundle's init containers are lost; the
      corrected merge keeps both. */
  lemma VolumesDefectWitness(b: Bundle)
    requires |b.initContainers| > 0 && |b.volumes| > 0
    ensures IsDeployment(DefectDocument())
    ensures AppendToDeploymentAsWritten(DefectDocument(), b).Ok?
    ensures var wrong := PodSpec(AppendToDeploymentAsWritten(DefectDocument(), b).value).value;
      && ListField(wrong, "volumes") == Some([])
      && ListField(wrong, "initContainers") == Some(b.volumes)
    ensures AppendToDeployment(DefectDocument(), b).Ok?
    ensures var right := PodSpec(AppendToDeployment(DefectDocument(), b).value).value;
      && ListField(right, "volumes") == Some(b.volumes)
      && ListField(right, "initContainers") == Some(b.initContainers)
  {
    var doc := DefectDocument();
    var pod := map["containers" := List([Str("app")]), "volumes" := List([])];
    assert PodSpec(doc) == Ok(pod);
    assert ListField(pod, "containers") == Some([Str("app")]);
    assert ListField(pod, "volumes") == Some([]);
    assert ExistingList(pod, "volumes") == [];
    assert ExistingList(pod, "initContainers") == [];
    var wrong := PodSpec(AppendToDeploymentAsWritten(doc, b).value).value;
    assert MergedPodAsWritten(pod, wrong, b);
    assert ListField(wrong, "initContainers") == Some([] + b.volumes);
    assert [] + b.volumes == b.volumes;
    assert [] + b.initContainers == b.initContainers;
    var right := PodSpec(AppendToDeployment(doc, b).value).value;
    assert ListField(right, "initContainers") == Some([] + b.initContainers);
  }
}
