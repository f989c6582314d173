/** `createDiscoveryConfigMap`: the ConfigMap the agent reads at startup,
    holding the hierarchy and metadata documents, with a deterministic,
    length-bounded name. */
module DiscoveryConfigMap {
  import opened Wrappers
  import opened Strings
  import opened Kube
  import opened JsonValues
  import opened DiscoveryTypes
  import opened Metadata
  import opened DiscoveryHierarchy

  const LowerAlphanumerics := "abcdefghijklmnopqrstuvwxyz0123456789"
  const RandomSuffixLength := 5
  const NameLengthLimit := 253
  /** The characters stripped off the end of a truncated name. */
  const NameCutset: set<char> := {'-', '.'}

  const ManagedByLabel := "app.kubernetes.io/managed-by"
  const ComponentLabel := "app.kubernetes.io/component"
  const HierarchyDataKey := "hierarchy.json"
  const MetadataDataKey := "metadata.json"

  datatype ConfigMapError = HierarchyFailed(cause: HierarchyError) | NoPodName

  /** What the random-string generator promises: five lowercase letters or
      digits. The generator itself is outside the model; its output is a
      parameter. */
  predicate IsRandomSuffix(s: string) {
    |s| == RandomSuffixLength && forall i :: 0 <= i < |s| ==> s[i] in LowerAlphanumerics
  }

  /** The fixed label pair that marks a discovery ConfigMap. */
  function DiscoveryLabels(): map<string, string> {
    map[ManagedByLabel := DiscoveryConfigMapManagedBy, ComponentLabel := DiscoveryConfigMapComponent]
  }

  /** The name before the length limit is applied: prefix and Pod name, or
      prefix, generateName and the random suffix; none without either. */
  function UntruncatedName(pod: PodObject, suffix: string): (r: Option<string>)
    ensures r.None? <==> pod.name == "" && pod.generateName == ""
  {
    if pod.name != "" then Some(DiscoveryConfigMapPrefix + pod.name)
    else if pod.generateName != "" then Some(DiscoveryConfigMapPrefix + pod.generateName + suffix)
    else None
  }

  /** The length limit: a name over 253 characters is cut to 253 and loses
      its trailing `-` and `.`; a shorter name is kept as it is. */
  function LimitName(name: string): (r: string)
    ensures |r| <= NameLengthLimit
    ensures |name| <= NameLengthLimit ==> r == name
    ensures |name| > NameLengthLimit ==>
              && r <= name
              && (r == [] || r[|r| - 1] !in NameCutset)
              && forall i :: |r| <= i < NameLengthLimit ==> name[i] in NameCutset
  {
    if |name| > NameLengthLimit then TrimRight(name[..NameLengthLimit], NameCutset) else name
  }

  /** The ConfigMap name for a Pod: the prefix and the Pod's name when it
      has one and they fit; the prefix, generateName and a random suffix
      when it has only a generateName; never longer than 253, always
      starting with the component tag, and when cut never ending in `-`
      or `.`. */
  function DiscoveryConfigMapName(pod: PodObject, suffix: string): (r: Option<string>)
    requires IsRandomSuffix(suffix)
    ensures r.None? <==> pod.name == "" && pod.generateName == ""
    ensures pod.name != "" && |DiscoveryConfigMapPrefix + pod.name| <= NameLengthLimit ==>
              r == Some(DiscoveryConfigMapPrefix + pod.name)
    ensures pod.name == "" && pod.generateName != ""
              && |DiscoveryConfigMapPrefix + pod.generateName + suffix| <= NameLengthLimit ==>
              r == Some(DiscoveryConfigMapPrefix + pod.generateName + suffix)
    ensures r.Some? ==>
              && |r.value| <= NameLengthLimit
              && DiscoveryConfigMapComponent <= r.value
              && (r.value == UntruncatedName(pod, suffix).value ||
                  r.value[|r.value| - 1] !in NameCutset)
    ensures r.Some? && |UntruncatedName(pod, suffix).value| <= NameLengthLimit ==>
              r.value == UntruncatedName(pod, suffix).value
    ensures r.Some? && |UntruncatedName(pod, suffix).value| > NameLengthLimit ==>
              var u := UntruncatedName(pod, suffix).value;
              && r.value <= u[..NameLengthLimit]
              && forall i :: |r.value| <= i < NameLengthLimit ==> u[i] in NameCutset
  {
    match UntruncatedName(pod, suffix)
    case None => None
    case Some(name) =>
      LimitKeepsComponent(name);
      Some(LimitName(name))
  }

  /** Cutting a prefixed name never reaches into the component tag: its last
      letter is not a separator, so the trim stops before it. */
  lemma LimitKeepsComponent(name: string)
    requires DiscoveryConfigMapPrefix <= name
    ensures DiscoveryConfigMapComponent <= LimitName(name)
  {
    PrefixShape();
    var r := LimitName(name);
    var n := |DiscoveryConfigMapComponent|;
    assert name[n - 1] == 'y';
    if |name| > NameLengthLimit && |r| < n {
      assert false;
    }
    assert r[..n] == name[..n] == DiscoveryConfigMapPrefix[..n];
  }

  /** The owner reference the webhook attaches when the Pod's UID is known:
      a core/v1 reference to the Pod itself, marked as its controller. */
  function PodOwnerRef(pod: PodObject): (r: OwnerRef)
    ensures r.apiVersion == "v1" && ParseNodeType(r.kind) == Some(Pod)
    ensures r.name == pod.name && r.uid == pod.uid
    ensures r.controller == Some(true)
  {
    TagRoundTrip(Pod);
    OwnerRef("v1", Tag(Pod), pod.name, pod.uid, Some(true))
  }

  /** The ConfigMap createDiscoveryConfigMap packs around a built
      hierarchy: an error when the Pod has neither a name nor a
      generateName; otherwise a ConfigMap in the Pod's namespace, named for
      the Pod, labelled with exactly the discovery pair, holding exactly the
      two documents (which read back as the hierarchy and as the Pod's
      labels and annotations), and owned by the Pod exactly when an owner
      reference was asked for and the Pod's UID is known. */
  function PackConfigMap(pod: PodObject, hierarchy: DiscoveryNode, addOwnerRef: bool, suffix: string)
    : (r: Result<ConfigMap, ConfigMapError>)
    requires IsRandomSuffix(suffix)
    ensures r.Err? <==> DiscoveryConfigMapName(pod, suffix).None?
    ensures r.Err? ==> r == Err(NoPodName)
    ensures r.Ok? ==>
              && r.value.name == DiscoveryConfigMapName(pod, suffix).value
              && r.value.namespace == pod.namespace
              && r.value.labels == DiscoveryLabels()
              && r.value.data.Keys == {HierarchyDataKey, MetadataDataKey}
              && NodeFromJson(r.value.data[HierarchyDataKey]) == Some(hierarchy)
              && MetadataFromJson(r.value.data[MetadataDataKey]) == Some(DiscoveryMetadata(pod.labels, pod.annotations))
              && r.value.ownerRefs == (if addOwnerRef && pod.uid != "" then [PodOwnerRef(pod)] else [])
  {
    NodeRoundTrip(hierarchy);
    MetadataDocumentRoundTrip(pod);
    var metadata := ExtractPodMetadata(pod);
    var data := map[HierarchyDataKey := NodeToJson(hierarchy), MetadataDataKey := MetadataToJson(metadata)];
    match UntruncatedName(pod, suffix)
    case None => Err(NoPodName)
    case Some(name) =>
      var cm := ConfigMap(LimitName(name), pod.namespace, DiscoveryLabels(), data, []);
      Ok(if addOwnerRef && pod.uid != "" then cm.(ownerRefs := [PodOwnerRef(pod)]) else cm)
  }

  /** createDiscoveryConfigMap: fails exactly when the hierarchy cannot be
      built, with the hierarchy's error; otherwise the ConfigMap packed
      around that hierarchy. */
  function CreateDiscoveryConfigMap(store: Store, ghost rank: map<ObjKey, nat>, pod: PodObject,
                                    addOwnerRef: bool, suffix: string)
    : (r: Result<ConfigMap, ConfigMapError>)
    requires Ranked(store, rank, pod.namespace)
    requires IsRandomSuffix(suffix)
    ensures r.Ok? <==> Hierarchy(store, rank, pod).Ok?
    ensures r.Err? ==> r == Err(HierarchyFailed(Hierarchy(store, rank, pod).error))
    ensures r.Ok? ==>
              && DiscoveryConfigMapName(pod, suffix).Some?
              && r.value.name == DiscoveryConfigMapName(pod, suffix).value
              && r.value.namespace == pod.namespace
              && r.value.labels == DiscoveryLabels()
              && r.value.data.Keys == {HierarchyDataKey, MetadataDataKey}
              && NodeFromJson(r.value.data[HierarchyDataKey]) == Some(Hierarchy(store, rank, pod).value)
              && MetadataFromJson(r.value.data[MetadataDataKey]) == Some(DiscoveryMetadata(pod.labels, pod.annotations))
              && r.value.ownerRefs == (if addOwnerRef && pod.uid != "" then [PodOwnerRef(pod)] else [])
  {
    match Hierarchy(store, rank, pod)
    case Err(e) => Err(HierarchyFailed(e))
    case Ok(hierarchy) =>
      HierarchyNeedsAName(store, rank, pod);
      PackConfigMap(pod, hierarchy, addOwnerRef, suffix)
  }

  /** A hierarchy is only ever built for a Pod with a name or a
      generateName, so the "neither Name nor GenerateName" error of
      createDiscoveryConfigMap can never be returned: with both empty the
      hierarchy has already failed. */
  lemma HierarchyNeedsAName(store: Store, rank: map<ObjKey, nat>, pod: PodObject)
    requires Ranked(store, rank, pod.namespace)
    requires Hierarchy(store, rank, pod).Ok?
    ensures pod.name != "" || pod.generateName != ""
  {
    if pod.name == "" && pod.generateName == "" {
      assert false;
    }
  }
}
