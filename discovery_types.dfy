/** The discovery data model: node-type tags, the owner-kind priority list,
    the hierarchy node and metadata records with their JSON schema, and the
    ConfigMap naming and labelling constants. */
module DiscoveryTypes {
  import opened Wrappers
  import opened JsonValues

  const DiscoveryConfigMapComponent := "cryostat-agent-discovery"
  const DiscoveryConfigMapPrefix := DiscoveryConfigMapComponent + "-"
  const DiscoveryConfigMapManagedBy := "cryostat-operator"

  /** The prefix is the component tag and one `-`; it starts with a letter,
      so trimming separators off a prefixed name never empties it. */
  lemma PrefixShape()
    ensures |DiscoveryConfigMapPrefix| == |DiscoveryConfigMapComponent| + 1 == 25
    ensures DiscoveryConfigMapPrefix[..|DiscoveryConfigMapComponent|] == DiscoveryConfigMapComponent
    ensures DiscoveryConfigMapPrefix[|DiscoveryConfigMapComponent|] == '-'
    ensures DiscoveryConfigMapComponent[|DiscoveryConfigMapComponent| - 1] == 'y'
  {
  }

  /** The labels and annotations handed to the agent. */
  datatype DiscoveryMetadata = DiscoveryMetadata(
    labels: map<string, string>,
    annotations: map<string, string>)

  /** One node of the discovery tree; `nodeType` is a KubeNodeType tag. */
  datatype DiscoveryNode = DiscoveryNode(
    name: string,
    nodeType: string,
    labels: map<string, string>,
    children: seq<DiscoveryNode>)

  datatype KubeNodeType =
    | Namespace
    | StatefulSet
    | DaemonSet
    | Deployment
    | ReplicaSet
    | ReplicationController
    | Pod
    | DeploymentConfig
    | Endpoint
    | EndpointSlice

  /** The string a node type is written as (the Go `KubeNodeType` value). */
  function Tag(t: KubeNodeType): string {
    match t
    case Namespace => "Namespace"
    case StatefulSet => "StatefulSet"
    case DaemonSet => "DaemonSet"
    case Deployment => "Deployment"
    case ReplicaSet => "ReplicaSet"
    case ReplicationController => "ReplicationController"
    case Pod => "Pod"
    case DeploymentConfig => "DeploymentConfig"
    case Endpoint => "Endpoint"
    case EndpointSlice => "EndpointSlice"
  }

  /** The node type a kind string names, if it names one of the ten. */
  function ParseNodeType(s: string): (r: Option<KubeNodeType>)
    ensures r.Some? ==> Tag(r.value) == s
  {
    if s == "Namespace" then Some(Namespace)
    else if s == "StatefulSet" then Some(StatefulSet)
    else if s == "DaemonSet" then Some(DaemonSet)
    else if s == "Deployment" then Some(Deployment)
    else if s == "ReplicaSet" then Some(ReplicaSet)
    else if s == "ReplicationController" then Some(ReplicationController)
    else if s == "Pod" then Some(Pod)
    else if s == "DeploymentConfig" then Some(DeploymentConfig)
    else if s == "Endpoint" then Some(Endpoint)
    else if s == "EndpointSlice" then Some(EndpointSlice)
    else None
  }

  /** Parsing a tag gives back its type, so the ten tags are pairwise
      distinct and the set of types is closed under ParseNodeType. */
  lemma TagRoundTrip(t: KubeNodeType)
    ensures ParseNodeType(Tag(t)) == Some(t)
  {
  }

  lemma TagInjective(t: KubeNodeType, u: KubeNodeType)
    requires Tag(t) == Tag(u)
    ensures t == u
  {
    TagRoundTrip(t);
    TagRoundTrip(u);
  }

  /** The owner kinds preferred when an object has several owners, highest
      priority first. */
  const ExpectedOwnerKinds: seq<KubeNodeType> :=
    [Deployment, StatefulSet, DaemonSet, ReplicaSet, ReplicationController, DeploymentConfig]

  /** Pods, Namespaces and endpoints are never preferred owners, and no kind
      is listed twice. */
  lemma ExpectedOwnerKindsShape()
    ensures Pod !in ExpectedOwnerKinds && Namespace !in ExpectedOwnerKinds
    ensures Endpoint !in ExpectedOwnerKinds && EndpointSlice !in ExpectedOwnerKinds
    ensures forall i, j :: 0 <= i < j < |ExpectedOwnerKinds| ==> ExpectedOwnerKinds[i] != ExpectedOwnerKinds[j]
  {
  }

  /** Position of the first entry of `kinds` whose tag is `kind`, or |kinds|. */
  function IndexOfTag(kinds: seq<KubeNodeType>, kind: string): (p: nat)
    ensures p <= |kinds|
    ensures p < |kinds| ==> Tag(kinds[p]) == kind
    ensures forall q :: 0 <= q < p ==> Tag(kinds[q]) != kind
  {
    if kinds == [] then 0
    else if Tag(kinds[0]) == kind then 0
    else 1 + IndexOfTag(kinds[1..], kind)
  }

  /** The priority of an owner kind: its position in ExpectedOwnerKinds, and
      |ExpectedOwnerKinds| (lowest) for a kind not listed there. */
  function OwnerPriority(kind: string): (p: nat)
    ensures p <= |ExpectedOwnerKinds|
    ensures p < |ExpectedOwnerKinds| ==> Tag(ExpectedOwnerKinds[p]) == kind
    ensures forall q :: 0 <= q < p ==> Tag(ExpectedOwnerKinds[q]) != kind
  {
    IndexOfTag(ExpectedOwnerKinds, kind)
  }

  /** Each listed kind has its own position as priority. */
  lemma PriorityOfExpected(k: nat)
    requires k < |ExpectedOwnerKinds|
    ensures OwnerPriority(Tag(ExpectedOwnerKinds[k])) == k
  {
    var p := OwnerPriority(Tag(ExpectedOwnerKinds[k]));
    if p < k {
      TagInjective(ExpectedOwnerKinds[p], ExpectedOwnerKinds[k]);
      ExpectedOwnerKindsShape();
    }
  }

  /** Two kinds with the same priority above the sentinel are the same kind. */
  lemma PriorityInjective(a: string, b: string)
    requires OwnerPriority(a) == OwnerPriority(b) < |ExpectedOwnerKinds|
    ensures a == b
  {
  }

  /** The label/annotation copy (`copyLabels`, `CreateMapCopy`): a fresh map
      with every key and value of the map copied; Go's nil map is the empty map. */
  function CopyLabels(m: map<string, string>): (r: map<string, string>)
    ensures r.Keys == m.Keys
    ensures forall k :: k in m ==> r[k] == m[k]
  {
    map k | k in m :: m[k]
  }

  lemma CopyLabelsIsIdentity(m: map<string, string>)
    ensures CopyLabels(m) == m
  {
  }

  // ---------------------------------------------------------------------
  // JSON schema of the two documents (the `json:"..."` struct tags)
  // ---------------------------------------------------------------------

  const NodeJsonKeys: set<string> := {"name", "nodeType", "labels", "children"}
  const MetadataJsonKeys: set<string> := {"labels", "annotations"}

  /** `json.Marshal` of a DiscoveryNode: exactly the four members, labels an
      object and children an array, both present even when empty. */
  function NodeToJson(n: DiscoveryNode): (j: Json)
    ensures j.JObject? && j.members.Keys == NodeJsonKeys
    ensures j.members["name"] == JString(n.name)
    ensures j.members["nodeType"] == JString(n.nodeType)
    ensures j.members["labels"].JObject?
    ensures j.members["children"].JArray? && |j.members["children"].items| == |n.children|
    decreases n
  {
    JObject(map[
      "name" := JString(n.name),
      "nodeType" := JString(n.nodeType),
      "labels" := StringMapToJson(n.labels),
      "children" := JArray(NodesToJson(n.children))])
  }

  function NodesToJson(ns: seq<DiscoveryNode>): (js: seq<Json>)
    ensures |js| == |ns|
    decreases ns
  {
    if ns == [] then [] else [NodeToJson(ns[0])] + NodesToJson(ns[1..])
  }

  /** The reading side of the hierarchy document (`json.Unmarshal`). */
  function NodeFromJson(j: Json): (r: Option<DiscoveryNode>)
    decreases j
  {
    match j
    case JObject(m) =>
      if && "name" in m && m["name"].JString?
         && "nodeType" in m && m["nodeType"].JString?
         && "labels" in m && "children" in m && m["children"].JArray?
      then
        match (StringMapFromJson(m["labels"]), NodesFromJson(m["children"].items))
        case (Some(labels), Some(children)) =>
          Some(DiscoveryNode(m["name"].str, m["nodeType"].str, labels, children))
        case _ => None
      else None
    case _ => None
  }

  function NodesFromJson(items: seq<Json>): (r: Option<seq<DiscoveryNode>>)
    decreases items
  {
    if items == [] then Some([])
    else match (NodeFromJson(items[0]), NodesFromJson(items[1..]))
      case (Some(n), Some(rest)) => Some([n] + rest)
      case _ => None
  }

  /** The hierarchy document reads back as the tree that was written. */
  lemma {:induction false} NodeRoundTrip(n: DiscoveryNode)
    ensures NodeFromJson(NodeToJson(n)) == Some(n)
    decreases n
  {
    StringMapRoundTrip(n.labels);
    NodesRoundTrip(n.children);
  }

  lemma {:induction false} NodesRoundTrip(ns: seq<DiscoveryNode>)
    ensures NodesFromJson(NodesToJson(ns)) == Some(ns)
    decreases ns
  {
    if ns != [] {
      NodeRoundTrip(ns[0]);
      NodesRoundTrip(ns[1..]);
      assert NodesToJson(ns)[1..] == NodesToJson(ns[1..]);
      assert [ns[0]] + ns[1..] == ns;
    }
  }

  /** `json.Marshal` of DiscoveryMetadata: exactly two object members. */
  function MetadataToJson(md: DiscoveryMetadata): (j: Json)
    ensures j.JObject? && j.members.Keys == MetadataJsonKeys
    ensures j.members["labels"].JObject? && j.members["annotations"].JObject?
  {
    JObject(map[
      "labels" := StringMapToJson(md.labels),
      "annotations" := StringMapToJson(md.annotations)])
  }

  function MetadataFromJson(j: Json): (r: Option<DiscoveryMetadata>)
  {
    if j.JObject? && "labels" in j.members && "annotations" in j.members then
      match (StringMapFromJson(j.members["labels"]), StringMapFromJson(j.members["annotations"]))
      case (Some(labels), Some(annotations)) => Some(DiscoveryMetadata(labels, annotations))
      case _ => None
    else None
  }

  /** The metadata document reads back as the metadata that was written. */
  lemma MetadataRoundTrip(md: DiscoveryMetadata)
    ensures MetadataFromJson(MetadataToJson(md)) == Some(md)
  {
    StringMapRoundTrip(md.labels);
    StringMapRoundTrip(md.annotations);
  }
}
