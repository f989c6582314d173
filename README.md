# Cryostat agent discovery, modelled in Dafny

The Cryostat operator's admission webhook gives every Java Pod that runs the
Cryostat Agent a *discovery ConfigMap*: a `hierarchy.json` document
describing where the Pod sits in the cluster (Namespace, then the chain of
owning workloads such as Deployment and ReplicaSet, then the Pod itself) and
a `metadata.json` document carrying the Pod's labels and annotations. A
controller later links each such ConfigMap to its Pod with an owner
reference, so the ConfigMap is garbage-collected with the Pod.

This project models that core and proves its properties:

- `wrappers.dfy`, `strings.dfy`, `json.dfy`, `kube.dfy`: `Option`/`Result`;
  Go's `strings.TrimRight` and `strings.TrimPrefix`; JSON documents as an
  abstract tree; the Kubernetes objects read and written, and the cluster
  client as a map from typed keys (kind, namespace, name) to stored objects
  or read failures (an absent key is a "not found" error).
- `discovery_types.dfy`: the node-type tags, the owner-kind priority list,
  the node and metadata records with their JSON encoding and decoding.
- `discovery_metadata.dfy`: `extractPodMetadata`.
- `discovery_hierarchy.dfy`: owner selection (`getOwnerNode`, its nested
  selection loops as a method with invariants), `queryForNode`, and
  `buildDiscoveryHierarchy` as methods (the owner-chasing loop and the
  nesting loop) proved against a functional specification, plus the tree
  shape lemmas.
- `discovery_configmap.dfy`: `createDiscoveryConfigMap`: naming,
  truncation, labels, data keys, optional owner reference.
- `discovery_configmap_controller.dfy`: `DiscoveryConfigMapReconciler` as a
  class holding the ConfigMap store, the object store and a log of update
  calls; `Reconcile` proved against the decision function `Plan`, with
  idempotence and the webhook-to-controller round trip.
- `discovery_examples.dfy`: the three-level Deployment → ReplicaSet → Pod
  cluster worked through `buildDiscoveryHierarchy`.

The owner walk only terminates on an acyclic ownership chain, so every
hierarchy member takes a ghost ranking of all the objects stored in the
Pod's namespace (`Ranked`): the selected owner of each stored object, when
stored and of a kind the walk goes on from, ranks strictly lower than the
object.

## Model

| member | source | states |
|---|---|---|
| Strings.TrimRight | internal/webhooks/agent/discovery_hierarchy.go:167 | the result is a prefix of the input, does not end in a cutset character, and every character cut off is in the cutset |
| Strings.TrimRightUnique | internal/webhooks/agent/discovery_hierarchy.go:167 | those three facts determine the trimmed string: any string meeting them is the result |
| Strings.TrimRightKeeps | internal/webhooks/agent/discovery_configmap.go:78 | a string that does not end in a cutset character is returned unchanged |
| Strings.TrimPrefix | internal/controllers/discovery_configmap_controller.go:71 | with the prefix present, prefix followed by the result is the input; otherwise the input is returned unchanged |
| Strings.TrimPrefixUnchanged | internal/controllers/discovery_configmap_controller.go:71-72 | for a non-empty prefix, the result equals the input exactly when the input does not start with the prefix (the no-match test of the reconciler) |
| Strings.TrimPrefixOfConcat | internal/controllers/discovery_configmap_controller.go:71 | stripping the prefix from prefix + x gives x |
| JsonValues.StringMapToJson | internal/webhooks/agent/discovery_types.go:27-28 | a label map is written as a JSON object with the same keys, each value a JSON string |
| JsonValues.StringMapFromJson | internal/webhooks/agent/discovery_types.go:27-28 | reading an object of strings keeps its keys |
| JsonValues.StringMapRoundTrip | internal/webhooks/agent/discovery_types.go:27-28 | a label map reads back as itself |
| Kube.Get | internal/controllers/discovery_configmap_controller.go:48-55 | a read succeeds exactly for a stored, readable key and returns that object; it is "not found" exactly for an absent key |
| Kube.Lookup | internal/controllers/discovery_configmap_controller.go:58 | indexing a Go string map gives the value for a present key and "" for an absent one |
| DiscoveryTypes.PrefixShape | internal/webhooks/agent/discovery_types.go:19-20 | the prefix is the component tag followed by exactly one `-` (25 characters), and the tag ends in a letter |
| DiscoveryTypes.ParseNodeType | internal/webhooks/agent/discovery_types.go:42-53 | a parsed kind string is the tag of the type it parses to |
| DiscoveryTypes.TagRoundTrip | internal/webhooks/agent/discovery_types.go:42-53 | every one of the ten node types parses back from its tag, so the tag set is closed |
| DiscoveryTypes.TagInjective | internal/webhooks/agent/discovery_types.go:42-53 | the ten tags are pairwise distinct |
| DiscoveryTypes.ExpectedOwnerKindsShape | internal/webhooks/agent/discovery_types.go:55-62 | the priority list contains neither Pod, Namespace, Endpoint nor EndpointSlice, and no kind twice |
| DiscoveryTypes.IndexOfTag | internal/webhooks/agent/discovery_hierarchy.go:52-58 | the position of the first listed kind with the given tag, every earlier one differing, or the list length when none matches |
| DiscoveryTypes.OwnerPriority | internal/webhooks/agent/discovery_hierarchy.go:52-62 | a kind's priority is its first position in the list, or the lowest priority (6) for an unlisted kind |
| DiscoveryTypes.PriorityOfExpected | internal/webhooks/agent/discovery_types.go:55-62 | each listed kind has its list position as priority (Deployment 0, StatefulSet 1, DaemonSet 2, ReplicaSet 3, ReplicationController 4, DeploymentConfig 5) |
| DiscoveryTypes.PriorityInjective | internal/webhooks/agent/discovery_types.go:55-62 | two kinds with the same listed priority are the same kind |
| DiscoveryTypes.CopyLabels | internal/webhooks/agent/discovery_hierarchy.go:153 | the copy has the same keys and, key for key, the same values |
| DiscoveryTypes.CopyLabelsIsIdentity | internal/webhooks/agent/discovery_metadata.go:27-28 | the copy equals the original map |
| DiscoveryTypes.NodeToJson | internal/webhooks/agent/discovery_types.go:32-37 | a node is written with exactly the members name, nodeType, labels, children; labels an object and children an array as long as the node's children, both present even when empty |
| DiscoveryTypes.NodesToJson | internal/webhooks/agent/discovery_types.go:36 | one JSON value per child |
| DiscoveryTypes.NodeRoundTrip | internal/webhooks/agent/discovery_types.go:32-37 | the hierarchy document reads back as the tree that was written, to any depth |
| DiscoveryTypes.NodesRoundTrip | internal/webhooks/agent/discovery_types.go:36 | a list of children reads back as itself |
| DiscoveryTypes.MetadataToJson | internal/webhooks/agent/discovery_types.go:26-29 | the metadata document has exactly the members labels and annotations, both objects |
| DiscoveryTypes.MetadataRoundTrip | internal/webhooks/agent/discovery_types.go:26-29 | the metadata document reads back as the metadata that was written |
| Metadata.ExtractPodMetadata | internal/webhooks/agent/discovery_metadata.go:25-30 | the labels and annotations are the Pod's own, key for key and value for value, with no key filtered |
| Metadata.MetadataDocumentRoundTrip | internal/webhooks/agent/discovery_metadata.go:25-30 | the written metadata document reads back as exactly the Pod's labels and annotations |
| DiscoveryHierarchy.FirstBest | internal/webhooks/agent/discovery_hierarchy.go:52-66 | the first owner among a prefix of the list whose priority no other owner there beats |
| DiscoveryHierarchy.SelectedOwner | internal/webhooks/agent/discovery_hierarchy.go:50-66 | no selection exactly for an empty owner list; otherwise an owner of the best priority, the first with its listed kind, and the first owner when no kind is listed |
| DiscoveryHierarchy.SelectedOwnerUnique | internal/webhooks/agent/discovery_hierarchy.go:50-66 | at most one owner meets the selection rule, so the rule determines the result |
| DiscoveryHierarchy.SelectOwner | internal/webhooks/agent/discovery_hierarchy.go:50-66 | the nested scan (listed kinds in order, owners in order, break at the first match, fall back to the first owner) selects exactly the owner the rule names |
| DiscoveryHierarchy.SelectionPrefersDeployment | internal/webhooks/agent/discovery_hierarchy.go:52-62 | with any Deployment among the owners, wherever it is, a Deployment is followed |
| DiscoveryHierarchy.SelectionIgnoresOrder | internal/webhooks/agent/discovery_hierarchy.go:52-62 | when a listed kind is present, reordering the owners selects the same kind, and the same reference when only one owner has that kind |
| DiscoveryHierarchy.SelectedOwnerKey | internal/webhooks/agent/discovery_hierarchy.go:64-68 | there is an owner to look up exactly when the object has owners |
| DiscoveryHierarchy.QueryForNode | internal/webhooks/agent/discovery_hierarchy.go:71-158 | an error for an empty name, then for an empty namespace; no node exactly for a kind it cannot fetch or an absent object; the store's error for any other failed read; otherwise a childless node with the requested name and kind and the object's labels |
| DiscoveryHierarchy.OwnerNode | internal/webhooks/agent/discovery_hierarchy.go:38-69 | no owners give no node and no error; otherwise, for the selected owner's key: an error for an empty name, then for an empty namespace; no node exactly when its kind is not fetched or nothing is stored under it; the store's error when it is unreadable; else the childless node with the key's name and kind and the stored object's labels |
| DiscoveryHierarchy.StoredOwnerFound | internal/webhooks/agent/discovery_hierarchy.go:38-69 | owners whose selected owner is stored and of a fetched kind never yield "no node" |
| DiscoveryHierarchy.GetOwnerNode | internal/webhooks/agent/discovery_hierarchy.go:38-69 | the method computes exactly OwnerNode |
| DiscoveryHierarchy.WalkFollowsStore | internal/webhooks/agent/discovery_hierarchy.go:187-280 | every node of a successful walk is a childless, fetchable node with its stored object's labels; the first is the Pod's selected owner, and each next one the selected owner of its predecessor's stored object, the predecessor being of a kind the walk re-fetches; every node has a name, and the namespace is non-empty whenever there is a node |
| DiscoveryHierarchy.WalkReachesEnd | internal/webhooks/agent/discovery_hierarchy.go:187-280 | a successful walk goes as far as it can: it is empty exactly when the starting owners lead to no node, and its last node is of a kind the walk does not re-fetch or has a stored object whose owners lead to no node |
| DiscoveryHierarchy.ChainUnique | internal/webhooks/agent/discovery_hierarchy.go:187-280 | two chains that follow the stored owners from the same owners and go as far as they can are equal |
| DiscoveryHierarchy.WalkIsTheChain | internal/webhooks/agent/discovery_hierarchy.go:187-280 | when the walk succeeds, any chain that follows the stored owners and goes as far as it can is the walk's chain |
| DiscoveryHierarchy.ChainIsTheWalk | internal/webhooks/agent/discovery_hierarchy.go:187-280 | a named chain that follows the stored owners and goes as far as it can makes the walk succeed with exactly that chain; with WalkFollowsStore and WalkReachesEnd, the walk succeeds exactly when such a chain exists, and then returns it |
| DiscoveryHierarchy.WalkStep | internal/webhooks/agent/discovery_hierarchy.go:187-280 | one pass of the loop: getOwnerNode's error is the walk's error, no owner node ends it empty, an owner of a kind not re-fetched is its last node, and past one that is re-fetched the owner is stored, ranks lower, and the walk continues from its owner references |
| DiscoveryHierarchy.HierarchyOfParts | internal/webhooks/agent/discovery_hierarchy.go:162-308 | when the identifier and namespace are non-empty, the walk returns its owners and the Namespace is read, the tree is the Namespace node with its stored labels over the owners farthest first over the Pod |
| DiscoveryHierarchy.PodIdentifier | internal/webhooks/agent/discovery_hierarchy.go:163-167 | the Pod's name, else its generateName, trimmed so that it does not end in `-`, `_` or `.`, every character trimmed off being one of those three |
| DiscoveryHierarchy.PodNode | internal/webhooks/agent/discovery_hierarchy.go:179-184 | the Pod's own node carries the Pod identifier, the Pod type, exactly the Pod's labels and no children |
| DiscoveryHierarchy.Path | internal/webhooks/agent/discovery_hierarchy.go:295-305 | the top of the nesting is the first node, with its name, type and labels; it keeps its own children and gains exactly one more when further nodes follow |
| DiscoveryHierarchy.Reverse | internal/webhooks/agent/discovery_hierarchy.go:296 | the sequence read from its last element to its first |
| DiscoveryHierarchy.Hierarchy | internal/webhooks/agent/discovery_hierarchy.go:162-308 | an error for an empty identifier, then for an empty namespace; with a namespace, a tree exactly when the identifier is non-empty, the owner walk succeeds and the Namespace can be read; otherwise the walk's error, or else the Namespace read's error; a built tree's root is the Pod's Namespace with its stored labels |
| DiscoveryHierarchy.ChaseOwners | internal/webhooks/agent/discovery_hierarchy.go:176-280 | the owner-chasing loop yields the Pod's node followed by the owner walk, or the walk's error |
| DiscoveryHierarchy.NestChain | internal/webhooks/agent/discovery_hierarchy.go:295-305 | the nesting loop hangs the reversed chain below the root, one child per level |
| DiscoveryHierarchy.BuildDiscoveryHierarchy | internal/webhooks/agent/discovery_hierarchy.go:162-308 | the method computes exactly Hierarchy |
| DiscoveryHierarchy.PathShape | internal/webhooks/agent/discovery_hierarchy.go:295-305 | nesting childless nodes gives a single path that reads back as those nodes and ends at the last one |
| DiscoveryHierarchy.HierarchyShape | internal/webhooks/agent/discovery_hierarchy.go:295-307 | a built tree is a single path: Namespace, the owners farthest first, then the Pod's childless leaf; its depth is the number of owners plus two; the owners are the Pod's selected-owner chain in the store, followed as far as it goes |
| DiscoveryHierarchy.NoOwnersDepthTwo | internal/webhooks/agent/discovery_hierarchy.go:44-48 | a Pod without owners gives the two-level tree Namespace → Pod |
| DiscoveryHierarchy.QueryableExcludes | internal/webhooks/agent/discovery_hierarchy.go:90-141 | queryForNode fetches neither a DeploymentConfig nor a Namespace |
| DiscoveryHierarchy.HierarchyNodeKinds | internal/webhooks/agent/discovery_hierarchy.go:90-141 | below the Namespace root every node is of a kind queryForNode fetches; a DeploymentConfig never appears although it is a listed owner kind |
| DiscoveryConfigMap.UntruncatedName | internal/webhooks/agent/discovery_configmap.go:59-74 | there is a name exactly when the Pod has a name or a generateName |
| DiscoveryConfigMap.LimitName | internal/webhooks/agent/discovery_configmap.go:76-79 | the result has at most 253 characters; a name that fits is kept; a longer one is cut to a prefix of its first 253 characters that does not end in `-` or `.`, everything cut off within those 253 being `-` or `.` |
| DiscoveryConfigMap.DiscoveryConfigMapName | internal/webhooks/agent/discovery_configmap.go:56-79 | a name exactly when the Pod has a name or generateName; prefix + name when that fits; prefix + generateName + the five-character suffix when that fits; otherwise the untruncated name cut to a prefix of its first 253 characters, every character cut from those being `-` or `.`, and not ending in `-` or `.`; always at most 253 characters and starting with the component tag |
| DiscoveryConfigMap.LimitKeepsComponent | internal/webhooks/agent/discovery_configmap.go:76-79 | cutting a prefixed name never reaches into the component tag |
| DiscoveryConfigMap.PodOwnerRef | internal/webhooks/agent/discovery_configmap.go:96-107 | a v1 reference of kind Pod carrying the Pod's name and UID, marked as controller |
| DiscoveryConfigMap.PackConfigMap | internal/webhooks/agent/discovery_configmap.go:44-110 | the "neither Name nor GenerateName" error exactly when there is no name; otherwise the ConfigMap named as above in the Pod's namespace, with exactly the two labels and two documents (reading back as the given hierarchy and the Pod's metadata), and the controlling owner reference exactly when asked for and the UID is known |
| DiscoveryConfigMap.CreateDiscoveryConfigMap | internal/webhooks/agent/discovery_configmap.go:38-110 | fails exactly when the hierarchy fails, with that error; otherwise the ConfigMap is named as above, lives in the Pod's namespace, carries exactly the managed-by and component labels and exactly the two data keys, whose documents read back as the hierarchy and as the Pod's labels and annotations, and has one controlling Pod owner reference exactly when one was asked for and the Pod's UID is known, none otherwise |
| DiscoveryConfigMap.HierarchyNeedsAName | internal/webhooks/agent/discovery_configmap.go:72-74 | a hierarchy is only built for a Pod with a name or generateName, so the "neither Name nor GenerateName" error is never returned |
| DiscoveryConfigMapController.Plan | internal/controllers/discovery_configmap_controller.go:43-110 | a missing ConfigMap, one without the discovery component label, one with owners or one whose name lacks the prefix is ignored; an unreadable one fails; otherwise a missing Pod (named by the rest of the ConfigMap's name) retries, an unreadable one fails, and a stored one gives the same ConfigMap with exactly one owner reference {v1, Pod, name, UID} |
| DiscoveryConfigMapController.DiscoveryConfigMapReconciler.constructor | internal/controllers/discovery_configmap_controller.go:33-37 | the reconciler starts from the given stores with no update issued |
| DiscoveryConfigMapController.DiscoveryConfigMapReconciler.Update | internal/controllers/discovery_configmap_controller.go:103 | the call is recorded; unless rejected, the ConfigMap is stored under its own key and nothing else changes |
| DiscoveryConfigMapController.DiscoveryConfigMapReconciler.Reconcile | internal/controllers/discovery_configmap_controller.go:43-110 | carries out Plan: requeue exactly when Plan retries; read failures returned; exactly one update issued exactly when Plan links, stored unless rejected, a rejection returned as an error; otherwise no write and no update call; the Pod store is never changed |
| DiscoveryConfigMapController.LinkRef | internal/controllers/discovery_configmap_controller.go:94-100 | a v1 reference of kind Pod carrying the looked-up Pod name and the stored Pod's UID, with no controller mark |
| DiscoveryConfigMapController.LinkRefMatchesWebhook | internal/controllers/discovery_configmap_controller.go:94-100 | for the same Pod, the controller's reference is the webhook's with the controller mark left unset, and so differs from it |
| DiscoveryConfigMapController.LinkKeepsKey | internal/controllers/discovery_configmap_controller.go:94-103 | the linked ConfigMap is written back under the request's own key, keeping every ConfigMap stored under its own name |
| DiscoveryConfigMapController.ReconcileIdempotent | internal/controllers/discovery_configmap_controller.go:63-67 | once the link is written, reconciling the same request again does nothing |
| DiscoveryConfigMapController.PodNameRoundTrip | internal/controllers/discovery_configmap_controller.go:69-72 | for a named Pod whose prefixed name fits in 253 characters, the reconciler recovers exactly the Pod's name from the ConfigMap name |
| DiscoveryConfigMapController.LongPodNameLost | internal/webhooks/agent/discovery_configmap.go:76-79 | for a longer Pod name the cut name either keeps the prefix, and the name the reconciler recovers is then shorter than the Pod's name, or is the bare component tag, which lacks the prefix; either way it never leads back to that Pod |
| DiscoveryConfigMapController.GeneratedPodName | internal/webhooks/agent/discovery_configmap.go:62-71 | for a Pod known only by its generateName, the reconciler looks for a Pod named generateName + the random suffix |
| DiscoveryConfigMapController.WebhookConfigMapLinked | internal/controllers/discovery_configmap_controller.go:69-100 | a ConfigMap the webhook created without owner for a named Pod whose prefixed name fits is linked, once that Pod is stored, to exactly that Pod's name and UID |
| DiscoveryExamples.FullChain | internal/webhooks/agent/discovery_hierarchy_test.go:434-578 | for a Namespace labelled env=production, Deployment my-deployment, its ReplicaSet my-deployment-abc123 and Pod my-pod owned by the ReplicaSet, the tree is Namespace → Deployment → ReplicaSet → Pod, each node with its object's labels |

## Left out

- Byte-level JSON: documents are an abstract JSON tree written and read by total functions; `json.Marshal` cannot fail on these types, so its two error branches are not modelled.
- The random suffix generator: its output is a parameter required to be five characters from the lowercase alphanumerics.
- The cluster client's transport, retries and logging; reads are map lookups, and any failure other than "not found" is one `Unreadable` entry.
- `SetupWithManager`, the admission wiring around the webhook, and concurrent reconcile workers.
- DiscoveryHierarchy.ChaseOwners: the store does not change during a build, so the re-fetch of an owner that queryForNode has just read always succeeds; the Go code's handling of an owner deleted (or made unreadable) between the two reads is not representable, and that branch is marked unreachable.
- DiscoveryHierarchy.NestChain: builds the nested tree bottom-up on immutable values, where the Go code moves a pointer down from the root; the resulting tree is the same value.
- Cyclic ownership: the Go owner walk would not terminate on a cycle its chain runs into. Every hierarchy member requires the selected-owner edges of all objects stored in the Pod's namespace to be acyclic (`Ranked`), counting only edges to a stored owner of a kind the walk goes on from (Deployment, StatefulSet, DaemonSet, ReplicaSet, ReplicationController, Endpoints, EndpointSlice). A cycle through such edges is excluded even where the Go code would terminate: when the Pod's chain never reaches it, or when the walk fails before entering it (an owner with an empty name, an unreadable owner).
- Go's distinction between nil and empty maps and slices: every map and children list is a present value, empty when Go's would be nil; map copies are values, so independence from later mutation of the copied map holds trivially.
- Lengths are counted in characters, where Go counts bytes; the two agree for the ASCII names Kubernetes admits.
- An object's name and namespace are those of the key it is stored under, so the Namespace node's name is the Pod's namespace and the linked Pod's name is the one looked up.
- The `controller` field of an owner reference (Go `*bool`) is an `Option<bool>`; the webhook sets `Some(true)`, the reconciler leaves it `None`.
- The ConfigMap's `data` holds JSON values rather than the strings the marshalled bytes become.
