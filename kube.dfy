/** The slice of the Kubernetes object model the discovery core reads and
    writes: owner references, object metadata, Pods, ConfigMaps, and a
    key-value store standing in for the cluster client. */
module Kube {
  import opened Wrappers
  import opened JsonValues

  /** A `metav1.OwnerReference`; `controller` is Go's `*bool` (None is nil). */
  datatype OwnerRef = OwnerRef(
    apiVersion: string,
    kind: string,
    name: string,
    uid: string,
    controller: Option<bool>)

  /** What the core reads of a stored object: its UID, labels and owner
      references. An object's name is the name of the key it is stored under. */
  datatype KubeObject = KubeObject(
    uid: string,
    labels: map<string, string>,
    ownerRefs: seq<OwnerRef>)

  /** A typed lookup key: the Go client picks the kind from the object it
      decodes into; cluster-scoped objects (Namespaces) use namespace "". */
  datatype ObjKey = ObjKey(kind: string, namespace: string, name: string)

  /** A stored entry; `Unreadable` stands for any read failure other than
      "not found" (permissions, transport, decoding). */
  datatype Entry<T> = Stored(obj: T) | Unreadable(reason: string)

  datatype StoreError = NotFoundError(key: ObjKey) | OtherError(reason: string)

  /** `errors.IsNotFound`. */
  predicate IsNotFound(e: StoreError) {
    e.NotFoundError?
  }

  /** `client.Get`: an absent key is a not-found error. */
  function Get<T>(store: map<ObjKey, Entry<T>>, key: ObjKey): (r: Result<T, StoreError>)
    ensures r.Ok? <==> key in store && store[key].Stored?
    ensures r.Ok? ==> r.value == store[key].obj
    ensures r.Err? && IsNotFound(r.error) <==> key !in store
  {
    if key !in store then Err(NotFoundError(key))
    else match store[key]
      case Stored(obj) => Ok(obj)
      case Unreadable(reason) => Err(OtherError(reason))
  }

  /** The cluster's workload objects (Deployments, ReplicaSets, Pods, ...). */
  type Store = map<ObjKey, Entry<KubeObject>>

  /** A Pod as the admission webhook sees it: at admission time `name` and
      `uid` may still be empty and only `generateName` known. */
  datatype PodObject = PodObject(
    name: string,
    generateName: string,
    namespace: string,
    uid: string,
    labels: map<string, string>,
    annotations: map<string, string>,
    ownerRefs: seq<OwnerRef>)

  /** A ConfigMap; `data` holds each document as an abstract JSON value. */
  datatype ConfigMap = ConfigMap(
    name: string,
    namespace: string,
    labels: map<string, string>,
    data: map<string, Json>,
    ownerRefs: seq<OwnerRef>)

  const ConfigMapKind := "ConfigMap"

  /** The key a ConfigMap is stored under. */
  function ConfigMapKey(cm: ConfigMap): ObjKey {
    ObjKey(ConfigMapKind, cm.namespace, cm.name)
  }

  /** Go's `m[k]` on a `map[string]string`: the empty string when absent. */
  function Lookup(m: map<string, string>, k: string): (v: string)
    ensures k in m ==> v == m[k]
    ensures k !in m ==> v == ""
  {
    if k in m then m[k] else ""
  }
}
