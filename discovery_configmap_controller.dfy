/** The controller that gives each discovery ConfigMap an owner reference to
    its Pod once the Pod exists, so that the ConfigMap is garbage-collected
    with it. */
module DiscoveryConfigMapController {
  import opened Wrappers
  import opened Strings
  import opened Kube
  import opened DiscoveryTypes
  import opened DiscoveryHierarchy
  import opened DiscoveryConfigMap

  /** A reconcile request: the namespaced name of a ConfigMap. */
  datatype Request = Request(namespace: string, name: string)

  datatype ReconcileResult = ReconcileResult(requeue: bool)

  datatype ReconcileError = ReadFailed(cause: StoreError) | UpdateFailed(reason: string)

  /** What one reconcile pass decides before anything is written. */
  datatype Step = Ignore | Retry | Link(updated: ConfigMap) | Fail(cause: StoreError)

  type ConfigMapStore = map<ObjKey, Entry<ConfigMap>>

  function RequestKey(req: Request): ObjKey {
    ObjKey(ConfigMapKind, req.namespace, req.name)
  }

  /** Every stored ConfigMap carries the name and namespace of its key. */
  predicate KeyedByName(cms: ConfigMapStore) {
    forall k :: k in cms && cms[k].Stored? ==> ConfigMapKey(cms[k].obj) == k
  }

  /** A ConfigMap the controller links: labelled with the discovery
      component, without owner references, and named with the discovery
      prefix. */
  predicate AwaitingOwner(cm: ConfigMap) {
    && Lookup(cm.labels, ComponentLabel) == DiscoveryConfigMapComponent
    && cm.ownerRefs == []
    && DiscoveryConfigMapPrefix <= cm.name
  }

  /** The Pod name a discovery ConfigMap's name stands for. */
  function PodNameOf(cm: ConfigMap): string
    requires DiscoveryConfigMapPrefix <= cm.name
  {
    cm.name[|DiscoveryConfigMapPrefix|..]
  }

  /** The owner reference the controller appends; unlike the webhook's it
      leaves `controller` unset. */
  function LinkRef(podName: string, pod: KubeObject): (r: OwnerRef)
    ensures r.apiVersion == "v1" && ParseNodeType(r.kind) == Some(Pod)
    ensures r.name == podName
    ensures r.uid == pod.uid && r.controller.None?
  {
    TagRoundTrip(Pod);
    OwnerRef("v1", Tag(Pod), podName, pod.uid, None)
  }

  function PodKey(namespace: string, podName: string): ObjKey {
    ObjKey(Tag(Pod), namespace, podName)
  }

  /** One reconcile pass as a decision: a missing ConfigMap, a foreign or
      already-owned one, or one whose name lacks the prefix is ignored; a
      read failure fails; a missing Pod retries; otherwise the ConfigMap gains
      exactly one owner reference, to the Pod named by the rest of its name,
      and nothing else about it changes. */
  function Plan(cms: ConfigMapStore, objects: Store, req: Request): (s: Step)
    ensures RequestKey(req) !in cms ==> s == Ignore
    ensures RequestKey(req) in cms && cms[RequestKey(req)].Unreadable? ==>
              s == Fail(OtherError(cms[RequestKey(req)].reason))
    ensures RequestKey(req) in cms && cms[RequestKey(req)].Stored? ==>
              var cm := cms[RequestKey(req)].obj;
              && (!AwaitingOwner(cm) ==> s == Ignore)
              && (AwaitingOwner(cm) ==>
                    var pk := PodKey(cm.namespace, PodNameOf(cm));
                    && (pk !in objects ==> s == Retry)
                    && (pk in objects && objects[pk].Unreadable? ==> s == Fail(OtherError(objects[pk].reason)))
                    && (pk in objects && objects[pk].Stored? ==>
                          s == Link(cm.(ownerRefs := [LinkRef(PodNameOf(cm), objects[pk].obj)]))))
  {
    match Get(cms, RequestKey(req))
    case Err(e) => if IsNotFound(e) then Ignore else Fail(e)
    case Ok(cm) =>
      if Lookup(cm.labels, ComponentLabel) != DiscoveryConfigMapComponent then Ignore
      else if |cm.ownerRefs| > 0 then Ignore
      else
        var podName := TrimPrefix(cm.name, DiscoveryConfigMapPrefix);
        PrefixShape();
        TrimPrefixUnchanged(cm.name, DiscoveryConfigMapPrefix);
        if podName == cm.name then Ignore
        else
          assert podName == PodNameOf(cm);
          match Get(objects, PodKey(cm.namespace, podName))
          case Err(e) => if IsNotFound(e) then Retry else Fail(e)
          case Ok(pod) => Link(cm.(ownerRefs := cm.ownerRefs + [LinkRef(podName, pod)]))
  }

  /** `DiscoveryConfigMapReconciler`: the cluster client is its state, the
      ConfigMaps it reads and updates and the Pods it reads. `updateFailure`
      is the rejection the API server gives an update, if any; `updates`
      records every update call issued, in order. */
  class DiscoveryConfigMapReconciler {
    var configMaps: ConfigMapStore
    var objects: Store
    var updateFailure: Option<string>
    var updates: seq<ConfigMap>

    predicate Valid()
      reads this
    {
      KeyedByName(configMaps)
    }

    constructor (configMaps: ConfigMapStore, objects: Store, updateFailure: Option<string>)
      requires KeyedByName(configMaps)
      ensures Valid()
      ensures this.configMaps == configMaps && this.objects == objects
      ensures this.updateFailure == updateFailure && updates == []
    {
      this.configMaps := configMaps;
      this.objects := objects;
      this.updateFailure := updateFailure;
      updates := [];
    }

    /** `client.Update`: stores the ConfigMap under its own key unless the
        API server rejects the write. */
    method Update(cm: ConfigMap) returns (err: Option<string>)
      requires Valid()
      modifies this
      ensures Valid()
      ensures objects == old(objects) && updateFailure == old(updateFailure)
      ensures err == updateFailure
      ensures updates == old(updates) + [cm]
      ensures err.None? ==> configMaps == old(configMaps)[ConfigMapKey(cm) := Stored(cm)]
      ensures err.Some? ==> configMaps == old(configMaps)
    {
      err := updateFailure;
      updates := updates + [cm];
      if err.None? {
        configMaps := configMaps[ConfigMapKey(cm) := Stored(cm)];
      }
    }

    /** `Reconcile`: carries out `Plan` on the current state. Only a linked
        ConfigMap is written; a missing Pod asks for a requeue; read and
        update failures are returned as errors. */
    method Reconcile(req: Request) returns (result: ReconcileResult, err: Option<ReconcileError>)
      requires Valid()
      modifies this
      ensures Valid()
      ensures objects == old(objects) && updateFailure == old(updateFailure)
      ensures result.requeue <==> Plan(old(configMaps), old(objects), req).Retry?
      ensures Plan(old(configMaps), old(objects), req).Fail? ==>
                err == Some(ReadFailed(Plan(old(configMaps), old(objects), req).cause))
      ensures Plan(old(configMaps), old(objects), req).Link? && updateFailure.None? ==>
                var cm := Plan(old(configMaps), old(objects), req).updated;
                err.None? && configMaps == old(configMaps)[ConfigMapKey(cm) := Stored(cm)]
      ensures Plan(old(configMaps), old(objects), req).Link? && updateFailure.Some? ==>
                err == Some(UpdateFailed(updateFailure.value)) && configMaps == old(configMaps)
      ensures Plan(old(configMaps), old(objects), req).Link? ==>
                updates == old(updates) + [Plan(old(configMaps), old(objects), req).updated]
      ensures !Plan(old(configMaps), old(objects), req).Link? ==>
                configMaps == old(configMaps) && updates == old(updates)
      ensures Plan(old(configMaps), old(objects), req).Ignore? || Plan(old(configMaps), old(objects), req).Retry? ==>
                err.None?
    {
      result := ReconcileResult(false);
      err := None;
      var got := Get(configMaps, RequestKey(req));
      if got.Err? {
        if !IsNotFound(got.error) {
          err := Some(ReadFailed(got.error));
        }
        return;
      }
      var cm := got.value;
      if Lookup(cm.labels, ComponentLabel) != DiscoveryConfigMapComponent {
        return;
      }
      if |cm.ownerRefs| > 0 {
        return;
      }
      var podName := TrimPrefix(cm.name, DiscoveryConfigMapPrefix);
      if podName == cm.name {
        return;
      }
      var podGot := Get(objects, PodKey(cm.namespace, podName));
      if podGot.Err? {
        if IsNotFound(podGot.error) {
          result := ReconcileResult(true);
        } else {
          err := Some(ReadFailed(podGot.error));
        }
        return;
      }
      cm := cm.(ownerRefs := cm.ownerRefs + [LinkRef(podName, podGot.value)]);
      var updateErr := Update(cm);
      if updateErr.Some? {
        err := Some(UpdateFailed(updateErr.value));
      }
    }
  }

  /** Linking is written under the request's own key and keeps the store
      keyed by name. */
  lemma LinkKeepsKey(cms: ConfigMapStore, objects: Store, req: Request)
    requires KeyedByName(cms)
    requires Plan(cms, objects, req).Link?
    ensures ConfigMapKey(Plan(cms, objects, req).updated) == RequestKey(req)
    ensures KeyedByName(cms[RequestKey(req) := Stored(Plan(cms, objects, req).updated)])
  {
    assert cms[RequestKey(req)].Stored?;
  }

  /** The controller's reference names the same Pod, by name and UID, as
      the one the webhook attaches; the two differ only in the controller
      mark, which the controller leaves unset. */
  lemma LinkRefMatchesWebhook(pod: PodObject, obj: KubeObject)
    requires obj.uid == pod.uid
    ensures LinkRef(pod.name, obj) == PodOwnerRef(pod).(controller := None)
    ensures LinkRef(pod.name, obj) != PodOwnerRef(pod)
  {
  }

  /** Reconciling is idempotent: once a link has been written, the next pass
      over the same request has nothing to do. */
  lemma ReconcileIdempotent(cms: ConfigMapStore, objects: Store, req: Request)
    requires KeyedByName(cms)
    requires Plan(cms, objects, req).Link?
    ensures Plan(cms[RequestKey(req) := Stored(Plan(cms, objects, req).updated)], objects, req) == Ignore
  {
    LinkKeepsKey(cms, objects, req);
  }

  /** When the prefixed Pod name fits in 253 characters, the controller
      recovers the Pod's name from the webhook's ConfigMap name. */
  lemma {:induction false} PodNameRoundTrip(pod: PodObject, suffix: string, cm: ConfigMap)
    requires IsRandomSuffix(suffix)
    requires pod.name != "" && |DiscoveryConfigMapPrefix + pod.name| <= NameLengthLimit
    requires cm.name == DiscoveryConfigMapName(pod, suffix).value
    ensures DiscoveryConfigMapPrefix <= cm.name && PodNameOf(cm) == pod.name
    ensures TrimPrefix(cm.name, DiscoveryConfigMapPrefix) == pod.name
  {
    assert cm.name == DiscoveryConfigMapPrefix + pod.name;
    TrimPrefixOfConcat(DiscoveryConfigMapPrefix, pod.name);
  }

  /** When the prefixed Pod name is longer than 253 characters, the cut
      ConfigMap name no longer names the Pod: if it still carries the prefix,
      the controller looks up a shorter, different name; otherwise the cut
      left only `-` and `.` after the component tag and took the prefix's
      own dash with them, so the name is the bare tag, which the controller
      ignores. */
  lemma LongPodNameLost(pod: PodObject, suffix: string, cm: ConfigMap)
    requires IsRandomSuffix(suffix)
    requires pod.name != "" && |DiscoveryConfigMapPrefix + pod.name| > NameLengthLimit
    requires cm.name == DiscoveryConfigMapName(pod, suffix).value
    ensures DiscoveryConfigMapPrefix <= cm.name || cm.name == DiscoveryConfigMapComponent
    ensures DiscoveryConfigMapPrefix <= cm.name ==> |PodNameOf(cm)| < |pod.name|
  {
    PrefixShape();
    var n := |DiscoveryConfigMapComponent|;
    var u := DiscoveryConfigMapPrefix + pod.name;
    assert DiscoveryConfigMapComponent <= cm.name;
    if |cm.name| > n {
      assert cm.name[n] == u[n] == '-';
      assert cm.name[..n + 1] == DiscoveryConfigMapPrefix;
    }
  }

  /** A ConfigMap made for a Pod known only by its generateName names a Pod
      called generateName plus the random suffix, when that fits. */
  lemma GeneratedPodName(pod: PodObject, suffix: string, cm: ConfigMap)
    requires IsRandomSuffix(suffix)
    requires pod.name == "" && pod.generateName != ""
    requires |DiscoveryConfigMapPrefix + pod.generateName + suffix| <= NameLengthLimit
    requires cm.name == DiscoveryConfigMapName(pod, suffix).value
    ensures DiscoveryConfigMapPrefix <= cm.name && PodNameOf(cm) == pod.generateName + suffix
  {
    assert cm.name == DiscoveryConfigMapPrefix + (pod.generateName + suffix);
  }

  /** From admission to ownership: a ConfigMap the webhook created without an
      owner reference for a named Pod whose prefixed name fits is linked by
      the controller, once the Pod is stored, to exactly that Pod's UID. */
  lemma WebhookConfigMapLinked(store: Store, rank: map<ObjKey, nat>, pod: PodObject, suffix: string,
                               objects: Store, cms: ConfigMapStore)
    requires Ranked(store, rank, pod.namespace)
    requires IsRandomSuffix(suffix)
    requires pod.name != "" && |DiscoveryConfigMapPrefix + pod.name| <= NameLengthLimit
    requires CreateDiscoveryConfigMap(store, rank, pod, false, suffix).Ok?
    requires var cm := CreateDiscoveryConfigMap(store, rank, pod, false, suffix).value;
             ConfigMapKey(cm) in cms && cms[ConfigMapKey(cm)] == Stored(cm)
    requires PodKey(pod.namespace, pod.name) in objects && objects[PodKey(pod.namespace, pod.name)].Stored?
    ensures var cm := CreateDiscoveryConfigMap(store, rank, pod, false, suffix).value;
            var uid := objects[PodKey(pod.namespace, pod.name)].obj.uid;
            Plan(cms, objects, Request(cm.namespace, cm.name))
              == Link(cm.(ownerRefs := [OwnerRef("v1", "Pod", pod.name, uid, None)]))
  {
    var cm := CreateDiscoveryConfigMap(store, rank, pod, false, suffix).value;
    PodNameRoundTrip(pod, suffix, cm);
    assert Lookup(cm.labels, ComponentLabel) == DiscoveryConfigMapComponent;
    assert RequestKey(Request(cm.namespace, cm.name)) == ConfigMapKey(cm);
  }
}
