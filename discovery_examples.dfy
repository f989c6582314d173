/** A worked cluster: a Namespace, a Deployment, the ReplicaSet it owns and
    a Pod owned by that ReplicaSet. */
module DiscoveryExamples {
  import opened Wrappers
  import opened Strings
  import opened Kube
  import opened DiscoveryTypes
  import opened DiscoveryHierarchy

  const ExampleNamespace := "test-namespace"
  const AppLabels: map<string, string> := map["app" := "myapp"]
  const PodLabels: map<string, string> := map["app" := "myapp", "pod" := "label"]

  function RsRef(): OwnerRef {
    OwnerRef("apps/v1", "ReplicaSet", "my-deployment-abc123", "replicaset-uid", None)
  }

  function DeploymentRef(): OwnerRef {
    OwnerRef("apps/v1", "Deployment", "my-deployment", "deployment-uid", None)
  }

  function ExamplePod(): PodObject {
    PodObject("my-pod", "", ExampleNamespace, "pod-uid", PodLabels, map["annotation" := "value"], [RsRef()])
  }

  function DeploymentKey(): ObjKey { ObjKey("Deployment", ExampleNamespace, "my-deployment") }
  function RsKey(): ObjKey { ObjKey("ReplicaSet", ExampleNamespace, "my-deployment-abc123") }
  function ExamplePodKey(): ObjKey { ObjKey("Pod", ExampleNamespace, "my-pod") }

  function ExampleStore(): Store {
    map[
      NamespaceKey(ExampleNamespace) := Stored(KubeObject("", map["env" := "production"], [])),
      DeploymentKey() := Stored(KubeObject("deployment-uid", AppLabels, [])),
      RsKey() := Stored(KubeObject("replicaset-uid", AppLabels, [DeploymentRef()])),
      ExamplePodKey() := Stored(KubeObject("pod-uid", PodLabels, [RsRef()]))
    ]
  }

  function ExampleRank(): map<ObjKey, nat> {
    map[DeploymentKey() := 0, RsKey() := 1, ExamplePodKey() := 2]
  }

  const NamespaceNode := DiscoveryNode(ExampleNamespace, "Namespace", map["env" := "production"], [])
  const DeploymentNode := DiscoveryNode("my-deployment", "Deployment", AppLabels, [])
  const RsNode := DiscoveryNode("my-deployment-abc123", "ReplicaSet", AppLabels, [])
  const ExamplePodNode := DiscoveryNode("my-pod", "Pod", PodLabels, [])

  lemma SingleOwnerKeys()
    ensures SelectedOwnerKey([RsRef()], ExampleNamespace) == Some(RsKey())
    ensures SelectedOwnerKey([DeploymentRef()], ExampleNamespace) == Some(DeploymentKey())
  {
  }

  /** Deployment has no owner, the ReplicaSet is owned by the Deployment and
      the Pod by the ReplicaSet, so ranks 0, 1, 2 order the chain. */
  lemma ExampleRanked()
    ensures Ranked(ExampleStore(), ExampleRank(), ExampleNamespace)
  {
    var store := ExampleStore();
    SingleOwnerKeys();
    ExampleKinds();
    forall k | k in store && k.namespace == ExampleNamespace && store[k].Stored?
      ensures k in ExampleRank()
      ensures var next := SelectedOwnerKey(store[k].obj.ownerRefs, ExampleNamespace);
              next.Some? && next.value in store && store[next.value].Stored? ==>
                next.value in ExampleRank() && ExampleRank()[next.value] < ExampleRank()[k]
    {
      assert k == DeploymentKey() || k == RsKey() || k == ExamplePodKey();
    }
  }

  lemma WalkFromDeployment()
    requires Ranked(ExampleStore(), ExampleRank(), ExampleNamespace)
    ensures AtKey(ExampleStore(), ExampleNamespace, [], Some(DeploymentKey()))
    ensures WalkOwners(ExampleStore(), ExampleRank(), ExampleNamespace, [], Some(DeploymentKey())) == Ok([])
  {
  }

  lemma ExampleLookups()
    ensures Get(ExampleStore(), DeploymentKey()) == Ok(KubeObject("deployment-uid", AppLabels, []))
    ensures Get(ExampleStore(), RsKey()) == Ok(KubeObject("replicaset-uid", AppLabels, [DeploymentRef()]))
  {
  }

  lemma ExampleNamespaceLookup()
    ensures Get(ExampleStore(), NamespaceKey(ExampleNamespace)) == Ok(KubeObject("", map["env" := "production"], []))
  {
  }

  lemma ExampleKinds()
    ensures ParseNodeType("Deployment") == Some(Deployment)
    ensures ParseNodeType("ReplicaSet") == Some(ReplicaSet)
  {
    TagRoundTrip(Deployment);
    TagRoundTrip(ReplicaSet);
  }

  lemma ExampleOwnerNodes()
    ensures OwnerNode(ExampleStore(), [DeploymentRef()], ExampleNamespace) == Ok(Some(DeploymentNode))
    ensures OwnerNode(ExampleStore(), [RsRef()], ExampleNamespace) == Ok(Some(RsNode))
  {
    ExampleLookups();
    ExampleKinds();
    assert SelectedOwner([DeploymentRef()]) == Some(0);
    assert SelectedOwner([RsRef()]) == Some(0);
    CopyLabelsIsIdentity(AppLabels);
  }

  lemma WalkFromReplicaSet()
    requires Ranked(ExampleStore(), ExampleRank(), ExampleNamespace)
    ensures AtKey(ExampleStore(), ExampleNamespace, [DeploymentRef()], Some(RsKey()))
    ensures WalkOwners(ExampleStore(), ExampleRank(), ExampleNamespace, [DeploymentRef()], Some(RsKey()))
              == Ok([DeploymentNode])
  {
    ExampleLookups();
    ExampleKinds();
    ExampleOwnerNodes();
    WalkFromDeployment();
    var node := DeploymentNode;
    assert ParseNodeType(node.nodeType) == Some(Deployment);
    assert Refetchable(Deployment);
    assert ObjKey(node.nodeType, ExampleNamespace, node.name) == DeploymentKey();
    assert Get(ExampleStore(), DeploymentKey()).value.ownerRefs == [];
    assert [node] + [] == [node];
    var w := WalkOwners(ExampleStore(), ExampleRank(), ExampleNamespace, [DeploymentRef()], Some(RsKey()));
    assert w == (match Get(ExampleStore(), DeploymentKey())
      case Err(e) => if IsNotFound(e) then Ok([node]) else Err(StoreFailure(e))
      case Ok(next) =>
        match WalkOwners(ExampleStore(), ExampleRank(), ExampleNamespace, next.ownerRefs, Some(DeploymentKey()))
        case Err(e) => Err(e)
        case Ok(rest) => Ok([node] + rest));
  }

  lemma WalkFromPod()
    requires Ranked(ExampleStore(), ExampleRank(), ExampleNamespace)
    ensures WalkOwners(ExampleStore(), ExampleRank(), ExampleNamespace, [RsRef()], None)
              == Ok([RsNode, DeploymentNode])
  {
    ExampleLookups();
    ExampleKinds();
    ExampleOwnerNodes();
    WalkFromReplicaSet();
    var node := RsNode;
    assert ParseNodeType(node.nodeType) == Some(ReplicaSet);
    assert ObjKey(node.nodeType, ExampleNamespace, node.name) == RsKey();
    assert Refetchable(ReplicaSet);
    assert [node] + [DeploymentNode] == [RsNode, DeploymentNode];
    var w := WalkOwners(ExampleStore(), ExampleRank(), ExampleNamespace, [RsRef()], None);
    assert w == (match Get(ExampleStore(), RsKey())
      case Err(e) => if IsNotFound(e) then Ok([node]) else Err(StoreFailure(e))
      case Ok(next) =>
        match WalkOwners(ExampleStore(), ExampleRank(), ExampleNamespace, next.ownerRefs, Some(RsKey()))
        case Err(e) => Err(e)
        case Ok(rest) => Ok([node] + rest));
  }

  lemma ExampleNesting()
    ensures Path([NamespaceNode] + Reverse([ExamplePodNode] + [RsNode, DeploymentNode])) ==
      NamespaceNode.(children := [DeploymentNode.(children := [RsNode.(children := [ExamplePodNode])])])
  {
    var nodes := [NamespaceNode] + Reverse([ExamplePodNode] + [RsNode, DeploymentNode]);
    assert nodes == [NamespaceNode, DeploymentNode, RsNode, ExamplePodNode];
    assert nodes[1..] == [DeploymentNode, RsNode, ExamplePodNode];
    assert nodes[1..][1..] == [RsNode, ExamplePodNode];
    assert nodes[1..][1..][1..] == [ExamplePodNode];
    var rs := RsNode.(children := [ExamplePodNode]);
    var dep := DeploymentNode.(children := [rs]);
    assert Path(nodes[1..][1..]) == rs by {
      assert [] + [ExamplePodNode] == [ExamplePodNode];
    }
    assert Path(nodes[1..]) == dep by {
      assert [] + [rs] == [rs];
    }
    assert [] + [dep] == [dep];
  }

  lemma ExamplePodIdentity()
    ensures PodIdentifier(ExamplePod()) == "my-pod"
    ensures PodNode(ExamplePod()) == ExamplePodNode
  {
    TrimRightKeeps("my-pod", PodNameCutset);
  }

  /** The Pod sits under its ReplicaSet, under the Deployment, under the
      Namespace, each node carrying its object's labels. */
  lemma FullChain()
    ensures Ranked(ExampleStore(), ExampleRank(), ExampleNamespace)
    ensures Hierarchy(ExampleStore(), ExampleRank(), ExamplePod()) == Ok(
      NamespaceNode.(children := [
        DeploymentNode.(children := [
          RsNode.(children := [ExamplePodNode])])]))
  {
    ExampleRanked();
    WalkFromPod();
    ExamplePodIdentity();
    var ns := KubeObject("", map["env" := "production"], []);
    ExampleNamespaceLookup();
    HierarchyOfParts(ExampleStore(), ExampleRank(), ExamplePod(), [RsNode, DeploymentNode], ns);
    ExampleNesting();
  }
}
