/** Building the discovery tree for a Pod: pick the most relevant owner of an
    object, fetch it, repeat up the ownership chain, and nest the chain
    under the Pod's Namespace. */
module DiscoveryHierarchy {
  import opened Wrappers
  import opened Strings
  import opened Kube
  import opened DiscoveryTypes

  datatype HierarchyError =
    | EmptyResourceName(kind: string, namespace: string)
    | EmptyNamespace(name: string, kind: string)
    | EmptyPodName
    | EmptyPodNamespace(podName: string)
    | StoreFailure(cause: StoreError)

  // ---------------------------------------------------------------------
  // Owner selection (getOwnerNode)
  // ---------------------------------------------------------------------

  /** Owner `i` is the one to follow: no owner has a kind listed earlier in
      ExpectedOwnerKinds, no earlier owner has the same listed kind, and
      when no owner has a listed kind it is the first owner. */
  ghost predicate IsSelectedOwner(owners: seq<OwnerRef>, i: int) {
    && 0 <= i < |owners|
    && (forall j :: 0 <= j < |owners| ==> OwnerPriority(owners[i].kind) <= OwnerPriority(owners[j].kind))
    && (OwnerPriority(owners[i].kind) < |ExpectedOwnerKinds| ==>
          forall j :: 0 <= j < i ==> owners[j].kind != owners[i].kind)
    && (OwnerPriority(owners[i].kind) == |ExpectedOwnerKinds| ==> i == 0)
  }

  /** The first owner of best priority among owners[..n]. */
  function FirstBest(owners: seq<OwnerRef>, n: nat): (i: nat)
    requires 1 <= n <= |owners|
    ensures i < n
    ensures forall j :: 0 <= j < n ==> OwnerPriority(owners[i].kind) <= OwnerPriority(owners[j].kind)
    ensures forall j :: 0 <= j < i ==> OwnerPriority(owners[i].kind) < OwnerPriority(owners[j].kind)
  {
    if n == 1 then 0
    else
      var m := FirstBest(owners, n - 1);
      var last := OwnerPriority(owners[n - 1].kind);
      if last < OwnerPriority(owners[m].kind) then n - 1 else m
  }

  /** The index of the owner to follow, or None for an object without owners. */
  function SelectedOwner(owners: seq<OwnerRef>): (r: Option<nat>)
    ensures r.None? <==> owners == []
    ensures r.Some? ==> IsSelectedOwner(owners, r.value)
  {
    if owners == [] then None
    else
      var i := FirstBest(owners, |owners|);
      assert OwnerPriority(owners[0].kind) <= |ExpectedOwnerKinds|;
      Some(i)
  }

  /** At most one owner is the one to follow. */
  lemma SelectedOwnerUnique(owners: seq<OwnerRef>, i: int, i': int)
    requires IsSelectedOwner(owners, i) && IsSelectedOwner(owners, i')
    ensures i == i'
  {
    var p := OwnerPriority(owners[i].kind);
    assert p == OwnerPriority(owners[i'].kind);
    if p < |ExpectedOwnerKinds| {
      PriorityInjective(owners[i].kind, owners[i'].kind);
    }
  }

  /** The selection loops of getOwnerNode: scan ExpectedOwnerKinds in order
      and, for each kind, the owners in order; stop at the first match;
      fall back to the first owner. */
  method SelectOwner(owners: seq<OwnerRef>) returns (sel: Option<nat>)
    ensures sel.None? <==> owners == []
    ensures sel.Some? ==> IsSelectedOwner(owners, sel.value)
    ensures sel == SelectedOwner(owners)
  {
    if |owners| == 0 {
      return None;
    }
    sel := None;
    var k := 0;
    while k < |ExpectedOwnerKinds|
      invariant 0 <= k <= |ExpectedOwnerKinds|
      invariant sel.None?
      invariant forall j :: 0 <= j < |owners| ==> k <= OwnerPriority(owners[j].kind)
    {
      var i := 0;
      while i < |owners|
        invariant 0 <= i <= |owners|
        invariant sel.None?
        invariant forall j :: 0 <= j < i ==> owners[j].kind != Tag(ExpectedOwnerKinds[k])
      {
        if owners[i].kind == Tag(ExpectedOwnerKinds[k]) {
          PriorityOfExpected(k);
          sel := Some(i);
          break;
        }
        i := i + 1;
      }
      if sel.Some? {
        break;
      }
      forall j | 0 <= j < |owners|
        ensures k + 1 <= OwnerPriority(owners[j].kind)
      {
        if OwnerPriority(owners[j].kind) == k {
          assert false;
        }
      }
      k := k + 1;
    }
    if sel.None? {
      sel := Some(0);
    }
    SelectedOwnerUnique(owners, sel.value, SelectedOwner(owners).value);
  }

  /** An owner of the highest-priority kind wins wherever it appears: with a
      Deployment among the owners, a Deployment is followed. */
  lemma SelectionPrefersDeployment(owners: seq<OwnerRef>, j: nat)
    requires j < |owners| && owners[j].kind == Tag(Deployment)
    ensures owners[SelectedOwner(owners).value].kind == Tag(Deployment)
  {
    PriorityOfExpected(0);
    var i := SelectedOwner(owners).value;
    assert OwnerPriority(owners[i].kind) == 0;
  }

  /** The owner followed does not depend on where the owners appear in the
      list once one of them has a listed kind: any reordering selects the
      same kind, and the same reference when only one owner has that kind. */
  lemma SelectionIgnoresOrder(a: seq<OwnerRef>, b: seq<OwnerRef>)
    requires multiset(a) == multiset(b) && a != []
    requires OwnerPriority(a[SelectedOwner(a).value].kind) < |ExpectedOwnerKinds|
    ensures b != []
    ensures b[SelectedOwner(b).value].kind == a[SelectedOwner(a).value].kind
    ensures (forall j :: 0 <= j < |a| && a[j].kind == a[SelectedOwner(a).value].kind ==> j == SelectedOwner(a).value)
            ==> b[SelectedOwner(b).value] == a[SelectedOwner(a).value]
  {
    var ia := SelectedOwner(a).value;
    assert a[ia] in multiset(b);
    assert b != [];
    var ib := SelectedOwner(b).value;
    assert b[ib] in multiset(a);
    var ja :| 0 <= ja < |a| && a[ja] == b[ib];
    var jb :| 0 <= jb < |b| && b[jb] == a[ia];
    assert OwnerPriority(a[ia].kind) <= OwnerPriority(a[ja].kind);
    assert OwnerPriority(b[ib].kind) <= OwnerPriority(b[jb].kind);
    PriorityInjective(a[ia].kind, b[ib].kind);
  }

  /** The lookup key of the owner an object's references lead to. */
  function SelectedOwnerKey(owners: seq<OwnerRef>, namespace: string): (r: Option<ObjKey>)
    ensures r.None? <==> owners == []
  {
    match SelectedOwner(owners)
    case None => None
    case Some(i) => Some(ObjKey(owners[i].kind, namespace, owners[i].name))
  }

  // ---------------------------------------------------------------------
  // Node resolution (queryForNode)
  // ---------------------------------------------------------------------

  /** The kinds queryForNode knows how to fetch. */
  predicate Queryable(t: KubeNodeType) {
    match t
    case Deployment | ReplicaSet | StatefulSet | DaemonSet | ReplicationController
       | Pod | Endpoint | EndpointSlice => true
    case Namespace | DeploymentConfig => false
  }

  predicate QueryableKind(kind: string) {
    var t := ParseNodeType(kind);
    t.Some? && Queryable(t.value)
  }

  /** The node for object `name` of kind `kind`: an error for an empty name
      or namespace, no node for a kind it cannot fetch or an object that is
      not there, the store's error for any other failed read, and otherwise
      a childless node carrying the object's own labels. */
  function QueryForNode(store: Store, namespace: string, name: string, kind: string)
    : (r: Result<Option<DiscoveryNode>, HierarchyError>)
    ensures name == "" ==> r == Err(EmptyResourceName(kind, namespace))
    ensures name != "" && namespace == "" ==> r == Err(EmptyNamespace(name, kind))
    ensures r == Ok(None) <==>
              && name != "" && namespace != ""
              && (!QueryableKind(kind) || Get(store, ObjKey(kind, namespace, name)) == Err(NotFoundError(ObjKey(kind, namespace, name))))
    ensures r.Ok? && r.value.Some? ==>
              && QueryableKind(kind)
              && Get(store, ObjKey(kind, namespace, name)).Ok?
              && r.value.value == DiscoveryNode(name, kind, Get(store, ObjKey(kind, namespace, name)).value.labels, [])
    ensures r.Err? && name != "" && namespace != "" ==>
              && QueryableKind(kind)
              && Get(store, ObjKey(kind, namespace, name)).Err?
              && !IsNotFound(Get(store, ObjKey(kind, namespace, name)).error)
              && r.error == StoreFailure(Get(store, ObjKey(kind, namespace, name)).error)
  {
    if name == "" then Err(EmptyResourceName(kind, namespace))
    else if namespace == "" then Err(EmptyNamespace(name, kind))
    else match ParseNodeType(kind)
      case None => Ok(None)
      case Some(t) =>
        if !Queryable(t) then Ok(None)
        else match Get(store, ObjKey(kind, namespace, name))
          case Err(e) => if IsNotFound(e) then Ok(None) else Err(StoreFailure(e))
          case Ok(obj) =>
            CopyLabelsIsIdentity(obj.labels);
            Ok(Some(DiscoveryNode(name, kind, CopyLabels(obj.labels), [])))
  }

  /** getOwnerNode: no node without owners; otherwise queryForNode on the
      selected owner: an error for an empty name or namespace, no node for
      a kind it cannot fetch or an owner that is not stored, the store's
      error for an unreadable owner, and else the owner's node with its
      stored labels. */
  function OwnerNode(store: Store, owners: seq<OwnerRef>, namespace: string)
    : (r: Result<Option<DiscoveryNode>, HierarchyError>)
    ensures owners == [] ==> r == Ok(None)
    ensures r.Ok? && r.value.Some? ==>
              SelectedOwnerKey(owners, namespace) == Some(ObjKey(r.value.value.nodeType, namespace, r.value.value.name))
    ensures owners != [] ==>
              var k := SelectedOwnerKey(owners, namespace).value;
              && (k.name == "" ==> r == Err(EmptyResourceName(k.kind, namespace)))
              && (k.name != "" && namespace == "" ==> r == Err(EmptyNamespace(k.name, k.kind)))
              && (k.name != "" && namespace != "" ==>
                    && (r == Ok(None) <==> !QueryableKind(k.kind) || k !in store)
                    && (QueryableKind(k.kind) && k in store && store[k].Stored? ==>
                          r == Ok(Some(DiscoveryNode(k.name, k.kind, store[k].obj.labels, []))))
                    && (QueryableKind(k.kind) && k in store && store[k].Unreadable? ==>
                          r == Err(StoreFailure(OtherError(store[k].reason)))))
  {
    match SelectedOwner(owners)
    case None => Ok(None)
    case Some(i) => QueryForNode(store, namespace, owners[i].name, owners[i].kind)
  }

  method GetOwnerNode(store: Store, owners: seq<OwnerRef>, namespace: string)
    returns (r: Result<Option<DiscoveryNode>, HierarchyError>)
    ensures owners == [] ==> r == Ok(None)
    ensures r == OwnerNode(store, owners, namespace)
  {
    if |owners| == 0 {
      return Ok(None);
    }
    var sel := SelectOwner(owners);
    var owner := owners[sel.value];
    r := QueryForNode(store, namespace, owner.name, owner.kind);
  }

  // ---------------------------------------------------------------------
  // The owner walk (the `for {}` loop of buildDiscoveryHierarchy)
  // ---------------------------------------------------------------------

  /** The kinds the walk re-fetches in order to continue from them. */
  predicate Refetchable(t: KubeNodeType) {
    match t
    case Deployment | StatefulSet | DaemonSet | ReplicaSet | ReplicationController
       | Endpoint | EndpointSlice => true
    case Namespace | Pod | DeploymentConfig => false
  }

  /** The walk terminates only on an acyclic ownership chain; `rank` ranks
      the objects of the namespace so that the owner each object leads to,
      when stored and of a kind the walk goes on from, ranks strictly lower. */
  ghost predicate Ranked(store: Store, rank: map<ObjKey, nat>, namespace: string) {
    forall k :: k in store && k.namespace == namespace && store[k].Stored? ==>
      && k in rank
      && var next := SelectedOwnerKey(store[k].obj.ownerRefs, namespace);
         (&& next.Some? && next.value in store && store[next.value].Stored?
          && ParseNodeType(next.value.kind).Some? && Refetchable(ParseNodeType(next.value.kind).value) ==>
            next.value in rank && rank[next.value] < rank[k])
  }

  /** `owners` are the owner references of the object stored at `cur`
      (None stands for the Pod being admitted, which is not stored yet). */
  ghost predicate AtKey(store: Store, namespace: string, owners: seq<OwnerRef>, cur: Option<ObjKey>) {
    cur.Some? ==>
      && cur.value.namespace == namespace
      && cur.value in store && store[cur.value].Stored?
      && store[cur.value].obj.ownerRefs == owners
  }

  /** The owner nodes found walking up from an object with `owners`, nearest
      first; stops at an object without owners, at an owner that cannot be
      fetched or is gone, and after an owner of a kind it does not re-fetch. */
  function WalkOwners(store: Store, ghost rank: map<ObjKey, nat>, namespace: string,
                      owners: seq<OwnerRef>, ghost cur: Option<ObjKey>)
    : (r: Result<seq<DiscoveryNode>, HierarchyError>)
    requires Ranked(store, rank, namespace) && AtKey(store, namespace, owners, cur)
    decreases if cur.None? then 1 else 0, if cur.Some? then rank[cur.value] else 0
  {
    match OwnerNode(store, owners, namespace)
    case Err(e) => Err(e)
    case Ok(None) => Ok([])
    case Ok(Some(node)) =>
      var t := ParseNodeType(node.nodeType);
      if t.None? || !Refetchable(t.value) then Ok([node])
      else
        var key := ObjKey(node.nodeType, namespace, node.name);
        match Get(store, key)
        case Err(e) => if IsNotFound(e) then Ok([node]) else Err(StoreFailure(e))
        case Ok(next) =>
          match WalkOwners(store, rank, namespace, next.ownerRefs, Some(key))
          case Err(e) => Err(e)
          case Ok(rest) => Ok([node] + rest)
  }

  /** `pre` put in front of a successful walk's nodes. */
  function Prepend(pre: seq<DiscoveryNode>, r: Result<seq<DiscoveryNode>, HierarchyError>)
    : Result<seq<DiscoveryNode>, HierarchyError>
  {
    match r
    case Err(e) => Err(e)
    case Ok(s) => Ok(pre + s)
  }

  /** Every node of a successful walk is a childless node of a fetchable
      kind carrying exactly the labels of the object stored under its key;
      the first is the owner the starting object leads to and each next one
      the owner its predecessor's stored object leads to. */
  ghost predicate ChainFromStore(store: Store, namespace: string, owners: seq<OwnerRef>, nodes: seq<DiscoveryNode>) {
    && (forall k :: 0 <= k < |nodes| ==>
          && nodes[k].children == []
          && QueryableKind(nodes[k].nodeType)
          && Get(store, NodeKey(nodes[k], namespace)).Ok?
          && nodes[k].labels == Get(store, NodeKey(nodes[k], namespace)).value.labels)
    && (|nodes| > 0 ==> SelectedOwnerKey(owners, namespace) == Some(NodeKey(nodes[0], namespace)))
    && (forall k :: 0 <= k < |nodes| - 1 ==>
          && Refetchable(ParseNodeType(nodes[k].nodeType).value)
          && SelectedOwnerKey(Get(store, NodeKey(nodes[k], namespace)).value.ownerRefs, namespace)
               == Some(NodeKey(nodes[k + 1], namespace)))
  }

  /** The walk cannot go on after `last`: it is of a kind the walk does not
      re-fetch, or the owners of its stored object lead to no node (none
      at all, an unfetchable kind, or an owner that is not stored). */
  ghost predicate StopsAfter(store: Store, namespace: string, last: DiscoveryNode) {
    var t := ParseNodeType(last.nodeType);
    && t.Some?
    && (!Refetchable(t.value) ||
        (Get(store, NodeKey(last, namespace)).Ok? &&
         OwnerNode(store, Get(store, NodeKey(last, namespace)).value.ownerRefs, namespace) == Ok(None)))
  }

  /** A chain that goes as far as it can: empty exactly when the starting
      owners lead to no node, and otherwise ending where the walk must stop. */
  ghost predicate Maximal(store: Store, namespace: string, owners: seq<OwnerRef>, nodes: seq<DiscoveryNode>) {
    && (nodes == [] <==> OwnerNode(store, owners, namespace) == Ok(None))
    && (nodes != [] ==> StopsAfter(store, namespace, nodes[|nodes| - 1]))
  }

  function NodeKey(n: DiscoveryNode, namespace: string): ObjKey {
    ObjKey(n.nodeType, namespace, n.name)
  }

  /** Every node has a name, and there is a namespace to look them up in. */
  ghost predicate Named(namespace: string, nodes: seq<DiscoveryNode>) {
    && (nodes != [] ==> namespace != "")
    && forall k :: 0 <= k < |nodes| ==> nodes[k].name != ""
  }

  /** Every node of a successful walk is named, and follows the store. */
  lemma {:induction false} WalkFollowsStore(store: Store, rank: map<ObjKey, nat>, namespace: string,
                                            owners: seq<OwnerRef>, cur: Option<ObjKey>)
    requires Ranked(store, rank, namespace) && AtKey(store, namespace, owners, cur)
    requires WalkOwners(store, rank, namespace, owners, cur).Ok?
    ensures ChainFromStore(store, namespace, owners, WalkOwners(store, rank, namespace, owners, cur).value)
    ensures Named(namespace, WalkOwners(store, rank, namespace, owners, cur).value)
    decreases if cur.None? then 1 else 0, if cur.Some? then rank[cur.value] else 0
  {
    WalkStep(store, rank, namespace, owners, cur);
    var nodes := WalkOwners(store, rank, namespace, owners, cur).value;
    match OwnerNode(store, owners, namespace)
    case Ok(None) =>
    case Ok(Some(node)) =>
      var t := ParseNodeType(node.nodeType);
      var key := NodeKey(node, namespace);
      if t.Some? && Refetchable(t.value) {
        var next := Get(store, key).value;
        WalkFollowsStore(store, rank, namespace, next.ownerRefs, Some(key));
        var rest := WalkOwners(store, rank, namespace, next.ownerRefs, Some(key)).value;
        assert nodes == [node] + rest;
        ChainCons(store, namespace, owners, node, rest);
      } else {
        assert nodes == [node];
      }
  }

  /** A stored, named owner node in front of a named chain from its stored
      object's owners gives a named chain from the owners that select it. */
  lemma ChainCons(store: Store, namespace: string, owners: seq<OwnerRef>,
                  node: DiscoveryNode, rest: seq<DiscoveryNode>)
    requires node.children == [] && QueryableKind(node.nodeType) && node.name != "" && namespace != ""
    requires Get(store, NodeKey(node, namespace)).Ok?
    requires node.labels == Get(store, NodeKey(node, namespace)).value.labels
    requires SelectedOwnerKey(owners, namespace) == Some(NodeKey(node, namespace))
    requires rest != [] ==> Refetchable(ParseNodeType(node.nodeType).value)
    requires ChainFromStore(store, namespace, Get(store, NodeKey(node, namespace)).value.ownerRefs, rest)
    requires Named(namespace, rest)
    ensures ChainFromStore(store, namespace, owners, [node] + rest)
    ensures Named(namespace, [node] + rest)
  {
    var nodes := [node] + rest;
    forall k | 0 <= k < |nodes| - 1
      ensures && Refetchable(ParseNodeType(nodes[k].nodeType).value)
              && SelectedOwnerKey(Get(store, NodeKey(nodes[k], namespace)).value.ownerRefs, namespace)
                   == Some(NodeKey(nodes[k + 1], namespace))
    {
      if k > 0 {
        assert nodes[k] == rest[k - 1] && nodes[k + 1] == rest[k];
      }
    }
  }

  /** A successful walk goes on until it must stop: it ends only where
      the owners lead to no node or at a kind it does not re-fetch. */
  lemma {:induction false} WalkReachesEnd(store: Store, rank: map<ObjKey, nat>, namespace: string,
                                          owners: seq<OwnerRef>, cur: Option<ObjKey>)
    requires Ranked(store, rank, namespace) && AtKey(store, namespace, owners, cur)
    requires WalkOwners(store, rank, namespace, owners, cur).Ok?
    ensures Maximal(store, namespace, owners, WalkOwners(store, rank, namespace, owners, cur).value)
    decreases if cur.None? then 1 else 0, if cur.Some? then rank[cur.value] else 0
  {
    WalkStep(store, rank, namespace, owners, cur);
    var nodes := WalkOwners(store, rank, namespace, owners, cur).value;
    match OwnerNode(store, owners, namespace)
    case Ok(None) =>
    case Ok(Some(node)) =>
      var t := ParseNodeType(node.nodeType);
      var key := NodeKey(node, namespace);
      if t.Some? && Refetchable(t.value) {
        var next := Get(store, key).value;
        WalkReachesEnd(store, rank, namespace, next.ownerRefs, Some(key));
        var rest := WalkOwners(store, rank, namespace, next.ownerRefs, Some(key)).value;
        MaximalCons(store, namespace, owners, node, rest);
        assert nodes == [node] + rest;
      }
  }

  /** An owner node of a re-fetched kind in front of a chain that goes as
      far as it can from the owner's stored owners goes as far as it can. */
  lemma MaximalCons(store: Store, namespace: string, owners: seq<OwnerRef>,
                    node: DiscoveryNode, rest: seq<DiscoveryNode>)
    requires OwnerNode(store, owners, namespace) == Ok(Some(node))
    requires ParseNodeType(node.nodeType).Some? && Refetchable(ParseNodeType(node.nodeType).value)
    requires Get(store, NodeKey(node, namespace)).Ok?
    requires Maximal(store, namespace, Get(store, NodeKey(node, namespace)).value.ownerRefs, rest)
    ensures Maximal(store, namespace, owners, [node] + rest)
  {
    var nodes := [node] + rest;
    if rest != [] {
      assert nodes[|nodes| - 1] == rest[|rest| - 1];
    }
  }

  /** The walk's chain is the only one the store allows: any chain that
      follows the stored owners and goes as far as it can is exactly the
      chain the walk returns. */
  lemma WalkIsTheChain(store: Store, rank: map<ObjKey, nat>, namespace: string,
                       owners: seq<OwnerRef>, cur: Option<ObjKey>, nodes: seq<DiscoveryNode>)
    requires Ranked(store, rank, namespace) && AtKey(store, namespace, owners, cur)
    requires WalkOwners(store, rank, namespace, owners, cur).Ok?
    requires ChainFromStore(store, namespace, owners, nodes) && Maximal(store, namespace, owners, nodes)
    ensures nodes == WalkOwners(store, rank, namespace, owners, cur).value
  {
    WalkFollowsStore(store, rank, namespace, owners, cur);
    WalkReachesEnd(store, rank, namespace, owners, cur);
    ChainUnique(store, namespace, owners, nodes, WalkOwners(store, rank, namespace, owners, cur).value);
  }

  /** The other direction: a named chain that follows the stored owners
      and goes as far as it can makes the walk succeed, with that chain. */
  lemma {:induction false} ChainIsTheWalk(store: Store, rank: map<ObjKey, nat>, namespace: string,
                                          owners: seq<OwnerRef>, cur: Option<ObjKey>, nodes: seq<DiscoveryNode>)
    requires Ranked(store, rank, namespace) && AtKey(store, namespace, owners, cur)
    requires ChainFromStore(store, namespace, owners, nodes) && Maximal(store, namespace, owners, nodes)
    requires Named(namespace, nodes)
    ensures WalkOwners(store, rank, namespace, owners, cur) == Ok(nodes)
    decreases if cur.None? then 1 else 0, if cur.Some? then rank[cur.value] else 0
  {
    if nodes == [] {
      return;
    }
    ChainStep(store, rank, namespace, owners, cur, nodes);
    if |nodes| > 1 || Refetchable(ParseNodeType(nodes[0].nodeType).value) {
      var key := NodeKey(nodes[0], namespace);
      ChainIsTheWalk(store, rank, namespace, Get(store, key).value.ownerRefs, Some(key), nodes[1..]);
      assert nodes == [nodes[0]] + nodes[1..];
    }
  }

  /** One step of ChainIsTheWalk: the walk's first node is the chain's;
      it is the last one when of a kind the walk does not re-fetch, and
      otherwise the rest of the chain is one from its stored owners. */
  lemma ChainStep(store: Store, rank: map<ObjKey, nat>, namespace: string,
                  owners: seq<OwnerRef>, cur: Option<ObjKey>, nodes: seq<DiscoveryNode>)
    requires Ranked(store, rank, namespace) && AtKey(store, namespace, owners, cur)
    requires ChainFromStore(store, namespace, owners, nodes) && Maximal(store, namespace, owners, nodes)
    requires Named(namespace, nodes) && nodes != []
    ensures ParseNodeType(nodes[0].nodeType).Some?
    ensures !Refetchable(ParseNodeType(nodes[0].nodeType).value) ==>
              nodes == [nodes[0]] && WalkOwners(store, rank, namespace, owners, cur) == Ok(nodes)
    ensures Refetchable(ParseNodeType(nodes[0].nodeType).value) ==>
              var key := NodeKey(nodes[0], namespace);
              && Get(store, key).Ok?
              && var next := Get(store, key).value.ownerRefs;
              && AtKey(store, namespace, next, Some(key))
              && key in rank && (cur.Some? ==> rank[key] < rank[cur.value])
              && ChainFromStore(store, namespace, next, nodes[1..])
              && Maximal(store, namespace, next, nodes[1..])
              && Named(namespace, nodes[1..])
              && WalkOwners(store, rank, namespace, owners, cur)
                   == Prepend([nodes[0]], WalkOwners(store, rank, namespace, next, Some(key)))
  {
    ChainHead(store, namespace, owners, nodes);
    WalkStep(store, rank, namespace, owners, cur);
    if Refetchable(ParseNodeType(nodes[0].nodeType).value) {
      ChainRest(store, namespace, owners, nodes);
    }
  }

  /** A named chain from the store starts with the owner node its owners lead to. */
  lemma ChainHead(store: Store, namespace: string, owners: seq<OwnerRef>, nodes: seq<DiscoveryNode>)
    requires ChainFromStore(store, namespace, owners, nodes) && Named(namespace, nodes) && nodes != []
    ensures OwnerNode(store, owners, namespace) == Ok(Some(nodes[0]))
    ensures ParseNodeType(nodes[0].nodeType).Some?
    ensures !Refetchable(ParseNodeType(nodes[0].nodeType).value) ==> |nodes| == 1
  {
  }

  /** Past a first node of a re-fetched kind, the rest of a maximal named
      chain is a maximal named chain from that node's stored owners. */
  lemma ChainRest(store: Store, namespace: string, owners: seq<OwnerRef>, nodes: seq<DiscoveryNode>)
    requires ChainFromStore(store, namespace, owners, nodes) && Maximal(store, namespace, owners, nodes)
    requires Named(namespace, nodes) && nodes != []
    requires Refetchable(ParseNodeType(nodes[0].nodeType).value)
    ensures var next := Get(store, NodeKey(nodes[0], namespace)).value.ownerRefs;
            && ChainFromStore(store, namespace, next, nodes[1..])
            && Maximal(store, namespace, next, nodes[1..])
            && Named(namespace, nodes[1..])
  {
    var next := Get(store, NodeKey(nodes[0], namespace)).value.ownerRefs;
    var rest := nodes[1..];
    if rest != [] {
      ChainTail(store, namespace, owners, nodes);
      StoredOwnerFound(store, namespace, next, rest[0]);
      assert rest[|rest| - 1] == nodes[|nodes| - 1];
    }
  }

  /** Two chains that follow the stored owners from the same owners and go
      as far as they can are equal. */
  lemma {:induction false} ChainUnique(store: Store, namespace: string, owners: seq<OwnerRef>,
                                       a: seq<DiscoveryNode>, b: seq<DiscoveryNode>)
    requires ChainFromStore(store, namespace, owners, a) && Maximal(store, namespace, owners, a)
    requires ChainFromStore(store, namespace, owners, b) && Maximal(store, namespace, owners, b)
    ensures a == b
    decreases |a|
  {
    if a == [] || b == [] {
      // Maximal makes each empty exactly when the owners lead to no node.
      return;
    }
    assert a[0] == b[0];
    var next := Get(store, NodeKey(a[0], namespace)).value.ownerRefs;
    if |a| == 1 && |b| == 1 {
      return;
    }
    if |a| == 1 || |b| == 1 {
      var longer := if |a| == 1 then b else a;
      StoredOwnerFound(store, namespace, next, longer[1]);
      assert false;
    }
    ChainTail(store, namespace, owners, a);
    ChainTail(store, namespace, owners, b);
    StoredOwnerFound(store, namespace, next, a[1]);
    assert a[1..][|a[1..]| - 1] == a[|a| - 1];
    assert b[1..][|b[1..]| - 1] == b[|b| - 1];
    ChainUnique(store, namespace, next, a[1..], b[1..]);
    assert a == [a[0]] + a[1..] && b == [b[0]] + b[1..];
  }

  /** Owners whose selected owner is stored and of a fetchable kind do lead
      to a node (or to an error), never to none. */
  lemma StoredOwnerFound(store: Store, namespace: string, owners: seq<OwnerRef>, n: DiscoveryNode)
    requires SelectedOwnerKey(owners, namespace) == Some(NodeKey(n, namespace))
    requires QueryableKind(n.nodeType) && Get(store, NodeKey(n, namespace)).Ok?
    ensures OwnerNode(store, owners, namespace) != Ok(None)
  {
  }

  /** A chain with more than one node continues, from its second node on,
      as a chain from its first node's stored owners. */
  lemma ChainTail(store: Store, namespace: string, owners: seq<OwnerRef>, nodes: seq<DiscoveryNode>)
    requires ChainFromStore(store, namespace, owners, nodes) && |nodes| > 1
    ensures ChainFromStore(store, namespace, Get(store, NodeKey(nodes[0], namespace)).value.ownerRefs, nodes[1..])
  {
    var tail := nodes[1..];
    forall k | 0 <= k < |tail| - 1
      ensures && Refetchable(ParseNodeType(tail[k].nodeType).value)
              && SelectedOwnerKey(Get(store, NodeKey(tail[k], namespace)).value.ownerRefs, namespace)
                   == Some(NodeKey(tail[k + 1], namespace))
    {
      assert tail[k] == nodes[k + 1] && tail[k + 1] == nodes[k + 2];
    }
  }

  // ---------------------------------------------------------------------
  // Tree construction
  // ---------------------------------------------------------------------

  /** The characters trimmed off the end of the Pod identifier. */
  const PodNameCutset: set<char> := {'-', '_', '.'}

  /** The Pod's name, else its generateName, without trailing `-`, `_`, `.`. */
  function PodIdentifier(pod: PodObject): (id: string)
    ensures id <= (if pod.name != "" then pod.name else pod.generateName)
    ensures id == [] || id[|id| - 1] !in PodNameCutset
    ensures var src := if pod.name != "" then pod.name else pod.generateName;
            forall i :: |id| <= i < |src| ==> src[i] in PodNameCutset
  {
    TrimRight(if pod.name != "" then pod.name else pod.generateName, PodNameCutset)
  }

  /** The Pod's own leaf node: the Pod identifier, the Pod tag, the Pod's
      labels and no children. */
  function PodNode(pod: PodObject): (n: DiscoveryNode)
    ensures n.name == PodIdentifier(pod) && n.nodeType == "Pod"
    ensures n.labels == pod.labels && n.children == []
  {
    CopyLabelsIsIdentity(pod.labels);
    DiscoveryNode(PodIdentifier(pod), Tag(Pod), CopyLabels(pod.labels), [])
  }

  function NamespaceKey(namespace: string): ObjKey {
    ObjKey(Tag(Namespace), "", namespace)
  }

  /** `child` appended to the children of `parent`. */
  function Attach(parent: DiscoveryNode, child: DiscoveryNode): DiscoveryNode {
    parent.(children := parent.children + [child])
  }

  /** nodes[0] with nodes[1] attached, that with nodes[2] attached, and so on. */
  function Path(nodes: seq<DiscoveryNode>): (t: DiscoveryNode)
    requires |nodes| > 0
    ensures t.name == nodes[0].name && t.nodeType == nodes[0].nodeType && t.labels == nodes[0].labels
    ensures |t.children| == |nodes[0].children| + (if |nodes| == 1 then 0 else 1)
    ensures t.children[..|nodes[0].children|] == nodes[0].children
    decreases |nodes|
  {
    if |nodes| == 1 then nodes[0] else Attach(nodes[0], Path(nodes[1..]))
  }

  function Reverse<T>(s: seq<T>): (r: seq<T>)
    ensures |r| == |s|
    ensures forall i :: 0 <= i < |s| ==> r[i] == s[|s| - 1 - i]
  {
    if s == [] then [] else [s[|s| - 1]] + Reverse(s[..|s| - 1])
  }

  /** The tree buildDiscoveryHierarchy returns: an error when the Pod
      identifier or namespace is empty, when the walk fails, or when the
      Namespace cannot be read; otherwise the Namespace node with the
      reversed chain (owners farthest first, the Pod last) nested under it. */
  function Hierarchy(store: Store, ghost rank: map<ObjKey, nat>, pod: PodObject)
    : (r: Result<DiscoveryNode, HierarchyError>)
    requires Ranked(store, rank, pod.namespace)
    ensures PodIdentifier(pod) == "" ==> r == Err(EmptyPodName)
    ensures PodIdentifier(pod) != "" && pod.namespace == "" ==> r == Err(EmptyPodNamespace(PodIdentifier(pod)))
    ensures r.Ok? ==>
              && Get(store, NamespaceKey(pod.namespace)).Ok?
              && r.value.name == pod.namespace
              && r.value.nodeType == Tag(Namespace)
              && r.value.labels == Get(store, NamespaceKey(pod.namespace)).value.labels
    ensures Get(store, NamespaceKey(pod.namespace)).Err? ==> r.Err?
    ensures pod.namespace != "" ==>
              (r.Ok? <==> && PodIdentifier(pod) != ""
                          && WalkOwners(store, rank, pod.namespace, pod.ownerRefs, None).Ok?
                          && Get(store, NamespaceKey(pod.namespace)).Ok?)
    ensures PodIdentifier(pod) != "" && pod.namespace != "" ==>
              var walk := WalkOwners(store, rank, pod.namespace, pod.ownerRefs, None);
              && (walk.Err? ==> r == Err(walk.error))
              && (walk.Ok? && Get(store, NamespaceKey(pod.namespace)).Err? ==>
                    r == Err(StoreFailure(Get(store, NamespaceKey(pod.namespace)).error)))
  {
    var podName := PodIdentifier(pod);
    if podName == "" then Err(EmptyPodName)
    else if pod.namespace == "" then Err(EmptyPodNamespace(podName))
    else match WalkOwners(store, rank, pod.namespace, pod.ownerRefs, None)
      case Err(e) => Err(e)
      case Ok(owners) =>
        match Get(store, NamespaceKey(pod.namespace))
        case Err(e) => Err(StoreFailure(e))
        case Ok(ns) =>
          CopyLabelsIsIdentity(ns.labels);
          var root := DiscoveryNode(pod.namespace, Tag(Namespace), CopyLabels(ns.labels), []);
          Ok(Path([root] + Reverse([PodNode(pod)] + owners)))
  }

  /** One step of the walk: an error or no owner node ends it; an owner
      node of a kind the walk does not re-fetch is its last node; past one
      it does re-fetch, the owner is stored, ranks below the object it was
      reached from, and the walk goes on from its stored owners. */
  lemma WalkStep(store: Store, rank: map<ObjKey, nat>, namespace: string,
                 owners: seq<OwnerRef>, cur: Option<ObjKey>)
    requires Ranked(store, rank, namespace) && AtKey(store, namespace, owners, cur)
    ensures OwnerNode(store, owners, namespace).Err? ==>
              WalkOwners(store, rank, namespace, owners, cur) == Err(OwnerNode(store, owners, namespace).error)
    ensures OwnerNode(store, owners, namespace) == Ok(None) ==>
              WalkOwners(store, rank, namespace, owners, cur) == Ok([])
    ensures OwnerNode(store, owners, namespace).Ok? && OwnerNode(store, owners, namespace).value.Some? ==>
              var node := OwnerNode(store, owners, namespace).value.value;
              var t := ParseNodeType(node.nodeType);
              var key := NodeKey(node, namespace);
              && (t.None? || !Refetchable(t.value) ==> WalkOwners(store, rank, namespace, owners, cur) == Ok([node]))
              && (t.Some? && Refetchable(t.value) ==>
                    && Get(store, key).Ok?
                    && AtKey(store, namespace, Get(store, key).value.ownerRefs, Some(key))
                    && key in rank && (cur.Some? ==> rank[key] < rank[cur.value])
                    && WalkOwners(store, rank, namespace, owners, cur)
                         == Prepend([node], WalkOwners(store, rank, namespace, Get(store, key).value.ownerRefs, Some(key))))
  {
  }

  lemma PrependTwice(a: seq<DiscoveryNode>, b: seq<DiscoveryNode>, r: Result<seq<DiscoveryNode>, HierarchyError>)
    ensures Prepend(a, Prepend(b, r)) == Prepend(a + b, r)
  {
    if r.Ok? {
      assert a + (b + r.value) == (a + b) + r.value;
    }
  }

  /** The tree built when every step succeeds: the Namespace node with
      its stored labels, the walk's owners farthest first, then the Pod. */
  lemma HierarchyOfParts(store: Store, rank: map<ObjKey, nat>, pod: PodObject,
                         owners: seq<DiscoveryNode>, ns: KubeObject)
    requires Ranked(store, rank, pod.namespace)
    requires PodIdentifier(pod) != "" && pod.namespace != ""
    requires WalkOwners(store, rank, pod.namespace, pod.ownerRefs, None) == Ok(owners)
    requires Get(store, NamespaceKey(pod.namespace)) == Ok(ns)
    ensures Hierarchy(store, rank, pod) ==
              Ok(Path([DiscoveryNode(pod.namespace, Tag(Namespace), ns.labels, [])] + Reverse([PodNode(pod)] + owners)))
  {
    CopyLabelsIsIdentity(ns.labels);
  }

  /** The owner-chasing loop of buildDiscoveryHierarchy: starting from the
      Pod's own node, append the node of each owner found, moving up to the
      re-fetched owner until there is none to follow. */
  method ChaseOwners(store: Store, ghost rank: map<ObjKey, nat>, pod: PodObject, podNode: DiscoveryNode)
    returns (r: Result<seq<DiscoveryNode>, HierarchyError>)
    requires Ranked(store, rank, pod.namespace)
    ensures r == Prepend([podNode], WalkOwners(store, rank, pod.namespace, pod.ownerRefs, None))
  {
    var chain := [podNode];
    ghost var walk := Prepend([podNode], WalkOwners(store, rank, pod.namespace, pod.ownerRefs, None));
    var current := pod.ownerRefs;
    ghost var cur: Option<ObjKey> := None;
    while true
      invariant AtKey(store, pod.namespace, current, cur)
      invariant walk == Prepend(chain, WalkOwners(store, rank, pod.namespace, current, cur))
      decreases if cur.None? then 1 else 0, if cur.Some? then rank[cur.value] else 0
    {
      var ownerNode := GetOwnerNode(store, current, pod.namespace);
      WalkStep(store, rank, pod.namespace, current, cur);
      if ownerNode.Err? {
        return Err(ownerNode.error);
      }
      if ownerNode.value.None? {
        assert chain + [] == chain;
        break;
      }
      var node := ownerNode.value.value;
      ghost var before := chain;
      chain := chain + [node];
      var t := ParseNodeType(node.nodeType);
      if t.None? || !Refetchable(t.value) {
        break;
      }
      var key := ObjKey(node.nodeType, pod.namespace, node.name);
      var next := Get(store, key);
      if next.Err? {
        // The Go code stops here when the owner has gone since queryForNode
        // read it, and fails on any other read error. Neither can happen in
        // a store that does not change during a build: queryForNode read
        // this very key successfully.
        assert false;
      }
      PrependTwice(before, [node], WalkOwners(store, rank, pod.namespace, next.value.ownerRefs, Some(key)));
      current := next.value.ownerRefs;
      cur := Some(key);
    }
    r := Ok(chain);
  }

  /** The nesting loop of buildDiscoveryHierarchy: the chain, Pod first,
      hung below `root` farthest owner first, one child per level. */
  method NestChain(root: DiscoveryNode, chain: seq<DiscoveryNode>) returns (tree: DiscoveryNode)
    ensures tree == Path([root] + Reverse(chain))
  {
    if |chain| == 0 {
      assert [root] + Reverse(chain) == [root];
      return root;
    }
    // Built bottom-up: the Pod first, then each owner around it.
    var sub := chain[0];
    var i := 1;
    while i < |chain|
      invariant 1 <= i <= |chain|
      invariant sub == Path(Reverse(chain[..i]))
    {
      assert chain[..i + 1][..i] == chain[..i];
      assert Reverse(chain[..i + 1]) == [chain[i]] + Reverse(chain[..i]);
      sub := Attach(chain[i], sub);
      i := i + 1;
    }
    assert chain[..i] == chain;
    assert ([root] + Reverse(chain))[1..] == Reverse(chain);
    tree := Attach(root, sub);
  }

  /** buildDiscoveryHierarchy. */
  method BuildDiscoveryHierarchy(store: Store, ghost rank: map<ObjKey, nat>, pod: PodObject)
    returns (r: Result<DiscoveryNode, HierarchyError>)
    requires Ranked(store, rank, pod.namespace)
    ensures r == Hierarchy(store, rank, pod)
  {
    var podName := if pod.name != "" then pod.name else pod.generateName;
    podName := TrimRight(podName, PodNameCutset);
    if podName == "" {
      return Err(EmptyPodName);
    }
    if pod.namespace == "" {
      return Err(EmptyPodNamespace(podName));
    }

    var podNode := DiscoveryNode(podName, Tag(Pod), CopyLabels(pod.labels), []);
    var chain := ChaseOwners(store, rank, pod, podNode);
    if chain.Err? {
      return Err(chain.error);
    }

    var namespace := Get(store, NamespaceKey(pod.namespace));
    if namespace.Err? {
      return Err(StoreFailure(namespace.error));
    }
    var root := DiscoveryNode(pod.namespace, Tag(Namespace), CopyLabels(namespace.value.labels), []);
    var tree := NestChain(root, chain.value);
    CopyLabelsIsIdentity(namespace.value.labels);
    r := Ok(tree);
  }

  // ---------------------------------------------------------------------
  // Shape of the tree
  // ---------------------------------------------------------------------

  /** Every node has at most one child. */
  predicate SinglePath(t: DiscoveryNode)
    decreases t
  {
    |t.children| <= 1 && (|t.children| == 1 ==> SinglePath(t.children[0]))
  }

  /** The nodes met following first children from `t`, each without children. */
  function Spine(t: DiscoveryNode): (s: seq<DiscoveryNode>)
    ensures |s| >= 1
    decreases t
  {
    [t.(children := [])] + (if |t.children| >= 1 then Spine(t.children[0]) else [])
  }

  /** The node reached following first children until there are none. */
  function Leaf(t: DiscoveryNode): DiscoveryNode
    decreases t
  {
    if |t.children| == 0 then t else Leaf(t.children[0])
  }

  /** Nesting childless nodes gives a single path that reads back as the
      nodes themselves, ending at the last of them. */
  lemma {:induction false} PathShape(nodes: seq<DiscoveryNode>)
    requires |nodes| > 0
    requires forall k :: 0 <= k < |nodes| ==> nodes[k].children == []
    ensures SinglePath(Path(nodes))
    ensures Spine(Path(nodes)) == nodes
    ensures Leaf(Path(nodes)) == nodes[|nodes| - 1]
    decreases |nodes|
  {
    if |nodes| > 1 {
      PathShape(nodes[1..]);
      assert Path(nodes).children == [Path(nodes[1..])];
      assert Path(nodes).(children := []) == nodes[0];
      assert nodes == [nodes[0]] + nodes[1..];
    }
  }

  lemma ReverseCons<T>(x: T, s: seq<T>)
    ensures Reverse([x] + s) == Reverse(s) + [x]
  {
  }

  /** A built tree is a single path: the Namespace, then the owners found
      farthest first, then the Pod's childless leaf. The owners are the
      selected-owner chain of the Pod, each carrying its own stored labels. */
  lemma HierarchyShape(store: Store, rank: map<ObjKey, nat>, pod: PodObject)
    requires Ranked(store, rank, pod.namespace)
    requires Hierarchy(store, rank, pod).Ok?
    ensures WalkOwners(store, rank, pod.namespace, pod.ownerRefs, None).Ok?
    ensures var root := Hierarchy(store, rank, pod).value;
            var owners := WalkOwners(store, rank, pod.namespace, pod.ownerRefs, None).value;
            && SinglePath(root)
            && Spine(root) == [root.(children := [])] + Reverse(owners) + [PodNode(pod)]
            && |Spine(root)| == |owners| + 2
            && Leaf(root) == PodNode(pod)
            && Leaf(root).children == []
            && ChainFromStore(store, pod.namespace, pod.ownerRefs, owners)
            && Maximal(store, pod.namespace, pod.ownerRefs, owners)
  {
    var root := Hierarchy(store, rank, pod).value;
    var owners := WalkOwners(store, rank, pod.namespace, pod.ownerRefs, None).value;
    WalkFollowsStore(store, rank, pod.namespace, pod.ownerRefs, None);
    WalkReachesEnd(store, rank, pod.namespace, pod.ownerRefs, None);
    var nodes := HierarchyNesting(store, rank, pod);
    PathShape(nodes);
  }

  /** The nodes a built tree nests: the Namespace, the owners farthest
      first, and the Pod, all childless. */
  lemma HierarchyNesting(store: Store, rank: map<ObjKey, nat>, pod: PodObject) returns (nodes: seq<DiscoveryNode>)
    requires Ranked(store, rank, pod.namespace)
    requires Hierarchy(store, rank, pod).Ok?
    ensures WalkOwners(store, rank, pod.namespace, pod.ownerRefs, None).Ok?
    ensures var owners := WalkOwners(store, rank, pod.namespace, pod.ownerRefs, None).value;
            && |nodes| > 0
            && Hierarchy(store, rank, pod).value == Path(nodes)
            && nodes == [Path(nodes).(children := [])] + Reverse(owners) + [PodNode(pod)]
            && forall k :: 0 <= k < |nodes| ==> nodes[k].children == []
  {
    var owners := WalkOwners(store, rank, pod.namespace, pod.ownerRefs, None).value;
    WalkChildless(store, rank, pod.namespace, pod.ownerRefs);
    var top := HierarchyTop(store, rank, pod);
    ReverseCons(PodNode(pod), owners);
    nodes := [top] + (Reverse(owners) + [PodNode(pod)]);
    assert Path(nodes).(children := []) == top;
    ChildlessNodes(top, owners, PodNode(pod));
  }

  lemma ChildlessNodes(top: DiscoveryNode, owners: seq<DiscoveryNode>, leaf: DiscoveryNode)
    requires top.children == [] && leaf.children == []
    requires forall k :: 0 <= k < |owners| ==> owners[k].children == []
    ensures var nodes := [top] + (Reverse(owners) + [leaf]);
            forall k :: 0 <= k < |nodes| ==> nodes[k].children == []
  {
    var nodes := [top] + (Reverse(owners) + [leaf]);
    forall k | 0 <= k < |nodes|
      ensures nodes[k].children == []
    {
      if 1 <= k <= |owners| {
        assert nodes[k] == owners[|owners| - k];
      }
    }
  }

  lemma WalkChildless(store: Store, rank: map<ObjKey, nat>, namespace: string, owners: seq<OwnerRef>)
    requires Ranked(store, rank, namespace)
    requires WalkOwners(store, rank, namespace, owners, None).Ok?
    ensures var nodes := WalkOwners(store, rank, namespace, owners, None).value;
            forall k :: 0 <= k < |nodes| ==> nodes[k].children == []
  {
    WalkFollowsStore(store, rank, namespace, owners, None);
  }

  /** The root a built tree starts from: the childless Namespace node. */
  lemma HierarchyTop(store: Store, rank: map<ObjKey, nat>, pod: PodObject) returns (top: DiscoveryNode)
    requires Ranked(store, rank, pod.namespace)
    requires Hierarchy(store, rank, pod).Ok?
    ensures WalkOwners(store, rank, pod.namespace, pod.ownerRefs, None).Ok?
    ensures top.children == []
    ensures Hierarchy(store, rank, pod).value ==
              Path([top] + Reverse([PodNode(pod)] + WalkOwners(store, rank, pod.namespace, pod.ownerRefs, None).value))
  {
    var ns := Get(store, NamespaceKey(pod.namespace)).value;
    CopyLabelsIsIdentity(ns.labels);
    top := DiscoveryNode(pod.namespace, Tag(Namespace), ns.labels, []);
  }

  /** A Pod without owners gives the two-level tree Namespace -> Pod. */
  lemma NoOwnersDepthTwo(store: Store, rank: map<ObjKey, nat>, pod: PodObject)
    requires Ranked(store, rank, pod.namespace)
    requires pod.ownerRefs == [] && Hierarchy(store, rank, pod).Ok?
    ensures Hierarchy(store, rank, pod).value.children == [PodNode(pod)]
    ensures |Spine(Hierarchy(store, rank, pod).value)| == 2
  {
    HierarchyShape(store, rank, pod);
  }

  /** Neither a DeploymentConfig nor a Namespace is fetched by queryForNode. */
  lemma QueryableExcludes(kind: string)
    requires QueryableKind(kind)
    ensures kind != Tag(DeploymentConfig) && kind != Tag(Namespace)
  {
    TagRoundTrip(DeploymentConfig);
    TagRoundTrip(Namespace);
  }

  /** Below its root, a spine built from a chain holds only chain nodes and the leaf. */
  lemma SpineMembers(spine: seq<DiscoveryNode>, top: DiscoveryNode, owners: seq<DiscoveryNode>, leaf: DiscoveryNode)
    requires spine == [top] + Reverse(owners) + [leaf]
    ensures forall k :: 1 <= k < |spine| ==> spine[k] == leaf || spine[k] in owners
  {
    forall k | 1 <= k < |spine|
      ensures spine[k] == leaf || spine[k] in owners
    {
      if k <= |owners| {
        assert spine[k] == owners[|owners| - k];
      }
    }
  }

  /** Below the Namespace root every node is of a kind queryForNode fetches:
      in particular a DeploymentConfig owner, though listed among the
      expected owner kinds, never appears (the chain stops below it). */
  lemma HierarchyNodeKinds(store: Store, rank: map<ObjKey, nat>, pod: PodObject)
    requires Ranked(store, rank, pod.namespace)
    requires Hierarchy(store, rank, pod).Ok?
    ensures var spine := Spine(Hierarchy(store, rank, pod).value);
            && spine[0].nodeType == Tag(Namespace)
            && forall k :: 1 <= k < |spine| ==>
                 QueryableKind(spine[k].nodeType) && spine[k].nodeType != Tag(DeploymentConfig)
  {
    HierarchyShape(store, rank, pod);
    var root := Hierarchy(store, rank, pod).value;
    var owners := WalkOwners(store, rank, pod.namespace, pod.ownerRefs, None).value;
    TagRoundTrip(Pod);
    var spine := Spine(root);
    SpineMembers(spine, root.(children := []), owners, PodNode(pod));
    forall k | 1 <= k < |spine|
      ensures QueryableKind(spine[k].nodeType) && spine[k].nodeType != Tag(DeploymentConfig)
    {
      if spine[k] != PodNode(pod) {
        var j :| 0 <= j < |owners| && owners[j] == spine[k];
      }
      QueryableExcludes(spine[k].nodeType);
    }
  }
}
