/** What a Kubernetes inventory leaves in the graph (apps/api/src/modules/resources/resource-graph.service.ts). */
module KubernetesContents {
  import opened Wrappers
  import opened Text
  import opened Runs
  import opened UrnPrinters
  import opened ResourceGraphPlans
  import opened ResourceGraphLaws
  import opened ResourceGraphContents

  function NamespaceKey(slug: string): Namespace -> Key {
    (x: Namespace) => KubernetesNamespace(slug, x.name)
  }

  function NamespaceFacts(): Namespace -> Facts {
    (x: Namespace) => Facts(KUBERNETES, KUBERNETES_NAMESPACE, x.name, x.status)
  }

  function ClusterNodeKey(slug: string): ClusterNode -> Key {
    (x: ClusterNode) => KubernetesNode(slug, x.name)
  }

  function ClusterNodeFacts(): ClusterNode -> Facts {
    (x: ClusterNode) => Facts(KUBERNETES, KUBERNETES_NODE, x.name, Some(if x.ready then "READY" else "NOT_READY"))
  }

  function WorkloadKey(slug: string): Workload -> Key {
    (x: Workload) => KubernetesDeployment(slug, x.namespace, x.name)
  }

  function WorkloadFacts(): Workload -> Facts {
    (x: Workload) => Facts(KUBERNETES, KUBERNETES_DEPLOYMENT, x.name, Some(x.status))
  }

  function PodKey(slug: string): Pod -> Key {
    (x: Pod) => KubernetesPod(slug, x.namespace, x.name)
  }

  function PodFacts(): Pod -> Facts {
    (x: Pod) => Facts(KUBERNETES, KUBERNETES_POD, x.name, Some(x.phase))
  }

  function ServiceKey(slug: string): Service -> Key {
    (x: Service) => KubernetesService(slug, x.namespace, x.name)
  }

  function ServiceFacts(): Service -> Facts {
    (x: Service) => Facts(KUBERNETES, KUBERNETES_SERVICE, x.name, Some(x.status))
  }

  /** The inventory lists a namespace of this name. */
  ghost predicate Names(namespaces: seq<Namespace>, name: string) {
    exists i :: 0 <= i < |namespaces| && namespaces[i].name == name
  }

  /** The namespaces that workloads name and the inventory does not list, as they come. */
  ghost function Unlisted(namespaces: seq<Namespace>, workloads: seq<Workload>): seq<Namespace> {
    if workloads == [] then []
    else
      var n := |workloads| - 1;
      Unlisted(namespaces, workloads[..n])
      + if Names(namespaces, workloads[n].namespace) then [] else [Namespace(workloads[n].namespace, None)]
  }

  ghost function NamespaceLinks(slug: string, xs: seq<Namespace>): set<Link> {
    set x | x in xs :: Link(KubernetesCluster(slug), KubernetesNamespace(slug, x.name), CONTAINS)
  }

  ghost function ClusterNodeLinks(slug: string, xs: seq<ClusterNode>): set<Link> {
    set x | x in xs :: Link(KubernetesCluster(slug), KubernetesNode(slug, x.name), CONTAINS)
  }

  ghost function WorkloadLinks(slug: string, xs: seq<Workload>): set<Link> {
    set x | x in xs ::
      Link(KubernetesNamespace(slug, x.namespace), KubernetesDeployment(slug, x.namespace, x.name), CONTAINS)
  }

  ghost function PodLinks(slug: string, namespaces: seq<Namespace>, xs: seq<Pod>): set<Link> {
    set x | x in xs && Names(namespaces, x.namespace) ::
      Link(KubernetesNamespace(slug, x.namespace), KubernetesPod(slug, x.namespace, x.name), CONTAINS)
  }

  ghost function ServiceLinks(slug: string, namespaces: seq<Namespace>, xs: seq<Service>): set<Link> {
    set x | x in xs && Names(namespaces, x.namespace) ::
      Link(KubernetesNamespace(slug, x.namespace), KubernetesService(slug, x.namespace, x.name), CONTAINS)
  }

  /** Clusters contain namespaces and nodes, namespaces contain workloads, and listed namespaces contain pods
      and services. */
  ghost function KubernetesLinks(slug: string, k: KubernetesInventory): set<Link> {
    NamespaceLinks(slug, k.namespaces) + ClusterNodeLinks(slug, k.nodes) + WorkloadLinks(slug, k.workloads)
    + PodLinks(slug, k.namespaces, k.pods) + ServiceLinks(slug, k.namespaces, k.services)
  }

  ghost function KubernetesKeys(slug: string, k: KubernetesInventory): set<Key> {
    {KubernetesCluster(slug)}
    + KeysOf(k.namespaces + Unlisted(k.namespaces, k.workloads), NamespaceKey(slug))
    + KeysOf(k.nodes, ClusterNodeKey(slug)) + KeysOf(k.workloads, WorkloadKey(slug))
    + KeysOf(k.pods, PodKey(slug)) + KeysOf(k.services, ServiceKey(slug))
  }

  /** What a Kubernetes inventory leaves: its nodes, its links, and nothing else. */
  ghost predicate KubernetesRecorded(
    urn: Key -> Option<string>, g: Graph, h: Graph, org: Org, now: int, k: KubernetesInventory)
  {
    var slug := Slug(k.clusterSlug, "docker-desktop");
    && HoldsKey(urn, g, h, org, now, KubernetesCluster(slug), Facts(KUBERNETES, KUBERNETES_CLUSTER, slug, None))
    && Recorded(urn, g, h, org, now, k.namespaces + Unlisted(k.namespaces, k.workloads),
         NamespaceKey(slug), NamespaceFacts())
    && Recorded(urn, g, h, org, now, k.nodes, ClusterNodeKey(slug), ClusterNodeFacts())
    && Recorded(urn, g, h, org, now, k.workloads, WorkloadKey(slug), WorkloadFacts())
    && Recorded(urn, g, h, org, now, k.pods, PodKey(slug), PodFacts())
    && Recorded(urn, g, h, org, now, k.services, ServiceKey(slug), ServiceFacts())
    && LinkedExactly(urn, g, h, org, now, KubernetesLinks(slug, k))
    && OnlyNodes(urn, g, h, org, KubernetesKeys(slug, k))
  }

  // The turns of the loops: a node, and its link.

  function NamespaceLink(slug: string): Namespace -> Link {
    (x: Namespace) => Link(KubernetesCluster(slug), KubernetesNamespace(slug, x.name), CONTAINS)
  }

  function ClusterNodeLink(slug: string): ClusterNode -> Link {
    (x: ClusterNode) => Link(KubernetesCluster(slug), KubernetesNode(slug, x.name), CONTAINS)
  }

  function PodLink(slug: string): Pod -> Link {
    (x: Pod) => Link(KubernetesNamespace(slug, x.namespace), KubernetesPod(slug, x.namespace, x.name), CONTAINS)
  }

  function ServiceLink(slug: string): Service -> Link {
    (x: Service) => Link(KubernetesNamespace(slug, x.namespace), KubernetesService(slug, x.namespace, x.name), CONTAINS)
  }

  lemma NamespacePairs(slug: string, xs: seq<Namespace>)
    ensures Pairs(xs, NamespaceActions(slug), NamespaceKey(slug), NamespaceFacts(), Always(), NamespaceLink(slug))
  {
  }

  lemma ClusterNodePairs(slug: string, xs: seq<ClusterNode>)
    ensures
      Pairs(xs, ClusterNodeActions(slug), ClusterNodeKey(slug), ClusterNodeFacts(), Always(), ClusterNodeLink(slug))
  {
  }

  lemma PodPairs(slug: string, namespaces: seq<Namespace>, xs: seq<Pod>)
    ensures Pairs(xs, PodActions(slug, namespaces), PodKey(slug), PodFacts(),
      (x: Pod) => Names(namespaces, x.namespace), PodLink(slug))
  {
  }

  lemma ServicePairs(slug: string, namespaces: seq<Namespace>, xs: seq<Service>)
    ensures Pairs(xs, ServiceActions(slug, namespaces), ServiceKey(slug), ServiceFacts(),
      (x: Service) => Names(namespaces, x.namespace), ServiceLink(slug))
  {
  }

  lemma WorkloadTurn(urn: Key -> Option<string>, slug: string, namespaces: seq<Namespace>, x: Workload, u: string)
    ensures LastPut(urn, WorkloadActions(slug, namespaces)(x), u) ==
      if urn(WorkloadKey(slug)(x)) == Some(u) then Some(WorkloadFacts()(x))
      else if !Names(namespaces, x.namespace) && urn(KubernetesNamespace(slug, x.namespace)) == Some(u)
      then Some(Facts(KUBERNETES, KUBERNETES_NAMESPACE, x.namespace, None))
      else None
    ensures Links(WorkloadActions(slug, namespaces)(x)) ==
      {Link(KubernetesNamespace(slug, x.namespace), KubernetesDeployment(slug, x.namespace, x.name), CONTAINS)}
    ensures Written(WorkloadActions(slug, namespaces)(x)) ==
      {KubernetesDeployment(slug, x.namespace, x.name)}
      + if Names(namespaces, x.namespace) then {} else {KubernetesNamespace(slug, x.namespace)}
  {
    var first := MissingNamespace(slug, namespaces, x.namespace);
    var acts := WorkloadActions(slug, namespaces)(x);
    var pair := acts[|first|..];
    assert acts == first + pair && pair == [pair[0]] + [pair[1]];
    PairPut(urn, pair[0], [pair[1]], u);
    LastPutConcat(urn, first, pair, u);
    LinksConcat(first, pair);
    WrittenConcat(first, pair);
    if first != [] {
      assert first == [first[0]];
      NodePut(urn, first[0], u);
    } else {
      assert Links(first) == {} && Written(first) == {};
    }
  }

  // The whole plan, list by list.

  ghost function WorkloadsLeft(
    urn: Key -> Option<string>, slug: string, namespaces: seq<Namespace>, xs: seq<Workload>, u: string, kind: Kind)
    : Option<Facts>
  {
    if kind == KUBERNETES_DEPLOYMENT then LastOf(urn, xs, WorkloadKey(slug), WorkloadFacts(), u)
    else if kind == KUBERNETES_NAMESPACE
    then LastOf(urn, Unlisted(namespaces, xs), NamespaceKey(slug), NamespaceFacts(), u)
    else None
  }

  lemma WorkloadTurnOfKind(
    urn: Key -> Option<string>, slug: string, namespaces: seq<Namespace>, x: Workload, u: string, kind: Kind)
    requires OfKind(urn, u, kind)
    ensures LastPut(urn, WorkloadActions(slug, namespaces)(x), u) ==
      if kind == KUBERNETES_DEPLOYMENT && urn(WorkloadKey(slug)(x)) == Some(u) then Some(WorkloadFacts()(x))
      else if kind == KUBERNETES_NAMESPACE && !Names(namespaces, x.namespace)
              && urn(KubernetesNamespace(slug, x.namespace)) == Some(u)
      then Some(Facts(KUBERNETES, KUBERNETES_NAMESPACE, x.namespace, None))
      else None
  {
    WorkloadTurn(urn, slug, namespaces, x, u);
    var a, b := WorkloadKey(slug)(x), KubernetesNamespace(slug, x.namespace);
    assert KindOf(a) == KUBERNETES_DEPLOYMENT && KindOf(b) == KUBERNETES_NAMESPACE;
    assert urn(a) == Some(u) ==> kind == KUBERNETES_DEPLOYMENT;
    assert urn(b) == Some(u) ==> kind == KUBERNETES_NAMESPACE;
  }

  lemma UnlistedOneMore(
    urn: Key -> Option<string>, slug: string, namespaces: seq<Namespace>, xs: seq<Workload>, u: string)
    requires xs != []
    ensures var x := xs[|xs| - 1];
      LastOf(urn, Unlisted(namespaces, xs), NamespaceKey(slug), NamespaceFacts(), u) ==
      if !Names(namespaces, x.namespace) && urn(KubernetesNamespace(slug, x.namespace)) == Some(u)
      then Some(Facts(KUBERNETES, KUBERNETES_NAMESPACE, x.namespace, None))
      else LastOf(urn, Unlisted(namespaces, xs[..|xs| - 1]), NamespaceKey(slug), NamespaceFacts(), u)
  {
    var n := |xs| - 1;
    var one := if Names(namespaces, xs[n].namespace) then [] else [Namespace(xs[n].namespace, None)];
    LastOfConcat(urn, Unlisted(namespaces, xs[..n]), one, NamespaceKey(slug), NamespaceFacts(), u);
    if one != [] {
      assert one[..0] == [];
    }
  }

  lemma {:induction false} WorkloadsPut(
    urn: Key -> Option<string>, slug: string, namespaces: seq<Namespace>, xs: seq<Workload>, u: string, kind: Kind)
    requires OfKind(urn, u, kind)
    ensures LastPut(urn, Each(xs, WorkloadActions(slug, namespaces)), u) ==
      WorkloadsLeft(urn, slug, namespaces, xs, u, kind)
  {
    if xs != [] {
      var n := |xs| - 1;
      var f := WorkloadActions(slug, namespaces);
      WorkloadsPut(urn, slug, namespaces, xs[..n], u, kind);
      WorkloadTurnOfKind(urn, slug, namespaces, xs[n], u, kind);
      LastPutConcat(urn, Each(xs[..n], f), f(xs[n]), u);
      UnlistedOneMore(urn, slug, namespaces, xs, u);
    }
  }

  function Middle(slug: string, k: KubernetesInventory): seq<Action> {
    [PutNode(KubernetesCluster(slug), KUBERNETES, KUBERNETES_CLUSTER, slug, None)]
    + Each(k.namespaces, NamespaceActions(slug)) + Each(k.nodes, ClusterNodeActions(slug))
    + Each(k.workloads, WorkloadActions(slug, k.namespaces))
  }

  lemma MiddlePuts(urn: Key -> Option<string>, slug: string, k: KubernetesInventory, u: string)
    ensures LastPut(urn, Middle(slug, k), u) ==
      OrElseFacts(LastPut(urn, Each(k.workloads, WorkloadActions(slug, k.namespaces)), u),
      OrElseFacts(LastOf(urn, k.nodes, ClusterNodeKey(slug), ClusterNodeFacts(), u),
      OrElseFacts(LastOf(urn, k.namespaces, NamespaceKey(slug), NamespaceFacts(), u),
        if urn(KubernetesCluster(slug)) == Some(u) then Some(Facts(KUBERNETES, KUBERNETES_CLUSTER, slug, None))
        else None)))
  {
    var root := [PutNode(KubernetesCluster(slug), KUBERNETES, KUBERNETES_CLUSTER, slug, None)];
    var a, b := Each(k.namespaces, NamespaceActions(slug)), Each(k.nodes, ClusterNodeActions(slug));
    NodePut(urn, root[0], u);
    NamespacePairs(slug, k.namespaces);
    PairsPut(urn, k.namespaces, NamespaceActions(slug), NamespaceKey(slug), NamespaceFacts(), Always(),
      NamespaceLink(slug), u);
    ClusterNodePairs(slug, k.nodes);
    PairsPut(urn, k.nodes, ClusterNodeActions(slug), ClusterNodeKey(slug), ClusterNodeFacts(), Always(),
      ClusterNodeLink(slug), u);
    LastPutConcat(urn, root, a, u);
    LastPutConcat(urn, root + a, b, u);
    LastPutConcat(urn, root + a + b, Each(k.workloads, WorkloadActions(slug, k.namespaces)), u);
  }

  lemma KubernetesChain(urn: Key -> Option<string>, slug: string, k: KubernetesInventory, u: string)
    requires slug == Slug(k.clusterSlug, "docker-desktop")
    ensures LastPut(urn, KubernetesPlan(k), u) ==
      OrElseFacts(LastOf(urn, k.services, ServiceKey(slug), ServiceFacts(), u),
      OrElseFacts(LastOf(urn, k.pods, PodKey(slug), PodFacts(), u), LastPut(urn, Middle(slug, k), u)))
  {
    var pods := Each(k.pods, PodActions(slug, k.namespaces));
    var services := Each(k.services, ServiceActions(slug, k.namespaces));
    assert KubernetesPlan(k) == Middle(slug, k) + pods + services;
    LastPutConcat(urn, Middle(slug, k), pods, u);
    LastPutConcat(urn, Middle(slug, k) + pods, services, u);
    PodPairs(slug, k.namespaces, k.pods);
    PairsPut(urn, k.pods, PodActions(slug, k.namespaces), PodKey(slug), PodFacts(),
      (x: Pod) => Names(k.namespaces, x.namespace), PodLink(slug), u);
    ServicePairs(slug, k.namespaces, k.services);
    PairsPut(urn, k.services, ServiceActions(slug, k.namespaces), ServiceKey(slug), ServiceFacts(),
      (x: Service) => Names(k.namespaces, x.namespace), ServiceLink(slug), u);
  }

  lemma NamedElsewhere(urn: Key -> Option<string>, slug: string, k: KubernetesInventory, u: string, kind: Kind)
    requires OfKind(urn, u, kind)
    ensures kind != KUBERNETES_SERVICE ==> LastOf(urn, k.services, ServiceKey(slug), ServiceFacts(), u) == None
    ensures kind != KUBERNETES_POD ==> LastOf(urn, k.pods, PodKey(slug), PodFacts(), u) == None
  {
    OtherKind(urn, k.services, ServiceKey(slug), ServiceFacts(), u, kind, KUBERNETES_SERVICE);
    OtherKind(urn, k.pods, PodKey(slug), PodFacts(), u, kind, KUBERNETES_POD);
  }

  lemma ClusteredElsewhere(urn: Key -> Option<string>, slug: string, k: KubernetesInventory, u: string, kind: Kind)
    requires OfKind(urn, u, kind)
    ensures kind != KUBERNETES_NODE ==> LastOf(urn, k.nodes, ClusterNodeKey(slug), ClusterNodeFacts(), u) == None
    ensures kind != KUBERNETES_NAMESPACE ==>
      LastOf(urn, k.namespaces, NamespaceKey(slug), NamespaceFacts(), u) == None
  {
    OtherKind(urn, k.nodes, ClusterNodeKey(slug), ClusterNodeFacts(), u, kind, KUBERNETES_NODE);
    OtherKind(urn, k.namespaces, NamespaceKey(slug), NamespaceFacts(), u, kind, KUBERNETES_NAMESPACE);
  }

  ghost function KubernetesLeft(
    urn: Key -> Option<string>, slug: string, k: KubernetesInventory, u: string, kind: Kind): Option<Facts>
  {
    match kind
    case KUBERNETES_SERVICE => LastOf(urn, k.services, ServiceKey(slug), ServiceFacts(), u)
    case KUBERNETES_POD => LastOf(urn, k.pods, PodKey(slug), PodFacts(), u)
    case KUBERNETES_DEPLOYMENT => LastOf(urn, k.workloads, WorkloadKey(slug), WorkloadFacts(), u)
    case KUBERNETES_NODE => LastOf(urn, k.nodes, ClusterNodeKey(slug), ClusterNodeFacts(), u)
    case KUBERNETES_NAMESPACE =>
      LastOf(urn, k.namespaces + Unlisted(k.namespaces, k.workloads), NamespaceKey(slug), NamespaceFacts(), u)
    case _ =>
      if urn(KubernetesCluster(slug)) == Some(u) then Some(Facts(KUBERNETES, KUBERNETES_CLUSTER, slug, None)) else None
  }

  /** The lists, the last written first, with the actions out of sight. */
  lemma ListOfKind(
    urn: Key -> Option<string>, slug: string, k: KubernetesInventory, middle: Option<Facts>, u: string, kind: Kind)
    requires OfKind(urn, u, kind)
    requires middle ==
      OrElseFacts(WorkloadsLeft(urn, slug, k.namespaces, k.workloads, u, kind),
      OrElseFacts(LastOf(urn, k.nodes, ClusterNodeKey(slug), ClusterNodeFacts(), u),
      OrElseFacts(LastOf(urn, k.namespaces, NamespaceKey(slug), NamespaceFacts(), u),
        if urn(KubernetesCluster(slug)) == Some(u) then Some(Facts(KUBERNETES, KUBERNETES_CLUSTER, slug, None))
        else None)))
    ensures OrElseFacts(LastOf(urn, k.services, ServiceKey(slug), ServiceFacts(), u),
            OrElseFacts(LastOf(urn, k.pods, PodKey(slug), PodFacts(), u), middle)) ==
      KubernetesLeft(urn, slug, k, u, kind)
  {
    NamedElsewhere(urn, slug, k, u, kind);
    ClusteredElsewhere(urn, slug, k, u, kind);
    LastOfConcat(urn, k.namespaces, Unlisted(k.namespaces, k.workloads), NamespaceKey(slug), NamespaceFacts(), u);
    assert KindOf(KubernetesCluster(slug)) == KUBERNETES_CLUSTER;
  }

  /** Under a URN of one kind a Kubernetes plan leaves what the list of that kind says. */
  lemma KubernetesPuts(urn: Key -> Option<string>, slug: string, k: KubernetesInventory, u: string, kind: Kind)
    requires OfKind(urn, u, kind) && slug == Slug(k.clusterSlug, "docker-desktop")
    ensures LastPut(urn, KubernetesPlan(k), u) == KubernetesLeft(urn, slug, k, u, kind)
  {
    KubernetesChain(urn, slug, k, u);
    MiddlePuts(urn, slug, k, u);
    WorkloadsPut(urn, slug, k.namespaces, k.workloads, u, kind);
    ListOfKind(urn, slug, k, LastPut(urn, Middle(slug, k), u), u, kind);
  }

  lemma NamespacesLeave(slug: string, xs: seq<Namespace>)
    ensures Links(Each(xs, NamespaceActions(slug))) == NamespaceLinks(slug, xs)
    ensures Written(Each(xs, NamespaceActions(slug))) == KeysOf(xs, NamespaceKey(slug))
  {
    NamespacePairs(slug, xs);
    PairsLeave(xs, NamespaceActions(slug), NamespaceKey(slug), NamespaceFacts(), Always(), NamespaceLink(slug));
  }

  lemma ClusterNodesLeave(slug: string, xs: seq<ClusterNode>)
    ensures Links(Each(xs, ClusterNodeActions(slug))) == ClusterNodeLinks(slug, xs)
    ensures Written(Each(xs, ClusterNodeActions(slug))) == KeysOf(xs, ClusterNodeKey(slug))
  {
    ClusterNodePairs(slug, xs);
    PairsLeave(xs, ClusterNodeActions(slug), ClusterNodeKey(slug), ClusterNodeFacts(), Always(), ClusterNodeLink(slug));
  }

  lemma PodsLeave(slug: string, namespaces: seq<Namespace>, xs: seq<Pod>)
    ensures Links(Each(xs, PodActions(slug, namespaces))) == PodLinks(slug, namespaces, xs)
    ensures Written(Each(xs, PodActions(slug, namespaces))) == KeysOf(xs, PodKey(slug))
  {
    PodPairs(slug, namespaces, xs);
    PairsLeave(xs, PodActions(slug, namespaces), PodKey(slug), PodFacts(),
      (x: Pod) => Names(namespaces, x.namespace), PodLink(slug));
  }

  lemma ServicesLeave(slug: string, namespaces: seq<Namespace>, xs: seq<Service>)
    ensures Links(Each(xs, ServiceActions(slug, namespaces))) == ServiceLinks(slug, namespaces, xs)
    ensures Written(Each(xs, ServiceActions(slug, namespaces))) == KeysOf(xs, ServiceKey(slug))
  {
    ServicePairs(slug, namespaces, xs);
    PairsLeave(xs, ServiceActions(slug, namespaces), ServiceKey(slug), ServiceFacts(),
      (x: Service) => Names(namespaces, x.namespace), ServiceLink(slug));
  }

  lemma {:induction false} WorkloadsLink(slug: string, namespaces: seq<Namespace>, xs: seq<Workload>)
    ensures Links(Each(xs, WorkloadActions(slug, namespaces))) == WorkloadLinks(slug, xs)
  {
    var f := WorkloadActions(slug, namespaces);
    if xs == [] {
      assert Links(Each(xs, f)) == {};
    } else {
      var n := |xs| - 1;
      assert xs == xs[..n] + [xs[n]];
      WorkloadsLink(slug, namespaces, xs[..n]);
      WorkloadTurn((key: Key) => None, slug, namespaces, xs[n], "");
      LinksConcat(Each(xs[..n], f), f(xs[n]));
    }
  }

  lemma UnlistedKeys(slug: string, namespaces: seq<Namespace>, xs: seq<Workload>)
    requires xs != []
    ensures var n := |xs| - 1;
      KeysOf(Unlisted(namespaces, xs), NamespaceKey(slug)) ==
      KeysOf(Unlisted(namespaces, xs[..n]), NamespaceKey(slug))
      + if Names(namespaces, xs[n].namespace) then {} else {KubernetesNamespace(slug, xs[n].namespace)}
  {
    var n := |xs| - 1;
    var x := Namespace(xs[n].namespace, None);
    if Names(namespaces, xs[n].namespace) {
      assert Unlisted(namespaces, xs) == Unlisted(namespaces, xs[..n]);
    } else {
      KeysOfConcat(Unlisted(namespaces, xs[..n]), [x], NamespaceKey(slug));
      assert KeysOf([x], NamespaceKey(slug)) == {NamespaceKey(slug)(x)} by {
        assert [x][0] == x;
      }
    }
  }

  lemma {:induction false} WorkloadsWrite(slug: string, namespaces: seq<Namespace>, xs: seq<Workload>)
    ensures Written(Each(xs, WorkloadActions(slug, namespaces))) ==
      KeysOf(xs, WorkloadKey(slug)) + KeysOf(Unlisted(namespaces, xs), NamespaceKey(slug))
  {
    var f := WorkloadActions(slug, namespaces);
    if xs == [] {
      assert Written(Each(xs, f)) == {};
    } else {
      var n := |xs| - 1;
      assert xs == xs[..n] + [xs[n]];
      WorkloadsWrite(slug, namespaces, xs[..n]);
      WorkloadTurn((key: Key) => None, slug, namespaces, xs[n], "");
      WrittenConcat(Each(xs[..n], f), f(xs[n]));
      KeysOfConcat(xs[..n], [xs[n]], WorkloadKey(slug));
      UnlistedKeys(slug, namespaces, xs);
    }
  }

  lemma MiddleLeaves(slug: string, k: KubernetesInventory)
    ensures Links(Middle(slug, k)) ==
      NamespaceLinks(slug, k.namespaces) + ClusterNodeLinks(slug, k.nodes) + WorkloadLinks(slug, k.workloads)
    ensures Written(Middle(slug, k)) ==
      {KubernetesCluster(slug)}
      + KeysOf(k.namespaces, NamespaceKey(slug)) + KeysOf(k.nodes, ClusterNodeKey(slug))
      + KeysOf(k.workloads, WorkloadKey(slug)) + KeysOf(Unlisted(k.namespaces, k.workloads), NamespaceKey(slug))
  {
    var root := [PutNode(KubernetesCluster(slug), KUBERNETES, KUBERNETES_CLUSTER, slug, None)];
    var a, b := Each(k.namespaces, NamespaceActions(slug)), Each(k.nodes, ClusterNodeActions(slug));
    var c := Each(k.workloads, WorkloadActions(slug, k.namespaces));
    NodePut((key: Key) => None, root[0], "");
    NamespacesLeave(slug, k.namespaces);
    ClusterNodesLeave(slug, k.nodes);
    WorkloadsLink(slug, k.namespaces, k.workloads);
    WorkloadsWrite(slug, k.namespaces, k.workloads);
    LinksConcat(root, a);
    LinksConcat(root + a, b);
    LinksConcat(root + a + b, c);
    WrittenConcat(root, a);
    WrittenConcat(root + a, b);
    WrittenConcat(root + a + b, c);
  }

  lemma KubernetesLeaves(slug: string, k: KubernetesInventory)
    requires slug == Slug(k.clusterSlug, "docker-desktop")
    ensures Links(KubernetesPlan(k)) == KubernetesLinks(slug, k)
    ensures Written(KubernetesPlan(k)) == KubernetesKeys(slug, k)
  {
    var pods := Each(k.pods, PodActions(slug, k.namespaces));
    var services := Each(k.services, ServiceActions(slug, k.namespaces));
    assert KubernetesPlan(k) == Middle(slug, k) + pods + services;
    MiddleLeaves(slug, k);
    KeysOfConcat(k.namespaces, Unlisted(k.namespaces, k.workloads), NamespaceKey(slug));
    PodsLeave(slug, k.namespaces, k.pods);
    ServicesLeave(slug, k.namespaces, k.services);
    LinksConcat(Middle(slug, k), pods);
    LinksConcat(Middle(slug, k) + pods, services);
    WrittenConcat(Middle(slug, k), pods);
    WrittenConcat(Middle(slug, k) + pods, services);
  }

  ghost predicate LeavesKubernetes(urn: Key -> Option<string>, acts: seq<Action>, slug: string, k: KubernetesInventory)
  {
    && LeavesOne(urn, acts, KubernetesCluster(slug), Facts(KUBERNETES, KUBERNETES_CLUSTER, slug, None))
    && LeavesAll(urn, acts, k.namespaces + Unlisted(k.namespaces, k.workloads), NamespaceKey(slug), NamespaceFacts(),
         KUBERNETES_NAMESPACE)
    && LeavesAll(urn, acts, k.nodes, ClusterNodeKey(slug), ClusterNodeFacts(), KUBERNETES_NODE)
    && LeavesAll(urn, acts, k.workloads, WorkloadKey(slug), WorkloadFacts(), KUBERNETES_DEPLOYMENT)
    && LeavesAll(urn, acts, k.pods, PodKey(slug), PodFacts(), KUBERNETES_POD)
    && LeavesAll(urn, acts, k.services, ServiceKey(slug), ServiceFacts(), KUBERNETES_SERVICE)
  }

  ghost predicate PutsByKind(urn: Key -> Option<string>, acts: seq<Action>, slug: string, k: KubernetesInventory) {
    forall u: string, kind: Kind :: OfKind(urn, u, kind) ==>
      LastPut(urn, acts, u) == KubernetesLeft(urn, slug, k, u, kind)
  }

  lemma NamespacesLeft(urn: Key -> Option<string>, acts: seq<Action>, slug: string, k: KubernetesInventory)
    requires PutsByKind(urn, acts, slug, k)
    ensures LeavesKind(urn, acts, k.namespaces + Unlisted(k.namespaces, k.workloads),
                       NamespaceKey(slug), NamespaceFacts(), KUBERNETES_NAMESPACE)
    ensures AllOfKind(k.namespaces + Unlisted(k.namespaces, k.workloads), NamespaceKey(slug), KUBERNETES_NAMESPACE)
  {
    forall u: string | OfKind(urn, u, KUBERNETES_NAMESPACE)
      ensures LastPut(urn, acts, u) ==
        LastOf(urn, k.namespaces + Unlisted(k.namespaces, k.workloads), NamespaceKey(slug), NamespaceFacts(), u)
    {
      assert LastPut(urn, acts, u) == KubernetesLeft(urn, slug, k, u, KUBERNETES_NAMESPACE);
    }
  }

  lemma ClusterNodesLeft(urn: Key -> Option<string>, acts: seq<Action>, slug: string, k: KubernetesInventory)
    requires PutsByKind(urn, acts, slug, k)
    ensures LeavesKind(urn, acts, k.nodes, ClusterNodeKey(slug), ClusterNodeFacts(), KUBERNETES_NODE)
    ensures AllOfKind(k.nodes, ClusterNodeKey(slug), KUBERNETES_NODE)
  {
    forall u: string | OfKind(urn, u, KUBERNETES_NODE)
      ensures LastPut(urn, acts, u) == LastOf(urn, k.nodes, ClusterNodeKey(slug), ClusterNodeFacts(), u)
    {
      assert LastPut(urn, acts, u) == KubernetesLeft(urn, slug, k, u, KUBERNETES_NODE);
    }
  }

  lemma DeploymentsLeft(urn: Key -> Option<string>, acts: seq<Action>, slug: string, k: KubernetesInventory)
    requires PutsByKind(urn, acts, slug, k)
    ensures LeavesKind(urn, acts, k.workloads, WorkloadKey(slug), WorkloadFacts(), KUBERNETES_DEPLOYMENT)
    ensures AllOfKind(k.workloads, WorkloadKey(slug), KUBERNETES_DEPLOYMENT)
  {
    forall u: string | OfKind(urn, u, KUBERNETES_DEPLOYMENT)
      ensures LastPut(urn, acts, u) == LastOf(urn, k.workloads, WorkloadKey(slug), WorkloadFacts(), u)
    {
      assert LastPut(urn, acts, u) == KubernetesLeft(urn, slug, k, u, KUBERNETES_DEPLOYMENT);
    }
  }

  lemma PodsLeft(urn: Key -> Option<string>, acts: seq<Action>, slug: string, k: KubernetesInventory)
    requires PutsByKind(urn, acts, slug, k)
    ensures LeavesKind(urn, acts, k.pods, PodKey(slug), PodFacts(), KUBERNETES_POD)
    ensures AllOfKind(k.pods, PodKey(slug), KUBERNETES_POD)
  {
    forall u: string | OfKind(urn, u, KUBERNETES_POD)
      ensures LastPut(urn, acts, u) == LastOf(urn, k.pods, PodKey(slug), PodFacts(), u)
    {
      assert LastPut(urn, acts, u) == KubernetesLeft(urn, slug, k, u, KUBERNETES_POD);
    }
  }

  lemma ServicesLeft(urn: Key -> Option<string>, acts: seq<Action>, slug: string, k: KubernetesInventory)
    requires PutsByKind(urn, acts, slug, k)
    ensures LeavesKind(urn, acts, k.services, ServiceKey(slug), ServiceFacts(), KUBERNETES_SERVICE)
    ensures AllOfKind(k.services, ServiceKey(slug), KUBERNETES_SERVICE)
  {
    forall u: string | OfKind(urn, u, KUBERNETES_SERVICE)
      ensures LastPut(urn, acts, u) == LastOf(urn, k.services, ServiceKey(slug), ServiceFacts(), u)
    {
      assert LastPut(urn, acts, u) == KubernetesLeft(urn, slug, k, u, KUBERNETES_SERVICE);
    }
  }

  lemma ClusterLeft(urn: Key -> Option<string>, acts: seq<Action>, slug: string, k: KubernetesInventory)
    requires PutsByKind(urn, acts, slug, k) && KubernetesCluster(slug) in Written(acts)
    ensures LeavesOne(urn, acts, KubernetesCluster(slug),
                      Facts(KUBERNETES, KUBERNETES_CLUSTER, slug, None))
  {
    forall u: string | OfKind(urn, u, KUBERNETES_CLUSTER) && urn(KubernetesCluster(slug)) == Some(u)
      ensures LastPut(urn, acts, u) == Some(Facts(KUBERNETES, KUBERNETES_CLUSTER, slug, None))
    {
      assert LastPut(urn, acts, u) == KubernetesLeft(urn, slug, k, u, KUBERNETES_CLUSTER);
    }
  }

  lemma ListsAreLeft(urn: Key -> Option<string>, acts: seq<Action>, slug: string, k: KubernetesInventory)
    requires PutsByKind(urn, acts, slug, k) && Written(acts) == KubernetesKeys(slug, k)
    ensures LeavesKubernetes(urn, acts, slug, k)
  {
    ClusterLeft(urn, acts, slug, k);
    NamespacesLeft(urn, acts, slug, k);
    ClusterNodesLeft(urn, acts, slug, k);
    DeploymentsLeft(urn, acts, slug, k);
    PodsLeft(urn, acts, slug, k);
    ServicesLeft(urn, acts, slug, k);
  }

  lemma PlanLeavesKubernetes(urn: Key -> Option<string>, slug: string, k: KubernetesInventory)
    requires slug == Slug(k.clusterSlug, "docker-desktop") && Written(KubernetesPlan(k)) == KubernetesKeys(slug, k)
    ensures LeavesKubernetes(urn, KubernetesPlan(k), slug, k)
  {
    forall u: string, kind: Kind | OfKind(urn, u, kind)
      ensures LastPut(urn, KubernetesPlan(k), u) == KubernetesLeft(urn, slug, k, u, kind)
    {
      KubernetesPuts(urn, slug, k, u, kind);
    }
    ListsAreLeft(urn, KubernetesPlan(k), slug, k);
  }

  lemma KubernetesIsRecorded(
    urn: Key -> Option<string>, kindOf: string -> Option<Kind>, g: Graph, h: Graph, org: Org, now: int,
    k: KubernetesInventory, acts: seq<Action>, slug: string)
    requires Left(urn, kindOf, g, h, org, now, acts) && slug == Slug(k.clusterSlug, "docker-desktop")
    requires LinkedExactly(urn, g, h, org, now, KubernetesLinks(slug, k)) && Written(acts) == KubernetesKeys(slug, k)
    requires LeavesKubernetes(urn, acts, slug, k)
    ensures KubernetesRecorded(urn, g, h, org, now, k)
  {
    OnlyWritten(urn, g, h, org, now, acts);
    OneIsRecorded(urn, kindOf, g, h, org, now, acts, KubernetesCluster(slug),
      Facts(KUBERNETES, KUBERNETES_CLUSTER, slug, None));
    KindIsRecorded(urn, kindOf, g, h, org, now, acts, k.namespaces + Unlisted(k.namespaces, k.workloads),
      NamespaceKey(slug), NamespaceFacts(), KUBERNETES_NAMESPACE);
    KindIsRecorded(urn, kindOf, g, h, org, now, acts, k.nodes, ClusterNodeKey(slug), ClusterNodeFacts(),
      KUBERNETES_NODE);
    KindIsRecorded(urn, kindOf, g, h, org, now, acts, k.workloads, WorkloadKey(slug), WorkloadFacts(),
      KUBERNETES_DEPLOYMENT);
    KindIsRecorded(urn, kindOf, g, h, org, now, acts, k.pods, PodKey(slug), PodFacts(), KUBERNETES_POD);
    KindIsRecorded(urn, kindOf, g, h, org, now, acts, k.services, ServiceKey(slug), ServiceFacts(),
      KUBERNETES_SERVICE);
  }

  /** A Kubernetes inventory that is registered without an error leaves the cluster and every listed namespace, node,
      workload, pod and service, and the namespaces of unlisted workloads, with their columns; exactly its links;
      and every other node and edge as it was. */
  lemma Registered(g: Graph, h: Graph, org: Org, now: int, k: KubernetesInventory)
    requires Perform(Actor(org, now), g, KubernetesPlan(k)) == (h, None)
    ensures KubernetesRecorded(Printed, g, h, org, now, k)
  {
    LeftBehind(g, org, now, KubernetesPlan(k), h);
    PrintedTells();
    var slug := Slug(k.clusterSlug, "docker-desktop");
    KubernetesLeaves(slug, k);
    PlanLeavesKubernetes(Printed, slug, k);
    KubernetesIsRecorded(Printed, UrnKind, g, h, org, now, k, KubernetesPlan(k), slug);
  }
}
