/** The resource graph: what an inventory call writes
    (apps/api/src/modules/resources/resource-graph.service.ts). */
module ResourceGraphPlans {
  import opened Wrappers
  import opened Text
  import opened ResourceUrn
  import opened UrnPrinters

  // ----- The tables -----------------------------------------------------------

  datatype Provider = AUTOOPS | JENKINS | DOCKER | KUBERNETES

  datatype Kind =
    | ORGANIZATION | PROJECT | ENVIRONMENT | DEPLOYMENT | OPERATION
    | JENKINS_INSTANCE | JENKINS_JOB | JENKINS_BUILD
    | DOCKER_ENGINE | DOCKER_CONTAINER | DOCKER_IMAGE | DOCKER_NETWORK | DOCKER_VOLUME
    | KUBERNETES_CLUSTER | KUBERNETES_NAMESPACE | KUBERNETES_NODE
    | KUBERNETES_DEPLOYMENT | KUBERNETES_POD | KUBERNETES_SERVICE

  datatype EdgeType = OWNS | CONTAINS | BUILDS | USES_IMAGE

  type Org = nat

  /** A row's id stands for its unique key: the organization and the URN. */
  type NodeId = (Org, string)

  type EdgeId = (NodeId, NodeId, EdgeType)

  datatype NodeRow = NodeRow(
    provider: Provider, kind: Kind, name: string, health: Option<string>,
    firstSeenAt: int, lastSeenAt: int, archivedAt: Option<int>)

  datatype EdgeRow = EdgeRow(firstSeenAt: int, lastSeenAt: int, archivedAt: Option<int>)

  datatype Graph = Graph(nodes: map<NodeId, NodeRow>, edges: map<EdgeId, EdgeRow>)

  datatype GraphError = BadSegment(error: UrnError) | SelfEdge | NodeNotFound | ParentNotFound

  // ----- The inputs -----------------------------------------------------------

  datatype ProjectInput = ProjectInput(id: string, slug: string)
  datatype EnvironmentInput = EnvironmentInput(id: string, slug: string)
  datatype DeploymentInput = DeploymentInput(id: string, status: string)
  datatype OperationInput = OperationInput(id: string, status: string)

  datatype Job = Job(name: string, fullName: Option<string>, status: Option<string>)
  datatype Build = Build(jobName: string, number: nat, result: Option<string>, building: bool)

  datatype Image = Image(id: string, repoTags: seq<string>)
  datatype Container = Container(
    id: string, name: string, image: string, imageId: Option<string>, state: string, health: Option<string>)
  datatype Network = Network(id: string, name: string)
  datatype Volume = Volume(name: string)

  datatype Namespace = Namespace(name: string, status: Option<string>)
  datatype ClusterNode = ClusterNode(name: string, ready: bool)
  datatype Workload = Workload(namespace: string, name: string, status: string)
  datatype Pod = Pod(namespace: string, name: string, phase: string)
  datatype Service = Service(namespace: string, name: string, status: string)

  datatype DockerInventory = DockerInventory(
    engineSlug: Option<string>, images: seq<Image>, containers: seq<Container>, networks: seq<Network>,
    volumes: seq<Volume>)

  datatype KubernetesInventory = KubernetesInventory(
    clusterSlug: Option<string>, namespaces: seq<Namespace>, nodes: seq<ClusterNode>, workloads: seq<Workload>,
    pods: seq<Pod>, services: seq<Service>)

  /** One call of the service. What it looks up first is a parameter. */
  datatype Call =
    | RegisterOrganization
    | RegisterProject(project: ProjectInput)
    | RegisterEnvironment(environment: EnvironmentInput, parent: Option<ProjectInput>)
    | RegisterDeployment(deployment: DeploymentInput, within: Option<EnvironmentInput>, parent: Option<ProjectInput>)
    | RegisterOperation(operation: OperationInput)
    | RegisterJenkins(instanceSlug: Option<string>, jobs: seq<Job>, builds: seq<Build>)
    | RegisterDocker(docker: DockerInventory)
    | RegisterKubernetes(kubernetes: KubernetesInventory)
    | ArchiveStale(provider: Provider, olderThan: int)

  // ----- What a call does, action by action -----------------------------------

  datatype Action =
    | PutNode(key: Key, provider: Provider, kind: Kind, name: string, health: Option<string>)
    | PutEdge(source: Key, target: Key, edge: EdgeType)
    | Throw(error: GraphError)

  function OrElse(value: Option<string>, fallback: string): string {
    match value
    case None => fallback
    case Some(s) => s
  }

  function OrId(name: string, id: string): string {
    if name == "" then id else name
  }

  function OrganizationPlan(): seq<Action> {
    [PutNode(Organization, AUTOOPS, ORGANIZATION, "current", None)]
  }

  function ProjectPlan(p: ProjectInput): seq<Action> {
    OrganizationPlan() + [
      PutNode(Project(p.id), AUTOOPS, PROJECT, p.slug, None),
      PutEdge(Organization, Project(p.id), OWNS)]
  }

  function EnvironmentPlan(e: EnvironmentInput, parent: Option<ProjectInput>): seq<Action> {
    match parent
    case None => [Throw(ParentNotFound)]
    case Some(p) => ProjectPlan(p) + [
      PutNode(Environment(e.id), AUTOOPS, ENVIRONMENT, e.slug, None),
      PutEdge(Project(p.id), Environment(e.id), CONTAINS)]
  }

  function DeploymentPlan(d: DeploymentInput, within: Option<EnvironmentInput>, parent: Option<ProjectInput>)
    : seq<Action>
  {
    match within
    case None => [Throw(ParentNotFound)]
    case Some(e) => EnvironmentPlan(e, parent) + [
      PutNode(Deployment(d.id), AUTOOPS, DEPLOYMENT, d.id, Some(d.status)),
      PutEdge(Environment(e.id), Deployment(d.id), CONTAINS)]
  }

  function OperationPlan(o: OperationInput): seq<Action> {
    [PutNode(Operation(o.id), AUTOOPS, OPERATION, o.id, Some(o.status))]
  }

  /** The actions of a loop over `xs`, in order. */
  function Each<T>(xs: seq<T>, f: T -> seq<Action>): seq<Action> {
    if xs == [] then [] else Each(xs[..|xs| - 1], f) + f(xs[|xs| - 1])
  }

  function JobActions(slug: string): Job -> seq<Action> {
    (job: Job) =>
      var name := OrElse(job.fullName, job.name);
      [PutNode(JenkinsJob(slug, name), JENKINS, JENKINS_JOB, name, job.status),
       PutEdge(JenkinsInstance(slug), JenkinsJob(slug, name), CONTAINS)]
  }

  function BuildHealth(build: Build): Option<string> {
    if build.result.Some? then build.result else if build.building then Some("BUILDING") else None
  }

  function BuildActions(slug: string): Build -> seq<Action> {
    (build: Build) =>
      var number := Decimal(build.number);
      [PutNode(JenkinsJob(slug, build.jobName), JENKINS, JENKINS_JOB, build.jobName, None),
       PutNode(JenkinsBuild(slug, build.jobName, number), JENKINS, JENKINS_BUILD, number, BuildHealth(build)),
       PutEdge(JenkinsJob(slug, build.jobName), JenkinsBuild(slug, build.jobName, number), BUILDS)]
  }

  function JenkinsPlan(instanceSlug: Option<string>, jobs: seq<Job>, builds: seq<Build>): seq<Action> {
    var slug := OrElse(instanceSlug, "local");
    [PutNode(JenkinsInstance(slug), JENKINS, JENKINS_INSTANCE, slug, None)]
    + Each(jobs, JobActions(slug)) + Each(builds, BuildActions(slug))
  }

  function ImageName(image: Image): string {
    if image.repoTags == [] then image.id else image.repoTags[0]
  }

  function ImageActions(slug: string): Image -> seq<Action> {
    (image: Image) =>
      var name := ImageName(image);
      [PutNode(DockerImage(slug, name), DOCKER, DOCKER_IMAGE, name, None),
       PutEdge(DockerEngine(slug), DockerImage(slug, name), CONTAINS)]
  }

  /** The name of the last image registered under this name or id. */
  function ImageCalled(images: seq<Image>, ref: string): Option<string> {
    if images == [] then None
    else
      var last := images[|images| - 1];
      if ImageName(last) == ref || last.id == ref then Some(ImageName(last))
      else ImageCalled(images[..|images| - 1], ref)
  }

  /** A container's image, by its image reference or else by its image id. */
  function ImageOf(images: seq<Image>, container: Container): Option<string> {
    match ImageCalled(images, container.image)
    case Some(name) => Some(name)
    case None => ImageCalled(images, OrElse(container.imageId, ""))
  }

  function ContainerHealth(container: Container): Option<string> {
    if container.health.Some? then container.health else Some(container.state)
  }

  function ImageEdge(slug: string, images: seq<Image>, container: Container): seq<Action> {
    var node := DockerContainer(slug, OrId(container.name, container.id));
    match ImageOf(images, container)
    case None => []
    case Some(image) => [PutEdge(node, DockerImage(slug, image), USES_IMAGE)]
  }

  function ContainerActions(slug: string, images: seq<Image>): Container -> seq<Action> {
    (container: Container) =>
      var name := OrId(container.name, container.id);
      [PutNode(DockerContainer(slug, name), DOCKER, DOCKER_CONTAINER, name, ContainerHealth(container)),
       PutEdge(DockerEngine(slug), DockerContainer(slug, name), CONTAINS)]
      + ImageEdge(slug, images, container)
  }

  function NetworkActions(slug: string): Network -> seq<Action> {
    (network: Network) =>
      var name := OrId(network.name, network.id);
      [PutNode(DockerNetwork(slug, name), DOCKER, DOCKER_NETWORK, name, None),
       PutEdge(DockerEngine(slug), DockerNetwork(slug, name), CONTAINS)]
  }

  function VolumeActions(slug: string): Volume -> seq<Action> {
    (volume: Volume) =>
      [PutNode(DockerVolume(slug, volume.name), DOCKER, DOCKER_VOLUME, volume.name, None),
       PutEdge(DockerEngine(slug), DockerVolume(slug, volume.name), CONTAINS)]
  }

  function DockerPlan(d: DockerInventory): seq<Action> {
    var slug := OrElse(d.engineSlug, "local");
    [PutNode(DockerEngine(slug), DOCKER, DOCKER_ENGINE, slug, None)]
    + Each(d.images, ImageActions(slug))
    + Each(d.containers, ContainerActions(slug, d.images))
    + Each(d.networks, NetworkActions(slug))
    + Each(d.volumes, VolumeActions(slug))
  }

  function NamespaceActions(slug: string): Namespace -> seq<Action> {
    (namespace: Namespace) =>
      [PutNode(KubernetesNamespace(slug, namespace.name), KUBERNETES, KUBERNETES_NAMESPACE, namespace.name,
               namespace.status),
       PutEdge(KubernetesCluster(slug), KubernetesNamespace(slug, namespace.name), CONTAINS)]
  }

  function ClusterNodeActions(slug: string): ClusterNode -> seq<Action> {
    (node: ClusterNode) =>
      [PutNode(KubernetesNode(slug, node.name), KUBERNETES, KUBERNETES_NODE, node.name,
               Some(if node.ready then "READY" else "NOT_READY")),
       PutEdge(KubernetesCluster(slug), KubernetesNode(slug, node.name), CONTAINS)]
  }

  predicate Listed(namespaces: seq<Namespace>, name: string) {
    exists i :: 0 <= i < |namespaces| && namespaces[i].name == name
  }

  function MissingNamespace(slug: string, namespaces: seq<Namespace>, name: string): seq<Action> {
    if Listed(namespaces, name) then []
    else [PutNode(KubernetesNamespace(slug, name), KUBERNETES, KUBERNETES_NAMESPACE, name, None)]
  }

  function NamespaceEdge(slug: string, namespaces: seq<Namespace>, name: string, key: Key): seq<Action> {
    if Listed(namespaces, name) then [PutEdge(KubernetesNamespace(slug, name), key, CONTAINS)] else []
  }

  /** A workload's namespace is registered on the way when it was not listed. */
  function WorkloadActions(slug: string, namespaces: seq<Namespace>): Workload -> seq<Action> {
    (workload: Workload) =>
      var namespace := KubernetesNamespace(slug, workload.namespace);
      var key := KubernetesDeployment(slug, workload.namespace, workload.name);
      MissingNamespace(slug, namespaces, workload.namespace)
      + [PutNode(key, KUBERNETES, KUBERNETES_DEPLOYMENT, workload.name, Some(workload.status)),
         PutEdge(namespace, key, CONTAINS)]
  }

  /** Pods and services are linked to listed namespaces only. */
  function PodActions(slug: string, namespaces: seq<Namespace>): Pod -> seq<Action> {
    (pod: Pod) =>
      var key := KubernetesPod(slug, pod.namespace, pod.name);
      [PutNode(key, KUBERNETES, KUBERNETES_POD, pod.name, Some(pod.phase))]
      + NamespaceEdge(slug, namespaces, pod.namespace, key)
  }

  function ServiceActions(slug: string, namespaces: seq<Namespace>): Service -> seq<Action> {
    (service: Service) =>
      var key := KubernetesService(slug, service.namespace, service.name);
      [PutNode(key, KUBERNETES, KUBERNETES_SERVICE, service.name, Some(service.status))]
      + NamespaceEdge(slug, namespaces, service.namespace, key)
  }

  function KubernetesPlan(k: KubernetesInventory): seq<Action> {
    var slug := OrElse(k.clusterSlug, "docker-desktop");
    [PutNode(KubernetesCluster(slug), KUBERNETES, KUBERNETES_CLUSTER, slug, None)]
    + Each(k.namespaces, NamespaceActions(slug))
    + Each(k.nodes, ClusterNodeActions(slug))
    + Each(k.workloads, WorkloadActions(slug, k.namespaces))
    + Each(k.pods, PodActions(slug, k.namespaces))
    + Each(k.services, ServiceActions(slug, k.namespaces))
  }

  function Plan(call: Call): seq<Action> {
    match call
    case RegisterOrganization => OrganizationPlan()
    case RegisterProject(p) => ProjectPlan(p)
    case RegisterEnvironment(e, parent) => EnvironmentPlan(e, parent)
    case RegisterDeployment(d, within, parent) => DeploymentPlan(d, within, parent)
    case RegisterOperation(o) => OperationPlan(o)
    case RegisterJenkins(slug, jobs, builds) => JenkinsPlan(slug, jobs, builds)
    case RegisterDocker(d) => DockerPlan(d)
    case RegisterKubernetes(k) => KubernetesPlan(k)
    case ArchiveStale(_, _) => []
  }

  // ----- The effect of an action ----------------------------------------------

  function Row(provider: Provider, kind: Kind, name: string, health: Option<string>, firstSeenAt: int, now: int)
    : NodeRow
  {
    NodeRow(provider, kind, name, health, firstSeenAt, now, None)
  }

  /** A node is created, or every column but the first sighting is overwritten. */
  function WithNode(g: Graph, id: NodeId, provider: Provider, kind: Kind,
    name: string, health: Option<string>, now: int)
    : Graph
  {
    var first := if id in g.nodes then g.nodes[id].firstSeenAt else now;
    g.(nodes := g.nodes[id := Row(provider, kind, name, health, first, now)])
  }

  function WithEdge(g: Graph, org: Org, id: EdgeId, now: int): Result<Graph, GraphError> {
    if id.0 == id.1 then Err(SelfEdge)
    else if !(id.0 in g.nodes && id.0.0 == org && id.1 in g.nodes && id.1.0 == org) then Err(NodeNotFound)
    else
      var first := if id in g.edges then g.edges[id].firstSeenAt else now;
      Ok(g.(edges := g.edges[id := EdgeRow(first, now, None)]))
  }

  function Act(g: Graph, org: Org, now: int, a: Action): Result<Graph, GraphError> {
    match a
    case Throw(e) => Err(e)
    case PutNode(key, provider, kind, name, health) => (
      match BuildUrn(key)
      case Err(e) => Err(BadSegment(e))
      case Ok(urn) => Ok(WithNode(g, (org, urn), provider, kind, name, health, now)))
    case PutEdge(source, target, edge) => (
      match (BuildUrn(source), BuildUrn(target))
      case (Ok(s), Ok(t)) => WithEdge(g, org, ((org, s), (org, t), edge), now)
      case _ => Err(NodeNotFound))
  }

  function Actor(org: Org, now: int): (Graph, Action) -> Result<Graph, GraphError> {
    (g: Graph, a: Action) => Act(g, org, now, a)
  }

  predicate Stale(row: NodeRow, provider: Provider, olderThan: int) {
    row.provider == provider && row.archivedAt.None? && row.lastSeenAt < olderThan
  }

  function Archived(g: Graph, org: Org, provider: Provider, olderThan: int, now: int): Graph {
    g.(nodes := map id | id in g.nodes ::
      if id.0 == org && Stale(g.nodes[id], provider, olderThan) then g.nodes[id].(archivedAt := Some(now))
      else g.nodes[id])
  }

  /** An edge is refused exactly when it joins a node to itself, or one of its nodes is missing or another
      organization's; otherwise it is there, unarchived, seen now, with its first sighting kept, and nothing else
      changes. */
  lemma EdgeIsTakenExactly(g: Graph, org: Org, id: EdgeId, now: int)
    ensures var r := WithEdge(g, org, id, now);
      var there := id.0 in g.nodes && id.1 in g.nodes && id.0.0 == org && id.1.0 == org;
      && (r == Err(SelfEdge) <==> id.0 == id.1)
      && (r == Err(NodeNotFound) <==> id.0 != id.1 && !there)
      && (r.Ok? <==> id.0 != id.1 && there)
      && (r.Ok? ==>
          && r.value.nodes == g.nodes && r.value.edges.Keys == g.edges.Keys + {id}
          && r.value.edges[id].lastSeenAt == now && r.value.edges[id].archivedAt == None
          && r.value.edges[id].firstSeenAt == (if id in g.edges then g.edges[id].firstSeenAt else now)
          && forall other :: other in g.edges && other != id ==> r.value.edges[other] == g.edges[other])
  {
  }

  /** Archiving touches exactly the organization's unarchived nodes of the provider that were last seen before the time,
      and of those only the archive time. */
  lemma ArchivesStaleExactly(g: Graph, org: Org, provider: Provider, olderThan: int, now: int, id: NodeId)
    requires id in g.nodes
    ensures var row, after := g.nodes[id], Archived(g, org, provider, olderThan, now);
      var stale := id.0 == org && row.provider == provider && row.archivedAt == None && row.lastSeenAt < olderThan;
      && after.edges == g.edges && after.nodes.Keys == g.nodes.Keys
      && (stale ==> after.nodes[id] == row.(archivedAt := Some(now)))
      && (!stale ==> after.nodes[id] == row)
  {
  }

  lemma {:induction false} EachConcat<T>(xs: seq<T>, ys: seq<T>, f: T -> seq<Action>)
    ensures Each(xs + ys, f) == Each(xs, f) + Each(ys, f)
    decreases |ys|
  {
    var all := xs + ys;
    if ys == [] {
      assert all == xs;
    } else {
      assert all[..|all| - 1] == xs + ys[..|ys| - 1];
      EachConcat(xs, ys[..|ys| - 1], f);
    }
  }

  lemma EachOne<T>(x: T, f: T -> seq<Action>)
    ensures Each([x], f) == f(x)
  {
    assert [x][..0] == [];
  }

  /** The loop is at index `i`: its actions so far, the next turn's, and what is left. */
  lemma EachStep<T>(xs: seq<T>, i: nat, f: T -> seq<Action>)
    requires i < |xs|
    ensures Each(xs[..i + 1], f) == Each(xs[..i], f) + f(xs[i])
    ensures Each(xs, f) == Each(xs[..i + 1], f) + Each(xs[i + 1..], f)
  {
    assert xs[..i + 1][..i] == xs[..i];
    EachConcat(xs[..i + 1], xs[i + 1..], f);
    assert xs[..i + 1] + xs[i + 1..] == xs;
  }
}
