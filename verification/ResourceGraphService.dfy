/** The service that fills the resource graph, statement by statement, proved against its plans
    (apps/api/src/modules/resources/resource-graph.service.ts). */
module ResourceGraphService {
  import opened Wrappers
  import opened Text
  import opened Runs
  import opened UrnPrinters
  import opened ResourceGraphPlans
  import opened ResourceGraphContents
  import AutoOps = AutoOpsContents
  import Docker = DockerContents
  import Jenkins = JenkinsContents
  import Kubernetes = KubernetesContents

  /** The node id that belongs to a key. */
  ghost predicate At(org: Org, key: Key, id: NodeId) {
    id.0 == org && BuildUrn(key) == Ok(id.1)
  }

  lemma {:induction false} PerformPair<S, A, E>(act: (S, A) -> Result<S, E>, s: S, a: A, b: A)
    ensures Perform(act, s, [a, b]) ==
      match act(s, a)
      case Err(e) => (s, Some(e))
      case Ok(m) => (
        match act(m, b)
        case Err(e) => (m, Some(e))
        case Ok(n) => (n, None))
  {
    assert [a, b] == [a] + [b];
    PerformConcat(act, s, [a], [b]);
    PerformOne(act, s, a);
    if act(s, a).Ok? {
      PerformOne(act, act(s, a).value, b);
    }
  }

  /** Some actions, and more of them unless they threw. */
  lemma {:induction false} ThenMore<S, A, E>(
    act: (S, A) -> Result<S, E>, s: S, first: seq<A>, m: S, thrown: Option<E>, second: seq<A>, n: S, error: Option<E>)
    requires Perform(act, s, first) == (m, thrown)
    requires if thrown.None? then Perform(act, m, second) == (n, error) else n == m && error == thrown
    ensures Perform(act, s, first + second) == (n, error)
  {
    PerformConcat(act, s, first, second);
  }

  /** A loop that has done its first turns, does one more; when that one throws the whole loop ends so. */
  lemma {:induction false} TurnEnds<T, S, E>(
    act: (S, Action) -> Result<S, E>, s: S, xs: seq<T>, i: nat, f: T -> seq<Action>, m: S, n: S, error: Option<E>)
    requires i < |xs| && Perform(act, s, Each(xs[..i], f)) == (m, None) && Perform(act, m, f(xs[i])) == (n, error)
    ensures Perform(act, s, Each(xs[..i + 1], f)) == (n, error)
    ensures error.Some? ==> Perform(act, s, Each(xs, f)) == (n, error)
  {
    EachStep(xs, i, f);
    PerformConcat(act, s, Each(xs[..i], f), f(xs[i]));
    PerformConcat(act, s, Each(xs[..i + 1], f), Each(xs[i + 1..], f));
  }

  /** A call performed this plan, and returns the node of this key unless it threw. */
  ghost predicate Done(
    org: Org, now: int, plan: seq<Action>, before: Graph, after: Graph, node: Result<NodeId, GraphError>, key: Key)
  {
    match node
    case Err(e) => Perform(Actor(org, now), before, plan) == (after, Some(e))
    case Ok(id) => Perform(Actor(org, now), before, plan) == (after, None) && At(org, key, id)
  }

  lemma DoneThenDone(
    org: Org, now: int, first: seq<Action>, second: seq<Action>, s: Graph, m: Graph, n: Graph,
    a: Result<NodeId, GraphError>, aKey: Key, b: Result<NodeId, GraphError>, bKey: Key)
    requires Done(org, now, first, s, m, a, aKey)
    requires if a.Ok? then Done(org, now, second, m, n, b, bKey) else n == m && b == a
    ensures Done(org, now, first + second, s, n, b, bKey)
  {
    PerformConcat(Actor(org, now), s, first, second);
  }

  /** The map from names and ids to image nodes that the image loop fills. */
  ghost predicate HoldsImages(org: Org, slug: string, images: seq<Image>, nodes: map<string, NodeId>) {
    forall ref ::
      match ImageCalled(images, ref)
      case None => ref !in nodes
      case Some(name) => ref in nodes && At(org, DockerImage(slug, name), nodes[ref])
  }

  lemma ImageSet(org: Org, slug: string, images: seq<Image>, i: nat, nodes: map<string, NodeId>, node: NodeId)
    requires i < |images| && HoldsImages(org, slug, images[..i], nodes)
    requires At(org, DockerImage(slug, ImageName(images[i])), node)
    ensures HoldsImages(org, slug, images[..i + 1], nodes[ImageName(images[i]) := node][images[i].id := node])
  {
    assert images[..i + 1][..i] == images[..i];
  }

  lemma FoundImage(org: Org, slug: string, images: seq<Image>, nodes: map<string, NodeId>, container: Container)
    requires HoldsImages(org, slug, images, nodes)
    ensures
      var imageId := OrElse(container.imageId, "");
      match ImageOf(images, container)
      case None => container.image !in nodes && imageId !in nodes
      case Some(name) =>
        if container.image in nodes then At(org, DockerImage(slug, name), nodes[container.image])
        else imageId in nodes && At(org, DockerImage(slug, name), nodes[imageId])
  {
    assert ImageCalled(images, container.image).None? <==> container.image !in nodes;
  }

  /** The map from names to namespace nodes that the namespace loop fills. */
  ghost predicate HoldsNamespaces(org: Org, slug: string, namespaces: seq<Namespace>, nodes: map<string, NodeId>) {
    forall name ::
      (name in nodes <==> Listed(namespaces, name))
      && (name in nodes ==> At(org, KubernetesNamespace(slug, name), nodes[name]))
  }

  lemma ListedUpTo(namespaces: seq<Namespace>, i: nat, name: string)
    requires i < |namespaces|
    ensures Listed(namespaces[..i + 1], name) <==> Listed(namespaces[..i], name) || name == namespaces[i].name
  {
    var before, after := namespaces[..i], namespaces[..i + 1];
    assert after == before + [namespaces[i]];
    if Listed(before, name) {
      var j :| 0 <= j < |before| && before[j].name == name;
      assert after[j].name == name;
    }
    assert after[i] == namespaces[i];
  }

  lemma NamespaceSet(
    org: Org, slug: string, namespaces: seq<Namespace>, i: nat, nodes: map<string, NodeId>, node: NodeId)
    requires i < |namespaces| && HoldsNamespaces(org, slug, namespaces[..i], nodes)
    requires At(org, KubernetesNamespace(slug, namespaces[i].name), node)
    ensures HoldsNamespaces(org, slug, namespaces[..i + 1], nodes[namespaces[i].name := node])
  {
    forall name
      ensures Listed(namespaces[..i + 1], name) <==> Listed(namespaces[..i], name) || name == namespaces[i].name {
      ListedUpTo(namespaces, i, name);
    }
  }

  function Thrown(node: Result<NodeId, GraphError>): Option<GraphError> {
    match node
    case Err(e) => Some(e)
    case Ok(_) => None
  }

  class ResourceGraph {
    var nodes: map<NodeId, NodeRow>
    var edges: map<EdgeId, EdgeRow>

    constructor ()
      ensures View() == Graph(map[], map[])
    {
      nodes := map[];
      edges := map[];
    }

    function View(): Graph
      reads this
    {
      Graph(nodes, edges)
    }

    method UpsertResourceNode(org: Org, now: int, a: Action) returns (node: Result<NodeId, GraphError>)
      requires a.PutNode?
      modifies this
      ensures match Act(old(View()), org, now, a)
        case Err(e) => node == Err(e) && View() == old(View())
        case Ok(h) => node.Ok? && At(org, a.key, node.value) && View() == h
    {
      match BuildUrn(a.key)
      case Err(e) =>
        node := Err(BadSegment(e));
      case Ok(urn) =>
        var id := (org, urn);
        if id in nodes {
          nodes := nodes[id := Row(a.provider, a.kind, a.name, a.health, nodes[id].firstSeenAt, now)];
        } else {
          nodes := nodes[id := Row(a.provider, a.kind, a.name, a.health, now, now)];
        }
        node := Ok(id);
    }

    method UpsertResourceEdge(org: Org, now: int, source: NodeId, target: NodeId, edge: EdgeType)
      returns (error: Option<GraphError>)
      modifies this
      ensures match WithEdge(old(View()), org, (source, target, edge), now)
        case Err(e) => error == Some(e) && View() == old(View())
        case Ok(h) => error == None && View() == h
    {
      if source == target {
        return Some(SelfEdge);
      }
      if source !in nodes || source.0 != org || target !in nodes || target.0 != org {
        return Some(NodeNotFound);
      }
      var id := (source, target, edge);
      if id in edges {
        edges := edges[id := EdgeRow(edges[id].firstSeenAt, now, None)];
      } else {
        edges := edges[id := EdgeRow(now, now, None)];
      }
      error := None;
    }

    method ArchiveStaleResources(org: Org, provider: Provider, olderThan: int, now: int) returns (count: nat)
      modifies this
      ensures View() == Archived(old(View()), org, provider, olderThan, now)
      ensures count == |set id | id in old(nodes) && id.0 == org && old(nodes)[id].provider == provider
                                 && old(nodes)[id].archivedAt.None? && old(nodes)[id].lastSeenAt < olderThan|
    {
      var stale := set id | id in nodes && id.0 == org && Stale(nodes[id], provider, olderThan);
      nodes := map id | id in nodes :: if id in stale then nodes[id].(archivedAt := Some(now)) else nodes[id];
      count := |stale|;
      assert stale == set id | id in old(nodes) && id.0 == org && old(nodes)[id].provider == provider
                               && old(nodes)[id].archivedAt.None? && old(nodes)[id].lastSeenAt < olderThan;
    }

    // ----- The AutoOps calls --------------------------------------------------

    method RegisterAutoOpsOrganizationNode(org: Org, now: int) returns (node: Result<NodeId, GraphError>)
      modifies this
      ensures Done(org, now, OrganizationPlan(), old(View()), View(), node, Organization)
      ensures node.Ok? ==>
        AutoOps.ItemsRecorded(Printed, old(View()), View(), org, now, {AutoOps.OrganizationItem()}, {})
    {
      node := UpsertResourceNode(org, now, OrganizationPlan()[0]);
      PerformOne(Actor(org, now), old(View()), OrganizationPlan()[0]);
      if node.Ok? {
        AutoOps.OrganizationRegistered(old(View()), View(), org, now);
      }
    }

    /** A child node and the edge to it from a parent node. */
    method AddChild(org: Org, now: int, parent: NodeId, a: Action, edge: EdgeType, ghost parentKey: Key)
      returns (node: Result<NodeId, GraphError>)
      requires a.PutNode? && At(org, parentKey, parent)
      modifies this
      ensures Done(org, now, [a, PutEdge(parentKey, a.key, edge)], old(View()), View(), node, a.key)
    {
      node := UpsertResourceNode(org, now, a);
      PerformPair(Actor(org, now), old(View()), a, PutEdge(parentKey, a.key, edge));
      if node.Ok? {
        var error := UpsertResourceEdge(org, now, parent, node.value, edge);
        if error.Some? {
          node := Err(error.value);
        }
      }
    }

    method RegisterAutoOpsProjectNode(org: Org, now: int, project: ProjectInput)
      returns (node: Result<NodeId, GraphError>)
      modifies this
      ensures Done(org, now, ProjectPlan(project), old(View()), View(), node, Project(project.id))
      ensures node.Ok? ==> AutoOps.ItemsRecorded(Printed, old(View()), View(), org, now,
        {AutoOps.OrganizationItem(), AutoOps.ProjectItem(project)}, {Link(Organization, Project(project.id), OWNS)})
    {
      var parent := RegisterAutoOpsOrganizationNode(org, now);
      ghost var m := View();
      node := parent;
      if parent.Ok? {
        node := AddChild(org, now, parent.value, PutNode(Project(project.id), AUTOOPS, PROJECT, project.slug, None),
          OWNS, Organization);
      }
      DoneThenDone(org, now, OrganizationPlan(), ProjectPlan(project)[1..], old(View()), m,
        View(), parent, Organization,
        node, Project(project.id));
      if node.Ok? {
        AutoOps.ProjectRegistered(old(View()), View(), org, now, project);
      }
    }

    /** `parent` is the project found for the environment. */
    method RegisterAutoOpsEnvironmentNode(
      org: Org, now: int, environment: EnvironmentInput, parent: Option<ProjectInput>)
      returns (node: Result<NodeId, GraphError>)
      modifies this
      ensures Done(org, now, EnvironmentPlan(environment, parent), old(View()), View(), node,
        Environment(environment.id))
      ensures parent.None? ==> node == Err(ParentNotFound) && View() == old(View())
      ensures node.Ok? ==> parent.Some? && AutoOps.ItemsRecorded(Printed, old(View()), View(), org, now,
        {AutoOps.OrganizationItem(), AutoOps.ProjectItem(parent.value), AutoOps.EnvironmentItem(environment)},
        {Link(Organization, Project(parent.value.id), OWNS),
         Link(Project(parent.value.id), Environment(environment.id), CONTAINS)})
    {
      match parent
      case None =>
        node := Err(ParentNotFound);
        PerformOne(Actor(org, now), View(), Throw(ParentNotFound));
      case Some(p) =>
        var project := RegisterAutoOpsProjectNode(org, now, p);
        ghost var m := View();
        node := project;
        if project.Ok? {
          node := AddChild(org, now, project.value,
            PutNode(Environment(environment.id), AUTOOPS, ENVIRONMENT, environment.slug, None),
            CONTAINS, Project(p.id));
        }
        DoneThenDone(org, now, ProjectPlan(p), EnvironmentPlan(environment, parent)[|ProjectPlan(p)|..], old(View()), m,
          View(), project, Project(p.id), node, Environment(environment.id));
      if node.Ok? {
        AutoOps.EnvironmentRegistered(old(View()), View(), org, now, environment, parent);
      }
    }

    /** `within` is the environment found for the deployment, and `parent` its project. */
    method RegisterAutoOpsDeploymentNode(
      org: Org, now: int, deployment: DeploymentInput, within: Option<EnvironmentInput>, parent: Option<ProjectInput>)
      returns (node: Result<NodeId, GraphError>)
      modifies this
      ensures Done(org, now, DeploymentPlan(deployment, within, parent), old(View()), View(), node,
        Deployment(deployment.id))
      ensures within.None? || parent.None? ==> node == Err(ParentNotFound) && View() == old(View())
      ensures node.Ok? ==> within.Some? && parent.Some? && AutoOps.ItemsRecorded(Printed, old(View()), View(), org, now,
        {AutoOps.OrganizationItem(), AutoOps.ProjectItem(parent.value), AutoOps.EnvironmentItem(within.value),
         AutoOps.DeploymentItem(deployment)},
        {Link(Organization, Project(parent.value.id), OWNS),
         Link(Project(parent.value.id), Environment(within.value.id), CONTAINS),
         Link(Environment(within.value.id), Deployment(deployment.id), CONTAINS)})
    {
      match within
      case None =>
        node := Err(ParentNotFound);
        PerformOne(Actor(org, now), View(), Throw(ParentNotFound));
      case Some(e) =>
        var environment := RegisterAutoOpsEnvironmentNode(org, now, e, parent);
        ghost var m := View();
        node := environment;
        if environment.Ok? {
          node := AddChild(org, now, environment.value,
            PutNode(Deployment(deployment.id), AUTOOPS, DEPLOYMENT, deployment.id, Some(deployment.status)), CONTAINS,
            Environment(e.id));
        }
        ghost var first := EnvironmentPlan(e, parent);
        DoneThenDone(org, now, first, DeploymentPlan(deployment, within, parent)[|first|..], old(View()), m, View(),
          environment, Environment(e.id), node, Deployment(deployment.id));
      if node.Ok? {
        AutoOps.DeploymentRegistered(old(View()), View(), org, now, deployment, within.value, parent.value);
      }
    }

    method RegisterAutoOpsOperationNode(org: Org, now: int, operation: OperationInput)
      returns (node: Result<NodeId, GraphError>)
      modifies this
      ensures Done(org, now, OperationPlan(operation), old(View()), View(), node, Operation(operation.id))
      ensures node.Ok? ==>
        AutoOps.ItemsRecorded(Printed, old(View()), View(), org, now, {AutoOps.OperationItem(operation)}, {})
    {
      node := UpsertResourceNode(org, now, OperationPlan(operation)[0]);
      PerformOne(Actor(org, now), old(View()), OperationPlan(operation)[0]);
      if node.Ok? {
        AutoOps.OperationRegistered(old(View()), View(), org, now, operation);
      }
    }

    // ----- Jenkins ------------------------------------------------------------

    method RegisterJobs(org: Org, now: int, slug: string, instance: NodeId, jobs: seq<Job>)
      returns (error: Option<GraphError>)
      requires At(org, JenkinsInstance(slug), instance)
      modifies this
      ensures Perform(Actor(org, now), old(View()), Each(jobs, JobActions(slug))) == (View(), error)
    {
      ghost var act, f := Actor(org, now), JobActions(slug);
      for i := 0 to |jobs|
        invariant Perform(act, old(View()), Each(jobs[..i], f)) == (View(), None)
      {
        ghost var m := View();
        var name := OrElse(jobs[i].fullName, jobs[i].name);
        var job := AddChild(org, now, instance,
          PutNode(JenkinsJob(slug, name), JENKINS, JENKINS_JOB, name, jobs[i].status), CONTAINS, JenkinsInstance(slug));
        error := Thrown(job);
        TurnEnds(act, old(View()), jobs, i, f, m, View(), error);
        if error.Some? {
          return;
        }
      }
      error := None;
      assert jobs[..|jobs|] == jobs;
    }

    method RegisterBuilds(org: Org, now: int, slug: string, builds: seq<Build>) returns (error: Option<GraphError>)
      modifies this
      ensures Perform(Actor(org, now), old(View()), Each(builds, BuildActions(slug))) == (View(), error)
    {
      ghost var act, f := Actor(org, now), BuildActions(slug);
      for i := 0 to |builds|
        invariant Perform(act, old(View()), Each(builds[..i], f)) == (View(), None)
      {
        ghost var m := View();
        var name, number := builds[i].jobName, Decimal(builds[i].number);
        var job := UpsertResourceNode(org, now, PutNode(JenkinsJob(slug, name), JENKINS, JENKINS_JOB, name, None));
        error := Thrown(job);
        ghost var n := View();
        if job.Ok? {
          var build := AddChild(org, now, job.value,
            PutNode(JenkinsBuild(slug, name, number), JENKINS, JENKINS_BUILD, number, BuildHealth(builds[i])), BUILDS,
            JenkinsJob(slug, name));
          error := Thrown(build);
        }
        ghost var acts := f(builds[i]);
        PerformOne(act, m, acts[0]);
        ThenMore(act, m, [acts[0]], n, Thrown(job), [acts[1], acts[2]], View(), error);
        assert acts == [acts[0]] + [acts[1], acts[2]];
        TurnEnds(act, old(View()), builds, i, f, m, View(), error);
        if error.Some? {
          return;
        }
      }
      error := None;
      assert builds[..|builds|] == builds;
    }

    method RegisterJenkinsInventory(
      org: Org, now: int, instanceSlug: Option<string>, jobs: seq<Job>, builds: seq<Build>)
      returns (error: Option<GraphError>)
      modifies this
      ensures Perform(Actor(org, now), old(View()), JenkinsPlan(instanceSlug, jobs, builds)) == (View(), error)
      ensures error.None? ==>
        Jenkins.JenkinsRecorded(Printed, old(View()), View(), org, now, instanceSlug, jobs, builds)
    {
      ghost var act, s := Actor(org, now), View();
      var slug := OrElse(instanceSlug, "local");
      ghost var root := [PutNode(JenkinsInstance(slug), JENKINS, JENKINS_INSTANCE, slug, None)];
      ghost var a, b := Each(jobs, JobActions(slug)), Each(builds, BuildActions(slug));
      PerformConcat(act, s, root + a, b);
      PerformConcat(act, s, root, a);
      PerformOne(act, s, root[0]);
      var instance := UpsertResourceNode(
        org, now, PutNode(JenkinsInstance(slug), JENKINS, JENKINS_INSTANCE, slug, None));
      if instance.Err? {
        return Some(instance.error);
      }
      error := RegisterJobs(org, now, slug, instance.value, jobs);
      if error.Some? {
        return;
      }
      error := RegisterBuilds(org, now, slug, builds);
      if error.None? {
        Jenkins.Registered(old(View()), View(), org, now, instanceSlug, jobs, builds);
      }
    }

    // ----- Docker -------------------------------------------------------------

    method RegisterImages(org: Org, now: int, slug: string, engine: NodeId, images: seq<Image>)
      returns (error: Option<GraphError>, imageNodes: map<string, NodeId>)
      requires At(org, DockerEngine(slug), engine)
      modifies this
      ensures Perform(Actor(org, now), old(View()), Each(images, ImageActions(slug))) == (View(), error)
      ensures error.None? ==> HoldsImages(org, slug, images, imageNodes)
    {
      ghost var act, f := Actor(org, now), ImageActions(slug);
      imageNodes := map[];
      for i := 0 to |images|
        invariant Perform(act, old(View()), Each(images[..i], f)) == (View(), None)
        invariant HoldsImages(org, slug, images[..i], imageNodes)
      {
        ghost var m := View();
        var name := ImageName(images[i]);
        var image := AddChild(org, now, engine, PutNode(DockerImage(slug, name), DOCKER, DOCKER_IMAGE, name, None),
          CONTAINS, DockerEngine(slug));
        error := Thrown(image);
        TurnEnds(act, old(View()), images, i, f, m, View(), error);
        if image.Err? {
          return;
        }
        ImageSet(org, slug, images, i, imageNodes, image.value);
        imageNodes := imageNodes[name := image.value][images[i].id := image.value];
      }
      error := None;
      assert images[..|images|] == images;
    }

    /** A container's edge to its image, found by reference or else by id. */
    method LinkImage(
      org: Org, now: int, slug: string, node: NodeId, ghost images: seq<Image>, imageNodes: map<string, NodeId>,
      container: Container)
      returns (error: Option<GraphError>)
      requires HoldsImages(org, slug, images, imageNodes)
      requires At(org, DockerContainer(slug, OrId(container.name, container.id)), node)
      modifies this
      ensures Perform(Actor(org, now), old(View()), ImageEdge(slug, images, container)) == (View(), error)
    {
      ghost var acts := ImageEdge(slug, images, container);
      var imageId := OrElse(container.imageId, "");
      FoundImage(org, slug, images, imageNodes, container);
      error := None;
      if acts != [] {
        PerformOne(Actor(org, now), View(), acts[0]);
      }
      if container.image in imageNodes {
        error := UpsertResourceEdge(org, now, node, imageNodes[container.image], USES_IMAGE);
      } else if imageId in imageNodes {
        error := UpsertResourceEdge(org, now, node, imageNodes[imageId], USES_IMAGE);
      }
    }

    method RegisterContainers(
      org: Org, now: int, slug: string, engine: NodeId, ghost images: seq<Image>, imageNodes: map<string, NodeId>,
      containers: seq<Container>)
      returns (error: Option<GraphError>)
      requires At(org, DockerEngine(slug), engine) && HoldsImages(org, slug, images, imageNodes)
      modifies this
      ensures Perform(Actor(org, now), old(View()), Each(containers, ContainerActions(slug, images))) == (View(), error)
    {
      ghost var act, f := Actor(org, now), ContainerActions(slug, images);
      for i := 0 to |containers|
        invariant Perform(act, old(View()), Each(containers[..i], f)) == (View(), None)
      {
        ghost var m := View();
        var name := OrId(containers[i].name, containers[i].id);
        var node := PutNode(
          DockerContainer(slug, name), DOCKER, DOCKER_CONTAINER, name, ContainerHealth(containers[i]));
        var container := AddChild(org, now, engine, node, CONTAINS, DockerEngine(slug));
        error := Thrown(container);
        ghost var n := View();
        if container.Ok? {
          error := LinkImage(org, now, slug, container.value, images, imageNodes, containers[i]);
        }
        ThenMore(act, m, [node, PutEdge(DockerEngine(slug), node.key, CONTAINS)], n, Thrown(container),
          ImageEdge(slug, images, containers[i]), View(), error);
        TurnEnds(act, old(View()), containers, i, f, m, View(), error);
        if error.Some? {
          return;
        }
      }
      error := None;
      assert containers[..|containers|] == containers;
    }

    method RegisterNetworks(org: Org, now: int, slug: string, engine: NodeId, networks: seq<Network>)
      returns (error: Option<GraphError>)
      requires At(org, DockerEngine(slug), engine)
      modifies this
      ensures Perform(Actor(org, now), old(View()), Each(networks, NetworkActions(slug))) == (View(), error)
    {
      ghost var act, f := Actor(org, now), NetworkActions(slug);
      for i := 0 to |networks|
        invariant Perform(act, old(View()), Each(networks[..i], f)) == (View(), None)
      {
        ghost var m := View();
        var name := OrId(networks[i].name, networks[i].id);
        var network := AddChild(org, now, engine,
          PutNode(DockerNetwork(slug, name), DOCKER, DOCKER_NETWORK, name, None), CONTAINS, DockerEngine(slug));
        error := Thrown(network);
        TurnEnds(act, old(View()), networks, i, f, m, View(), error);
        if error.Some? {
          return;
        }
      }
      error := None;
      assert networks[..|networks|] == networks;
    }

    method RegisterVolumes(org: Org, now: int, slug: string, engine: NodeId, volumes: seq<Volume>)
      returns (error: Option<GraphError>)
      requires At(org, DockerEngine(slug), engine)
      modifies this
      ensures Perform(Actor(org, now), old(View()), Each(volumes, VolumeActions(slug))) == (View(), error)
    {
      ghost var act, f := Actor(org, now), VolumeActions(slug);
      for i := 0 to |volumes|
        invariant Perform(act, old(View()), Each(volumes[..i], f)) == (View(), None)
      {
        ghost var m := View();
        var name := volumes[i].name;
        var volume := AddChild(org, now, engine,
          PutNode(DockerVolume(slug, name), DOCKER, DOCKER_VOLUME, name, None), CONTAINS, DockerEngine(slug));
        error := Thrown(volume);
        TurnEnds(act, old(View()), volumes, i, f, m, View(), error);
        if error.Some? {
          return;
        }
      }
      error := None;
      assert volumes[..|volumes|] == volumes;
    }

    method RegisterDockerInventory(org: Org, now: int, d: DockerInventory) returns (error: Option<GraphError>)
      modifies this
      ensures Perform(Actor(org, now), old(View()), DockerPlan(d)) == (View(), error)
      ensures error.None? ==> Docker.DockerRecorded(Printed, old(View()), View(), org, now, d)
    {
      ghost var act, s := Actor(org, now), View();
      var slug := OrElse(d.engineSlug, "local");
      var root := PutNode(DockerEngine(slug), DOCKER, DOCKER_ENGINE, slug, None);
      ghost var p1 := [root] + Each(d.images, ImageActions(slug));
      ghost var p2 := p1 + Each(d.containers, ContainerActions(slug, d.images));
      ghost var p3 := p2 + Each(d.networks, NetworkActions(slug));
      PerformOne(act, s, root);
      PerformConcat(act, s, [root], Each(d.images, ImageActions(slug)));
      PerformConcat(act, s, p1, Each(d.containers, ContainerActions(slug, d.images)));
      PerformConcat(act, s, p2, Each(d.networks, NetworkActions(slug)));
      PerformConcat(act, s, p3, Each(d.volumes, VolumeActions(slug)));
      var engine := UpsertResourceNode(org, now, root);
      if engine.Err? {
        return Some(engine.error);
      }
      var imageNodes;
      error, imageNodes := RegisterImages(org, now, slug, engine.value, d.images);
      if error.Some? {
        return;
      }
      error := RegisterContainers(org, now, slug, engine.value, d.images, imageNodes, d.containers);
      if error.Some? {
        return;
      }
      error := RegisterNetworks(org, now, slug, engine.value, d.networks);
      if error.Some? {
        return;
      }
      error := RegisterVolumes(org, now, slug, engine.value, d.volumes);
      if error.None? {
        Docker.Registered(old(View()), View(), org, now, d);
      }
    }

    // ----- Kubernetes ---------------------------------------------------------

    method RegisterNamespaces(org: Org, now: int, slug: string, cluster: NodeId, namespaces: seq<Namespace>)
      returns (error: Option<GraphError>, namespaceNodes: map<string, NodeId>)
      requires At(org, KubernetesCluster(slug), cluster)
      modifies this
      ensures Perform(Actor(org, now), old(View()), Each(namespaces, NamespaceActions(slug))) == (View(), error)
      ensures error.None? ==> HoldsNamespaces(org, slug, namespaces, namespaceNodes)
    {
      ghost var act, f := Actor(org, now), NamespaceActions(slug);
      namespaceNodes := map[];
      for i := 0 to |namespaces|
        invariant Perform(act, old(View()), Each(namespaces[..i], f)) == (View(), None)
        invariant HoldsNamespaces(org, slug, namespaces[..i], namespaceNodes)
      {
        ghost var m := View();
        var name := namespaces[i].name;
        var namespace := AddChild(org, now, cluster,
          PutNode(KubernetesNamespace(slug, name), KUBERNETES, KUBERNETES_NAMESPACE, name, namespaces[i].status),
          CONTAINS, KubernetesCluster(slug));
        error := Thrown(namespace);
        TurnEnds(act, old(View()), namespaces, i, f, m, View(), error);
        if namespace.Err? {
          return;
        }
        NamespaceSet(org, slug, namespaces, i, namespaceNodes, namespace.value);
        namespaceNodes := namespaceNodes[name := namespace.value];
      }
      error := None;
      assert namespaces[..|namespaces|] == namespaces;
    }

    method RegisterClusterNodes(org: Org, now: int, slug: string, cluster: NodeId, clusterNodes: seq<ClusterNode>)
      returns (error: Option<GraphError>)
      requires At(org, KubernetesCluster(slug), cluster)
      modifies this
      ensures Perform(Actor(org, now), old(View()), Each(clusterNodes, ClusterNodeActions(slug))) == (View(), error)
    {
      ghost var act, f := Actor(org, now), ClusterNodeActions(slug);
      for i := 0 to |clusterNodes|
        invariant Perform(act, old(View()), Each(clusterNodes[..i], f)) == (View(), None)
      {
        ghost var m := View();
        var name := clusterNodes[i].name;
        var health := Some(if clusterNodes[i].ready then "READY" else "NOT_READY");
        var node := AddChild(org, now, cluster,
          PutNode(KubernetesNode(slug, name), KUBERNETES, KUBERNETES_NODE, name, health), CONTAINS,
          KubernetesCluster(slug));
        error := Thrown(node);
        TurnEnds(act, old(View()), clusterNodes, i, f, m, View(), error);
        if error.Some? {
          return;
        }
      }
      error := None;
      assert clusterNodes[..|clusterNodes|] == clusterNodes;
    }

    /** A workload's namespace node: the listed one, or one registered now. */
    method NamespaceOf(
      org: Org, now: int, slug: string, ghost namespaces: seq<Namespace>, namespaceNodes: map<string, NodeId>,
      name: string)
      returns (node: Result<NodeId, GraphError>)
      requires HoldsNamespaces(org, slug, namespaces, namespaceNodes)
      modifies this
      ensures Done(org, now, MissingNamespace(slug, namespaces, name), old(View()), View(), node,
        KubernetesNamespace(slug, name))
    {
      if name in namespaceNodes {
        node := Ok(namespaceNodes[name]);
      } else {
        var a := PutNode(KubernetesNamespace(slug, name), KUBERNETES, KUBERNETES_NAMESPACE, name, None);
        PerformOne(Actor(org, now), View(), a);
        node := UpsertResourceNode(org, now, a);
      }
    }

    method RegisterWorkloads(
      org: Org, now: int, slug: string, ghost namespaces: seq<Namespace>, namespaceNodes: map<string, NodeId>,
      workloads: seq<Workload>)
      returns (error: Option<GraphError>)
      requires HoldsNamespaces(org, slug, namespaces, namespaceNodes)
      modifies this
      ensures Perform(Actor(org, now), old(View()),
        Each(workloads, WorkloadActions(slug, namespaces))) == (View(), error)
    {
      ghost var act, f := Actor(org, now), WorkloadActions(slug, namespaces);
      for i := 0 to |workloads|
        invariant Perform(act, old(View()), Each(workloads[..i], f)) == (View(), None)
      {
        ghost var m := View();
        var w := workloads[i];
        var key := KubernetesDeployment(slug, w.namespace, w.name);
        var namespace := NamespaceOf(org, now, slug, namespaces, namespaceNodes, w.namespace);
        error := Thrown(namespace);
        ghost var n := View();
        ghost var parent := KubernetesNamespace(slug, w.namespace);
        var node := PutNode(key, KUBERNETES, KUBERNETES_DEPLOYMENT, w.name, Some(w.status));
        if namespace.Ok? {
          var workload := AddChild(org, now, namespace.value, node, CONTAINS, parent);
          error := Thrown(workload);
        }
        ThenMore(act, m, MissingNamespace(slug, namespaces, w.namespace), n, Thrown(namespace),
          [node, PutEdge(parent, key, CONTAINS)], View(), error);
        TurnEnds(act, old(View()), workloads, i, f, m, View(), error);
        if error.Some? {
          return;
        }
      }
      error := None;
      assert workloads[..|workloads|] == workloads;
    }

    /** A node, and its edge from its namespace when that was listed. */
    method AddToNamespace(
      org: Org, now: int, slug: string, ghost namespaces: seq<Namespace>, namespaceNodes: map<string, NodeId>,
      name: string, a: Action)
      returns (error: Option<GraphError>)
      requires HoldsNamespaces(org, slug, namespaces, namespaceNodes) && a.PutNode?
      modifies this
      ensures Perform(Actor(org, now), old(View()),
        [a] + NamespaceEdge(slug, namespaces, name, a.key)) == (View(), error)
    {
      ghost var act, s := Actor(org, now), View();
      ghost var more := NamespaceEdge(slug, namespaces, name, a.key);
      var node := UpsertResourceNode(org, now, a);
      error := Thrown(node);
      ghost var m := View();
      PerformOne(act, s, a);
      if node.Ok? && name in namespaceNodes {
        PerformOne(act, m, more[0]);
        error := UpsertResourceEdge(org, now, namespaceNodes[name], node.value, CONTAINS);
      }
      ThenMore(act, s, [a], m, Thrown(node), more, View(), error);
    }

    method RegisterPods(
      org: Org, now: int, slug: string, ghost namespaces: seq<Namespace>, namespaceNodes: map<string, NodeId>,
      pods: seq<Pod>)
      returns (error: Option<GraphError>)
      requires HoldsNamespaces(org, slug, namespaces, namespaceNodes)
      modifies this
      ensures Perform(Actor(org, now), old(View()), Each(pods, PodActions(slug, namespaces))) == (View(), error)
    {
      ghost var act, f := Actor(org, now), PodActions(slug, namespaces);
      for i := 0 to |pods|
        invariant Perform(act, old(View()), Each(pods[..i], f)) == (View(), None)
      {
        ghost var m := View();
        var pod := pods[i];
        error := AddToNamespace(org, now, slug, namespaces, namespaceNodes, pod.namespace,
          PutNode(KubernetesPod(slug, pod.namespace, pod.name), KUBERNETES, KUBERNETES_POD, pod.name, Some(pod.phase)));
        TurnEnds(act, old(View()), pods, i, f, m, View(), error);
        if error.Some? {
          return;
        }
      }
      error := None;
      assert pods[..|pods|] == pods;
    }

    method RegisterServices(
      org: Org, now: int, slug: string, ghost namespaces: seq<Namespace>, namespaceNodes: map<string, NodeId>,
      services: seq<Service>)
      returns (error: Option<GraphError>)
      requires HoldsNamespaces(org, slug, namespaces, namespaceNodes)
      modifies this
      ensures Perform(Actor(org, now), old(View()), Each(services, ServiceActions(slug, namespaces))) == (View(), error)
    {
      ghost var act, f := Actor(org, now), ServiceActions(slug, namespaces);
      for i := 0 to |services|
        invariant Perform(act, old(View()), Each(services[..i], f)) == (View(), None)
      {
        ghost var m := View();
        var service := services[i];
        error := AddToNamespace(org, now, slug, namespaces, namespaceNodes, service.namespace,
          PutNode(KubernetesService(slug, service.namespace, service.name), KUBERNETES, KUBERNETES_SERVICE,
                  service.name, Some(service.status)));
        TurnEnds(act, old(View()), services, i, f, m, View(), error);
        if error.Some? {
          return;
        }
      }
      error := None;
      assert services[..|services|] == services;
    }

    method RegisterKubernetesInventory(org: Org, now: int, k: KubernetesInventory) returns (error: Option<GraphError>)
      modifies this
      ensures Perform(Actor(org, now), old(View()), KubernetesPlan(k)) == (View(), error)
      ensures error.None? ==> Kubernetes.KubernetesRecorded(Printed, old(View()), View(), org, now, k)
    {
      ghost var act, s := Actor(org, now), View();
      var slug := OrElse(k.clusterSlug, "docker-desktop");
      var root := PutNode(KubernetesCluster(slug), KUBERNETES, KUBERNETES_CLUSTER, slug, None);
      ghost var p1 := [root] + Each(k.namespaces, NamespaceActions(slug));
      ghost var p2 := p1 + Each(k.nodes, ClusterNodeActions(slug));
      ghost var p3 := p2 + Each(k.workloads, WorkloadActions(slug, k.namespaces));
      ghost var p4 := p3 + Each(k.pods, PodActions(slug, k.namespaces));
      PerformOne(act, s, root);
      PerformConcat(act, s, [root], Each(k.namespaces, NamespaceActions(slug)));
      PerformConcat(act, s, p1, Each(k.nodes, ClusterNodeActions(slug)));
      PerformConcat(act, s, p2, Each(k.workloads, WorkloadActions(slug, k.namespaces)));
      PerformConcat(act, s, p3, Each(k.pods, PodActions(slug, k.namespaces)));
      PerformConcat(act, s, p4, Each(k.services, ServiceActions(slug, k.namespaces)));
      var cluster := UpsertResourceNode(org, now, root);
      if cluster.Err? {
        return Some(cluster.error);
      }
      var namespaceNodes;
      error, namespaceNodes := RegisterNamespaces(org, now, slug, cluster.value, k.namespaces);
      if error.Some? {
        return;
      }
      error := RegisterClusterNodes(org, now, slug, cluster.value, k.nodes);
      if error.Some? {
        return;
      }
      error := RegisterWorkloads(org, now, slug, k.namespaces, namespaceNodes, k.workloads);
      if error.Some? {
        return;
      }
      error := RegisterPods(org, now, slug, k.namespaces, namespaceNodes, k.pods);
      if error.Some? {
        return;
      }
      error := RegisterServices(org, now, slug, k.namespaces, namespaceNodes, k.services);
      if error.None? {
        Kubernetes.Registered(old(View()), View(), org, now, k);
      }
    }
  }
}
