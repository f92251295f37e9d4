/** What every run of inventory calls keeps: a kind per URN, edges inside one organization, no cycle. */
module ResourceGraphLaws {
  import opened Wrappers
  import opened Text
  import opened Runs
  import opened ResourceUrn
  import opened UrnPrinters
  import opened ResourceGraphPlans

  // ----- Kinds and ranks ------------------------------------------------------

  function KindOf(k: Key): Kind {
    match k
    case Organization => ORGANIZATION
    case Project(_) => PROJECT
    case Environment(_) => ENVIRONMENT
    case Deployment(_) => DEPLOYMENT
    case Operation(_) => OPERATION
    case JenkinsInstance(_) => JENKINS_INSTANCE
    case JenkinsJob(_, _) => JENKINS_JOB
    case JenkinsBuild(_, _, _) => JENKINS_BUILD
    case DockerEngine(_) => DOCKER_ENGINE
    case DockerContainer(_, _) => DOCKER_CONTAINER
    case DockerImage(_, _) => DOCKER_IMAGE
    case DockerNetwork(_, _) => DOCKER_NETWORK
    case DockerVolume(_, _) => DOCKER_VOLUME
    case KubernetesCluster(_) => KUBERNETES_CLUSTER
    case KubernetesNamespace(_, _) => KUBERNETES_NAMESPACE
    case KubernetesNode(_, _) => KUBERNETES_NODE
    case KubernetesDeployment(_, _, _) => KUBERNETES_DEPLOYMENT
    case KubernetesPod(_, _, _) => KUBERNETES_POD
    case KubernetesService(_, _, _) => KUBERNETES_SERVICE
  }

  function ProviderOf(kind: Kind): Provider {
    match kind
    case ORGANIZATION => AUTOOPS
    case PROJECT => AUTOOPS
    case ENVIRONMENT => AUTOOPS
    case DEPLOYMENT => AUTOOPS
    case OPERATION => AUTOOPS
    case JENKINS_INSTANCE => JENKINS
    case JENKINS_JOB => JENKINS
    case JENKINS_BUILD => JENKINS
    case DOCKER_ENGINE => DOCKER
    case DOCKER_CONTAINER => DOCKER
    case DOCKER_IMAGE => DOCKER
    case DOCKER_NETWORK => DOCKER
    case DOCKER_VOLUME => DOCKER
    case _ => KUBERNETES
  }

  /** How deep below its provider's root a kind sits; the kinds of a Jenkins instance are levelled below. */
  function Rank(kind: Kind): nat {
    match kind
    case ORGANIZATION => 0
    case OPERATION => 0
    case JENKINS_INSTANCE => 0
    case DOCKER_ENGINE => 0
    case KUBERNETES_CLUSTER => 0
    case PROJECT => 1
    case JENKINS_JOB => 1
    case DOCKER_CONTAINER => 1
    case DOCKER_NETWORK => 1
    case DOCKER_VOLUME => 1
    case KUBERNETES_NAMESPACE => 1
    case KUBERNETES_NODE => 1
    case DEPLOYMENT => 3
    case _ => 2
  }

  /** The kind that the text of a URN fixes. */
  function UrnKind(urn: string): Option<Kind> {
    match ReadUrn(urn)
    case None => None
    case Some(k) => Some(KindOf(k))
  }

  /** A key whose URN is read back: anything but a build of an instance named "job/...". */
  ghost predicate Clear(k: Key) {
    PlainNumber(k) && (SanitizeKey(k).Ok? ==> RewriteMeetsKind(SanitizeKey(k).value))
  }

  lemma KindOfUrn(k: Key)
    requires Clear(k) && BuildUrn(k).Ok?
    ensures UrnKind(BuildUrn(k).value) == Some(KindOf(k))
  {
    SanitizedKey(k);
    ReadUrnOfPrint(SanitizeKey(k).value);
  }

  lemma OtherKeysAreClear(k: Key)
    requires !k.JenkinsBuild?
    ensures Clear(k)
  {
  }

  /** What the caller has to check: the instance is not named "job/..." once sanitised. */
  predicate SlugClear(slug: string) {
    match SanitizeUrnSegment(slug)
    case Err(_) => true
    case Ok(clean) => !StartsWith(clean, "job/")
  }

  lemma BuildKeyIsClear(slug: string, name: string, n: nat)
    requires SlugClear(slug)
    ensures Clear(JenkinsBuild(slug, name, Decimal(n)))
  {
    var k := JenkinsBuild(slug, name, Decimal(n));
    var segments := Segments(k);
    assert segments[0] == slug;
  }

  // ----- Levels ---------------------------------------------------------------
  // A build of an instance named "job/..." prints as a job, and a job's URN is all that is left of it. The level that
  // edges climb is therefore read off the text: such an instance's own jobs sit one lower than other jobs, whose
  // number its builds join.

  function LevelRead(k: Key): nat {
    match k
    case JenkinsInstance(_) => 0
    case JenkinsJob(instance, _) => if StartsWith(instance, "job/") then 1 else 2
    case JenkinsBuild(_, _, _) => 3
    case _ => Rank(KindOf(k))
  }

  /** The level that the text of a URN fixes. */
  function UrnLevel(urn: string): Option<nat> {
    match ReadUrn(urn)
    case None => None
    case Some(k) => Some(LevelRead(k))
  }

  /** The level of the URN that a builder prints. */
  function Level(k: Key): nat {
    match k
    case JenkinsInstance(_) => 0
    case JenkinsJob(slug, _) => if SlugClear(slug) then 2 else 1
    case JenkinsBuild(slug, _, _) => if SlugClear(slug) then 3 else 2
    case _ => Rank(KindOf(k))
  }

  lemma LevelOfRenamed(instance: string, name: string)
    ensures LevelRead(JenkinsJob("build/" + instance, name)) == 2
  {
    var s := "build/" + instance;
    StartsWithAt(s, "job/");
    assert s[0] == 'b';
  }

  lemma CleanInstance(k: Key)
    requires SanitizeKey(k).Ok? && (k.JenkinsJob? || k.JenkinsBuild?)
    ensures SanitizeUrnSegment(k.instance) == Ok(SanitizeKey(k).value.instance)
  {
    CleanSegment(k, 0);
  }

  lemma LevelOfClean(k: Key)
    requires SanitizeKey(k).Ok?
    ensures LevelRead(Canonical(SanitizeKey(k).value)) == Level(k)
  {
    var clean := SanitizeKey(k).value;
    if k.JenkinsJob? || k.JenkinsBuild? {
      CleanInstance(k);
      if k.JenkinsBuild? && !RewriteMeetsKind(clean) {
        LevelOfRenamed(clean.instance[4..], clean.name + "/" + clean.number);
      }
    }
  }

  lemma LevelOfUrn(k: Key)
    requires PlainNumber(k) && BuildUrn(k).Ok?
    ensures UrnLevel(BuildUrn(k).value) == Some(Level(k))
  {
    SanitizedKey(k);
    ReadUrnOfAny(SanitizeKey(k).value);
    LevelOfClean(k);
  }

  lemma LevelIsSmall(urn: string)
    ensures UrnLevel(urn).Some? ==> UrnLevel(urn).value <= 3
  {
  }

  /** The URN of a key, when its segments are accepted. */
  ghost function Address(k: Key): Option<string> {
    match BuildUrn(k)
    case Err(_) => None
    case Ok(urn) => if PlainNumber(k) then Some(urn) else None
  }

  lemma LevelOfAddress(k: Key)
    ensures Address(k).Some? ==> UrnLevel(Address(k).value) == Some(Level(k))
    ensures PlainNumber(k) ==> (Address(k) == match BuildUrn(k) case Err(_) => None case Ok(urn) => Some(urn))
  {
    if Address(k).Some? {
      LevelOfUrn(k);
    }
  }

  // ----- The invariant --------------------------------------------------------
  // The level and the kind of a text and the address of a key are parameters here, so that the proofs
  // about the tables do not open the printers; the theorems below fill them in.

  ghost predicate Rises(levelOf: string -> Option<nat>, source: NodeId, target: NodeId) {
    && source.0 == target.0
    && levelOf(source.1).Some? && levelOf(target.1).Some?
    && levelOf(source.1).value < levelOf(target.1).value
  }

  ghost predicate NodesFit(nodes: map<NodeId, NodeRow>) {
    forall id :: id in nodes ==> nodes[id].provider == ProviderOf(nodes[id].kind)
  }

  ghost predicate EdgesFit(levelOf: string -> Option<nat>, g: Graph) {
    forall e :: e in g.edges ==> e.0 in g.nodes && e.1 in g.nodes && Rises(levelOf, e.0, e.1)
  }

  ghost predicate Fits(levelOf: string -> Option<nat>, g: Graph) {
    NodesFit(g.nodes) && EdgesFit(levelOf, g)
  }

  /** Each node has the kind of its URN: what only clear calls keep. */
  ghost predicate KindsFit(kindOf: string -> Option<Kind>, nodes: map<NodeId, NodeRow>) {
    forall id :: id in nodes ==> kindOf(id.1) == Some(nodes[id].kind)
  }

  ghost predicate Placed(address: Key -> Option<string>, g: Graph, org: Org, placed: set<Key>) {
    forall k :: k in placed ==> address(k).Some? && (org, address(k).value) in g.nodes
  }

  lemma WithNodeKeeps(
    levelOf: string -> Option<nat>, address: Key -> Option<string>, g: Graph, org: Org, now: int, placed: set<Key>,
    key: Key, urn: string, provider: Provider, kind: Kind, name: string, health: Option<string>)
    requires Fits(levelOf, g) && Placed(address, g, org, placed)
    requires address(key) == Some(urn) && provider == ProviderOf(kind)
    ensures var h := WithNode(g, (org, urn), provider, kind, name, health, now);
      Fits(levelOf, h) && Placed(address, h, org, placed + {key})
  {
  }

  lemma WithEdgeKeeps(
    levelOf: string -> Option<nat>, address: Key -> Option<string>, g: Graph, org: Org, now: int, placed: set<Key>,
    source: NodeId, target: NodeId, edge: EdgeType)
    requires Fits(levelOf, g) && Placed(address, g, org, placed)
    requires source in g.nodes && target in g.nodes && source.0 == org && Rises(levelOf, source, target)
    ensures var r := WithEdge(g, org, (source, target, edge), now);
      r.Ok? && Fits(levelOf, r.value) && Placed(address, r.value, org, placed)
  {
  }

  // ----- Plans that keep it ---------------------------------------------------

  /** A node is written with the kind of its key, and an edge goes up between nodes written before. */
  ghost predicate Proper(a: Action, placed: set<Key>) {
    match a
    case PutNode(key, provider, kind, _, _) => PlainNumber(key) && kind == KindOf(key) && provider == ProviderOf(kind)
    case PutEdge(source, target, _) =>
      source in placed && target in placed && Level(source) < Level(target)
    case Throw(_) => false
  }

  function Puts(a: Action): set<Key> {
    if a.PutNode? then {a.key} else {}
  }

  ghost predicate Ordered(acts: seq<Action>, placed: set<Key>) {
    || acts == []
    || acts[0] == Throw(ParentNotFound)
    || (Proper(acts[0], placed) && Ordered(acts[1..], placed + Puts(acts[0])))
  }

  /** Everything a plan writes. */
  ghost function Written(acts: seq<Action>): set<Key> {
    set i | 0 <= i < |acts| && acts[i].PutNode? :: acts[i].key
  }

  lemma NodeKeeps(g: Graph, org: Org, now: int, a: Action, placed: set<Key>)
    requires Fits(UrnLevel, g) && Placed(Address, g, org, placed) && Proper(a, placed) && a.PutNode?
    ensures var r := Act(g, org, now, a);
      match r
      case Err(e) => e.BadSegment?
      case Ok(h) => Fits(UrnLevel, h) && Placed(Address, h, org, placed + Puts(a))
  {
    LevelOfAddress(a.key);
    if BuildUrn(a.key).Ok? {
      WithNodeKeeps(UrnLevel, Address, g, org, now, placed, a.key, BuildUrn(a.key).value, a.provider, a.kind, a.name,
        a.health);
    }
  }

  lemma EdgeKeeps(g: Graph, org: Org, now: int, a: Action, placed: set<Key>)
    requires Fits(UrnLevel, g) && Placed(Address, g, org, placed) && Proper(a, placed) && a.PutEdge?
    ensures var r := Act(g, org, now, a);
      r.Ok? && Fits(UrnLevel, r.value) && Placed(Address, r.value, org, placed)
  {
    LevelOfAddress(a.source);
    LevelOfAddress(a.target);
    var source, target := (org, Address(a.source).value), (org, Address(a.target).value);
    WithEdgeKeeps(UrnLevel, Address, g, org, now, placed, source, target, a.edge);
  }

  /** Performing an ordered plan, even one cut short, keeps the invariant; no edge is ever refused. */
  lemma {:induction false} PerformKeeps(g: Graph, org: Org, now: int, acts: seq<Action>, placed: set<Key>)
    requires Fits(UrnLevel, g) && Placed(Address, g, org, placed) && Ordered(acts, placed)
    ensures var (h, error) := Perform(Actor(org, now), g, acts);
      Fits(UrnLevel, h) && (error.Some? ==> error.value.BadSegment? || error.value == ParentNotFound)
    decreases |acts|
  {
    if acts != [] {
      var a := acts[0];
      if a.PutNode? {
        NodeKeeps(g, org, now, a, placed);
      } else if a.PutEdge? {
        EdgeKeeps(g, org, now, a, placed);
        assert placed + Puts(a) == placed;
      }
      var r := Actor(org, now)(g, a);
      if r.Ok? {
        PerformKeeps(r.value, org, now, acts[1..], placed + Puts(a));
      }
    }
  }

  /** Every key that a plan writes is of a sort. */
  ghost predicate AllPut(acts: seq<Action>, sort: Key -> bool) {
    forall i :: 0 <= i < |acts| && acts[i].PutNode? ==> sort(acts[i].key)
  }

  lemma ActKeepsKinds(g: Graph, org: Org, now: int, a: Action, placed: set<Key>)
    requires KindsFit(UrnKind, g.nodes) && Proper(a, placed) && (a.PutNode? ==> Clear(a.key))
    ensures Act(g, org, now, a).Ok? ==> KindsFit(UrnKind, Act(g, org, now, a).value.nodes)
  {
    if a.PutNode? && BuildUrn(a.key).Ok? {
      KindOfUrn(a.key);
    }
  }

  /** When it writes clear keys only, it also keeps the kinds. */
  lemma {:induction false} PerformKeepsKinds(g: Graph, org: Org, now: int, acts: seq<Action>, placed: set<Key>)
    requires KindsFit(UrnKind, g.nodes) && Ordered(acts, placed) && AllPut(acts, Clear)
    ensures KindsFit(UrnKind, Perform(Actor(org, now), g, acts).0.nodes)
    decreases |acts|
  {
    if acts != [] && !acts[0].Throw? {
      ActKeepsKinds(g, org, now, acts[0], placed);
      assert AllPut(acts[1..], Clear);
      var r := Actor(org, now)(g, acts[0]);
      if r.Ok? {
        PerformKeepsKinds(r.value, org, now, acts[1..], placed + Puts(acts[0]));
      }
    }
  }

  lemma {:induction false} OrderedMonotone(acts: seq<Action>, placed: set<Key>, more: set<Key>)
    requires Ordered(acts, placed) && placed <= more
    ensures Ordered(acts, more)
    decreases |acts|
  {
    if acts != [] && !acts[0].Throw? {
      OrderedMonotone(acts[1..], placed + Puts(acts[0]), more + Puts(acts[0]));
    }
  }

  lemma {:induction false} OrderedConcat(first: seq<Action>, second: seq<Action>, placed: set<Key>)
    requires Ordered(first, placed) && Ordered(second, placed + Written(first))
    ensures Ordered(first + second, placed)
    decreases |first|
  {
    if first == [] {
      assert first + second == second;
      assert placed + Written(first) == placed;
    } else if !first[0].Throw? {
      var more := placed + Puts(first[0]);
      assert (first + second)[1..] == first[1..] + second;
      assert placed + Written(first) <= more + Written(first[1..]) by {
        forall k | k in Written(first) ensures k in Puts(first[0]) + Written(first[1..]) {
          var i :| 0 <= i < |first| && first[i].PutNode? && first[i].key == k;
          assert i > 0 ==> first[1..][i - 1] == first[i];
        }
      }
      OrderedMonotone(second, placed + Written(first), more + Written(first[1..]));
      OrderedConcat(first[1..], second, more);
    }
  }

  lemma {:induction false} OrderedEach<T>(xs: seq<T>, f: T -> seq<Action>, placed: set<Key>)
    requires forall i :: 0 <= i < |xs| ==> Ordered(f(xs[i]), placed)
    ensures Ordered(Each(xs, f), placed)
  {
    if xs != [] {
      var first := Each(xs[..|xs| - 1], f);
      OrderedEach(xs[..|xs| - 1], f, placed);
      OrderedMonotone(f(xs[|xs| - 1]), placed, placed + Written(first));
      OrderedConcat(first, f(xs[|xs| - 1]), placed);
    }
  }

  /** A node and an edge to it from a node already written: the shape of most turns. */
  lemma OrderedPair(node: Action, edge: Action, placed: set<Key>)
    requires Proper(node, placed) && node.PutNode? && Proper(edge, placed + {node.key}) && edge.PutEdge?
    ensures Ordered([node, edge], placed)
  {
    assert [node, edge][1..] == [edge] && [edge][1..] == [];
    assert Ordered([edge], placed + Puts(node));
  }

  lemma OrderedOne(a: Action, placed: set<Key>)
    requires Proper(a, placed)
    ensures Ordered([a], placed)
  {
    assert [a][1..] == [];
  }

  lemma WrittenOne(a: Action)
    requires a.PutNode?
    ensures Written([a]) == {a.key}
  {
    assert [a][0] == a;
  }

  lemma WrittenConcat(first: seq<Action>, second: seq<Action>)
    ensures Written(first + second) == Written(first) + Written(second)
  {
    var all := first + second;
    forall k | k in Written(first) + Written(second) ensures k in Written(all) {
      if k in Written(first) {
        var i :| 0 <= i < |first| && first[i].PutNode? && first[i].key == k;
        assert all[i] == first[i];
      } else {
        var i :| 0 <= i < |second| && second[i].PutNode? && second[i].key == k;
        assert all[|first| + i] == second[i];
      }
    }
  }

  // ----- The AutoOps calls ----------------------------------------------------

  lemma ProjectOrdered(p: ProjectInput)
    ensures Ordered(ProjectPlan(p), {}) && Project(p.id) in Written(ProjectPlan(p))
  {
    var org, project := OrganizationPlan(), ProjectPlan(p)[1..];
    OrderedOne(org[0], {});
    WrittenOne(org[0]);
    OrderedPair(project[0], project[1], {Organization});
    OrderedConcat(org, project, {});
    assert org + project == ProjectPlan(p);
    assert ProjectPlan(p)[1].key == Project(p.id);
  }

  /** A plan continued by a child node and its edge. */
  lemma OrderedChild(acts: seq<Action>, parent: Key, node: Action, edge: EdgeType)
    requires Ordered(acts, {}) && parent in Written(acts) && node.PutNode? && !node.key.JenkinsBuild?
    requires node.kind == KindOf(node.key) && node.provider == ProviderOf(node.kind)
    requires Level(parent) < Level(node.key)
    ensures var all := acts + [node, PutEdge(parent, node.key, edge)];
      Ordered(all, {}) && node.key in Written(all)
  {
    var all := acts + [node, PutEdge(parent, node.key, edge)];
    OrderedPair(node, PutEdge(parent, node.key, edge), {} + Written(acts));
    OrderedConcat(acts, [node, PutEdge(parent, node.key, edge)], {});
    assert all[|acts|] == node;
  }

  lemma EnvironmentOrdered(e: EnvironmentInput, parent: Option<ProjectInput>)
    ensures Ordered(EnvironmentPlan(e, parent), {})
    ensures parent.Some? ==> Environment(e.id) in Written(EnvironmentPlan(e, parent))
  {
    match parent
    case None =>
    case Some(p) =>
      ProjectOrdered(p);
      OrderedChild(ProjectPlan(p), Project(p.id),
        PutNode(Environment(e.id), AUTOOPS, ENVIRONMENT, e.slug, None), CONTAINS);
  }

  lemma DeploymentOrdered(d: DeploymentInput, within: Option<EnvironmentInput>, parent: Option<ProjectInput>)
    ensures Ordered(DeploymentPlan(d, within, parent), {})
  {
    match within
    case None =>
    case Some(e) =>
      EnvironmentOrdered(e, parent);
      var child := PutNode(Deployment(d.id), AUTOOPS, DEPLOYMENT, d.id, Some(d.status));
      if parent.Some? {
        OrderedChild(EnvironmentPlan(e, parent), Environment(e.id), child, CONTAINS);
      }
  }

  // ----- The inventory calls --------------------------------------------------

  lemma Continue(acts: seq<Action>, known: set<Key>, more: seq<Action>)
    requires Ordered(acts, {}) && known <= Written(acts) && Ordered(more, known)
    ensures Ordered(acts + more, {}) && known <= Written(acts + more)
  {
    OrderedMonotone(more, known, {} + Written(acts));
    OrderedConcat(acts, more, {});
    WrittenConcat(acts, more);
  }

  lemma Root(node: Action)
    requires node.PutNode? && !node.key.JenkinsBuild? && node.kind == KindOf(node.key)
    requires node.provider == ProviderOf(node.kind)
    ensures Ordered([node], {}) && {node.key} <= Written([node])
  {
    OrderedOne(node, {});
    WrittenOne(node);
  }

  /** A node below one already written. */
  predicate IsChild(parent: Key, node: Action) {
    && node.PutNode? && !node.key.JenkinsBuild?
    && node.kind == KindOf(node.key) && node.provider == ProviderOf(node.kind)
    && Level(parent) < Level(node.key)
  }

  lemma Leaf(parent: Key, node: Action, edge: EdgeType, known: set<Key>)
    requires IsChild(parent, node) && parent in known
    ensures Ordered([node, PutEdge(parent, node.key, edge)], known)
    ensures node.key in Written([node, PutEdge(parent, node.key, edge)])
  {
    var acts := [node, PutEdge(parent, node.key, edge)];
    OrderedPair(node, acts[1], known);
    assert acts[0] == node;
  }

  lemma JobOrdered(slug: string, job: Job)
    ensures Ordered(JobActions(slug)(job), {JenkinsInstance(slug)})
  {
    var acts := JobActions(slug)(job);
    Leaf(JenkinsInstance(slug), acts[0], CONTAINS, {JenkinsInstance(slug)});
    assert acts == [acts[0], acts[1]];
  }

  lemma OrderedTriple(first: Action, second: Action, edge: Action, known: set<Key>)
    requires first.PutNode? && second.PutNode? && edge.PutEdge?
    requires Proper(first, known) && Proper(second, known + {first.key})
    requires Proper(edge, known + {first.key} + {second.key})
    ensures Ordered([first, second, edge], known)
  {
    OrderedPair(second, edge, known + {first.key});
    assert [first, second, edge][1..] == [second, edge];
  }

  lemma BuildOrdered(slug: string, build: Build)
    ensures Ordered(BuildActions(slug)(build), {JenkinsInstance(slug)})
  {
    var acts := BuildActions(slug)(build);
    OrderedTriple(acts[0], acts[1], acts[2], {JenkinsInstance(slug)});
    assert acts == [acts[0], acts[1], acts[2]];
  }

  lemma JobsOrdered(slug: string, jobs: seq<Job>)
    ensures Ordered(Each(jobs, JobActions(slug)), {JenkinsInstance(slug)})
  {
    forall i | 0 <= i < |jobs| ensures Ordered(JobActions(slug)(jobs[i]), {JenkinsInstance(slug)}) {
      JobOrdered(slug, jobs[i]);
    }
    OrderedEach(jobs, JobActions(slug), {JenkinsInstance(slug)});
  }

  lemma BuildsOrdered(slug: string, builds: seq<Build>)
    ensures Ordered(Each(builds, BuildActions(slug)), {JenkinsInstance(slug)})
  {
    forall i | 0 <= i < |builds| ensures Ordered(BuildActions(slug)(builds[i]), {JenkinsInstance(slug)}) {
      BuildOrdered(slug, builds[i]);
    }
    OrderedEach(builds, BuildActions(slug), {JenkinsInstance(slug)});
  }

  lemma RootThenTwo(root: Action, a: seq<Action>, b: seq<Action>)
    requires root.PutNode? && !root.key.JenkinsBuild? && root.kind == KindOf(root.key)
    requires root.provider == ProviderOf(root.kind)
    requires Ordered(a, {root.key}) && Ordered(b, {root.key})
    ensures Ordered([root] + a + b, {})
  {
    Root(root);
    Continue([root], {root.key}, a);
    Continue([root] + a, {root.key}, b);
  }

  lemma JenkinsOrdered(instanceSlug: Option<string>, jobs: seq<Job>, builds: seq<Build>)
    ensures Ordered(JenkinsPlan(instanceSlug, jobs, builds), {})
  {
    var slug := OrElse(instanceSlug, "local");
    JobsOrdered(slug, jobs);
    BuildsOrdered(slug, builds);
    RootThenTwo(PutNode(JenkinsInstance(slug), JENKINS, JENKINS_INSTANCE, slug, None),
      Each(jobs, JobActions(slug)), Each(builds, BuildActions(slug)));
  }

  lemma ImageOrdered(slug: string, image: Image)
    ensures Ordered(ImageActions(slug)(image), {DockerEngine(slug)})
  {
    var acts := ImageActions(slug)(image);
    Leaf(DockerEngine(slug), acts[0], CONTAINS, {DockerEngine(slug)});
    assert acts == [acts[0], acts[1]];
  }

  function ImageKeys(slug: string, images: seq<Image>): set<Key> {
    set i | 0 <= i < |images| :: DockerImage(slug, ImageName(images[i]))
  }

  lemma {:induction false} ImagesWritten(slug: string, images: seq<Image>)
    ensures ImageKeys(slug, images) <= Written(Each(images, ImageActions(slug)))
  {
    if images != [] {
      var n := |images| - 1;
      var acts := ImageActions(slug)(images[n]);
      ImagesWritten(slug, images[..n]);
      WrittenConcat(Each(images[..n], ImageActions(slug)), acts);
      assert acts[0].key in Written(acts);
      forall k | k in ImageKeys(slug, images) && k != acts[0].key ensures k in ImageKeys(slug, images[..n]) {
        var i :| 0 <= i < |images| && k == DockerImage(slug, ImageName(images[i]));
        assert images[..n][i] == images[i];
      }
    }
  }

  /** The image a container is linked to is one that the same call registered. */
  lemma {:induction false} ImageCalledIsListed(images: seq<Image>, ref: string, slug: string)
    ensures ImageCalled(images, ref).Some? ==>
      DockerImage(slug, ImageCalled(images, ref).value) in ImageKeys(slug, images)
  {
    if images != [] {
      ImageCalledIsListed(images[..|images| - 1], ref, slug);
      assert forall i :: 0 <= i < |images| - 1 ==> images[..|images| - 1][i] == images[i];
    }
  }

  lemma AndImage(known: set<Key>, first: seq<Action>, node: Key, image: Key)
    requires Ordered(first, known) && node in Written(first) && image in known
    requires Level(node) < Level(image)
    ensures Ordered(first + [PutEdge(node, image, USES_IMAGE)], known)
  {
    OrderedOne(PutEdge(node, image, USES_IMAGE), known + Written(first));
    OrderedConcat(first, [PutEdge(node, image, USES_IMAGE)], known);
  }

  lemma ImageOfIsListed(slug: string, images: seq<Image>, container: Container)
    ensures ImageOf(images, container).Some? ==>
      DockerImage(slug, ImageOf(images, container).value) in ImageKeys(slug, images)
  {
    ImageCalledIsListed(images, container.image, slug);
    ImageCalledIsListed(images, OrElse(container.imageId, ""), slug);
  }

  lemma LeafWithImage(engine: Key, node: Action, image: Option<Key>, known: set<Key>)
    requires IsChild(engine, node) && engine in known
    requires image.Some? ==> image.value in known && Level(node.key) < Level(image.value)
    ensures Ordered([node, PutEdge(engine, node.key, CONTAINS)]
                    + (if image.None? then [] else [PutEdge(node.key, image.value, USES_IMAGE)]), known)
  {
    var first := [node, PutEdge(engine, node.key, CONTAINS)];
    Leaf(engine, node, CONTAINS, known);
    if image.Some? {
      AndImage(known, first, node.key, image.value);
    } else {
      assert first + [] == first;
    }
  }

  lemma ContainerOrdered(slug: string, images: seq<Image>, container: Container)
    ensures Ordered(ContainerActions(slug, images)(container), {DockerEngine(slug)} + ImageKeys(slug, images))
  {
    var name := OrId(container.name, container.id);
    var node := PutNode(DockerContainer(slug, name), DOCKER, DOCKER_CONTAINER, name, ContainerHealth(container));
    var image := match ImageOf(images, container) case None => None case Some(i) => Some(DockerImage(slug, i));
    ImageOfIsListed(slug, images, container);
    LeafWithImage(DockerEngine(slug), node, image, {DockerEngine(slug)} + ImageKeys(slug, images));
  }

  lemma NetworkOrdered(slug: string, network: Network)
    ensures Ordered(NetworkActions(slug)(network), {DockerEngine(slug)})
  {
    var acts := NetworkActions(slug)(network);
    Leaf(DockerEngine(slug), acts[0], CONTAINS, {DockerEngine(slug)});
    assert acts == [acts[0], acts[1]];
  }

  lemma VolumeOrdered(slug: string, volume: Volume)
    ensures Ordered(VolumeActions(slug)(volume), {DockerEngine(slug)})
  {
    var acts := VolumeActions(slug)(volume);
    Leaf(DockerEngine(slug), acts[0], CONTAINS, {DockerEngine(slug)});
    assert acts == [acts[0], acts[1]];
  }

  lemma DockerOrdered(d: DockerInventory)
    ensures Ordered(DockerPlan(d), {})
  {
    var slug := OrElse(d.engineSlug, "local");
    var root := PutNode(DockerEngine(slug), DOCKER, DOCKER_ENGINE, slug, None);
    var known := {root.key};
    var withImages := known + ImageKeys(slug, d.images);
    Root(root);
    forall i | 0 <= i < |d.images| ensures Ordered(ImageActions(slug)(d.images[i]), known) {
      ImageOrdered(slug, d.images[i]);
    }
    OrderedEach(d.images, ImageActions(slug), known);
    var p1 := [root] + Each(d.images, ImageActions(slug));
    Continue([root], known, Each(d.images, ImageActions(slug)));
    WrittenConcat([root], Each(d.images, ImageActions(slug)));
    ImagesWritten(slug, d.images);
    forall i | 0 <= i < |d.containers|
      ensures Ordered(ContainerActions(slug, d.images)(d.containers[i]), withImages)
    {
      ContainerOrdered(slug, d.images, d.containers[i]);
    }
    OrderedEach(d.containers, ContainerActions(slug, d.images), withImages);
    var p2 := p1 + Each(d.containers, ContainerActions(slug, d.images));
    Continue(p1, withImages, Each(d.containers, ContainerActions(slug, d.images)));
    forall i | 0 <= i < |d.networks| ensures Ordered(NetworkActions(slug)(d.networks[i]), known) {
      NetworkOrdered(slug, d.networks[i]);
    }
    OrderedEach(d.networks, NetworkActions(slug), known);
    var p3 := p2 + Each(d.networks, NetworkActions(slug));
    Continue(p2, known, Each(d.networks, NetworkActions(slug)));
    forall i | 0 <= i < |d.volumes| ensures Ordered(VolumeActions(slug)(d.volumes[i]), known) {
      VolumeOrdered(slug, d.volumes[i]);
    }
    OrderedEach(d.volumes, VolumeActions(slug), known);
    Continue(p3, known, Each(d.volumes, VolumeActions(slug)));
  }

  lemma NamespaceOrdered(slug: string, namespace: Namespace)
    ensures Ordered(NamespaceActions(slug)(namespace), {KubernetesCluster(slug)})
  {
    var acts := NamespaceActions(slug)(namespace);
    Leaf(KubernetesCluster(slug), acts[0], CONTAINS, {KubernetesCluster(slug)});
    assert acts == [acts[0], acts[1]];
  }

  lemma ClusterNodeOrdered(slug: string, node: ClusterNode)
    ensures Ordered(ClusterNodeActions(slug)(node), {KubernetesCluster(slug)})
  {
    var acts := ClusterNodeActions(slug)(node);
    Leaf(KubernetesCluster(slug), acts[0], CONTAINS, {KubernetesCluster(slug)});
    assert acts == [acts[0], acts[1]];
  }

  function NamespaceKeys(slug: string, namespaces: seq<Namespace>): set<Key> {
    set i | 0 <= i < |namespaces| :: KubernetesNamespace(slug, namespaces[i].name)
  }

  lemma {:induction false} NamespacesWritten(slug: string, namespaces: seq<Namespace>)
    ensures NamespaceKeys(slug, namespaces) <= Written(Each(namespaces, NamespaceActions(slug)))
  {
    if namespaces != [] {
      var n := |namespaces| - 1;
      var acts := NamespaceActions(slug)(namespaces[n]);
      NamespacesWritten(slug, namespaces[..n]);
      WrittenConcat(Each(namespaces[..n], NamespaceActions(slug)), acts);
      assert acts[0].key in Written(acts);
      forall k | k in NamespaceKeys(slug, namespaces) && k != acts[0].key
        ensures k in NamespaceKeys(slug, namespaces[..n])
      {
        var i :| 0 <= i < |namespaces| && k == KubernetesNamespace(slug, namespaces[i].name);
        assert namespaces[..n][i] == namespaces[i];
      }
    }
  }

  /** A workload's namespace is written first when it is not known. */
  lemma LeafInNamespace(parent: Action, node: Action, known: set<Key>)
    requires parent.PutNode? && !parent.key.JenkinsBuild? && parent.kind == KindOf(parent.key)
    requires parent.provider == ProviderOf(parent.kind) && IsChild(parent.key, node)
    ensures Ordered([parent] + [node, PutEdge(parent.key, node.key, CONTAINS)], known)
  {
    OrderedOne(parent, known);
    WrittenOne(parent);
    Leaf(parent.key, node, CONTAINS, known + Written([parent]));
    OrderedConcat([parent], [node, PutEdge(parent.key, node.key, CONTAINS)], known);
  }

  lemma WorkloadOrdered(slug: string, namespaces: seq<Namespace>, workload: Workload)
    ensures Ordered(WorkloadActions(slug, namespaces)(workload),
      {KubernetesCluster(slug)} + NamespaceKeys(slug, namespaces))
  {
    var known := {KubernetesCluster(slug)} + NamespaceKeys(slug, namespaces);
    var namespace := KubernetesNamespace(slug, workload.namespace);
    var key := KubernetesDeployment(slug, workload.namespace, workload.name);
    var node := PutNode(key, KUBERNETES, KUBERNETES_DEPLOYMENT, workload.name, Some(workload.status));
    if Listed(namespaces, workload.namespace) {
      Leaf(namespace, node, CONTAINS, known);
      assert [] + [node, PutEdge(namespace, key, CONTAINS)] == [node, PutEdge(namespace, key, CONTAINS)];
    } else {
      LeafInNamespace(PutNode(namespace, KUBERNETES, KUBERNETES_NAMESPACE, workload.namespace, None), node, known);
    }
  }

  /** A node linked to its namespace only when that is known. */
  lemma LeafOrAlone(parent: Key, node: Action, linked: bool, known: set<Key>)
    requires IsChild(parent, node) && (linked ==> parent in known)
    ensures Ordered([node] + (if linked then [PutEdge(parent, node.key, CONTAINS)] else []), known)
  {
    if linked {
      Leaf(parent, node, CONTAINS, known);
      assert [node] + [PutEdge(parent, node.key, CONTAINS)] == [node, PutEdge(parent, node.key, CONTAINS)];
    } else {
      OrderedOne(node, known);
      assert [node] + [] == [node];
    }
  }

  lemma PodOrdered(slug: string, namespaces: seq<Namespace>, pod: Pod)
    ensures Ordered(PodActions(slug, namespaces)(pod), {KubernetesCluster(slug)} + NamespaceKeys(slug, namespaces))
  {
    var node := PutNode(
      KubernetesPod(slug, pod.namespace, pod.name), KUBERNETES, KUBERNETES_POD, pod.name, Some(pod.phase));
    LeafOrAlone(KubernetesNamespace(slug, pod.namespace), node, Listed(namespaces, pod.namespace),
      {KubernetesCluster(slug)} + NamespaceKeys(slug, namespaces));
  }

  lemma ServiceOrdered(slug: string, namespaces: seq<Namespace>, service: Service)
    ensures Ordered(ServiceActions(slug, namespaces)(service),
      {KubernetesCluster(slug)} + NamespaceKeys(slug, namespaces))
  {
    var node := PutNode(
      KubernetesService(slug, service.namespace, service.name), KUBERNETES, KUBERNETES_SERVICE, service.name,
      Some(service.status));
    LeafOrAlone(KubernetesNamespace(slug, service.namespace), node, Listed(namespaces, service.namespace),
      {KubernetesCluster(slug)} + NamespaceKeys(slug, namespaces));
  }

  lemma ClusterOrdered(k: KubernetesInventory, slug: string, known: set<Key>)
    requires known == {KubernetesCluster(slug)} + NamespaceKeys(slug, k.namespaces)
    ensures var acts := [PutNode(KubernetesCluster(slug), KUBERNETES, KUBERNETES_CLUSTER, slug, None)]
        + Each(k.namespaces, NamespaceActions(slug)) + Each(k.nodes, ClusterNodeActions(slug));
      Ordered(acts, {}) && known <= Written(acts)
  {
    var root := PutNode(KubernetesCluster(slug), KUBERNETES, KUBERNETES_CLUSTER, slug, None);
    var namespaces, nodes := Each(k.namespaces, NamespaceActions(slug)), Each(k.nodes, ClusterNodeActions(slug));
    Root(root);
    forall i | 0 <= i < |k.namespaces| ensures Ordered(NamespaceActions(slug)(k.namespaces[i]), {root.key}) {
      NamespaceOrdered(slug, k.namespaces[i]);
    }
    OrderedEach(k.namespaces, NamespaceActions(slug), {root.key});
    Continue([root], {root.key}, namespaces);
    forall i | 0 <= i < |k.nodes| ensures Ordered(ClusterNodeActions(slug)(k.nodes[i]), {root.key}) {
      ClusterNodeOrdered(slug, k.nodes[i]);
    }
    OrderedEach(k.nodes, ClusterNodeActions(slug), {root.key});
    Continue([root] + namespaces, {root.key}, nodes);
    NamespacesWritten(slug, k.namespaces);
    WrittenConcat([root], namespaces);
    WrittenConcat([root] + namespaces, nodes);
  }

  lemma KubernetesOrdered(k: KubernetesInventory)
    ensures Ordered(KubernetesPlan(k), {})
  {
    var slug := OrElse(k.clusterSlug, "docker-desktop");
    var known := {KubernetesCluster(slug)} + NamespaceKeys(slug, k.namespaces);
    var root := PutNode(KubernetesCluster(slug), KUBERNETES, KUBERNETES_CLUSTER, slug, None);
    var p1 := [root] + Each(k.namespaces, NamespaceActions(slug)) + Each(k.nodes, ClusterNodeActions(slug));
    ClusterOrdered(k, slug, known);
    forall i | 0 <= i < |k.workloads| ensures Ordered(WorkloadActions(slug, k.namespaces)(k.workloads[i]), known) {
      WorkloadOrdered(slug, k.namespaces, k.workloads[i]);
    }
    OrderedEach(k.workloads, WorkloadActions(slug, k.namespaces), known);
    var p2 := p1 + Each(k.workloads, WorkloadActions(slug, k.namespaces));
    Continue(p1, known, Each(k.workloads, WorkloadActions(slug, k.namespaces)));
    forall i | 0 <= i < |k.pods| ensures Ordered(PodActions(slug, k.namespaces)(k.pods[i]), known) {
      PodOrdered(slug, k.namespaces, k.pods[i]);
    }
    OrderedEach(k.pods, PodActions(slug, k.namespaces), known);
    var p3 := p2 + Each(k.pods, PodActions(slug, k.namespaces));
    Continue(p2, known, Each(k.pods, PodActions(slug, k.namespaces)));
    forall i | 0 <= i < |k.services| ensures Ordered(ServiceActions(slug, k.namespaces)(k.services[i]), known) {
      ServiceOrdered(slug, k.namespaces, k.services[i]);
    }
    OrderedEach(k.services, ServiceActions(slug, k.namespaces), known);
    Continue(p3, known, Each(k.services, ServiceActions(slug, k.namespaces)));
  }

  lemma PlanOrdered(call: Call)
    ensures Ordered(Plan(call), {})
  {
    match call
    case RegisterOrganization =>
      Root(OrganizationPlan()[0]);
    case RegisterProject(p) => ProjectOrdered(p);
    case RegisterEnvironment(e, parent) => EnvironmentOrdered(e, parent);
    case RegisterDeployment(d, within, parent) => DeploymentOrdered(d, within, parent);
    case RegisterOperation(o) =>
      Root(OperationPlan(o)[0]);
    case RegisterJenkins(slug, jobs, builds) => JenkinsOrdered(slug, jobs, builds);
    case RegisterDocker(d) => DockerOrdered(d);
    case RegisterKubernetes(k) => KubernetesOrdered(k);
    case ArchiveStale(_, _) =>
  }

  // ----- The keys a plan writes are clear, but for builds of some instances ----

  /** What a caller has to keep away for kinds to be fixed: a Jenkins instance named "job/...". */
  predicate CallClear(call: Call) {
    call.RegisterJenkins? ==> SlugClear(OrElse(call.instanceSlug, "local"))
  }

  lemma {:induction false} EachPuts<T>(xs: seq<T>, f: T -> seq<Action>, sort: Key -> bool)
    requires forall i :: 0 <= i < |xs| ==> AllPut(f(xs[i]), sort)
    ensures AllPut(Each(xs, f), sort)
  {
    if xs != [] {
      var n := |xs| - 1;
      assert forall i :: 0 <= i < n ==> xs[..n][i] == xs[i];
      EachPuts(xs[..n], f, sort);
      PutsConcat(Each(xs[..n], f), f(xs[n]), sort);
    }
  }

  lemma PutsConcat(first: seq<Action>, second: seq<Action>, sort: Key -> bool)
    requires AllPut(first, sort) && AllPut(second, sort)
    ensures AllPut(first + second, sort)
  {
  }

  lemma BuildIsClear(slug: string, build: Build)
    requires SlugClear(slug)
    ensures AllPut(BuildActions(slug)(build), Clear)
  {
    BuildKeyIsClear(slug, build.jobName, build.number);
    OtherKeysAreClear(JenkinsJob(slug, build.jobName));
  }

  lemma JobIsClear(slug: string, job: Job)
    ensures AllPut(JobActions(slug)(job), Clear)
  {
    OtherKeysAreClear(JobActions(slug)(job)[0].key);
  }

  lemma JenkinsKeysAreClear(instanceSlug: Option<string>, jobs: seq<Job>, builds: seq<Build>)
    requires SlugClear(OrElse(instanceSlug, "local"))
    ensures AllPut(JenkinsPlan(instanceSlug, jobs, builds), Clear)
  {
    var slug := OrElse(instanceSlug, "local");
    var root := [PutNode(JenkinsInstance(slug), JENKINS, JENKINS_INSTANCE, slug, None)];
    forall i | 0 <= i < |jobs| ensures AllPut(JobActions(slug)(jobs[i]), Clear) {
      JobIsClear(slug, jobs[i]);
    }
    forall i | 0 <= i < |builds| ensures AllPut(BuildActions(slug)(builds[i]), Clear) {
      BuildIsClear(slug, builds[i]);
    }
    EachPuts(jobs, JobActions(slug), Clear);
    EachPuts(builds, BuildActions(slug), Clear);
    OtherKeysAreClear(JenkinsInstance(slug));
    PutsConcat(root, Each(jobs, JobActions(slug)), Clear);
    PutsConcat(root + Each(jobs, JobActions(slug)), Each(builds, BuildActions(slug)), Clear);
  }

  predicate NoBuild(k: Key) {
    !k.JenkinsBuild?
  }

  lemma DockerPutsNoBuild(d: DockerInventory)
    ensures AllPut(DockerPlan(d), NoBuild)
  {
    var slug := OrElse(d.engineSlug, "local");
    EachPuts(d.images, ImageActions(slug), NoBuild);
    EachPuts(d.containers, ContainerActions(slug, d.images), NoBuild);
    EachPuts(d.networks, NetworkActions(slug), NoBuild);
    EachPuts(d.volumes, VolumeActions(slug), NoBuild);
  }

  lemma KubernetesPutsNoBuild(c: KubernetesInventory)
    ensures AllPut(KubernetesPlan(c), NoBuild)
  {
    var slug := OrElse(c.clusterSlug, "docker-desktop");
    EachPuts(c.namespaces, NamespaceActions(slug), NoBuild);
    EachPuts(c.nodes, ClusterNodeActions(slug), NoBuild);
    EachPuts(c.workloads, WorkloadActions(slug, c.namespaces), NoBuild);
    EachPuts(c.pods, PodActions(slug, c.namespaces), NoBuild);
    EachPuts(c.services, ServiceActions(slug, c.namespaces), NoBuild);
  }

  lemma DeploymentPutsNoBuild(d: DeploymentInput, within: Option<EnvironmentInput>, parent: Option<ProjectInput>)
    ensures AllPut(DeploymentPlan(d, within, parent), NoBuild)
  {
    if within.Some? {
      assert AllPut(EnvironmentPlan(within.value, parent), NoBuild);
    }
  }

  lemma OthersPutNoBuild(call: Call)
    requires !call.RegisterJenkins?
    ensures AllPut(Plan(call), NoBuild)
  {
    match call
    case RegisterDocker(d) => DockerPutsNoBuild(d);
    case RegisterKubernetes(c) => KubernetesPutsNoBuild(c);
    case RegisterDeployment(d, within, parent) => DeploymentPutsNoBuild(d, within, parent);
    case _ =>
  }

  lemma NoBuildsAreClear(acts: seq<Action>)
    requires AllPut(acts, NoBuild)
    ensures AllPut(acts, Clear)
  {
    forall i | 0 <= i < |acts| && acts[i].PutNode? ensures Clear(acts[i].key) {
      OtherKeysAreClear(acts[i].key);
    }
  }

  /** A clear call writes clear keys only. */
  lemma PlanIsClear(call: Call)
    requires CallClear(call)
    ensures AllPut(Plan(call), Clear)
  {
    if call.RegisterJenkins? {
      JenkinsKeysAreClear(call.instanceSlug, call.jobs, call.builds);
    } else {
      OthersPutNoBuild(call);
      NoBuildsAreClear(Plan(call));
    }
  }
}
