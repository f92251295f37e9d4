/** What a Docker inventory leaves in the graph (apps/api/src/modules/resources/resource-graph.service.ts). */
module DockerContents {
  import opened Wrappers
  import opened Text
  import opened Runs
  import opened UrnPrinters
  import opened ResourceGraphPlans
  import opened ResourceGraphLaws
  import opened ResourceGraphContents

  /** An image goes by its first tag, or by its id when it has none. */
  function Title(x: Image): string {
    if |x.repoTags| > 0 then x.repoTags[0] else x.id
  }

  function NameOr(name: string, id: string): string {
    if |name| > 0 then name else id
  }

  function ImageKey(slug: string): Image -> Key {
    (x: Image) => DockerImage(slug, Title(x))
  }

  function ImageFacts(): Image -> Facts {
    (x: Image) => Facts(DOCKER, DOCKER_IMAGE, Title(x), None)
  }

  function ContainerKey(slug: string): Container -> Key {
    (x: Container) => DockerContainer(slug, NameOr(x.name, x.id))
  }

  /** A container's health is what its health check says, or else its state. */
  function ContainerFacts(): Container -> Facts {
    (x: Container) =>
      Facts(DOCKER, DOCKER_CONTAINER, NameOr(x.name, x.id), Some(if x.health.Some? then x.health.value else x.state))
  }

  function NetworkKey(slug: string): Network -> Key {
    (x: Network) => DockerNetwork(slug, NameOr(x.name, x.id))
  }

  function NetworkFacts(): Network -> Facts {
    (x: Network) => Facts(DOCKER, DOCKER_NETWORK, NameOr(x.name, x.id), None)
  }

  function VolumeKey(slug: string): Volume -> Key {
    (x: Volume) => DockerVolume(slug, x.name)
  }

  function VolumeFacts(): Volume -> Facts {
    (x: Volume) => Facts(DOCKER, DOCKER_VOLUME, x.name, None)
  }

  /** The last image that goes by this name or has this id. */
  ghost predicate IsCalled(images: seq<Image>, ref: string, i: nat) {
    && i < |images| && (Title(images[i]) == ref || images[i].id == ref)
    && forall j :: i < j < |images| ==> Title(images[j]) != ref && images[j].id != ref
  }

  /** The image a container runs: by its reference, or else by its image id. */
  ghost predicate RunsImage(images: seq<Image>, x: Container, i: nat) {
    || IsCalled(images, x.image, i)
    || ((forall j: nat :: !IsCalled(images, x.image, j)) &&
        IsCalled(images, if x.imageId.Some? then x.imageId.value else "", i))
  }

  function EngineLink<T>(slug: string, key: T -> Key): T -> Link {
    (x: T) => Link(DockerEngine(slug), key(x), CONTAINS)
  }

  ghost function EngineLinks<T>(slug: string, xs: seq<T>, key: T -> Key): set<Link> {
    set x | x in xs :: Link(DockerEngine(slug), key(x), CONTAINS)
  }

  ghost function ImageLinks(slug: string, images: seq<Image>, xs: seq<Container>): set<Link> {
    set x, i | x in xs && 0 <= i < |images| && RunsImage(images, x, i) ::
      Link(ContainerKey(slug)(x), ImageKey(slug)(images[i]), USES_IMAGE)
  }

  /** The engine contains everything, and a container uses its image. */
  ghost function DockerLinks(slug: string, d: DockerInventory): set<Link> {
    EngineLinks(slug, d.images, ImageKey(slug)) + EngineLinks(slug, d.containers, ContainerKey(slug))
    + ImageLinks(slug, d.images, d.containers)
    + EngineLinks(slug, d.networks, NetworkKey(slug)) + EngineLinks(slug, d.volumes, VolumeKey(slug))
  }

  ghost function DockerKeys(slug: string, d: DockerInventory): set<Key> {
    {DockerEngine(slug)} + KeysOf(d.images, ImageKey(slug)) + KeysOf(d.containers, ContainerKey(slug))
    + KeysOf(d.networks, NetworkKey(slug)) + KeysOf(d.volumes, VolumeKey(slug))
  }

  /** What a Docker inventory leaves: its nodes, its links, and nothing else. */
  ghost predicate DockerRecorded(
    urn: Key -> Option<string>, g: Graph, h: Graph, org: Org, now: int, d: DockerInventory)
  {
    var slug := Slug(d.engineSlug, "local");
    && HoldsKey(urn, g, h, org, now, DockerEngine(slug), Facts(DOCKER, DOCKER_ENGINE, slug, None))
    && Recorded(urn, g, h, org, now, d.images, ImageKey(slug), ImageFacts())
    && Recorded(urn, g, h, org, now, d.containers, ContainerKey(slug), ContainerFacts())
    && Recorded(urn, g, h, org, now, d.networks, NetworkKey(slug), NetworkFacts())
    && Recorded(urn, g, h, org, now, d.volumes, VolumeKey(slug), VolumeFacts())
    && LinkedExactly(urn, g, h, org, now, DockerLinks(slug, d))
    && OnlyNodes(urn, g, h, org, DockerKeys(slug, d))
  }

  // ----- The loops ------------------------------------------------------------

  lemma ImagePairs(slug: string, xs: seq<Image>)
    ensures Pairs(xs, ImageActions(slug), ImageKey(slug), ImageFacts(), Always(), EngineLink(slug, ImageKey(slug)))
  {
  }

  lemma NetworkPairs(slug: string, xs: seq<Network>)
    ensures
      Pairs(xs, NetworkActions(slug), NetworkKey(slug), NetworkFacts(), Always(), EngineLink(slug, NetworkKey(slug)))
  {
  }

  lemma VolumePairs(slug: string, xs: seq<Volume>)
    ensures Pairs(xs, VolumeActions(slug), VolumeKey(slug), VolumeFacts(), Always(), EngineLink(slug, VolumeKey(slug)))
  {
  }

  lemma ImagesLeave(slug: string, xs: seq<Image>)
    ensures Links(Each(xs, ImageActions(slug))) == EngineLinks(slug, xs, ImageKey(slug))
    ensures Written(Each(xs, ImageActions(slug))) == KeysOf(xs, ImageKey(slug))
  {
    ImagePairs(slug, xs);
    PairsLeave(xs, ImageActions(slug), ImageKey(slug), ImageFacts(), Always(), EngineLink(slug, ImageKey(slug)));
  }

  lemma NetworksLeave(slug: string, xs: seq<Network>)
    ensures Links(Each(xs, NetworkActions(slug))) == EngineLinks(slug, xs, NetworkKey(slug))
    ensures Written(Each(xs, NetworkActions(slug))) == KeysOf(xs, NetworkKey(slug))
  {
    NetworkPairs(slug, xs);
    PairsLeave(xs, NetworkActions(slug), NetworkKey(slug), NetworkFacts(), Always(),
      EngineLink(slug, NetworkKey(slug)));
  }

  lemma VolumesLeave(slug: string, xs: seq<Volume>)
    ensures Links(Each(xs, VolumeActions(slug))) == EngineLinks(slug, xs, VolumeKey(slug))
    ensures Written(Each(xs, VolumeActions(slug))) == KeysOf(xs, VolumeKey(slug))
  {
    VolumePairs(slug, xs);
    PairsLeave(xs, VolumeActions(slug), VolumeKey(slug), VolumeFacts(), Always(), EngineLink(slug, VolumeKey(slug)));
  }

  // Which image a container is linked to.

  lemma {:induction false} ImageCalledIs(images: seq<Image>, ref: string)
    ensures match ImageCalled(images, ref)
      case None => forall i: nat :: !IsCalled(images, ref, i)
      case Some(name) => exists i: nat :: IsCalled(images, ref, i) && Title(images[i]) == name
  {
    if images != [] {
      var n := |images| - 1;
      ImageCalledIs(images[..n], ref);
      if Title(images[n]) == ref || images[n].id == ref {
        assert IsCalled(images, ref, n);
      } else {
        forall i: nat ensures IsCalled(images, ref, i) <==> IsCalled(images[..n], ref, i) {
          CalledEarlier(images, ref, i);
        }
        if ImageCalled(images, ref).Some? {
          var i: nat :| IsCalled(images[..n], ref, i) && Title(images[..n][i]) == ImageCalled(images, ref).value;
          assert IsCalled(images, ref, i) && Title(images[i]) == ImageCalled(images, ref).value;
        }
      }
    }
  }

  lemma CalledEarlier(images: seq<Image>, ref: string, i: nat)
    requires images != [] && Title(images[|images| - 1]) != ref && images[|images| - 1].id != ref
    ensures IsCalled(images, ref, i) <==> IsCalled(images[..|images| - 1], ref, i)
  {
    var n := |images| - 1;
    assert forall j :: 0 <= j < n ==> images[..n][j] == images[j];
  }

  lemma OneIsCalled(images: seq<Image>, ref: string, i: nat, j: nat)
    requires IsCalled(images, ref, i) && IsCalled(images, ref, j)
    ensures i == j
  {
  }

  lemma RunsOneImage(images: seq<Image>, x: Container)
    ensures match ImageOf(images, x)
      case None => forall i: nat :: !RunsImage(images, x, i)
      case Some(name) => exists i: nat :: RunsImage(images, x, i) && Title(images[i]) == name
    ensures forall i: nat, j: nat :: RunsImage(images, x, i) && RunsImage(images, x, j) ==> i == j
  {
    ImageCalledIs(images, x.image);
    ImageCalledIs(images, OrElse(x.imageId, ""));
  }

  lemma ImageEdgeIs(slug: string, images: seq<Image>, x: Container)
    ensures |ImageEdge(slug, images, x)| <= 1 && forall a :: a in ImageEdge(slug, images, x) ==> a.PutEdge?
    ensures Links(ImageEdge(slug, images, x)) ==
      set i | 0 <= i < |images| && RunsImage(images, x, i) ::
        Link(ContainerKey(slug)(x), ImageKey(slug)(images[i]), USES_IMAGE)
    ensures Written(ImageEdge(slug, images, x)) == {}
  {
    RunsOneImage(images, x);
    var acts := ImageEdge(slug, images, x);
    if acts == [] {
      assert Links(acts) == {} && Written(acts) == {};
    } else {
      assert acts == [acts[0]];
      EdgePut((key: Key) => None, acts[0], "");
      var i: nat :| RunsImage(images, x, i) && Title(images[i]) == ImageOf(images, x).value;
      var l := Link(ContainerKey(slug)(x), ImageKey(slug)(images[i]), USES_IMAGE);
      assert Links(acts) == {l};
    }
  }

  lemma ContainerTurn(urn: Key -> Option<string>, slug: string, images: seq<Image>, x: Container, u: string)
    ensures TurnPuts(urn, x, ContainerActions(slug, images), ContainerKey(slug), ContainerFacts(), u)
    ensures Links(ContainerActions(slug, images)(x)) ==
      {Link(DockerEngine(slug), ContainerKey(slug)(x), CONTAINS)} + ImageLinks(slug, images, [x])
    ensures Written(ContainerActions(slug, images)(x)) == {ContainerKey(slug)(x)}
  {
    var key := ContainerKey(slug)(x);
    var node, edge := NodeAction(key, ContainerFacts()(x)), PutEdge(DockerEngine(slug), key, CONTAINS);
    var rest := ImageEdge(slug, images, x);
    assert ContainerActions(slug, images)(x) == ([node] + [edge]) + rest;
    PairPut(urn, node, [edge], u);
    ImageEdgeIs(slug, images, x);
    if rest != [] {
      assert rest == [rest[0]] && rest[0] in rest;
      EdgePut(urn, rest[0], u);
    }
    LastPutConcat(urn, [node] + [edge], rest, u);
    LinksConcat([node] + [edge], rest);
    WrittenConcat([node] + [edge], rest);
    assert [x][0] == x;
  }

  lemma ContainersPut(urn: Key -> Option<string>, slug: string, images: seq<Image>, xs: seq<Container>, u: string)
    ensures LastPut(urn, Each(xs, ContainerActions(slug, images)), u) ==
      LastOf(urn, xs, ContainerKey(slug), ContainerFacts(), u)
  {
    forall i | 0 <= i < |xs|
      ensures TurnPuts(urn, xs[i], ContainerActions(slug, images), ContainerKey(slug), ContainerFacts(), u)
    {
      ContainerTurn(urn, slug, images, xs[i], u);
    }
    EachPut(urn, xs, ContainerActions(slug, images), ContainerKey(slug), ContainerFacts(), u);
  }

  lemma ImageLinksConcat(slug: string, images: seq<Image>, a: seq<Container>, b: seq<Container>)
    ensures ImageLinks(slug, images, a + b) == ImageLinks(slug, images, a) + ImageLinks(slug, images, b)
    ensures EngineLinks(slug, a + b, ContainerKey(slug)) ==
      EngineLinks(slug, a, ContainerKey(slug)) + EngineLinks(slug, b, ContainerKey(slug))
  {
    assert forall x :: x in a + b <==> x in a || x in b;
  }

  lemma {:induction false} ContainersLink(slug: string, images: seq<Image>, xs: seq<Container>)
    ensures Links(Each(xs, ContainerActions(slug, images))) ==
      EngineLinks(slug, xs, ContainerKey(slug)) + ImageLinks(slug, images, xs)
  {
    var f := ContainerActions(slug, images);
    if xs == [] {
      assert Links(Each(xs, f)) == {};
    } else {
      var n := |xs| - 1;
      assert xs == xs[..n] + [xs[n]];
      ContainersLink(slug, images, xs[..n]);
      ContainerTurn((key: Key) => None, slug, images, xs[n], "");
      LinksConcat(Each(xs[..n], f), f(xs[n]));
      ImageLinksConcat(slug, images, xs[..n], [xs[n]]);
      assert [xs[n]][0] == xs[n];
    }
  }

  lemma ContainersWrite(slug: string, images: seq<Image>, xs: seq<Container>)
    ensures Written(Each(xs, ContainerActions(slug, images))) == KeysOf(xs, ContainerKey(slug))
  {
    forall i | 0 <= i < |xs| ensures Written(ContainerActions(slug, images)(xs[i])) == {ContainerKey(slug)(xs[i])} {
      ContainerTurn((key: Key) => None, slug, images, xs[i], "");
    }
    EachKey(xs, ContainerActions(slug, images), ContainerKey(slug));
  }

  // ----- The whole plan -------------------------------------------------------

  function Parts(slug: string, d: DockerInventory): (seq<Action>, seq<Action>, seq<Action>, seq<Action>, seq<Action>) {
    ([PutNode(DockerEngine(slug), DOCKER, DOCKER_ENGINE, slug, None)],
     Each(d.images, ImageActions(slug)),
     Each(d.containers, ContainerActions(slug, d.images)),
     Each(d.networks, NetworkActions(slug)),
     Each(d.volumes, VolumeActions(slug)))
  }

  lemma PartsPut(
    urn: Key -> Option<string>, a: seq<Action>, b: seq<Action>, c: seq<Action>, d: seq<Action>, e: seq<Action>,
    u: string)
    ensures LastPut(urn, a + b + c + d + e, u) ==
      OrElseFacts(LastPut(urn, e, u), OrElseFacts(LastPut(urn, d, u), OrElseFacts(LastPut(urn, c, u),
      OrElseFacts(LastPut(urn, b, u), LastPut(urn, a, u)))))
    ensures Links(a + b + c + d + e) == Links(a) + Links(b) + Links(c) + Links(d) + Links(e)
    ensures Written(a + b + c + d + e) == Written(a) + Written(b) + Written(c) + Written(d) + Written(e)
  {
    LastPutConcat(urn, a, b, u);
    LastPutConcat(urn, a + b, c, u);
    LastPutConcat(urn, a + b + c, d, u);
    LastPutConcat(urn, a + b + c + d, e, u);
    LinksConcat(a, b);
    LinksConcat(a + b, c);
    LinksConcat(a + b + c, d);
    LinksConcat(a + b + c + d, e);
    WrittenConcat(a, b);
    WrittenConcat(a + b, c);
    WrittenConcat(a + b + c, d);
    WrittenConcat(a + b + c + d, e);
  }

  lemma DockerLeaves(slug: string, d: DockerInventory)
    requires slug == Slug(d.engineSlug, "local")
    ensures Links(DockerPlan(d)) == DockerLinks(slug, d)
    ensures Written(DockerPlan(d)) == DockerKeys(slug, d)
  {
    var (root, images, containers, networks, volumes) := Parts(slug, d);
    PartsPut((key: Key) => None, root, images, containers, networks, volumes, "");
    NodePut((key: Key) => None, root[0], "");
    ImagesLeave(slug, d.images);
    ContainersLink(slug, d.images, d.containers);
    ContainersWrite(slug, d.images, d.containers);
    NetworksLeave(slug, d.networks);
    VolumesLeave(slug, d.volumes);
  }

  lemma DockerChain(urn: Key -> Option<string>, slug: string, d: DockerInventory, u: string)
    requires slug == Slug(d.engineSlug, "local")
    ensures LastPut(urn, DockerPlan(d), u) ==
      OrElseFacts(LastOf(urn, d.volumes, VolumeKey(slug), VolumeFacts(), u),
      OrElseFacts(LastOf(urn, d.networks, NetworkKey(slug), NetworkFacts(), u),
      OrElseFacts(LastOf(urn, d.containers, ContainerKey(slug), ContainerFacts(), u),
      OrElseFacts(LastOf(urn, d.images, ImageKey(slug), ImageFacts(), u),
        if urn(DockerEngine(slug)) == Some(u) then Some(Facts(DOCKER, DOCKER_ENGINE, slug, None)) else None))))
  {
    var (root, images, containers, networks, volumes) := Parts(slug, d);
    PartsPut(urn, root, images, containers, networks, volumes, u);
    NodePut(urn, root[0], u);
    ImagePairs(slug, d.images);
    PairsPut(urn, d.images, ImageActions(slug), ImageKey(slug), ImageFacts(), Always(),
      EngineLink(slug, ImageKey(slug)), u);
    ContainersPut(urn, slug, d.images, d.containers, u);
    NetworkPairs(slug, d.networks);
    PairsPut(urn, d.networks, NetworkActions(slug), NetworkKey(slug), NetworkFacts(), Always(),
      EngineLink(slug, NetworkKey(slug)), u);
    VolumePairs(slug, d.volumes);
    PairsPut(urn, d.volumes, VolumeActions(slug), VolumeKey(slug), VolumeFacts(), Always(),
      EngineLink(slug, VolumeKey(slug)), u);
  }

  lemma BuiltElsewhere(urn: Key -> Option<string>, slug: string, d: DockerInventory, u: string, kind: Kind)
    requires OfKind(urn, u, kind)
    ensures kind != DOCKER_IMAGE ==> LastOf(urn, d.images, ImageKey(slug), ImageFacts(), u) == None
    ensures kind != DOCKER_CONTAINER ==> LastOf(urn, d.containers, ContainerKey(slug), ContainerFacts(), u) == None
  {
    OtherKind(urn, d.images, ImageKey(slug), ImageFacts(), u, kind, DOCKER_IMAGE);
    OtherKind(urn, d.containers, ContainerKey(slug), ContainerFacts(), u, kind, DOCKER_CONTAINER);
  }

  lemma AttachedElsewhere(urn: Key -> Option<string>, slug: string, d: DockerInventory, u: string, kind: Kind)
    requires OfKind(urn, u, kind)
    ensures kind != DOCKER_NETWORK ==> LastOf(urn, d.networks, NetworkKey(slug), NetworkFacts(), u) == None
    ensures kind != DOCKER_VOLUME ==> LastOf(urn, d.volumes, VolumeKey(slug), VolumeFacts(), u) == None
  {
    OtherKind(urn, d.networks, NetworkKey(slug), NetworkFacts(), u, kind, DOCKER_NETWORK);
    OtherKind(urn, d.volumes, VolumeKey(slug), VolumeFacts(), u, kind, DOCKER_VOLUME);
  }

  ghost function DockerLeft(urn: Key -> Option<string>, slug: string, d: DockerInventory, u: string, kind: Kind)
    : Option<Facts>
  {
    match kind
    case DOCKER_IMAGE => LastOf(urn, d.images, ImageKey(slug), ImageFacts(), u)
    case DOCKER_CONTAINER => LastOf(urn, d.containers, ContainerKey(slug), ContainerFacts(), u)
    case DOCKER_NETWORK => LastOf(urn, d.networks, NetworkKey(slug), NetworkFacts(), u)
    case DOCKER_VOLUME => LastOf(urn, d.volumes, VolumeKey(slug), VolumeFacts(), u)
    case _ => if urn(DockerEngine(slug)) == Some(u) then Some(Facts(DOCKER, DOCKER_ENGINE, slug, None)) else None
  }

  lemma DockerPuts(urn: Key -> Option<string>, slug: string, d: DockerInventory, u: string, kind: Kind)
    requires OfKind(urn, u, kind) && slug == Slug(d.engineSlug, "local")
    ensures LastPut(urn, DockerPlan(d), u) == DockerLeft(urn, slug, d, u, kind)
  {
    DockerChain(urn, slug, d, u);
    BuiltElsewhere(urn, slug, d, u, kind);
    AttachedElsewhere(urn, slug, d, u, kind);
    assert KindOf(DockerEngine(slug)) == DOCKER_ENGINE;
  }

  lemma ImagesLeft(urn: Key -> Option<string>, slug: string, d: DockerInventory)
    requires slug == Slug(d.engineSlug, "local")
    ensures LeavesKind(urn, DockerPlan(d), d.images, ImageKey(slug), ImageFacts(), DOCKER_IMAGE)
    ensures AllOfKind(d.images, ImageKey(slug), DOCKER_IMAGE)
  {
    forall u: string | OfKind(urn, u, DOCKER_IMAGE)
      ensures LastPut(urn, DockerPlan(d), u) == LastOf(urn, d.images, ImageKey(slug), ImageFacts(), u)
    {
      DockerPuts(urn, slug, d, u, DOCKER_IMAGE);
    }
  }

  lemma ContainersLeft(urn: Key -> Option<string>, slug: string, d: DockerInventory)
    requires slug == Slug(d.engineSlug, "local")
    ensures LeavesKind(urn, DockerPlan(d), d.containers, ContainerKey(slug), ContainerFacts(), DOCKER_CONTAINER)
    ensures AllOfKind(d.containers, ContainerKey(slug), DOCKER_CONTAINER)
  {
    forall u: string | OfKind(urn, u, DOCKER_CONTAINER)
      ensures LastPut(urn, DockerPlan(d), u) == LastOf(urn, d.containers, ContainerKey(slug), ContainerFacts(), u)
    {
      DockerPuts(urn, slug, d, u, DOCKER_CONTAINER);
    }
  }

  lemma NetworksLeft(urn: Key -> Option<string>, slug: string, d: DockerInventory)
    requires slug == Slug(d.engineSlug, "local")
    ensures LeavesKind(urn, DockerPlan(d), d.networks, NetworkKey(slug), NetworkFacts(), DOCKER_NETWORK)
    ensures AllOfKind(d.networks, NetworkKey(slug), DOCKER_NETWORK)
  {
    forall u: string | OfKind(urn, u, DOCKER_NETWORK)
      ensures LastPut(urn, DockerPlan(d), u) == LastOf(urn, d.networks, NetworkKey(slug), NetworkFacts(), u)
    {
      DockerPuts(urn, slug, d, u, DOCKER_NETWORK);
    }
  }

  lemma VolumesLeft(urn: Key -> Option<string>, slug: string, d: DockerInventory)
    requires slug == Slug(d.engineSlug, "local")
    ensures LeavesKind(urn, DockerPlan(d), d.volumes, VolumeKey(slug), VolumeFacts(), DOCKER_VOLUME)
    ensures AllOfKind(d.volumes, VolumeKey(slug), DOCKER_VOLUME)
  {
    forall u: string | OfKind(urn, u, DOCKER_VOLUME)
      ensures LastPut(urn, DockerPlan(d), u) == LastOf(urn, d.volumes, VolumeKey(slug), VolumeFacts(), u)
    {
      DockerPuts(urn, slug, d, u, DOCKER_VOLUME);
    }
  }

  lemma EngineLeft(urn: Key -> Option<string>, slug: string, d: DockerInventory)
    requires slug == Slug(d.engineSlug, "local") && DockerEngine(slug) in Written(DockerPlan(d))
    ensures LeavesOne(urn, DockerPlan(d), DockerEngine(slug), Facts(DOCKER, DOCKER_ENGINE, slug, None))
  {
    forall u: string | OfKind(urn, u, DOCKER_ENGINE) && urn(DockerEngine(slug)) == Some(u)
      ensures LastPut(urn, DockerPlan(d), u) == Some(Facts(DOCKER, DOCKER_ENGINE, slug, None))
    {
      DockerPuts(urn, slug, d, u, DOCKER_ENGINE);
    }
  }

  ghost predicate LeavesDocker(urn: Key -> Option<string>, acts: seq<Action>, slug: string, d: DockerInventory) {
    && LeavesOne(urn, acts, DockerEngine(slug), Facts(DOCKER, DOCKER_ENGINE, slug, None))
    && LeavesAll(urn, acts, d.images, ImageKey(slug), ImageFacts(), DOCKER_IMAGE)
    && LeavesAll(urn, acts, d.containers, ContainerKey(slug), ContainerFacts(), DOCKER_CONTAINER)
    && LeavesAll(urn, acts, d.networks, NetworkKey(slug), NetworkFacts(), DOCKER_NETWORK)
    && LeavesAll(urn, acts, d.volumes, VolumeKey(slug), VolumeFacts(), DOCKER_VOLUME)
  }

  lemma PlanLeavesDocker(urn: Key -> Option<string>, slug: string, d: DockerInventory)
    requires slug == Slug(d.engineSlug, "local") && Written(DockerPlan(d)) == DockerKeys(slug, d)
    ensures LeavesDocker(urn, DockerPlan(d), slug, d)
  {
    EngineLeft(urn, slug, d);
    ImagesLeft(urn, slug, d);
    ContainersLeft(urn, slug, d);
    NetworksLeft(urn, slug, d);
    VolumesLeft(urn, slug, d);
  }

  lemma DockerIsRecorded(
    urn: Key -> Option<string>, kindOf: string -> Option<Kind>, g: Graph, h: Graph, org: Org, now: int,
    d: DockerInventory, acts: seq<Action>, slug: string)
    requires Left(urn, kindOf, g, h, org, now, acts) && slug == Slug(d.engineSlug, "local")
    requires LinkedExactly(urn, g, h, org, now, DockerLinks(slug, d)) && Written(acts) == DockerKeys(slug, d)
    requires LeavesDocker(urn, acts, slug, d)
    ensures DockerRecorded(urn, g, h, org, now, d)
  {
    OnlyWritten(urn, g, h, org, now, acts);
    OneIsRecorded(urn, kindOf, g, h, org, now, acts, DockerEngine(slug), Facts(DOCKER, DOCKER_ENGINE, slug, None));
    KindIsRecorded(urn, kindOf, g, h, org, now, acts, d.images, ImageKey(slug), ImageFacts(), DOCKER_IMAGE);
    KindIsRecorded(urn, kindOf, g, h, org, now, acts, d.containers, ContainerKey(slug), ContainerFacts(),
      DOCKER_CONTAINER);
    KindIsRecorded(urn, kindOf, g, h, org, now, acts, d.networks, NetworkKey(slug), NetworkFacts(), DOCKER_NETWORK);
    KindIsRecorded(urn, kindOf, g, h, org, now, acts, d.volumes, VolumeKey(slug), VolumeFacts(), DOCKER_VOLUME);
  }

  /** A Docker inventory that is registered without an error leaves the engine and every image, container, network and
      volume with their columns; exactly its links, a container's to the image it runs among them; and every other
      node and edge as it was. */
  lemma Registered(g: Graph, h: Graph, org: Org, now: int, d: DockerInventory)
    requires Perform(Actor(org, now), g, DockerPlan(d)) == (h, None)
    ensures DockerRecorded(Printed, g, h, org, now, d)
  {
    LeftBehind(g, org, now, DockerPlan(d), h);
    PrintedTells();
    var slug := Slug(d.engineSlug, "local");
    DockerLeaves(slug, d);
    PlanLeavesDocker(Printed, slug, d);
    DockerIsRecorded(Printed, UrnKind, g, h, org, now, d, DockerPlan(d), slug);
  }
}
