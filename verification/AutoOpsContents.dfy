/** What the AutoOps calls leave in the graph (apps/api/src/modules/resources/resource-graph.service.ts). */
module AutoOpsContents {
  import opened Wrappers
  import opened Text
  import opened Runs
  import opened UrnPrinters
  import opened ResourceGraphPlans
  import opened ResourceGraphLaws
  import opened ResourceGraphContents

  /** A node that a call writes. */
  datatype Item = Item(key: Key, facts: Facts)

  ghost predicate ItemsRecorded(
    urn: Key -> Option<string>, g: Graph, h: Graph, org: Org, now: int, items: set<Item>, links: set<Link>)
  {
    && (forall i :: i in items ==> HoldsKey(urn, g, h, org, now, i.key, i.facts))
    && LinkedExactly(urn, g, h, org, now, links)
    && OnlyNodes(urn, g, h, org, set i | i in items :: i.key)
  }

  function OrganizationItem(): Item {
    Item(Organization, Facts(AUTOOPS, ORGANIZATION, "current", None))
  }

  function ProjectItem(p: ProjectInput): Item {
    Item(Project(p.id), Facts(AUTOOPS, PROJECT, p.slug, None))
  }

  function EnvironmentItem(e: EnvironmentInput): Item {
    Item(Environment(e.id), Facts(AUTOOPS, ENVIRONMENT, e.slug, None))
  }

  function DeploymentItem(d: DeploymentInput): Item {
    Item(Deployment(d.id), Facts(AUTOOPS, DEPLOYMENT, d.id, Some(d.status)))
  }

  function OperationItem(o: OperationInput): Item {
    Item(Operation(o.id), Facts(AUTOOPS, OPERATION, o.id, Some(o.status)))
  }

  // ----- Plans of different kinds ---------------------------------------------

  /** The plan leaves exactly these items, each of its own kind, and these links. */
  ghost predicate Leaves(acts: seq<Action>, items: set<Item>, links: set<Link>) {
    && (forall urn: Key -> Option<string>, i :: i in items ==> LeavesOne(urn, acts, i.key, i.facts))
    && Links(acts) == links && Written(acts) == set i | i in items :: i.key
  }

  lemma OneItem(i: Item)
    requires !i.key.JenkinsBuild?
    ensures Leaves([NodeAction(i.key, i.facts)], {i}, {})
  {
    var acts := [NodeAction(i.key, i.facts)];
    NodePut((key: Key) => None, acts[0], "");
    forall urn: Key -> Option<string> ensures LeavesOne(urn, acts, i.key, i.facts) {
      forall u: string | urn(i.key) == Some(u) ensures LastPut(urn, acts, u) == Some(i.facts) {
        NodePut(urn, acts[0], u);
      }
    }
  }

  lemma StillLeaves(urn: Key -> Option<string>, acts: seq<Action>, kept: Item, child: Item, edge: Action)
    requires LeavesOne(urn, acts, kept.key, kept.facts) && edge.PutEdge? && !child.key.JenkinsBuild?
    requires KindOf(child.key) != KindOf(kept.key)
    ensures LeavesOne(urn, acts + ([NodeAction(child.key, child.facts)] + [edge]), kept.key, kept.facts)
  {
    var more := [NodeAction(child.key, child.facts)] + [edge];
    WrittenConcat(acts, more);
    forall u: string | OfKind(urn, u, KindOf(kept.key)) && urn(kept.key) == Some(u)
      ensures LastPut(urn, acts + more, u) == Some(kept.facts)
    {
      LastPutConcat(urn, acts, more, u);
      PairPut(urn, NodeAction(child.key, child.facts), [edge], u);
    }
  }

  lemma ChildLeft(urn: Key -> Option<string>, acts: seq<Action>, child: Item, edge: Action)
    requires edge.PutEdge? && !child.key.JenkinsBuild?
    ensures LeavesOne(urn, acts + ([NodeAction(child.key, child.facts)] + [edge]), child.key, child.facts)
  {
    var more := [NodeAction(child.key, child.facts)] + [edge];
    WrittenConcat(acts, more);
    PairPut(urn, NodeAction(child.key, child.facts), [edge], "");
    forall u: string | urn(child.key) == Some(u) ensures LastPut(urn, acts + more, u) == Some(child.facts) {
      LastPutConcat(urn, acts, more, u);
      PairPut(urn, NodeAction(child.key, child.facts), [edge], u);
    }
  }

  /** A plan, and a child of another kind with its link. */
  lemma WithChild(acts: seq<Action>, items: set<Item>, links: set<Link>, child: Item, l: Link)
    requires Leaves(acts, items, links) && !child.key.JenkinsBuild?
    requires forall i :: i in items ==> KindOf(i.key) != KindOf(child.key)
    ensures Leaves(acts + [NodeAction(child.key, child.facts), EdgeAction(l)], items + {child}, links + {l})
  {
    var more := [NodeAction(child.key, child.facts)] + [EdgeAction(l)];
    assert more == [NodeAction(child.key, child.facts), EdgeAction(l)];
    PairPut((key: Key) => None, NodeAction(child.key, child.facts), [EdgeAction(l)], "");
    LinksConcat(acts, more);
    WrittenConcat(acts, more);
    forall urn: Key -> Option<string>, i | i in items + {child} ensures LeavesOne(urn, acts + more, i.key, i.facts) {
      if i in items {
        StillLeaves(urn, acts, i, child, EdgeAction(l));
      } else {
        ChildLeft(urn, acts, child, EdgeAction(l));
      }
    }
  }

  lemma ItemsAreRecorded(
    g: Graph, h: Graph, org: Org, now: int, acts: seq<Action>, items: set<Item>, links: set<Link>)
    requires Perform(Actor(org, now), g, acts) == (h, None) && Leaves(acts, items, links)
    ensures ItemsRecorded(Printed, g, h, org, now, items, links)
  {
    LeftBehind(g, org, now, acts, h);
    PrintedTells();
    OnlyWritten(Printed, g, h, org, now, acts);
    forall i | i in items ensures HoldsKey(Printed, g, h, org, now, i.key, i.facts) {
      OneIsRecorded(Printed, UrnKind, g, h, org, now, acts, i.key, i.facts);
    }
  }

  // ----- The calls ------------------------------------------------------------

  lemma ProjectLeaves(p: ProjectInput)
    ensures Leaves(ProjectPlan(p), {OrganizationItem(), ProjectItem(p)}, {Link(Organization, Project(p.id), OWNS)})
  {
    OneItem(OrganizationItem());
    WithChild(OrganizationPlan(), {OrganizationItem()}, {}, ProjectItem(p), Link(Organization, Project(p.id), OWNS));
    assert {OrganizationItem()} + {ProjectItem(p)} == {OrganizationItem(), ProjectItem(p)};
    assert {} + {Link(Organization, Project(p.id), OWNS)} == {Link(Organization, Project(p.id), OWNS)};
  }

  lemma EnvironmentLeaves(e: EnvironmentInput, p: ProjectInput)
    ensures Leaves(EnvironmentPlan(e, Some(p)),
      {OrganizationItem(), ProjectItem(p), EnvironmentItem(e)},
      {Link(Organization, Project(p.id), OWNS), Link(Project(p.id), Environment(e.id), CONTAINS)})
  {
    ProjectLeaves(p);
    var items, links := {OrganizationItem(), ProjectItem(p)}, {Link(Organization, Project(p.id), OWNS)};
    var l := Link(Project(p.id), Environment(e.id), CONTAINS);
    WithChild(ProjectPlan(p), items, links, EnvironmentItem(e), l);
    assert items + {EnvironmentItem(e)} == {OrganizationItem(), ProjectItem(p), EnvironmentItem(e)};
    assert links + {l} == {Link(Organization, Project(p.id), OWNS), l};
  }

  lemma DeploymentLeaves(d: DeploymentInput, e: EnvironmentInput, p: ProjectInput)
    ensures Leaves(DeploymentPlan(d, Some(e), Some(p)),
      {OrganizationItem(), ProjectItem(p), EnvironmentItem(e), DeploymentItem(d)},
      {Link(Organization, Project(p.id), OWNS), Link(Project(p.id), Environment(e.id), CONTAINS),
       Link(Environment(e.id), Deployment(d.id), CONTAINS)})
  {
    EnvironmentLeaves(e, p);
    var items := {OrganizationItem(), ProjectItem(p), EnvironmentItem(e)};
    var links := {Link(Organization, Project(p.id), OWNS), Link(Project(p.id), Environment(e.id), CONTAINS)};
    var l := Link(Environment(e.id), Deployment(d.id), CONTAINS);
    WithChild(EnvironmentPlan(e, Some(p)), items, links, DeploymentItem(d), l);
    assert items + {DeploymentItem(d)} == {OrganizationItem(), ProjectItem(p), EnvironmentItem(e), DeploymentItem(d)};
    assert links + {l} ==
      {Link(Organization, Project(p.id), OWNS), Link(Project(p.id), Environment(e.id), CONTAINS), l};
  }

  lemma OrganizationRegistered(g: Graph, h: Graph, org: Org, now: int)
    requires Perform(Actor(org, now), g, OrganizationPlan()) == (h, None)
    ensures ItemsRecorded(Printed, g, h, org, now, {OrganizationItem()}, {})
  {
    OneItem(OrganizationItem());
    ItemsAreRecorded(g, h, org, now, OrganizationPlan(), {OrganizationItem()}, {});
  }

  /** A project leaves the organization's node, its own, and the edge between them. */
  lemma ProjectRegistered(g: Graph, h: Graph, org: Org, now: int, p: ProjectInput)
    requires Perform(Actor(org, now), g, ProjectPlan(p)) == (h, None)
    ensures ItemsRecorded(Printed, g, h, org, now,
      {OrganizationItem(), ProjectItem(p)}, {Link(Organization, Project(p.id), OWNS)})
  {
    ProjectLeaves(p);
    ItemsAreRecorded(g, h, org, now, ProjectPlan(p), {OrganizationItem(), ProjectItem(p)},
      {Link(Organization, Project(p.id), OWNS)});
  }

  /** An environment leaves its project's nodes and edge, its own node, and the edge from the project. */
  lemma EnvironmentRegistered(
    g: Graph, h: Graph, org: Org, now: int, e: EnvironmentInput, parent: Option<ProjectInput>)
    requires Perform(Actor(org, now), g, EnvironmentPlan(e, parent)) == (h, None)
    ensures parent.Some? && var p := parent.value; ItemsRecorded(Printed, g, h, org, now,
      {OrganizationItem(), ProjectItem(p), EnvironmentItem(e)},
      {Link(Organization, Project(p.id), OWNS), Link(Project(p.id), Environment(e.id), CONTAINS)})
  {
    if parent.None? {
      PerformOne(Actor(org, now), g, Throw(ParentNotFound));
    } else {
      var p := parent.value;
      EnvironmentLeaves(e, p);
      ItemsAreRecorded(g, h, org, now, EnvironmentPlan(e, parent),
        {OrganizationItem(), ProjectItem(p), EnvironmentItem(e)},
        {Link(Organization, Project(p.id), OWNS), Link(Project(p.id), Environment(e.id), CONTAINS)});
    }
  }

  /** A deployment leaves its environment's nodes and edges, its own node, and the edge from the environment. */
  lemma DeploymentRegistered(
    g: Graph, h: Graph, org: Org, now: int, d: DeploymentInput, e: EnvironmentInput, p: ProjectInput)
    requires Perform(Actor(org, now), g, DeploymentPlan(d, Some(e), Some(p))) == (h, None)
    ensures ItemsRecorded(Printed, g, h, org, now,
      {OrganizationItem(), ProjectItem(p), EnvironmentItem(e), DeploymentItem(d)},
      {Link(Organization, Project(p.id), OWNS), Link(Project(p.id), Environment(e.id), CONTAINS),
       Link(Environment(e.id), Deployment(d.id), CONTAINS)})
  {
    DeploymentLeaves(d, e, p);
    ItemsAreRecorded(g, h, org, now, DeploymentPlan(d, Some(e), Some(p)),
      {OrganizationItem(), ProjectItem(p), EnvironmentItem(e), DeploymentItem(d)},
      {Link(Organization, Project(p.id), OWNS), Link(Project(p.id), Environment(e.id), CONTAINS),
       Link(Environment(e.id), Deployment(d.id), CONTAINS)});
  }

  /** A missing parent throws before anything is written. */
  lemma MissingParentThrows(
    g: Graph, org: Org, now: int, d: DeploymentInput, e: EnvironmentInput, parent: Option<ProjectInput>)
    ensures Perform(Actor(org, now), g, EnvironmentPlan(e, None)) == (g, Some(ParentNotFound))
    ensures Perform(Actor(org, now), g, DeploymentPlan(d, None, parent)) == (g, Some(ParentNotFound))
    ensures Perform(Actor(org, now), g, DeploymentPlan(d, Some(e), None)) == (g, Some(ParentNotFound))
  {
    PerformOne(Actor(org, now), g, Throw(ParentNotFound));
    var plan := DeploymentPlan(d, Some(e), None);
    PerformConcat(Actor(org, now), g, EnvironmentPlan(e, None), plan[1..]);
    assert plan == EnvironmentPlan(e, None) + plan[1..];
  }

  /** An operation leaves its one node. */
  lemma OperationRegistered(g: Graph, h: Graph, org: Org, now: int, o: OperationInput)
    requires Perform(Actor(org, now), g, OperationPlan(o)) == (h, None)
    ensures ItemsRecorded(Printed, g, h, org, now, {OperationItem(o)}, {})
  {
    OneItem(OperationItem(o));
    ItemsAreRecorded(g, h, org, now, OperationPlan(o), {OperationItem(o)}, {});
  }
}
