/** Runs of resource-graph calls: what holds after any number of them, by any organization. */
module ResourceGraphRuns {
  import opened Wrappers
  import opened Text
  import opened Runs
  import opened ResourceUrn
  import SanitizedTexts
  import opened UrnPrinters
  import opened ResourceGraphPlans
  import opened ResourceGraphLaws

  datatype Step = Step(org: Org, now: int, call: Call)

  const NO_ROWS := Graph(map[], map[])

  /** What a call leaves, and the error it throws. */
  function Outcome(g: Graph, s: Step): (Graph, Option<GraphError>) {
    if s.call.ArchiveStale? then (Archived(g, s.org, s.call.provider, s.call.olderThan, s.now), None)
    else Perform(Actor(s.org, s.now), g, Plan(s.call))
  }

  ghost function Next(g: Graph, s: Step): Option<Graph> {
    Some(Outcome(g, s).0)
  }

  ghost predicate Good(g: Graph) {
    Fits(UrnLevel, g)
  }

  lemma ArchiveKeeps(
    levelOf: string -> Option<nat>, kindOf: string -> Option<Kind>, g: Graph, org: Org, provider: Provider,
    olderThan: int, now: int)
    ensures Fits(levelOf, g) ==> Fits(levelOf, Archived(g, org, provider, olderThan, now))
    ensures KindsFit(kindOf, g.nodes) ==> KindsFit(kindOf, Archived(g, org, provider, olderThan, now).nodes)
  {
  }

  /** One call, whether it ends or throws half-way. It can only throw for a segment or a missing parent:
      no edge of an inventory is ever refused. */
  lemma CallKeeps(g: Graph, s: Step)
    requires Good(g)
    ensures Good(Outcome(g, s).0)
    ensures var error := Outcome(g, s).1; error.Some? ==> error.value.BadSegment? || error.value == ParentNotFound
  {
    if s.call.ArchiveStale? {
      ArchiveKeeps(UrnLevel, UrnKind, g, s.org, s.call.provider, s.call.olderThan, s.now);
    } else {
      PlanOrdered(s.call);
      PerformKeeps(g, s.org, s.now, Plan(s.call), {});
    }
  }

  lemma {:induction false} EveryRunIsGood(steps: seq<Step>)
    ensures Final(Next, NO_ROWS, steps).Some? ==> Good(Final(Next, NO_ROWS, steps).value)
  {
    forall g, s | Good(g) && Next(g, s).Some? ensures Good(Next(g, s).value) {
      CallKeeps(g, s);
    }
    Invariant(Next, Good, NO_ROWS, steps);
  }

  /** In every run no call is refused an edge. */
  lemma {:induction false} NoEdgeIsRefused(steps: seq<Step>, s: Step)
    requires Final(Next, NO_ROWS, steps).Some?
    ensures var error := Outcome(Final(Next, NO_ROWS, steps).value, s).1;
      error != Some(SelfEdge) && error != Some(NodeNotFound)
  {
    EveryRunIsGood(steps);
    CallKeeps(Final(Next, NO_ROWS, steps).value, s);
  }

  // ----- Rows are never lost --------------------------------------------------

  ghost predicate Within(g: Graph, h: Graph) {
    g.nodes.Keys <= h.nodes.Keys && g.edges.Keys <= h.edges.Keys
  }

  lemma ActGrows(g: Graph, org: Org, now: int, a: Action)
    ensures Act(g, org, now, a).Ok? ==> Within(g, Act(g, org, now, a).value)
  {
  }

  lemma {:induction false} PerformGrows(g: Graph, org: Org, now: int, acts: seq<Action>)
    ensures Within(g, Perform(Actor(org, now), g, acts).0)
    decreases |acts|
  {
    if acts != [] {
      ActGrows(g, org, now, acts[0]);
      var r := Actor(org, now)(g, acts[0]);
      if r.Ok? {
        PerformGrows(r.value, org, now, acts[1..]);
      }
    }
  }

  lemma CallGrows(g: Graph, s: Step)
    ensures Within(g, Outcome(g, s).0)
  {
    if !s.call.ArchiveStale? {
      PerformGrows(g, s.org, s.now, Plan(s.call));
    }
  }

  lemma {:induction false} RunGrows(g: Graph, steps: seq<Step>)
    ensures Final(Next, g, steps).Some? ==> Within(g, Final(Next, g, steps).value)
    decreases |steps|
  {
    if steps != [] && Next(g, steps[0]).Some? {
      CallGrows(g, steps[0]);
      RunGrows(Next(g, steps[0]).value, steps[1..]);
    }
  }

  // ----- Kinds ----------------------------------------------------------------

  /** Runs without a Jenkins instance named "job/...". */
  ghost function ClearNext(g: Graph, s: Step): Option<Graph> {
    if CallClear(s.call) then Next(g, s) else None
  }

  lemma CallKeepsKinds(g: Graph, s: Step)
    requires KindsFit(UrnKind, g.nodes) && CallClear(s.call)
    ensures KindsFit(UrnKind, Outcome(g, s).0.nodes)
  {
    if s.call.ArchiveStale? {
      ArchiveKeeps(UrnLevel, UrnKind, g, s.org, s.call.provider, s.call.olderThan, s.now);
    } else {
      PlanOrdered(s.call);
      PlanIsClear(s.call);
      PerformKeepsKinds(g, s.org, s.now, Plan(s.call), {});
    }
  }

  lemma {:induction false} EveryClearRunFits(steps: seq<Step>)
    ensures Final(ClearNext, NO_ROWS, steps).Some? ==>
      KindsFit(UrnKind, Final(ClearNext, NO_ROWS, steps).value.nodes)
  {
    var inv := (g: Graph) => KindsFit(UrnKind, g.nodes);
    forall g, s | inv(g) && ClearNext(g, s).Some? ensures inv(ClearNext(g, s).value) {
      CallKeepsKinds(g, s);
    }
    Invariant(ClearNext, inv, NO_ROWS, steps);
  }

  /** Each URN of an organization keeps its node, and the node its kind, for ever. */
  lemma {:induction false} KindIsFixed(first: seq<Step>, second: seq<Step>)
    requires Final(ClearNext, NO_ROWS, first + second).Some?
    ensures Final(ClearNext, NO_ROWS, first).Some?
    ensures
      var g, h := Final(ClearNext, NO_ROWS, first).value, Final(ClearNext, NO_ROWS, first + second).value;
      forall id :: id in g.nodes ==> id in h.nodes && h.nodes[id].kind == g.nodes[id].kind
  {
    Concatenate(ClearNext, NO_ROWS, first, second);
    EveryClearRunFits(first);
    EveryClearRunFits(first + second);
    var g := Final(ClearNext, NO_ROWS, first).value;
    GuardedRun(ClearNext, Next, g, second);
    RunGrows(g, second);
  }

  // ----- The shape of the graph -----------------------------------------------

  ghost predicate Linked(g: Graph, source: NodeId, target: NodeId) {
    exists edge :: (source, target, edge) in g.edges
  }

  /** A walk along edges. */
  ghost predicate Walk(g: Graph, ids: seq<NodeId>) {
    |ids| > 1 ==> Linked(g, ids[0], ids[1]) && Walk(g, ids[1..])
  }

  function LevelOf(id: NodeId): nat {
    match UrnLevel(id.1)
    case None => 0
    case Some(level) => level
  }

  lemma LinkRises(g: Graph, source: NodeId, target: NodeId)
    requires Good(g) && Linked(g, source, target)
    ensures source.0 == target.0 && LevelOf(source) < LevelOf(target)
  {
    var edge :| (source, target, edge) in g.edges;
    assert Rises(UrnLevel, source, target);
  }

  lemma {:induction false} WalkRises(g: Graph, ids: seq<NodeId>)
    requires Good(g) && Walk(g, ids) && |ids| > 0
    ensures ids[0].0 == ids[|ids| - 1].0 && LevelOf(ids[0]) + |ids| - 1 <= LevelOf(ids[|ids| - 1])
    decreases |ids|
  {
    if |ids| > 1 {
      LinkRises(g, ids[0], ids[1]);
      WalkRises(g, ids[1..]);
    }
  }

  /** In every run each edge joins two distinct existing nodes of one organization, no walk comes back to where it
      started, and none is longer than three edges. */
  lemma {:induction false} EveryRunIsAcyclic(steps: seq<Step>)
    requires Final(Next, NO_ROWS, steps).Some?
    ensures var g := Final(Next, NO_ROWS, steps).value;
      && (forall e :: e in g.edges ==> e.0 in g.nodes && e.1 in g.nodes && e.0 != e.1 && e.0.0 == e.1.0)
      && (forall ids :: |ids| > 1 && Walk(g, ids) ==> ids[0] != ids[|ids| - 1] && |ids| <= 4)
  {
    EveryRunIsGood(steps);
    var g := Final(Next, NO_ROWS, steps).value;
    forall e | e in g.edges ensures e.0 in g.nodes && e.1 in g.nodes && e.0 != e.1 && e.0.0 == e.1.0 {
      assert Rises(UrnLevel, e.0, e.1);
    }
    forall ids: seq<NodeId> | |ids| > 1 && Walk(g, ids) ensures ids[0] != ids[|ids| - 1] && |ids| <= 4 {
      WalkRises(g, ids);
      LevelIsSmall(ids[|ids| - 1].1);
    }
  }

  // ----- Repeating an inventory -----------------------------------------------

  ghost predicate EdgeError(error: Option<GraphError>) {
    error == Some(SelfEdge) || error == Some(NodeNotFound)
  }

  ghost predicate SameKeys(g: Graph, h: Graph) {
    g.nodes.Keys == h.nodes.Keys && g.edges.Keys == h.edges.Keys
  }

  /** An action that was performed before is performed again, and finds its row. */
  lemma ActAgain(g: Graph, org: Org, now: int, later: Graph, moment: int, a: Action)
    requires Act(g, org, now, a).Ok? && Within(Act(g, org, now, a).value, later)
    ensures Act(later, org, moment, a).Ok? && SameKeys(later, Act(later, org, moment, a).value)
  {
    ActGrows(g, org, now, a);
    var h := Act(g, org, now, a).value;
    if a.PutNode? {
      assert (org, BuildUrn(a.key).value) in h.nodes.Keys;
    } else {
      var id := ((org, BuildUrn(a.source).value), (org, BuildUrn(a.target).value), a.edge);
      assert id in h.edges.Keys && id.0 in h.nodes.Keys && id.1 in h.nodes.Keys;
    }
  }

  lemma {:induction false} PerformAgain(g: Graph, org: Org, now: int, later: Graph, moment: int, acts: seq<Action>)
    requires var (h, error) := Perform(Actor(org, now), g, acts); Within(h, later) && !EdgeError(error)
    ensures var (h, error) := Perform(Actor(org, moment), later, acts);
      SameKeys(later, h) && error == Perform(Actor(org, now), g, acts).1
    decreases |acts|
  {
    if acts != [] {
      var a := acts[0];
      var r, again := Actor(org, now)(g, a), Actor(org, moment)(later, a);
      if r.Ok? {
        PerformGrows(r.value, org, now, acts[1..]);
        ActAgain(g, org, now, later, moment, a);
        PerformAgain(r.value, org, now, again.value, moment, acts[1..]);
      } else {
        SameRefusal(g, org, now, later, moment, a);
      }
    }
  }

  lemma SameRefusal(g: Graph, org: Org, now: int, later: Graph, moment: int, a: Action)
    requires Act(g, org, now, a).Err? && !EdgeError(Some(Act(g, org, now, a).error))
    ensures Act(later, org, moment, a) == Err(Act(g, org, now, a).error)
  {
  }

  /** Registering the same inventory again, at any later point of the run, adds no node and no edge and
      ends the same way. */
  lemma {:induction false} RepeatingAddsNothing(before: seq<Step>, s: Step, between: seq<Step>, again: int)
    requires Final(Next, NO_ROWS, before + [s] + between).Some?
    ensures Final(Next, NO_ROWS, before).Some?
    ensures
      var g, h := Final(Next, NO_ROWS, before).value, Final(Next, NO_ROWS, before + [s] + between).value;
      SameKeys(h, Outcome(h, s.(now := again)).0) && Outcome(h, s.(now := again)).1 == Outcome(g, s).1
  {
    Concatenate(Next, NO_ROWS, before + [s], between);
    Concatenate(Next, NO_ROWS, before, [s]);
    var g := Final(Next, NO_ROWS, before).value;
    Prepend(Next, g, s, []);
    assert [s] + [] == [s];
    var after := Outcome(g, s).0;
    RunGrows(after, between);
    EveryRunIsGood(before);
    CallKeeps(g, s);
    if !s.call.ArchiveStale? {
      PerformAgain(g, s.org, s.now, Final(Next, NO_ROWS, before + [s] + between).value, again, Plan(s.call));
    }
  }

  // ----- What goes wrong without the condition --------------------------------

  ghost predicate AllPut(acts: seq<Action>) {
    forall i :: 0 <= i < |acts| ==> acts[i].PutNode? && BuildUrn(acts[i].key).Ok?
  }

  ghost predicate HasKind(g: Graph, id: NodeId, kind: Kind) {
    id in g.nodes && g.nodes[id].kind == kind
  }

  lemma {:induction false} LastPutStands(g: Graph, org: Org, now: int, acts: seq<Action>)
    requires acts != [] && AllPut(acts)
    ensures var (h, error) := Perform(Actor(org, now), g, acts);
      var last := acts[|acts| - 1];
      error.None? && HasKind(h, (org, BuildUrn(last.key).value), last.kind)
    decreases |acts|
  {
    assert acts[0].PutNode?;
    var r := Actor(org, now)(g, acts[0]);
    if |acts| > 1 {
      assert forall i :: 0 <= i < |acts| - 1 ==> acts[1..][i] == acts[i + 1];
      LastPutStands(r.value, org, now, acts[1..]);
    } else {
      assert acts[1..] == [];
    }
  }

  lemma {:induction false} LastPutStandsBesideAnEdge(g: Graph, org: Org, now: int, acts: seq<Action>, edge: Action)
    requires acts != [] && AllPut(acts) && edge.PutEdge?
    ensures var last := acts[|acts| - 1];
      HasKind(Perform(Actor(org, now), g, acts + [edge]).0, (org, BuildUrn(last.key).value), last.kind)
  {
    LastPutStands(g, org, now, acts);
    PerformConcat(Actor(org, now), g, acts, [edge]);
    PerformOne(Actor(org, now), Perform(Actor(org, now), g, acts).0, edge);
  }

  /** A build's URN is printed only after the instance's and the job's could be. */
  lemma BuildNeedsJob(slug: string, name: string, number: string)
    requires BuildUrn(JenkinsBuild(slug, name, number)).Ok?
    ensures BuildUrn(JenkinsJob(slug, name)).Ok?
  {
    var segments := Segments(JenkinsBuild(slug, name, number));
    BuildUrnAccepts(JenkinsBuild(slug, name, number));
    BuildUrnAccepts(JenkinsJob(slug, name));
    assert segments[0] == slug && segments[1] == name;
  }

  lemma JobNeedsInstance(slug: string, name: string)
    requires BuildUrn(JenkinsJob(slug, name)).Ok?
    ensures BuildUrn(JenkinsInstance(slug)).Ok?
  {
    BuildUrnAccepts(JenkinsJob(slug, name));
    BuildUrnAccepts(JenkinsInstance(slug));
    assert Segments(JenkinsJob(slug, name))[0] == slug;
  }

  lemma {:induction false} ThreePuts(g: Graph, org: Org, now: int, a: Action, b: Action, c: Action, edge: Action)
    requires a.PutNode? && b.PutNode? && c.PutNode? && edge.PutEdge?
    requires BuildUrn(a.key).Ok? && BuildUrn(b.key).Ok? && BuildUrn(c.key).Ok?
    ensures HasKind(Perform(Actor(org, now), g, [a, b, c] + [edge]).0, (org, BuildUrn(c.key).value), c.kind)
  {
    LastPutStandsBesideAnEdge(g, org, now, [a, b, c], edge);
  }

  function RootOf(slug: string): Action {
    PutNode(JenkinsInstance(slug), JENKINS, JENKINS_INSTANCE, slug, None)
  }

  lemma BuildPlanIs(slug: string, build: Build)
    ensures var acts := BuildActions(slug)(build);
      JenkinsPlan(Some(slug), [], [build]) == [RootOf(slug), acts[0], acts[1]] + [acts[2]]
  {
    EachOne(build, BuildActions(slug));
  }

  lemma {:induction false} BuildPlanPutsBuild(g: Graph, org: Org, now: int, slug: string, build: Build)
    requires BuildUrn(JenkinsBuild(slug, build.jobName, Decimal(build.number))).Ok?
    ensures HasKind(Perform(Actor(org, now), g, JenkinsPlan(Some(slug), [], [build])).0,
                    (org, BuildUrn(JenkinsBuild(slug, build.jobName, Decimal(build.number))).value), JENKINS_BUILD)
  {
    BuildPlanIs(slug, build);
    var acts := BuildActions(slug)(build);
    BuildNeedsJob(slug, build.jobName, Decimal(build.number));
    JobNeedsInstance(slug, build.jobName);
    ThreePuts(g, org, now, RootOf(slug), acts[0], acts[1], acts[2]);
  }

  lemma {:induction false} TwoPuts(g: Graph, org: Org, now: int, a: Action, b: Action, edge: Action)
    requires a.PutNode? && b.PutNode? && edge.PutEdge? && BuildUrn(a.key).Ok? && BuildUrn(b.key).Ok?
    ensures HasKind(Perform(Actor(org, now), g, [a, b] + [edge]).0, (org, BuildUrn(b.key).value), b.kind)
  {
    LastPutStandsBesideAnEdge(g, org, now, [a, b], edge);
  }

  lemma {:induction false} JobPlanPutsJob(g: Graph, org: Org, now: int, slug: string, name: string)
    requires BuildUrn(JenkinsJob(slug, name)).Ok?
    ensures HasKind(Perform(Actor(org, now), g, JenkinsPlan(Some(slug), [Job(name, None, None)], [])).0,
                    (org, BuildUrn(JenkinsJob(slug, name)).value), JENKINS_JOB)
  {
    var job := Job(name, None, None);
    EachOne(job, JobActions(slug));
    var acts := JobActions(slug)(job);
    assert JenkinsPlan(Some(slug), [job], []) == [RootOf(slug), acts[0]] + [acts[1]];
    JobNeedsInstance(slug, name);
    TwoPuts(g, org, now, RootOf(slug), acts[0], acts[1]);
  }

  lemma BuildRegistered(g: Graph, s: Step, slug: string, build: Build, urn: string)
    requires s.call == RegisterJenkins(Some(slug), [], [build])
    requires BuildUrn(JenkinsBuild(slug, build.jobName, Decimal(build.number))) == Ok(urn)
    ensures HasKind(Outcome(g, s).0, (s.org, urn), JENKINS_BUILD)
  {
    BuildPlanPutsBuild(g, s.org, s.now, slug, build);
  }

  lemma JobRegistered(g: Graph, s: Step, slug: string, name: string, urn: string)
    requires s.call == RegisterJenkins(Some(slug), [Job(name, None, None)], [])
    requires BuildUrn(JenkinsJob(slug, name)) == Ok(urn)
    ensures HasKind(Outcome(g, s).0, (s.org, urn), JENKINS_JOB)
  {
    JobPlanPutsJob(g, s.org, s.now, slug, name);
  }

  ghost predicate KindDiffers(g: Graph, h: Graph, id: NodeId) {
    id in g.nodes && id in h.nodes && g.nodes[id].kind != h.nodes[id].kind
  }

  /** An inventory of the instance, and then a clear call that changes the kind of a node which the first left. */
  ghost predicate KindChanges(g: Graph, slug: string) {
    exists s: Step, t: Step, id: NodeId ::
      && s.call.RegisterJenkins? && OrElse(s.call.instanceSlug, "local") == slug && CallClear(t.call)
      && KindDiffers(Outcome(g, s).0, Outcome(Outcome(g, s).0, t).0, id)
  }

  lemma TwoKinds(g: Graph, h: Graph, slug: string, s: Step, t: Step, id: NodeId)
    requires s.call.RegisterJenkins? && s.call.instanceSlug == Some(slug) && CallClear(t.call)
    requires HasKind(h, id, JENKINS_BUILD) && h == Outcome(g, s).0 && HasKind(Outcome(h, t).0, id, JENKINS_JOB)
    ensures KindChanges(g, slug)
  {
    assert KindDiffers(h, Outcome(h, t).0, id);
  }

  /** A build in one inventory, then a job at the same URN in another. */
  lemma TwoCallsChangeKind(
    g: Graph, org: Org, now: int, slug: string, name: string, n: nat, other: string, long: string, urn: string)
    requires BuildUrn(JenkinsBuild(slug, name, Decimal(n))) == Ok(urn) && BuildUrn(JenkinsJob(other, long)) == Ok(urn)
    requires SlugClear(other)
    ensures KindChanges(g, slug)
  {
    var build := Build(name, n, None, false);
    var s := Step(org, now, RegisterJenkins(Some(slug), [], [build]));
    var t := Step(org, now, RegisterJenkins(Some(other), [Job(long, None, None)], []));
    BuildRegistered(g, s, slug, build, urn);
    JobRegistered(Outcome(g, s).0, t, other, long, urn);
    TwoKinds(g, Outcome(g, s).0, slug, s, t, (org, urn));
  }

  // ----- The job that takes a build's URN, as a caller can name it ------------

  lemma RenamedCanBeNamed(instance: string)
    requires SanitizedTexts.Possible(instance) && StartsWith(instance, "job/")
    ensures SanitizedTexts.Possible("build/" + instance[4..])
  {
    RenamedInstanceIsNormal(instance);
    SanitizedTexts.TooShortForAWord("build");
    SanitizedTexts.PartHoldsNoWord(instance, 4);
    assert "build" + "/" + instance[4..] == "build/" + instance[4..];
    SanitizedTexts.SlashedIsPossible("build", instance[4..]);
  }

  lemma NumberedCanBeNamed(name: string, n: nat)
    requires SanitizedTexts.Possible(name)
    ensures SanitizedTexts.Possible(name + "/" + Decimal(n))
  {
    DecimalIsFixed(n);
    SanitizedTexts.SanitizedIsPossible(Decimal(n));
    SlashedIsNormal(name, Decimal(n));
    SanitizedTexts.SlashedIsPossible(name, Decimal(n));
  }

  /** The instance and the name as they are printed. */
  lemma CleanBuild(slug: string, name: string, number: string) returns (instance: string, title: string, last: string)
    requires BuildUrn(JenkinsBuild(slug, name, number)).Ok?
    ensures SanitizeKey(JenkinsBuild(slug, name, number)) == Ok(JenkinsBuild(instance, title, last))
    ensures SanitizeUrnSegment(slug) == Ok(instance) && SanitizeUrnSegment(name) == Ok(title)
    ensures SanitizeUrnSegment(number) == Ok(last)
  {
    var k := JenkinsBuild(slug, name, number);
    var clean := SanitizeAll(Segments(k)).value;
    instance, title, last := clean[0], clean[1], clean[2];
    CleanSegment(k, 0);
    CleanSegment(k, 1);
    CleanSegment(k, 2);
  }

  lemma JobUrn(other: string, long: string, instance: string, name: string)
    requires SanitizeUrnSegment(other) == Ok(instance) && SanitizeUrnSegment(long) == Ok(name)
    ensures BuildUrn(JenkinsJob(other, long)) == Ok(Print(JenkinsJob(instance, name)))
  {
    var k := JenkinsJob(other, long);
    BuildUrnAccepts(k);
    CleanSegment(k, 0);
    CleanSegment(k, 1);
  }

  lemma RenamedIsClear(other: string, instance: string)
    requires SanitizeUrnSegment(other) == Ok("build/" + instance)
    ensures SlugClear(other)
  {
    StartsWithAt("build/" + instance, "job/");
    assert ("build/" + instance)[0] == 'b';
  }

  /** Every build of an instance named "job/...", whatever its name and number, has a URN that a job of another,
      clear instance has too: registering both changes the kind of the node. */
  lemma KindCanChange(g: Graph, org: Org, now: int, slug: string, name: string, n: nat)
    requires BuildUrn(JenkinsBuild(slug, name, Decimal(n))).Ok? && !SlugClear(slug)
    ensures KindChanges(g, slug)
  {
    DecimalIsFixed(n);
    var instance, title, number := CleanBuild(slug, name, Decimal(n));
    var build := JenkinsBuild(instance, title, Decimal(n));
    SanitizedTexts.SanitizedIsPossible(slug);
    SanitizedTexts.SanitizedIsPossible(name);
    RenamedCanBeNamed(instance);
    NumberedCanBeNamed(title, n);
    var other := SanitizedTexts.Colons("build/" + instance[4..]);
    var long := SanitizedTexts.Colons(title + "/" + Decimal(n));
    SanitizedTexts.ColonsAreSanitized("build/" + instance[4..]);
    SanitizedTexts.ColonsAreSanitized(title + "/" + Decimal(n));
    RenamedIsClear(other, instance[4..]);
    SanitizedKey(JenkinsBuild(slug, name, Decimal(n)));
    BuildPrintsAsTakenJob(build);
    JobUrn(other, long, "build/" + instance[4..], title + "/" + Decimal(n));
    TwoCallsChangeKind(g, org, now, slug, name, n, other, long, Print(build));
  }

  lemma BuildIsAccepted(slug: string, name: string, number: string)
    requires SanitizeUrnSegment(slug).Ok? && SanitizeUrnSegment(name).Ok? && SanitizeUrnSegment(number).Ok?
    ensures BuildUrn(JenkinsBuild(slug, name, number)).Ok?
  {
    BuildUrnAccepts(JenkinsBuild(slug, name, number));
  }

  /** Where every node has the kind of its URN, an inventory of an instance and a clear call after it can change
      the kind of a node exactly when the instance's name starts with "job/" once sanitised. */
  lemma InstanceChangesKindExactly(g: Graph, slug: string)
    requires KindsFit(UrnKind, g.nodes)
    ensures KindChanges(g, slug) <==> !SlugClear(slug)
  {
    if SlugClear(slug) {
      forall s: Step, t: Step, id: NodeId |
          s.call.RegisterJenkins? && OrElse(s.call.instanceSlug, "local") == slug && CallClear(t.call)
        ensures !KindDiffers(Outcome(g, s).0, Outcome(Outcome(g, s).0, t).0, id)
      {
        CallKeepsKinds(g, s);
        CallKeepsKinds(Outcome(g, s).0, t);
      }
    } else {
      DecimalIsFixed(0);
      BuildIsAccepted(slug, Decimal(0), Decimal(0));
      KindCanChange(g, 0, 0, slug, Decimal(0), 0);
    }
  }
}
