/** What a Jenkins inventory leaves in the graph (apps/api/src/modules/resources/resource-graph.service.ts). */
module JenkinsContents {
  import opened Wrappers
  import opened Text
  import opened Runs
  import opened ResourceUrn
  import opened UrnPrinters
  import opened ResourceGraphPlans
  import opened ResourceGraphLaws
  import opened ResourceGraphContents

  /** A job goes by its full name, or by its name. */
  function Title(x: Job): string {
    if x.fullName.Some? then x.fullName.value else x.name
  }

  function JobKey(slug: string): Job -> Key {
    (x: Job) => JenkinsJob(slug, Title(x))
  }

  function JobFacts(): Job -> Facts {
    (x: Job) => Facts(JENKINS, JENKINS_JOB, Title(x), x.status)
  }

  function BuildKey(slug: string): Build -> Key {
    (x: Build) => JenkinsBuild(slug, x.jobName, Decimal(x.number))
  }

  /** A build's health is its result, or that it is still building. */
  function BuildFacts(): Build -> Facts {
    (x: Build) => Facts(JENKINS, JENKINS_BUILD, Decimal(x.number),
      if x.result.Some? then x.result else if x.building then Some("BUILDING") else None)
  }

  /** The jobs that builds name, as they come: without a status. */
  ghost function BuiltJobs(builds: seq<Build>): seq<Job> {
    seq(|builds|, i requires 0 <= i < |builds| => Job(builds[i].jobName, None, None))
  }

  /** The instance contains its listed jobs, and a job's builds are linked to it. */
  ghost function JenkinsLinks(slug: string, jobs: seq<Job>, builds: seq<Build>): set<Link> {
    (set x | x in jobs :: Link(JenkinsInstance(slug), JobKey(slug)(x), CONTAINS))
    + (set x | x in builds :: Link(JenkinsJob(slug, x.jobName), BuildKey(slug)(x), BUILDS))
  }

  ghost function JenkinsKeys(slug: string, jobs: seq<Job>, builds: seq<Build>): set<Key> {
    {JenkinsInstance(slug)} + KeysOf(jobs, JobKey(slug)) + KeysOf(BuiltJobs(builds), JobKey(slug))
    + KeysOf(builds, BuildKey(slug))
  }

  /** What a Jenkins inventory leaves: its nodes, its links, and nothing else. */
  ghost predicate JenkinsRecorded(
    urn: Key -> Option<string>, g: Graph, h: Graph, org: Org, now: int, instanceSlug: Option<string>, jobs: seq<Job>,
    builds: seq<Build>)
  {
    var slug := Slug(instanceSlug, "local");
    && HoldsKey(urn, g, h, org, now, JenkinsInstance(slug), Facts(JENKINS, JENKINS_INSTANCE, slug, None))
    && Recorded(urn, g, h, org, now, jobs + BuiltJobs(builds), JobKey(slug), JobFacts())
    && Recorded(urn, g, h, org, now, builds, BuildKey(slug), BuildFacts())
    && LinkedExactly(urn, g, h, org, now, JenkinsLinks(slug, jobs, builds))
    && OnlyNodes(urn, g, h, org, JenkinsKeys(slug, jobs, builds))
  }

  // ----- The URNs of one instance are apart -----------------------------------

  /** An instance, its jobs and its builds have different URNs, whatever the instance is named. */
  ghost predicate Apart(urn: Key -> Option<string>, slug: string) {
    && (forall name: string, title: string, n: nat :: urn(JenkinsJob(slug, title)).Some? ==>
         urn(JenkinsBuild(slug, name, Decimal(n))) != urn(JenkinsJob(slug, title)))
    && (forall name: string, n: nat :: urn(JenkinsInstance(slug)).Some? ==>
         urn(JenkinsBuild(slug, name, Decimal(n))) != urn(JenkinsInstance(slug)))
    && (forall title: string :: urn(JenkinsInstance(slug)).Some? ==>
         urn(JenkinsJob(slug, title)) != urn(JenkinsInstance(slug)))
  }

  lemma BuildIsNoJob(slug: string, name: string, number: string, title: string)
    requires PlainNumber(JenkinsBuild(slug, name, number))
    requires BuildUrn(JenkinsBuild(slug, name, number)).Ok? && BuildUrn(JenkinsJob(slug, title)).Ok?
    ensures BuildUrn(JenkinsBuild(slug, name, number)) != BuildUrn(JenkinsJob(slug, title))
  {
    var build, job := JenkinsBuild(slug, name, number), JenkinsJob(slug, title);
    SameInstance(slug, build, job);
    TakenIsRenamed(SanitizeKey(build).value, SanitizeKey(job).value);
    SameUrnExactly(build, job);
  }

  lemma SameInstance(slug: string, build: Key, job: Key)
    requires build.JenkinsBuild? && job.JenkinsJob? && build.instance == slug && job.instance == slug
    requires SanitizeKey(build).Ok? && SanitizeKey(job).Ok?
    ensures SanitizeKey(build).value.instance == SanitizeKey(job).value.instance
  {
    CleanInstance(build);
    CleanInstance(job);
  }

  lemma TakenIsRenamed(build: Key, job: Key)
    requires build.JenkinsBuild? && job.JenkinsJob? && build.instance == job.instance
    ensures !Takes(build, job)
  {
    if !RewriteMeetsKind(build) {
      StartsWithAt(build.instance, "job/");
      assert ("build/" + build.instance[4..])[0] == 'b';
    }
  }

  lemma BuildIsNoInstance(slug: string, name: string, number: string)
    requires PlainNumber(JenkinsBuild(slug, name, number))
    requires BuildUrn(JenkinsBuild(slug, name, number)).Ok? && BuildUrn(JenkinsInstance(slug)).Ok?
    ensures BuildUrn(JenkinsBuild(slug, name, number)) != BuildUrn(JenkinsInstance(slug))
  {
    SameUrnExactly(JenkinsBuild(slug, name, number), JenkinsInstance(slug));
  }

  lemma JobIsNoInstance(slug: string, title: string)
    requires BuildUrn(JenkinsJob(slug, title)).Ok? && BuildUrn(JenkinsInstance(slug)).Ok?
    ensures BuildUrn(JenkinsJob(slug, title)) != BuildUrn(JenkinsInstance(slug))
  {
    SameUrnExactly(JenkinsJob(slug, title), JenkinsInstance(slug));
  }

  lemma PrintedJobApart(slug: string, name: string, n: nat, title: string)
    requires Printed(JenkinsJob(slug, title)).Some?
    ensures Printed(JenkinsBuild(slug, name, Decimal(n))) != Printed(JenkinsJob(slug, title))
  {
    if BuildUrn(JenkinsBuild(slug, name, Decimal(n))).Ok? {
      BuildIsNoJob(slug, name, Decimal(n), title);
    }
  }

  lemma PrintedInstanceApart(slug: string, name: string, n: nat, title: string)
    requires Printed(JenkinsInstance(slug)).Some?
    ensures Printed(JenkinsBuild(slug, name, Decimal(n))) != Printed(JenkinsInstance(slug))
    ensures Printed(JenkinsJob(slug, title)) != Printed(JenkinsInstance(slug))
  {
    if BuildUrn(JenkinsBuild(slug, name, Decimal(n))).Ok? {
      BuildIsNoInstance(slug, name, Decimal(n));
    }
    if BuildUrn(JenkinsJob(slug, title)).Ok? {
      JobIsNoInstance(slug, title);
    }
  }

  lemma PrintedApart(slug: string)
    ensures Apart(Printed, slug)
  {
    forall name: string, title: string, n: nat | Printed(JenkinsJob(slug, title)).Some?
      ensures Printed(JenkinsBuild(slug, name, Decimal(n))) != Printed(JenkinsJob(slug, title))
    {
      PrintedJobApart(slug, name, n, title);
    }
    forall name: string, n: nat | Printed(JenkinsInstance(slug)).Some?
      ensures Printed(JenkinsBuild(slug, name, Decimal(n))) != Printed(JenkinsInstance(slug))
    {
      PrintedInstanceApart(slug, name, n, "");
    }
    forall title: string | Printed(JenkinsInstance(slug)).Some?
      ensures Printed(JenkinsJob(slug, title)) != Printed(JenkinsInstance(slug))
    {
      PrintedInstanceApart(slug, "", 0, title);
    }
  }

  // ----- The loops ------------------------------------------------------------

  function JobLink(slug: string): Job -> Link {
    (x: Job) => Link(JenkinsInstance(slug), JobKey(slug)(x), CONTAINS)
  }

  lemma JobPairs(slug: string, xs: seq<Job>)
    ensures Pairs(xs, JobActions(slug), JobKey(slug), JobFacts(), Always(), JobLink(slug))
  {
  }

  lemma BuildTurn(urn: Key -> Option<string>, slug: string, x: Build, u: string)
    ensures LastPut(urn, BuildActions(slug)(x), u) ==
      if urn(BuildKey(slug)(x)) == Some(u) then Some(BuildFacts()(x))
      else if urn(JenkinsJob(slug, x.jobName)) == Some(u) then Some(Facts(JENKINS, JENKINS_JOB, x.jobName, None))
      else None
    ensures Links(BuildActions(slug)(x)) == {Link(JenkinsJob(slug, x.jobName), BuildKey(slug)(x), BUILDS)}
    ensures Written(BuildActions(slug)(x)) == {JenkinsJob(slug, x.jobName), BuildKey(slug)(x)}
  {
    var acts := BuildActions(slug)(x);
    assert acts == [acts[0]] + ([acts[1]] + [acts[2]]);
    NodePut(urn, acts[0], u);
    PairPut(urn, acts[1], [acts[2]], u);
    LastPutConcat(urn, [acts[0]], [acts[1]] + [acts[2]], u);
    LinksConcat([acts[0]], [acts[1]] + [acts[2]]);
    WrittenConcat([acts[0]], [acts[1]] + [acts[2]]);
  }

  lemma BuiltOneMore(xs: seq<Build>)
    requires xs != []
    ensures BuiltJobs(xs) == BuiltJobs(xs[..|xs| - 1]) + [Job(xs[|xs| - 1].jobName, None, None)]
  {
  }

  /** Under a URN that no build has, the builds leave the jobs they name. */
  lemma {:induction false} BuildsPutJobs(urn: Key -> Option<string>, slug: string, xs: seq<Build>, u: string)
    requires forall i :: 0 <= i < |xs| ==> urn(BuildKey(slug)(xs[i])) != Some(u)
    ensures LastPut(urn, Each(xs, BuildActions(slug)), u) == LastOf(urn, BuiltJobs(xs), JobKey(slug), JobFacts(), u)
  {
    if xs != [] {
      var n := |xs| - 1;
      BuildsPutJobs(urn, slug, xs[..n], u);
      BuildTurn(urn, slug, xs[n], u);
      LastPutConcat(urn, Each(xs[..n], BuildActions(slug)), BuildActions(slug)(xs[n]), u);
      BuiltOneMore(xs);
      var last := Job(xs[n].jobName, None, None);
      assert BuiltJobs(xs)[..|BuiltJobs(xs)| - 1] == BuiltJobs(xs[..n]) && BuiltJobs(xs)[n] == last;
    }
  }

  /** Under a URN that no job has, they leave the builds. */
  lemma {:induction false} BuildsPutBuilds(urn: Key -> Option<string>, slug: string, xs: seq<Build>, u: string)
    requires forall i :: 0 <= i < |xs| ==> urn(JenkinsJob(slug, xs[i].jobName)) != Some(u)
    ensures LastPut(urn, Each(xs, BuildActions(slug)), u) == LastOf(urn, xs, BuildKey(slug), BuildFacts(), u)
  {
    if xs != [] {
      var n := |xs| - 1;
      BuildsPutBuilds(urn, slug, xs[..n], u);
      BuildTurn(urn, slug, xs[n], u);
      LastPutConcat(urn, Each(xs[..n], BuildActions(slug)), BuildActions(slug)(xs[n]), u);
    }
  }

  lemma BuildsLink(slug: string, xs: seq<Build>)
    ensures Links(Each(xs, BuildActions(slug))) ==
      set x | x in xs :: Link(JenkinsJob(slug, x.jobName), BuildKey(slug)(x), BUILDS)
  {
    var link := (x: Build) => Link(JenkinsJob(slug, x.jobName), BuildKey(slug)(x), BUILDS);
    forall i | 0 <= i < |xs| ensures Links(BuildActions(slug)(xs[i])) == {link(xs[i])} {
      BuildTurn((key: Key) => None, slug, xs[i], "");
    }
    EachLink(xs, BuildActions(slug), Always(), link);
  }

  lemma BuiltKeys(slug: string, xs: seq<Build>)
    ensures KeysOf(BuiltJobs(xs), JobKey(slug)) == set x | x in xs :: JenkinsJob(slug, x.jobName)
  {
    var jobs := BuiltJobs(xs);
    forall k | k in KeysOf(jobs, JobKey(slug)) ensures exists x :: x in xs && k == JenkinsJob(slug, x.jobName) {
      var job :| job in jobs && k == JobKey(slug)(job);
      var i :| 0 <= i < |jobs| && jobs[i] == job;
      assert xs[i] in xs;
    }
    forall x | x in xs ensures JenkinsJob(slug, x.jobName) in KeysOf(jobs, JobKey(slug)) {
      var i :| 0 <= i < |xs| && xs[i] == x;
      assert jobs[i] in jobs;
    }
  }

  lemma BuildsWrite(slug: string, xs: seq<Build>)
    ensures Written(Each(xs, BuildActions(slug))) ==
      KeysOf(BuiltJobs(xs), JobKey(slug)) + KeysOf(xs, BuildKey(slug))
  {
    EachWritten(xs, BuildActions(slug));
    BuiltKeys(slug, xs);
    forall i | 0 <= i < |xs|
      ensures Written(BuildActions(slug)(xs[i])) == {JenkinsJob(slug, xs[i].jobName), BuildKey(slug)(xs[i])}
    {
      BuildTurn((key: Key) => None, slug, xs[i], "");
    }
    forall k ensures k in Written(Each(xs, BuildActions(slug))) <==>
      k in KeysOf(BuiltJobs(xs), JobKey(slug)) + KeysOf(xs, BuildKey(slug))
    {
      WrittenByBuild(slug, xs, k);
    }
  }

  lemma WrittenByBuild(slug: string, xs: seq<Build>, k: Key)
    ensures k in (set x | x in xs :: JenkinsJob(slug, x.jobName)) + KeysOf(xs, BuildKey(slug)) <==>
      exists i :: 0 <= i < |xs| && (k == JenkinsJob(slug, xs[i].jobName) || k == BuildKey(slug)(xs[i]))
  {
    if i :| 0 <= i < |xs| && (k == JenkinsJob(slug, xs[i].jobName) || k == BuildKey(slug)(xs[i])) {
      assert xs[i] in xs;
    }
  }

  // ----- The whole plan -------------------------------------------------------

  lemma JenkinsLeaves(slug: string, instanceSlug: Option<string>, jobs: seq<Job>, builds: seq<Build>)
    requires slug == Slug(instanceSlug, "local")
    ensures Links(JenkinsPlan(instanceSlug, jobs, builds)) == JenkinsLinks(slug, jobs, builds)
    ensures Written(JenkinsPlan(instanceSlug, jobs, builds)) == JenkinsKeys(slug, jobs, builds)
  {
    var root := [PutNode(JenkinsInstance(slug), JENKINS, JENKINS_INSTANCE, slug, None)];
    var a, b := Each(jobs, JobActions(slug)), Each(builds, BuildActions(slug));
    NodePut((key: Key) => None, root[0], "");
    JobPairs(slug, jobs);
    PairsLeave(jobs, JobActions(slug), JobKey(slug), JobFacts(), Always(), JobLink(slug));
    BuildsLink(slug, builds);
    BuildsWrite(slug, builds);
    LinksConcat(root, a);
    LinksConcat(root + a, b);
    WrittenConcat(root, a);
    WrittenConcat(root + a, b);
  }

  lemma JenkinsChain(
    urn: Key -> Option<string>, slug: string, instanceSlug: Option<string>, jobs: seq<Job>, builds: seq<Build>,
    u: string)
    requires slug == Slug(instanceSlug, "local")
    ensures LastPut(urn, JenkinsPlan(instanceSlug, jobs, builds), u) ==
      OrElseFacts(LastPut(urn, Each(builds, BuildActions(slug)), u),
      OrElseFacts(LastOf(urn, jobs, JobKey(slug), JobFacts(), u),
        if urn(JenkinsInstance(slug)) == Some(u) then Some(Facts(JENKINS, JENKINS_INSTANCE, slug, None)) else None))
  {
    var root := [PutNode(JenkinsInstance(slug), JENKINS, JENKINS_INSTANCE, slug, None)];
    var a, b := Each(jobs, JobActions(slug)), Each(builds, BuildActions(slug));
    NodePut(urn, root[0], u);
    JobPairs(slug, jobs);
    PairsPut(urn, jobs, JobActions(slug), JobKey(slug), JobFacts(), Always(), JobLink(slug), u);
    LastPutConcat(urn, root, a, u);
    LastPutConcat(urn, root + a, b, u);
  }

  lemma JobPutLast(
    urn: Key -> Option<string>, slug: string, instanceSlug: Option<string>, jobs: seq<Job>, builds: seq<Build>,
    title: string, u: string)
    requires slug == Slug(instanceSlug, "local") && Apart(urn, slug) && urn(JenkinsJob(slug, title)) == Some(u)
    ensures LastPut(urn, JenkinsPlan(instanceSlug, jobs, builds), u) ==
      LastOf(urn, jobs + BuiltJobs(builds), JobKey(slug), JobFacts(), u)
  {
    JenkinsChain(urn, slug, instanceSlug, jobs, builds, u);
    BuildsPutJobs(urn, slug, builds, u);
    LastOfConcat(urn, jobs, BuiltJobs(builds), JobKey(slug), JobFacts(), u);
  }

  lemma BuildPutLast(
    urn: Key -> Option<string>, slug: string, instanceSlug: Option<string>, jobs: seq<Job>, builds: seq<Build>,
    x: Build, u: string)
    requires slug == Slug(instanceSlug, "local") && Apart(urn, slug) && urn(BuildKey(slug)(x)) == Some(u)
    ensures LastPut(urn, JenkinsPlan(instanceSlug, jobs, builds), u) ==
      LastOf(urn, builds, BuildKey(slug), BuildFacts(), u)
  {
    JenkinsChain(urn, slug, instanceSlug, jobs, builds, u);
    BuildsPutBuilds(urn, slug, builds, u);
    LastOfNone(urn, jobs, JobKey(slug), JobFacts(), u);
  }

  lemma InstancePutLast(
    urn: Key -> Option<string>, slug: string, instanceSlug: Option<string>, jobs: seq<Job>, builds: seq<Build>,
    u: string)
    requires slug == Slug(instanceSlug, "local") && Apart(urn, slug) && urn(JenkinsInstance(slug)) == Some(u)
    ensures LastPut(urn, JenkinsPlan(instanceSlug, jobs, builds), u) ==
      Some(Facts(JENKINS, JENKINS_INSTANCE, slug, None))
  {
    JenkinsChain(urn, slug, instanceSlug, jobs, builds, u);
    BuildsPutBuilds(urn, slug, builds, u);
    LastOfNone(urn, builds, BuildKey(slug), BuildFacts(), u);
    LastOfNone(urn, jobs, JobKey(slug), JobFacts(), u);
  }

  // ----- The theorem ----------------------------------------------------------

  ghost predicate LeavesJenkins(
    urn: Key -> Option<string>, acts: seq<Action>, slug: string, jobs: seq<Job>, builds: seq<Build>)
  {
    && (forall title: string, u: string :: urn(JenkinsJob(slug, title)) == Some(u) ==>
         LastPut(urn, acts, u) == LastOf(urn, jobs + BuiltJobs(builds), JobKey(slug), JobFacts(), u))
    && (forall x: Build, u: string :: urn(BuildKey(slug)(x)) == Some(u) ==>
         LastPut(urn, acts, u) == LastOf(urn, builds, BuildKey(slug), BuildFacts(), u))
    && (forall u: string :: urn(JenkinsInstance(slug)) == Some(u) ==>
         LastPut(urn, acts, u) == Some(Facts(JENKINS, JENKINS_INSTANCE, slug, None)))
  }

  lemma PlanLeavesJenkins(
    urn: Key -> Option<string>, slug: string, instanceSlug: Option<string>, jobs: seq<Job>, builds: seq<Build>)
    requires slug == Slug(instanceSlug, "local") && Apart(urn, slug)
    ensures LeavesJenkins(urn, JenkinsPlan(instanceSlug, jobs, builds), slug, jobs, builds)
  {
    var acts := JenkinsPlan(instanceSlug, jobs, builds);
    forall title: string, u: string | urn(JenkinsJob(slug, title)) == Some(u)
      ensures LastPut(urn, acts, u) == LastOf(urn, jobs + BuiltJobs(builds), JobKey(slug), JobFacts(), u)
    {
      JobPutLast(urn, slug, instanceSlug, jobs, builds, title, u);
    }
    forall x: Build, u: string | urn(BuildKey(slug)(x)) == Some(u)
      ensures LastPut(urn, acts, u) == LastOf(urn, builds, BuildKey(slug), BuildFacts(), u)
    {
      BuildPutLast(urn, slug, instanceSlug, jobs, builds, x, u);
    }
    forall u: string | urn(JenkinsInstance(slug)) == Some(u)
      ensures LastPut(urn, acts, u) == Some(Facts(JENKINS, JENKINS_INSTANCE, slug, None))
    {
      InstancePutLast(urn, slug, instanceSlug, jobs, builds, u);
    }
  }

  lemma KeyIsPrinted(urn: Key -> Option<string>, acts: seq<Action>, key: Key)
    requires PutsPrint(urn, acts) && key in Written(acts)
    ensures urn(key).Some?
  {
  }

  lemma JobsAreRecorded(
    urn: Key -> Option<string>, g: Graph, h: Graph, org: Org, now: int, acts: seq<Action>, slug: string,
    jobs: seq<Job>, builds: seq<Build>)
    requires NodesAre(urn, g, h, org, now, acts) && PutsPrint(urn, acts)
    requires Written(acts) == JenkinsKeys(slug, jobs, builds) && LeavesJenkins(urn, acts, slug, jobs, builds)
    ensures Recorded(urn, g, h, org, now, jobs + BuiltJobs(builds), JobKey(slug), JobFacts())
  {
    var xs := jobs + BuiltJobs(builds);
    KeysOfConcat(jobs, BuiltJobs(builds), JobKey(slug));
    forall i | 0 <= i < |xs| ensures LeavesList(urn, acts, xs, JobKey(slug), JobFacts(), xs[i]) {
      assert xs[i] in xs && JobKey(slug)(xs[i]) in KeysOf(xs, JobKey(slug));
      KeyIsPrinted(urn, acts, JobKey(slug)(xs[i]));
    }
    ListIsRecorded(urn, g, h, org, now, acts, xs, JobKey(slug), JobFacts());
  }

  lemma BuildsAreRecorded(
    urn: Key -> Option<string>, g: Graph, h: Graph, org: Org, now: int, acts: seq<Action>, slug: string,
    jobs: seq<Job>, builds: seq<Build>)
    requires NodesAre(urn, g, h, org, now, acts) && PutsPrint(urn, acts)
    requires Written(acts) == JenkinsKeys(slug, jobs, builds) && LeavesJenkins(urn, acts, slug, jobs, builds)
    ensures Recorded(urn, g, h, org, now, builds, BuildKey(slug), BuildFacts())
    ensures HoldsKey(urn, g, h, org, now, JenkinsInstance(slug), Facts(JENKINS, JENKINS_INSTANCE, slug, None))
  {
    forall i | 0 <= i < |builds| ensures LeavesList(urn, acts, builds, BuildKey(slug), BuildFacts(), builds[i]) {
      assert builds[i] in builds && BuildKey(slug)(builds[i]) in KeysOf(builds, BuildKey(slug));
      KeyIsPrinted(urn, acts, BuildKey(slug)(builds[i]));
    }
    ListIsRecorded(urn, g, h, org, now, acts, builds, BuildKey(slug), BuildFacts());
    KeyIsPrinted(urn, acts, JenkinsInstance(slug));
    var id: NodeId := (org, urn(JenkinsInstance(slug)).value);
    assert Holds(g, h, id, now, Facts(JENKINS, JENKINS_INSTANCE, slug, None));
  }

  /** A Jenkins inventory that is registered without an error leaves the instance, every listed job, every build and
      every job that a build names, with their columns; exactly its links; and every other node and edge as it was. */
  lemma Registered(
    g: Graph, h: Graph, org: Org, now: int, instanceSlug: Option<string>, jobs: seq<Job>, builds: seq<Build>)
    requires Perform(Actor(org, now), g, JenkinsPlan(instanceSlug, jobs, builds)) == (h, None)
    ensures JenkinsRecorded(Printed, g, h, org, now, instanceSlug, jobs, builds)
  {
    var acts, slug := JenkinsPlan(instanceSlug, jobs, builds), Slug(instanceSlug, "local");
    LeftBehind(g, org, now, acts, h);
    PrintedApart(slug);
    JenkinsLeaves(slug, instanceSlug, jobs, builds);
    PlanLeavesJenkins(Printed, slug, instanceSlug, jobs, builds);
    OnlyWritten(Printed, g, h, org, now, acts);
    JobsAreRecorded(Printed, g, h, org, now, acts, slug, jobs, builds);
    BuildsAreRecorded(Printed, g, h, org, now, acts, slug, jobs, builds);
  }
}
