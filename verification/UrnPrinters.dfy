/** The URN builders (packages/utils/src/resource-urn.ts): one constructor of `Key` per builder. */
module UrnPrinters {
  import opened Wrappers
  import opened Text
  import opened ResourceUrn

  datatype Key =
    | Organization
    | Project(id: string)
    | Environment(id: string)
    | Deployment(id: string)
    | Operation(id: string)
    | JenkinsInstance(instance: string)
    | JenkinsJob(instance: string, name: string)
    | JenkinsBuild(instance: string, name: string, number: string)
    | DockerEngine(engine: string)
    | DockerContainer(engine: string, name: string)
    | DockerImage(engine: string, name: string)
    | DockerNetwork(engine: string, name: string)
    | DockerVolume(engine: string, name: string)
    | KubernetesCluster(cluster: string)
    | KubernetesNamespace(cluster: string, namespace: string)
    | KubernetesNode(cluster: string, name: string)
    | KubernetesDeployment(cluster: string, namespace: string, name: string)
    | KubernetesPod(cluster: string, namespace: string, name: string)
    | KubernetesService(cluster: string, namespace: string, name: string)

  /** `s.replace(pattern, replacement)` with a string pattern: the first match only. */
  function ReplaceFirst(s: string, pattern: string, replacement: string): string {
    if StartsWith(s, pattern) then replacement + s[|pattern|..]
    else if s == "" then ""
    else [s[0]] + ReplaceFirst(s[1..], pattern, replacement)
  }

  /** The word before the slash in a template's last part; a build's rule is explained at `Print`. */
  function Word(k: Key): string {
    match k
    case Organization => "organization"
    case Project(_) => "project"
    case Environment(_) => "environment"
    case Deployment(_) => "deployment"
    case Operation(_) => "operation"
    case JenkinsInstance(_) => "instance"
    case JenkinsJob(_, _) => "job"
    case JenkinsBuild(i, _, _) => if StartsWith(i, "job/") then "job" else "build"
    case DockerEngine(_) => "engine"
    case DockerContainer(_, _) => "container"
    case DockerImage(_, _) => "image"
    case DockerNetwork(_, _) => "network"
    case DockerVolume(_, _) => "volume"
    case KubernetesCluster(_) => "cluster"
    case KubernetesNamespace(_, _) => "namespace"
    case KubernetesNode(_, _) => "node"
    case KubernetesDeployment(_, _, _) => "deployment"
    case KubernetesPod(_, _, _) => "pod"
    case KubernetesService(_, _, _) => "service"
  }

  /** What follows the slash. */
  function Rest(k: Key): string {
    match k
    case Organization => "current"
    case JenkinsInstance(_) => "default"
    case DockerEngine(_) => "default"
    case KubernetesCluster(_) => "default"
    case JenkinsBuild(_, name, number) => name + "/" + number
    case _ => var s := Segments(k); s[|s| - 1]
  }

  /** The earlier colon-separated parts. */
  function Place(k: Key): seq<string> {
    match k
    case JenkinsInstance(i) => ["urn", "autoops", "jenkins", i]
    case JenkinsJob(i, _) => ["urn", "autoops", "jenkins", i]
    case JenkinsBuild(i, _, _) =>
      ["urn", "autoops", "jenkins", if StartsWith(i, "job/") then "build/" + i[4..] else i]
    case DockerEngine(e) => ["urn", "autoops", "docker", e]
    case DockerContainer(e, _) => ["urn", "autoops", "docker", e]
    case DockerImage(e, _) => ["urn", "autoops", "docker", e]
    case DockerNetwork(e, _) => ["urn", "autoops", "docker", e]
    case DockerVolume(e, _) => ["urn", "autoops", "docker", e]
    case KubernetesCluster(c) => ["urn", "autoops", "kubernetes", c]
    case KubernetesNamespace(c, _) => ["urn", "autoops", "kubernetes", c]
    case KubernetesNode(c, _) => ["urn", "autoops", "kubernetes", c]
    case KubernetesDeployment(c, ns, _) => ["urn", "autoops", "kubernetes", c, "namespace" + "/" + ns]
    case KubernetesPod(c, ns, _) => ["urn", "autoops", "kubernetes", c, "namespace" + "/" + ns]
    case KubernetesService(c, ns, _) => ["urn", "autoops", "kubernetes", c, "namespace" + "/" + ns]
    case _ => ["urn", "autoops", "autoops"]
  }

  /** The template each builder fills in. */
  function Fields(k: Key): seq<string> {
    Place(k) + [Word(k) + "/" + Rest(k)]
  }

  /** What the builders print for segments that are already sanitised: a build's URN is
      its job's URN with the first ":job/" rewritten, and the number. */
  function Print(k: Key): string {
    match k
    case JenkinsBuild(i, name, number) =>
      ReplaceFirst(Join(Fields(JenkinsJob(i, name)), ':'), ":job/", ":build/") + "/" + number
    case _ => Join(Fields(k), ':')
  }

  function Segments(k: Key): seq<string> {
    match k
    case Organization => []
    case Project(id) => [id]
    case Environment(id) => [id]
    case Deployment(id) => [id]
    case Operation(id) => [id]
    case JenkinsInstance(i) => [i]
    case JenkinsJob(i, name) => [i, name]
    case JenkinsBuild(i, name, number) => [i, name, number]
    case DockerEngine(e) => [e]
    case DockerContainer(e, name) => [e, name]
    case DockerImage(e, name) => [e, name]
    case DockerNetwork(e, name) => [e, name]
    case DockerVolume(e, name) => [e, name]
    case KubernetesCluster(c) => [c]
    case KubernetesNamespace(c, ns) => [c, ns]
    case KubernetesNode(c, name) => [c, name]
    case KubernetesDeployment(c, ns, name) => [c, ns, name]
    case KubernetesPod(c, ns, name) => [c, ns, name]
    case KubernetesService(c, ns, name) => [c, ns, name]
  }

  /** The segments are sanitised ones; a build number has no slash. */
  ghost predicate Sanitized(k: Key) {
    && (forall s :: s in Segments(k) ==> Normal(s))
    && (k.JenkinsBuild? ==> Free(k.number, '/'))
  }

  /** The one condition under which a build's URN is its own: the rewrite meets the kind, not the instance. */
  predicate RewriteMeetsKind(k: Key) {
    k.JenkinsBuild? ==> !StartsWith(k.instance, "job/")
  }

  // ----- The rewrite ----------------------------------------------------------

  lemma {:induction false} ReplaceFirstSkips(a: string, rest: string, pattern: string, replacement: string)
    requires pattern != "" && pattern[0] !in a
    ensures ReplaceFirst(a + rest, pattern, replacement) == a + ReplaceFirst(rest, pattern, replacement)
  {
    if a == "" {
      assert a + rest == rest;
    } else {
      assert (a + rest)[1..] == a[1..] + rest;
      ReplaceFirstSkips(a[1..], rest, pattern, replacement);
    }
  }

  /** The rewrite, part by part: the first part after a colon that starts with "job/". */
  function RewriteParts(parts: seq<string>): seq<string> {
    if parts == [] then []
    else if StartsWith(parts[0], "job/") then ["build/" + parts[0][4..]] + parts[1..]
    else [parts[0]] + RewriteParts(parts[1..])
  }

  /** The parts as they follow a first one: each after a colon. */
  function Tail(parts: seq<string>): string {
    if parts == [] then "" else ":" + (parts[0] + Tail(parts[1..]))
  }

  lemma {:induction false} JoinIsTail(head: string, parts: seq<string>)
    ensures Join([head] + parts, ':') == head + Tail(parts)
    decreases |parts|
  {
    assert ([head] + parts)[1..] == parts;
    if parts != [] {
      JoinIsTail(parts[0], parts[1..]);
      assert [parts[0]] + parts[1..] == parts;
    }
  }

  lemma StartsWithAt(s: string, prefix: string)
    ensures StartsWith(s, prefix) <==> |prefix| <= |s| && forall i :: 0 <= i < |prefix| ==> s[i] == prefix[i]
  {
    if |prefix| <= |s| && (forall i :: 0 <= i < |prefix| ==> s[i] == prefix[i]) {
      assert s[..|prefix|] == prefix;
    }
  }

  /** A pattern that starts with the separator is met where the part after it starts with the rest. */
  lemma MetAtPart(part: string, rest: string, word: string)
    requires Free(part, ':') && Free(word, ':') && (rest != "" ==> rest[0] == ':')
    ensures StartsWith(":" + (part + rest), ":" + word) <==> StartsWith(part, word)
  {
    var s, p := ":" + (part + rest), ":" + word;
    StartsWithAt(s, p);
    StartsWithAt(part, word);
    assert forall i :: 0 <= i < |word| ==> p[i + 1] == word[i] && word[i] in word;
    assert forall i :: 0 <= i < |part| ==> s[i + 1] == part[i];
    if |part| < |word| {
      assert rest != "" ==> s[|part| + 1] == ':' && p[|part| + 1] == word[|part|];
    }
  }

  lemma RewriteHere(part: string, rest: string)
    requires StartsWith(part, "job/")
    ensures ReplaceFirst(":" + (part + rest), ":job/", ":build/") == ":" + (("build/" + part[4..]) + rest)
  {
    var s := ":" + (part + rest);
    StartsWithAt(part, "job/");
    assert s[..5] == ":job/";
    assert s[5..] == part[4..] + rest;
  }

  lemma RewriteLater(part: string, rest: string)
    requires Free(part, ':') && !StartsWith(part, "job/") && (rest != "" ==> rest[0] == ':')
    ensures ReplaceFirst(":" + (part + rest), ":job/", ":build/") ==
      ":" + (part + ReplaceFirst(rest, ":job/", ":build/"))
  {
    var s := ":" + (part + rest);
    assert "job/" == ['j', 'o', 'b', '/'];
    MetAtPart(part, rest, "job/");
    assert ":" + "job/" == ":job/";
    assert s[1..] == part + rest;
    ReplaceFirstSkips(part, rest, ":job/", ":build/");
  }

  lemma {:induction false} RewriteIsByPart(parts: seq<string>)
    requires forall p :: p in parts ==> Free(p, ':')
    ensures ReplaceFirst(Tail(parts), ":job/", ":build/") == Tail(RewriteParts(parts))
  {
    if parts != [] {
      var rest := Tail(parts[1..]);
      if StartsWith(parts[0], "job/") {
        RewriteHere(parts[0], rest);
        assert RewriteParts(parts)[1..] == parts[1..];
      } else {
        RewriteLater(parts[0], rest);
        RewriteIsByPart(parts[1..]);
        assert RewriteParts(parts)[1..] == RewriteParts(parts[1..]);
      }
    }
  }

  lemma {:induction false} JoinExtendLast(parts: seq<string>, more: string, sep: char)
    requires parts != []
    ensures Join(parts, sep) + more == Join(parts[..|parts| - 1] + [parts[|parts| - 1] + more], sep)
  {
    var longer := parts[..|parts| - 1] + [parts[|parts| - 1] + more];
    if |parts| > 1 {
      JoinExtendLast(parts[1..], more, sep);
      assert longer[1..] == parts[1..][..|parts| - 2] + [parts[|parts| - 1] + more];
    }
  }

  lemma NormalHasNoColon(s: string)
    requires Normal(s)
    ensures Free(s, ':')
  {
  }

  lemma JobPartsAreFree(i: string, name: string)
    requires Normal(i) && Normal(name)
    ensures forall p :: p in ["autoops", "jenkins", i, "job/" + name] ==> Free(p, ':')
  {
    NormalHasNoColon(i);
    NormalHasNoColon(name);
  }

  lemma RewrittenJobFields(i: string, name: string)
    ensures RewriteParts(["autoops", "jenkins", i, "job/" + name]) ==
      if StartsWith(i, "job/") then ["autoops", "jenkins", "build/" + i[4..], "job/" + name]
      else ["autoops", "jenkins", i, "build/" + name]
  {
    var last := ["job/" + name];
    StartsWithAt("job/" + name, "job/");
    assert ("job/" + name)[4..] == name && last[1..] == [];
    assert RewriteParts(last) == ["build/" + name];
    var two := [i, "job/" + name];
    assert two[1..] == last;
    assert RewriteParts(two) == if StartsWith(i, "job/") then ["build/" + i[4..]] + last else [i] + ["build/" + name];
    RewriteSkips("jenkins", two);
    RewriteSkips("autoops", ["jenkins"] + two);
    assert ["autoops"] + (["jenkins"] + two) == ["autoops", "jenkins", i, "job/" + name];
  }

  lemma RewriteSkips(part: string, parts: seq<string>)
    requires part == "autoops" || part == "jenkins"
    ensures RewriteParts([part] + parts) == [part] + RewriteParts(parts)
  {
    StartsWithAt(part, "job/");
    assert part[1] != 'o';
    assert ([part] + parts)[1..] == parts;
  }

  lemma Slashed(name: string)
    ensures "job" + "/" + name == "job/" + name && "build" + "/" + name == "build/" + name
  {
    assert "job" + "/" == "job/" && "build" + "/" == "build/";
  }

  lemma JobFields(i: string, name: string)
    ensures Fields(JenkinsJob(i, name)) == ["urn"] + ["autoops", "jenkins", i, "job/" + name]
  {
    Slashed(name);
  }

  lemma BuildFields(i: string, name: string, number: string)
    ensures var built := RewriteParts(["autoops", "jenkins", i, "job/" + name]);
      && |built| == 4
      && Fields(JenkinsBuild(i, name, number)) == ["urn"] + built[..3] + [built[3] + ("/" + number)]
  {
    RewrittenJobFields(i, name);
    Slashed(name + "/" + number);
    assert ("job/" + name) + ("/" + number) == "job/" + (name + "/" + number);
    assert ("build/" + name) + ("/" + number) == "build/" + (name + "/" + number);
  }

  /** A build's template: its job's URN with the first ":job/" rewritten is the URN with these fields. */
  lemma BuildPrintIsJoin(i: string, name: string, number: string)
    requires Normal(i) && Normal(name)
    ensures Print(JenkinsBuild(i, name, number)) == Join(Fields(JenkinsBuild(i, name, number)), ':')
  {
    var job := ["autoops", "jenkins", i, "job/" + name];
    JobPartsAreFree(i, name);
    JobFields(i, name);
    JoinIsTail("urn", job);
    ReplaceFirstSkips("urn", Tail(job), ":job/", ":build/");
    RewriteIsByPart(job);
    BuildFields(i, name, number);
    var built := RewriteParts(job);
    JoinIsTail("urn", built);
    JoinExtendLast(["urn"] + built, "/" + number, ':');
    assert (["urn"] + built)[..4] == ["urn"] + built[..3];
  }

  lemma PrintIsJoin(k: Key)
    requires Sanitized(k)
    ensures Print(k) == Join(Fields(k), ':')
  {
    if k.JenkinsBuild? {
      assert Segments(k)[0] == k.instance && Segments(k)[1] == k.name;
      BuildPrintIsJoin(k.instance, k.name, k.number);
    }
  }

  // ----- Reading a URN back ---------------------------------------------------

  /** The text before and after the first separator. */
  function CutFirst(s: string, sep: char): Option<(string, string)> {
    if s == "" then None
    else if s[0] == sep then Some(("", s[1..]))
    else
      match CutFirst(s[1..], sep)
      case None => None
      case Some((a, b)) => Some(([s[0]] + a, b))
  }

  /** The text before and after the last separator. */
  function CutLast(s: string, sep: char): Option<(string, string)> {
    if s == "" then None
    else if s[|s| - 1] == sep then Some((s[..|s| - 1], ""))
    else
      match CutLast(s[..|s| - 1], sep)
      case None => None
      case Some((a, b)) => Some((a, b + [s[|s| - 1]]))
  }

  function ReadAutoOps(word: string, rest: string): Option<Key> {
    if word == "organization" then Some(Organization)
    else if word == "project" then Some(Project(rest))
    else if word == "environment" then Some(Environment(rest))
    else if word == "deployment" then Some(Deployment(rest))
    else if word == "operation" then Some(Operation(rest))
    else None
  }

  function ReadJenkins(i: string, word: string, rest: string): Option<Key> {
    if word == "instance" then Some(JenkinsInstance(i))
    else if word == "job" then Some(JenkinsJob(i, rest))
    else if word == "build" then
      match CutLast(rest, '/')
      case None => None
      case Some((name, number)) => Some(JenkinsBuild(i, name, number))
    else None
  }

  function ReadDocker(e: string, word: string, rest: string): Option<Key> {
    if word == "engine" then Some(DockerEngine(e))
    else if word == "container" then Some(DockerContainer(e, rest))
    else if word == "image" then Some(DockerImage(e, rest))
    else if word == "network" then Some(DockerNetwork(e, rest))
    else if word == "volume" then Some(DockerVolume(e, rest))
    else None
  }

  function ReadKubernetes(c: string, word: string, rest: string): Option<Key> {
    if word == "cluster" then Some(KubernetesCluster(c))
    else if word == "namespace" then Some(KubernetesNamespace(c, rest))
    else if word == "node" then Some(KubernetesNode(c, rest))
    else None
  }

  function ReadNamespaced(c: string, namespace: string, word: string, rest: string): Option<Key> {
    if word == "deployment" then Some(KubernetesDeployment(c, namespace, rest))
    else if word == "pod" then Some(KubernetesPod(c, namespace, rest))
    else if word == "service" then Some(KubernetesService(c, namespace, rest))
    else None
  }

  function ReadFields(fields: seq<string>): Option<Key> {
    if |fields| < 4 then None
    else
      match CutFirst(fields[|fields| - 1], '/')
      case None => None
      case Some((word, rest)) =>
        if |fields| == 4 then ReadAutoOps(word, rest)
        else if |fields| == 5 && fields[2] == "jenkins" then ReadJenkins(fields[3], word, rest)
        else if |fields| == 5 && fields[2] == "docker" then ReadDocker(fields[3], word, rest)
        else if |fields| == 5 then ReadKubernetes(fields[3], word, rest)
        else
          match CutFirst(fields[4], '/')
          case None => None
          case Some((_, namespace)) => ReadNamespaced(fields[3], namespace, word, rest)
  }

  /** A reader of URNs. The program has none; it is the inverse that makes the builders unambiguous. */
  function ReadUrn(urn: string): Option<Key> {
    ReadFields(Split(urn, ':'))
  }

  lemma {:induction false} CutFirstOf(a: string, b: string, sep: char)
    requires Free(a, sep)
    ensures CutFirst(a + [sep] + b, sep) == Some((a, b))
  {
    var s := a + [sep] + b;
    if a == "" {
      assert s[1..] == b;
    } else {
      assert s[1..] == a[1..] + [sep] + b;
      CutFirstOf(a[1..], b, sep);
      assert [a[0]] + a[1..] == a;
    }
  }

  lemma {:induction false} CutLastOf(a: string, b: string, sep: char)
    requires Free(b, sep)
    ensures CutLast(a + [sep] + b, sep) == Some((a, b))
  {
    var s := a + [sep] + b;
    if b == "" {
      assert s[..|s| - 1] == a;
    } else {
      var c := b[..|b| - 1];
      assert s[..|s| - 1] == a + [sep] + c;
      CutLastOf(a, c, sep);
      assert c + [b[|b| - 1]] == b;
      assert s[|s| - 1] == b[|b| - 1];
    }
  }

  lemma WordHasNoSlash(k: Key)
    ensures Free(Word(k), '/') && Free(Word(k), ':')
  {
  }

  lemma ReadPlainFields(k: Key)
    requires RewriteMeetsKind(k) && |Fields(k)| <= 5 && !k.JenkinsBuild?
    ensures ReadFields(Fields(k)) == Some(k)
  {
    WordHasNoSlash(k);
    CutFirstOf(Word(k), Rest(k), '/');
  }

  lemma ReadBuildFields(k: Key)
    requires Sanitized(k) && RewriteMeetsKind(k) && k.JenkinsBuild?
    ensures ReadFields(Fields(k)) == Some(k)
  {
    WordHasNoSlash(k);
    CutFirstOf(Word(k), Rest(k), '/');
    CutLastOf(k.name, k.number, '/');
  }

  lemma ReadNamespacedFields(k: Key)
    requires k.KubernetesDeployment? || k.KubernetesPod? || k.KubernetesService?
    ensures ReadFields(Fields(k)) == Some(k)
  {
    WordHasNoSlash(k);
    CutFirstOf(Word(k), Rest(k), '/');
    CutFirstOf("namespace", k.namespace, '/');
  }

  lemma FieldsAreFree(k: Key)
    requires Sanitized(k) && RewriteMeetsKind(k)
    ensures forall p :: p in Fields(k) ==> Free(p, ':')
  {
    forall s | s in Segments(k) ensures Free(s, ':') {
      NormalHasNoColon(s);
    }
    RestIsFree(k);
    WordHasNoSlash(k);
    var fields := Fields(k);
    forall i | 0 <= i < |fields| - 1 ensures Free(fields[i], ':') {
      EarlierFieldIsFree(k, i);
    }
  }

  lemma RestIsFree(k: Key)
    requires forall s :: s in Segments(k) ==> Free(s, ':')
    ensures Free(Rest(k), ':')
  {
    var s := Segments(k);
    if s != [] {
      assert s[|s| - 1] in s;
    }
    if k.JenkinsBuild? {
      assert s[1] in s && s[2] in s;
    }
  }

  lemma EarlierFieldIsFree(k: Key, i: nat)
    requires forall s :: s in Segments(k) ==> Free(s, ':')
    requires RewriteMeetsKind(k) && i < |Fields(k)| - 1
    ensures Free(Fields(k)[i], ':')
  {
    var s := Segments(k);
    if i >= 3 {
      assert s[0] in s;
    }
    if i == 4 {
      assert s[1] in s;
    }
  }

  /** Every URN is read back as what it was built from: the builders are injective and
      no two of them print the same text. */
  lemma ReadUrnOfPrint(k: Key)
    requires Sanitized(k) && RewriteMeetsKind(k)
    ensures ReadUrn(Print(k)) == Some(k)
  {
    PrintIsJoin(k);
    FieldsAreFree(k);
    SplitJoin(Fields(k), ':');
    if k.JenkinsBuild? {
      ReadBuildFields(k);
    } else if |Fields(k)| <= 5 {
      ReadPlainFields(k);
    } else {
      ReadNamespacedFields(k);
    }
  }

  // ----- The builders on the caller's segments --------------------------------

  function SanitizeAll(segments: seq<string>): (r: Result<seq<string>, UrnError>)
    ensures r.Ok? ==> |r.value| == |segments|
  {
    if segments == [] then Ok([])
    else
      match SanitizeUrnSegment(segments[0])
      case Err(e) => Err(e)
      case Ok(first) =>
        match SanitizeAll(segments[1..])
        case Err(e) => Err(e)
        case Ok(rest) => Ok([first] + rest)
  }

  function WithSegments(k: Key, s: seq<string>): (r: Key)
    requires |s| == |Segments(k)|
    ensures Segments(r) == s
  {
    match k
    case Organization => Organization
    case Project(_) => Project(s[0])
    case Environment(_) => Environment(s[0])
    case Deployment(_) => Deployment(s[0])
    case Operation(_) => Operation(s[0])
    case JenkinsInstance(_) => JenkinsInstance(s[0])
    case JenkinsJob(_, _) => JenkinsJob(s[0], s[1])
    case JenkinsBuild(_, _, _) => JenkinsBuild(s[0], s[1], s[2])
    case DockerEngine(_) => DockerEngine(s[0])
    case DockerContainer(_, _) => DockerContainer(s[0], s[1])
    case DockerImage(_, _) => DockerImage(s[0], s[1])
    case DockerNetwork(_, _) => DockerNetwork(s[0], s[1])
    case DockerVolume(_, _) => DockerVolume(s[0], s[1])
    case KubernetesCluster(_) => KubernetesCluster(s[0])
    case KubernetesNamespace(_, _) => KubernetesNamespace(s[0], s[1])
    case KubernetesNode(_, _) => KubernetesNode(s[0], s[1])
    case KubernetesDeployment(_, _, _) => KubernetesDeployment(s[0], s[1], s[2])
    case KubernetesPod(_, _, _) => KubernetesPod(s[0], s[1], s[2])
    case KubernetesService(_, _, _) => KubernetesService(s[0], s[1], s[2])
  }

  /** The key with every segment sanitised, or the first segment's error. */
  function SanitizeKey(k: Key): Result<Key, UrnError> {
    match SanitizeAll(Segments(k))
    case Err(e) => Err(e)
    case Ok(segments) => Ok(WithSegments(k, segments))
  }

  function BuildUrn(k: Key): Result<string, UrnError> {
    match SanitizeKey(k)
    case Err(e) => Err(e)
    case Ok(clean) => Ok(Print(clean))
  }

  /** A build number is printed from a number. */
  ghost predicate PlainNumber(k: Key) {
    k.JenkinsBuild? ==> exists n: nat :: k.number == Decimal(n)
  }

  lemma {:induction false} SanitizeAllNormal(segments: seq<string>)
    requires SanitizeAll(segments).Ok?
    ensures forall i :: 0 <= i < |segments| ==>
      Normal(SanitizeAll(segments).value[i]) && SanitizeUrnSegment(segments[i]) == Ok(SanitizeAll(segments).value[i])
  {
    if segments != [] {
      SanitizedIsNormal(segments[0]);
      SanitizeAllNormal(segments[1..]);
      var r, rest := SanitizeAll(segments).value, SanitizeAll(segments[1..]).value;
      forall i | 0 <= i < |segments|
        ensures Normal(r[i]) && SanitizeUrnSegment(segments[i]) == Ok(r[i])
      {
        assert i > 0 ==> r[i] == rest[i - 1] && segments[i] == segments[1..][i - 1];
      }
    }
  }

  lemma {:induction false} SanitizeAllAccepts(segments: seq<string>)
    ensures SanitizeAll(segments).Ok? <==> forall s :: s in segments ==> SanitizeUrnSegment(s).Ok?
  {
    if segments != [] {
      SanitizeAllAccepts(segments[1..]);
      assert forall s :: s in segments <==> s == segments[0] || s in segments[1..];
    }
  }

  /** A builder throws exactly when it is given a segment that is refused. */
  lemma BuildUrnAccepts(k: Key)
    ensures BuildUrn(k).Ok? <==> forall s :: s in Segments(k) ==> SanitizeUrnSegment(s).Ok?
  {
    SanitizeAllAccepts(Segments(k));
  }

  lemma {:induction false} SanitizeAllSame(segments: seq<string>)
    requires forall s :: s in segments ==> SanitizeUrnSegment(s) == Ok(s)
    ensures SanitizeAll(segments) == Ok(segments)
  {
    if segments != [] {
      assert forall s :: s in segments[1..] ==> s in segments;
      SanitizeAllSame(segments[1..]);
      assert [segments[0]] + segments[1..] == segments;
    }
  }

  lemma SameSegments(k: Key)
    ensures WithSegments(k, Segments(k)) == k
  {
  }

  /** On segments that are sanitised already a builder only prints. */
  lemma BuildUrnOfFixed(k: Key)
    requires forall s :: s in Segments(k) ==> SanitizeUrnSegment(s) == Ok(s)
    ensures BuildUrn(k) == Ok(Print(k))
  {
    SanitizeAllSame(Segments(k));
    SameSegments(k);
  }

  lemma DigitsAreNotSecretLike(s: string)
    requires forall c :: c in s ==> IsDigit(c)
    ensures !SecretLike(s)
  {
    LowerNothing(s);
    forall k | 0 <= k < |SECRET_WORDS| ensures !Contains(s, SECRET_WORDS[k]) {
      NotContained(s, SECRET_WORDS[k], 0);
    }
  }

  lemma DecimalIsFixed(n: nat)
    ensures SanitizeUrnSegment(Decimal(n)) == Ok(Decimal(n)) && Free(Decimal(n), '/')
  {
    var s := Decimal(n);
    assert forall i :: 0 <= i < |s| ==> s[i] in s && IsDigit(s[i]);
    DigitsAreNotSecretLike(s);
    NormalIsFixed(s);
  }

  lemma CleanSegment(k: Key, i: nat)
    requires SanitizeKey(k).Ok? && i < |Segments(k)|
    ensures Segments(SanitizeKey(k).value) == SanitizeAll(Segments(k)).value
    ensures SanitizeUrnSegment(Segments(k)[i]) == Ok(SanitizeAll(Segments(k)).value[i])
  {
    SanitizeAllNormal(Segments(k));
  }

  lemma SanitizedKey(k: Key)
    requires SanitizeKey(k).Ok? && PlainNumber(k)
    ensures Sanitized(SanitizeKey(k).value)
  {
    var segments := Segments(k);
    var clean := SanitizeAll(segments).value;
    SanitizeAllNormal(segments);
    forall s | s in clean ensures Normal(s) {
      var i :| 0 <= i < |clean| && clean[i] == s;
    }
    if k.JenkinsBuild? {
      var n: nat :| k.number == Decimal(n);
      DecimalIsFixed(n);
      assert SanitizeUrnSegment(segments[2]) == Ok(clean[2]);
    }
  }

  // ----- Where the rewrite goes wrong -----------------------------------------

  /** The job whose URN a build of an instance named "job/..." takes. */
  function TakenJob(build: Key): Key
    requires build.JenkinsBuild? && !RewriteMeetsKind(build)
  {
    JenkinsJob("build/" + build.instance[4..], build.name + "/" + build.number)
  }

  lemma RenamedInstanceIsNormal(i: string)
    requires Normal(i) && StartsWith(i, "job/")
    ensures Normal("build/" + i[4..])
  {
    StartsWithAt(i, "job/");
    var s := "build/" + i[4..];
    assert i[3] == '/' && |i| > 4;
    assert forall j :: 6 <= j < |s| ==> s[j] == i[j - 2];
    assert s[..6] == "build/";
  }

  lemma SlashedIsNormal(a: string, b: string)
    requires Normal(a) && Normal(b)
    ensures Normal(a + "/" + b)
  {
    var s := a + "/" + b;
    assert forall j :: 0 <= j < |a| ==> s[j] == a[j];
    assert s[|a|] == '/';
    assert forall j :: |a| < j < |s| ==> s[j] == b[j - |a| - 1];
  }

  lemma BuildPrintsAsTakenJob(build: Key)
    requires Sanitized(build) && build.JenkinsBuild? && !RewriteMeetsKind(build)
    ensures Sanitized(TakenJob(build)) && Print(TakenJob(build)) == Print(build)
  {
    var s := Segments(build);
    assert s[0] == build.instance && s[1] == build.name && s[2] == build.number;
    RenamedInstanceIsNormal(build.instance);
    SlashedIsNormal(build.name, build.number);
    PrintIsJoin(build);
    assert Fields(TakenJob(build)) == Fields(build);
  }

  /** A build shares its URN with some job exactly when the instance's name starts with "job/". */
  lemma BuildTakesJobUrnExactly(build: Key)
    requires Sanitized(build) && build.JenkinsBuild?
    ensures StartsWith(build.instance, "job/") <==>
      exists job: Key :: job.JenkinsJob? && Sanitized(job) && Print(job) == Print(build)
  {
    if StartsWith(build.instance, "job/") {
      BuildPrintsAsTakenJob(build);
      assert TakenJob(build).JenkinsJob?;
    } else {
      ReadUrnOfPrint(build);
      forall job: Key | job.JenkinsJob? && Sanitized(job) ensures Print(job) != Print(build) {
        ReadUrnOfPrint(job);
      }
    }
  }

  /** What a URN is read back as: the key it was printed from, or the job whose URN that build takes. */
  function Canonical(k: Key): Key {
    if RewriteMeetsKind(k) then k else TakenJob(k)
  }

  lemma ReadUrnOfAny(k: Key)
    requires Sanitized(k)
    ensures ReadUrn(Print(k)) == Some(Canonical(k))
  {
    if RewriteMeetsKind(k) {
      ReadUrnOfPrint(k);
    } else {
      BuildPrintsAsTakenJob(k);
      ReadUrnOfPrint(TakenJob(k));
    }
  }

  lemma TakenJobsDiffer(a: Key, b: Key)
    requires Sanitized(a) && Sanitized(b) && !RewriteMeetsKind(a) && !RewriteMeetsKind(b)
    requires TakenJob(a) == TakenJob(b)
    ensures a == b
  {
    CutLastOf(a.name, a.number, '/');
    CutLastOf(b.name, b.number, '/');
    assert a.name + "/" + a.number == b.name + "/" + b.number;
    assert a.instance == a.instance[..4] + a.instance[4..] && b.instance == b.instance[..4] + b.instance[4..];
    assert a.instance[4..] == ("build/" + a.instance[4..])[6..] && b.instance[4..] == ("build/" + b.instance[4..])[6..];
  }

  /** One is a build of an instance named "job/...", and the other the job whose URN it takes. */
  predicate Takes(build: Key, job: Key) {
    !RewriteMeetsKind(build) && job == TakenJob(build)
  }

  /** Two builder calls give one URN exactly when, on the sanitised segments, they are the same builder call
      or one is the job whose URN the other takes. */
  lemma SameUrnExactly(a: Key, b: Key)
    requires BuildUrn(a).Ok? && BuildUrn(b).Ok? && PlainNumber(a) && PlainNumber(b)
    ensures var x, y := SanitizeKey(a).value, SanitizeKey(b).value;
      BuildUrn(a) == BuildUrn(b) <==> x == y || Takes(x, y) || Takes(y, x)
  {
    var x, y := SanitizeKey(a).value, SanitizeKey(b).value;
    SanitizedKey(a);
    SanitizedKey(b);
    ReadUrnOfAny(x);
    ReadUrnOfAny(y);
    if Canonical(x) == Canonical(y) && !RewriteMeetsKind(x) && !RewriteMeetsKind(y) {
      TakenJobsDiffer(x, y);
    }
    if Takes(x, y) { BuildPrintsAsTakenJob(x); }
    if Takes(y, x) { BuildPrintsAsTakenJob(y); }
  }
}
