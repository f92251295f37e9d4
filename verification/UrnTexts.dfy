/** What the segment normaliser and the URN builders put out, character by character
    (packages/utils/src/resource-urn.ts). */
module UrnTexts {
  import opened Wrappers
  import opened Text
  import opened ResourceUrn
  import opened UrnPrinters

  // ----- What survives --------------------------------------------------------

  /** A letter, a digit or an underscore. */
  predicate Lasting(c: char) {
    'a' <= c <= 'z' || '0' <= c <= '9' || c == '_'
  }

  function LastingOf(s: string): string {
    if s == "" then "" else (if Lasting(s[0]) then [s[0]] else "") + LastingOf(s[1..])
  }

  lemma Grouped(a: string, b: string, c: string)
    ensures a + (b + c) == (a + b) + c
  {
  }

  lemma {:induction false} LastingOfBoth(a: string, b: string)
    ensures LastingOf(a + b) == LastingOf(a) + LastingOf(b)
  {
    if a == "" {
      assert a + b == b;
    } else {
      LastingOfBoth(a[1..], b);
      assert (a + b)[0] == a[0] && (a + b)[1..] == a[1..] + b;
      Grouped(if Lasting(a[0]) then [a[0]] else "", LastingOf(a[1..]), LastingOf(b));
    }
  }

  lemma {:induction false} DropKeeps(s: string, p: char -> bool)
    requires forall c :: p(c) ==> !Lasting(c)
    ensures LastingOf(DropWhile(s, p)) == LastingOf(s)
  {
    if s != "" && p(s[0]) {
      DropKeeps(s[1..], p);
    }
  }

  lemma {:induction false} ReplaceKeeps(s: string, p: char -> bool, c: char)
    requires !Lasting(c) && forall x :: p(x) ==> !Lasting(x)
    ensures LastingOf(ReplaceRuns(s, p, c)) == LastingOf(s)
    decreases |s|
  {
    if s != "" {
      var rest := if p(s[0]) then DropWhile(s[1..], p) else s[1..];
      ReplaceKeeps(rest, p, c);
      if p(s[0]) {
        DropKeeps(s[1..], p);
        assert ([c] + ReplaceRuns(rest, p, c))[1..] == ReplaceRuns(rest, p, c);
      } else {
        assert ([s[0]] + ReplaceRuns(rest, p, c))[1..] == ReplaceRuns(rest, p, c);
      }
    }
  }

  lemma {:induction false} BackslashesKeep(s: string)
    ensures LastingOf(BackslashesToDashes(s)) == LastingOf(s)
  {
    if s != "" {
      BackslashesKeep(s[1..]);
      assert BackslashesToDashes(s)[1..] == BackslashesToDashes(s[1..]);
    }
  }

  lemma {:induction false} StripKeeps(s: string)
    ensures LastingOf(StripRight(s)) == LastingOf(s)
  {
    if s != "" && Edge(s[|s| - 1]) {
      StripKeeps(s[..|s| - 1]);
      LastingOfBoth(s[..|s| - 1], [s[|s| - 1]]);
      assert s == s[..|s| - 1] + [s[|s| - 1]];
    }
  }

  lemma CleanKeeps(s: string)
    ensures LastingOf(Clean(s)) == LastingOf(s)
  {
    var s1 := BackslashesToDashes(s);
    var s2 := ReplaceRuns(s1, c => Reserved(c), '-');
    var s3 := ReplaceRuns(s2, c => !Allowed(c), '-');
    var s4 := ReplaceRuns(s3, c => c == '-', '-');
    var s5 := ReplaceRuns(s4, c => c == '/', '/');
    BackslashesKeep(s);
    ReplaceKeeps(s1, c => Reserved(c), '-');
    ReplaceKeeps(s2, c => !Allowed(c), '-');
    ReplaceKeeps(s3, c => c == '-', '-');
    ReplaceKeeps(s4, c => c == '/', '/');
    DropKeeps(s5, c => Edge(c));
    StripKeeps(DropWhile(s5, c => Edge(c)));
  }

  lemma {:induction false} TrimLeftKeeps(s: string)
    ensures LastingOf(Lower(TrimLeft(s))) == LastingOf(Lower(s))
  {
    if s != "" && IsSpace(s[0]) {
      TrimLeftKeeps(s[1..]);
      assert Lower(s)[1..] == Lower(s[1..]);
    }
  }

  lemma {:induction false} TrimRightKeeps(s: string)
    ensures LastingOf(Lower(TrimRight(s))) == LastingOf(Lower(s))
  {
    if s != "" && IsSpace(s[|s| - 1]) {
      var n := |s| - 1;
      TrimRightKeeps(s[..n]);
      LastingOfBoth(Lower(s[..n]), [Lower(s)[n]]);
      assert Lower(s) == Lower(s[..n]) + [Lower(s)[n]];
    }
  }

  /** The letters, digits and underscores of a segment are kept, in lower case and in their order. */
  lemma LettersSurvive(input: string)
    requires SanitizeUrnSegment(input).Ok?
    ensures LastingOf(SanitizeUrnSegment(input).value) == LastingOf(Lower(input))
  {
    CleanKeeps(Lower(Trim(input)));
    TrimLeftKeeps(input);
    TrimRightKeeps(TrimLeft(input));
  }

  /** A segment is refused exactly when it is secret-like or holds nothing that lasts. */
  lemma AcceptedExactly(input: string)
    ensures SanitizeUrnSegment(input).Ok? <==> !SecretLike(Trim(input)) && LastingOf(Lower(input)) != ""
    ensures SanitizeUrnSegment(input) == Err(SecretLikeSegment) <==> Trim(input) != "" && SecretLike(Trim(input))
    ensures SanitizeUrnSegment(input) == Err(EmptySegment) <==> Trim(input) == ""
  {
    var lowered := Lower(Trim(input));
    CleanKeeps(lowered);
    TrimLeftKeeps(input);
    TrimRightKeeps(TrimLeft(input));
    ReplacedIsAllowed(lowered);
    var s3 := ReplaceRuns(ReplaceRuns(BackslashesToDashes(lowered), c => Reserved(c), '-'), c => !Allowed(c), '-');
    StrippedIsNormal(ReplaceRuns(ReplaceRuns(s3, c => c == '-', '-'), c => c == '/', '/'));
    var t := Clean(lowered);
    assert t == "" || (Allowed(t[0]) && !Edge(t[0]) && Lasting(t[0]));
  }

  // ----- Normal texts, character by character ---------------------------------

  /** The normal form: letters, digits and underscores at both ends, between them also dots and single dashes
      and slashes. */
  lemma NormalExactly(s: string)
    ensures Normal(s) <==>
      && s != "" && Lasting(s[0]) && Lasting(s[|s| - 1])
      && (forall i :: 0 <= i < |s| ==> Lasting(s[i]) || s[i] == '.' || s[i] == '-' || s[i] == '/')
      && (forall i :: 0 < i < |s| ==> !(s[i - 1] == s[i] == '-') && !(s[i - 1] == s[i] == '/'))
  {
    if s != "" && NoPair(s, '-') && NoPair(s, '/') {
      forall i | 0 < i < |s| ensures !(s[i - 1] == s[i] == '-') && !(s[i - 1] == s[i] == '/') {
        assert !(s[i - 1] == '-' && s[i - 1 + 1] == '-') && !(s[i - 1] == '/' && s[i - 1 + 1] == '/');
      }
    }
  }

  function KeyWord(owner: string, sep: string): string {
    owner + sep + "key"
  }

  /** The words of the pattern: six plain ones, and "key" after three others, with "_", "-" or nothing between. */
  lemma SecretWordsAre(word: string)
    ensures word in SECRET_WORDS <==>
      || word in ["authorization", "bearer", "password", "passwd", "secret", "token"]
      || exists owner, sep ::
           owner in ["api", "access", "private"] && sep in ["", "_", "-"] && word == KeyWord(owner, sep)
  {
    assert SECRET_WORDS[5] == KeyWord("api", "") && SECRET_WORDS[6] == KeyWord("api", "_");
    assert SECRET_WORDS[7] == KeyWord("api", "-") && SECRET_WORDS[8] == KeyWord("access", "");
    assert SECRET_WORDS[9] == KeyWord("access", "_") && SECRET_WORDS[10] == KeyWord("access", "-");
    assert SECRET_WORDS[11] == KeyWord("private", "") && SECRET_WORDS[12] == KeyWord("private", "_");
    assert SECRET_WORDS[13] == KeyWord("private", "-");
  }

  // ----- A character that has no place in a segment ----------------------------

  lemma {:induction false} ReplaceOne(a: string, c: char, b: string, p: char -> bool)
    requires (forall x :: x in a ==> !p(x)) && (forall x :: x in b ==> !p(x))
    ensures ReplaceRuns(a + [c] + b, p, '-') == a + [if p(c) then '-' else c] + b
    decreases |a|
  {
    var s := a + [c] + b;
    if a == "" {
      assert s[1..] == b;
      ReplaceRunsNothing(b, p, '-');
      assert DropWhile(b, p) == b;
    } else {
      assert s[1..] == a[1..] + [c] + b;
      ReplaceOne(a[1..], c, b, p);
      assert s[0] == a[0];
    }
  }

  lemma {:induction false} BackslashBetween(a: string, c: char, b: string)
    requires AllAllowed(a) && AllAllowed(b)
    ensures BackslashesToDashes(a + [c] + b) == a + [if c == '\\' then '-' else c] + b
  {
    var s := a + [c] + b;
    if a == "" {
      assert s[1..] == b;
      NoBackslashes(b);
    } else {
      assert s[1..] == a[1..] + [c] + b;
      assert forall i :: 0 <= i < |a| - 1 ==> a[1..][i] == a[i + 1];
      BackslashBetween(a[1..], c, b);
    }
  }

  lemma NothingToReplace(a: string)
    requires AllAllowed(a)
    ensures forall x :: x in a ==> Allowed(x) && !Reserved(x)
  {
  }

  lemma ReplacedByDash(a: string, c: char, b: string)
    requires AllAllowed(a) && AllAllowed(b) && !Allowed(c)
    ensures ReplaceRuns(ReplaceRuns(BackslashesToDashes(a + [c] + b), x => Reserved(x), '-'), x => !Allowed(x), '-')
      == a + ['-'] + b
  {
    NothingToReplace(a);
    NothingToReplace(b);
    BackslashBetween(a, c, b);
    var d := if c == '\\' then '-' else c;
    var e := if Reserved(d) then '-' else d;
    ReplaceOne(a, d, b, x => Reserved(x));
    ReplaceOne(a, e, b, x => !Allowed(x));
  }

  lemma CleanIsDone(s: string, t: string)
    requires ReplaceRuns(ReplaceRuns(BackslashesToDashes(s), x => Reserved(x), '-'), x => !Allowed(x), '-') == t
    requires t != "" && NoPair(t, '-') && NoPair(t, '/') && !Edge(t[0]) && !Edge(t[|t| - 1])
    ensures Clean(s) == t
  {
    CollapseNothing(t, '-');
    CollapseNothing(t, '/');
  }

  lemma CleanForeign(a: string, c: char, b: string)
    requires Normal(a) && Normal(b) && !Allowed(c)
    ensures Clean(a + [c] + b) == a + "-" + b
  {
    ReplacedByDash(a, c, b);
    JoinedBySeparators(a, "-", b);
    CleanIsDone(a + [c] + b, a + "-" + b);
  }

  /** Between two normal texts, a character that is not a letter, a digit, "_", ".", "-" or "/" becomes a dash. */
  lemma ForeignBecomesDash(a: string, c: char, b: string)
    requires Normal(a) && Normal(b) && !SecretLike(a + [c] + b)
    requires !Lasting(LowerChar(c)) && c != '.' && c != '-' && c != '/'
    ensures SanitizeUrnSegment(a + [c] + b) == Ok(a + "-" + b)
  {
    var s := a + [c] + b;
    assert s[0] == a[0] && s[|s| - 1] == b[|b| - 1];
    TrimNothing(s);
    assert forall x :: x in s ==> x in a || x == c || x in b;
    LowerNothing(s);
    CleanForeign(a, c, b);
  }

  // ----- The templates --------------------------------------------------------

  function Own(word: string, rest: string): string {
    "urn:autoops:autoops:" + word + "/" + rest
  }

  function In(provider: string, place: string, word: string, rest: string): string {
    "urn:autoops:" + provider + ":" + place + ":" + word + "/" + rest
  }

  function InNamespace(cluster: string, ns: string, word: string, rest: string): string {
    "urn:autoops:kubernetes:" + cluster + ":namespace/" + ns + ":" + word + "/" + rest
  }

  /** The text of each URN. A build of an instance named "job/..." has the word rewritten in the instance. */
  function Template(k: Key): string {
    match k
    case Organization => Own("organization", "current")
    case Project(id) => Own("project", id)
    case Environment(id) => Own("environment", id)
    case Deployment(id) => Own("deployment", id)
    case Operation(id) => Own("operation", id)
    case JenkinsInstance(i) => In("jenkins", i, "instance", "default")
    case JenkinsJob(i, name) => In("jenkins", i, "job", name)
    case JenkinsBuild(i, name, n) =>
      if "job/" <= i then In("jenkins", "build/" + i[4..], "job", name + "/" + n)
      else In("jenkins", i, "build", name + "/" + n)
    case DockerEngine(e) => In("docker", e, "engine", "default")
    case DockerContainer(e, name) => In("docker", e, "container", name)
    case DockerImage(e, name) => In("docker", e, "image", name)
    case DockerNetwork(e, name) => In("docker", e, "network", name)
    case DockerVolume(e, name) => In("docker", e, "volume", name)
    case KubernetesCluster(c) => In("kubernetes", c, "cluster", "default")
    case KubernetesNamespace(c, ns) => In("kubernetes", c, "namespace", ns)
    case KubernetesNode(c, name) => In("kubernetes", c, "node", name)
    case KubernetesDeployment(c, ns, name) => InNamespace(c, ns, "deployment", name)
    case KubernetesPod(c, ns, name) => InNamespace(c, ns, "pod", name)
    case KubernetesService(c, ns, name) => InNamespace(c, ns, "service", name)
  }

  lemma JoinFour(a: string, b: string, c: string, d: string)
    ensures Join([a, b, c, d], ':') == a + ":" + b + ":" + c + ":" + d
  {
    assert Join([c, d], ':') == c + [':'] + d;
    assert [b, c, d][1..] == [c, d] && [a, b, c, d][1..] == [b, c, d];
    assert Join([b, c, d], ':') == b + [':'] + (c + [':'] + d);
  }

  lemma JoinFive(a: string, b: string, c: string, d: string, e: string)
    ensures Join([a, b, c, d, e], ':') == a + ":" + b + ":" + c + ":" + d + ":" + e
  {
    assert [a, b, c, d, e][1..] == [b, c, d, e];
    JoinFour(b, c, d, e);
  }

  lemma JoinSix(a: string, b: string, c: string, d: string, e: string, f: string)
    ensures Join([a, b, c, d, e, f], ':') == a + ":" + b + ":" + c + ":" + d + ":" + e + ":" + f
  {
    assert [a, b, c, d, e, f][1..] == [b, c, d, e, f];
    JoinFive(b, c, d, e, f);
  }

  lemma OwnFields(fields: seq<string>, word: string, rest: string)
    requires fields == ["urn", "autoops", "autoops"] + [word + "/" + rest]
    ensures Join(fields, ':') == Own(word, rest)
  {
    JoinFour("urn", "autoops", "autoops", word + "/" + rest);
    assert fields == ["urn", "autoops", "autoops", word + "/" + rest];
    assert "urn" + ":" + "autoops" + ":" + "autoops" + ":" == "urn:autoops:autoops:";
  }

  lemma PlacedFields(fields: seq<string>, provider: string, place: string, word: string, rest: string)
    requires fields == ["urn", "autoops", provider, place] + [word + "/" + rest]
    ensures Join(fields, ':') == In(provider, place, word, rest)
  {
    JoinFive("urn", "autoops", provider, place, word + "/" + rest);
    assert fields == ["urn", "autoops", provider, place, word + "/" + rest];
    assert "urn" + ":" + "autoops" + ":" == "urn:autoops:";
  }

  lemma NamespacedFields(fields: seq<string>, cluster: string, ns: string, word: string, rest: string)
    requires fields == ["urn", "autoops", "kubernetes", cluster, "namespace" + "/" + ns] + [word + "/" + rest]
    ensures Join(fields, ':') == InNamespace(cluster, ns, word, rest)
  {
    JoinSix("urn", "autoops", "kubernetes", cluster, "namespace" + "/" + ns, word + "/" + rest);
    assert fields == ["urn", "autoops", "kubernetes", cluster, "namespace" + "/" + ns, word + "/" + rest];
    assert "urn" + ":" + "autoops" + ":" + "kubernetes" + ":" == "urn:autoops:kubernetes:";
    assert ":" + "namespace" + "/" == ":namespace/";
  }

  lemma FieldsAreTemplate(k: Key)
    ensures Join(Fields(k), ':') == Template(k)
  {
    var fields := Fields(k);
    match k
    case Organization => OwnFields(fields, "organization", "current");
    case Project(id) => OwnFields(fields, "project", id);
    case Environment(id) => OwnFields(fields, "environment", id);
    case Deployment(id) => OwnFields(fields, "deployment", id);
    case Operation(id) => OwnFields(fields, "operation", id);
    case JenkinsInstance(i) => PlacedFields(fields, "jenkins", i, "instance", "default");
    case JenkinsJob(i, name) => PlacedFields(fields, "jenkins", i, "job", name);
    case JenkinsBuild(i, name, n) =>
      if "job/" <= i {
        PlacedFields(fields, "jenkins", "build/" + i[4..], "job", name + "/" + n);
      } else {
        PlacedFields(fields, "jenkins", i, "build", name + "/" + n);
      }
    case DockerEngine(e) => PlacedFields(fields, "docker", e, "engine", "default");
    case DockerContainer(e, name) => PlacedFields(fields, "docker", e, "container", name);
    case DockerImage(e, name) => PlacedFields(fields, "docker", e, "image", name);
    case DockerNetwork(e, name) => PlacedFields(fields, "docker", e, "network", name);
    case DockerVolume(e, name) => PlacedFields(fields, "docker", e, "volume", name);
    case KubernetesCluster(c) => PlacedFields(fields, "kubernetes", c, "cluster", "default");
    case KubernetesNamespace(c, ns) => PlacedFields(fields, "kubernetes", c, "namespace", ns);
    case KubernetesNode(c, name) => PlacedFields(fields, "kubernetes", c, "node", name);
    case KubernetesDeployment(c, ns, name) => NamespacedFields(fields, c, ns, "deployment", name);
    case KubernetesPod(c, ns, name) => NamespacedFields(fields, c, ns, "pod", name);
    case KubernetesService(c, ns, name) => NamespacedFields(fields, c, ns, "service", name);
  }

  /** Every builder prints its template. */
  lemma PrintIsTemplate(k: Key)
    requires k.JenkinsBuild? ==> Normal(k.instance) && Normal(k.name)
    ensures Print(k) == Template(k)
  {
    FieldsAreTemplate(k);
    if k.JenkinsBuild? {
      BuildPrintIsJoin(k.instance, k.name, k.number);
    }
  }

  lemma SanitizeKeyIs(k: Key, clean: Key)
    requires |Segments(clean)| == |Segments(k)| && WithSegments(k, Segments(clean)) == clean
    requires forall i :: 0 <= i < |Segments(k)| ==> SanitizeUrnSegment(Segments(k)[i]) == Ok(Segments(clean)[i])
    ensures SanitizeKey(k) == Ok(clean)
    ensures forall i :: 0 <= i < |Segments(clean)| ==> Normal(Segments(clean)[i])
  {
    SanitizeAllAccepts(Segments(k));
    SanitizeAllNormal(Segments(k));
    assert SanitizeAll(Segments(k)).value == Segments(clean);
  }

  /** What a builder returns is the template of its sanitised segments, each in its place. */
  lemma BuildUrnIsTemplate(k: Key, clean: Key)
    requires |Segments(clean)| == |Segments(k)| && WithSegments(k, Segments(clean)) == clean
    requires forall i :: 0 <= i < |Segments(k)| ==> SanitizeUrnSegment(Segments(k)[i]) == Ok(Segments(clean)[i])
    ensures BuildUrn(k) == Ok(Template(clean))
  {
    SanitizeKeyIs(k, clean);
    if clean.JenkinsBuild? {
      assert Segments(clean)[0] == clean.instance && Segments(clean)[1] == clean.name;
    }
    PrintIsTemplate(clean);
  }
}
