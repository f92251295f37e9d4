/** Resource names (packages/utils/src/resource-urn.ts). */
module ResourceUrn {
  import opened Wrappers
  import opened Text

  // ----- Sanitising a segment -------------------------------------------------

  datatype UrnError = EmptySegment | SecretLikeSegment | NothingLeft

  predicate Reserved(c: char) {
    || c == ':' || c == '?' || c == '#' || c == '[' || c == ']' || c == '@' || c == '!' || c == '$' || c == '&'
    || c == '\'' || c == '(' || c == ')' || c == '*' || c == '+' || c == ',' || c == ';' || c == '='
  }

  predicate Allowed(c: char) {
    'a' <= c <= 'z' || '0' <= c <= '9' || c == '.' || c == '_' || c == '/' || c == '-'
  }

  predicate Edge(c: char) {
    c == '.' || c == '/' || c == '-'
  }

  function DropWhile(s: string, p: char -> bool): (t: string)
    ensures |t| <= |s|
  {
    if s != "" && p(s[0]) then DropWhile(s[1..], p) else s
  }

  /** `replace(/[class]+/g, c)`: every maximal run becomes one `c`. */
  function ReplaceRuns(s: string, p: char -> bool, c: char): string
    decreases |s|
  {
    if s == "" then ""
    else if p(s[0]) then [c] + ReplaceRuns(DropWhile(s[1..], p), p, c)
    else [s[0]] + ReplaceRuns(s[1..], p, c)
  }

  function BackslashesToDashes(s: string): string {
    if s == "" then ""
    else [if s[0] == '\\' then '-' else s[0]] + BackslashesToDashes(s[1..])
  }

  function StripRight(s: string): string {
    if s != "" && Edge(s[|s| - 1]) then StripRight(s[..|s| - 1]) else s
  }

  /** The words of the secret-like pattern. */
  const SECRET_WORDS: seq<string> := [
    "authorization", "bearer", "password", "passwd", "secret", "apikey", "api_key", "api-key", "accesskey",
    "access_key", "access-key", "privatekey", "private_key", "private-key", "token"]

  predicate Contains(s: string, word: string) {
    exists i :: 0 <= i <= |s| && StartsWith(s[i..], word)
  }

  predicate SecretLike(s: string) {
    exists k :: 0 <= k < |SECRET_WORDS| && Contains(Lower(s), SECRET_WORDS[k])
  }

  /** The replacements, in the order the program makes them. */
  function Clean(lowered: string): string {
    var s1 := BackslashesToDashes(lowered);
    var s2 := ReplaceRuns(s1, c => Reserved(c), '-');
    var s3 := ReplaceRuns(s2, c => !Allowed(c), '-');
    var s4 := ReplaceRuns(s3, c => c == '-', '-');
    var s5 := ReplaceRuns(s4, c => c == '/', '/');
    StripRight(DropWhile(s5, c => Edge(c)))
  }

  function SanitizeUrnSegment(input: string): Result<string, UrnError> {
    var trimmed := Trim(input);
    if trimmed == "" then Err(EmptySegment)
    else if SecretLike(trimmed) then Err(SecretLikeSegment)
    else
      var sanitized := Clean(Lower(trimmed));
      if sanitized == "" then Err(NothingLeft) else Ok(sanitized)
  }

  // ----- Normal form ----------------------------------------------------------

  ghost predicate NoPair(s: string, c: char) {
    forall i :: 0 <= i < |s| - 1 ==> !(s[i] == c && s[i + 1] == c)
  }

  ghost predicate AllAllowed(s: string) {
    forall i :: 0 <= i < |s| ==> Allowed(s[i])
  }

  /** Allowed characters only, no doubled dash or slash, no edge character at either end. */
  ghost predicate Normal(s: string) {
    && s != ""
    && AllAllowed(s)
    && NoPair(s, '-') && NoPair(s, '/')
    && !Edge(s[0]) && !Edge(s[|s| - 1])
  }

  lemma {:induction false} DropWhileIsSuffix(s: string, p: char -> bool)
    ensures DropWhile(s, p) == s[|s| - |DropWhile(s, p)|..]
    ensures DropWhile(s, p) != "" ==> !p(DropWhile(s, p)[0])
  {
    if s != "" && p(s[0]) {
      DropWhileIsSuffix(s[1..], p);
    }
  }

  lemma {:induction false} StripRightIsPrefix(s: string)
    ensures StripRight(s) <= s
    ensures StripRight(s) != "" ==> !Edge(StripRight(s)[|StripRight(s)| - 1])
  {
    if s != "" && Edge(s[|s| - 1]) {
      StripRightIsPrefix(s[..|s| - 1]);
    }
  }

  /** Runs of disallowed characters leave allowed ones only. */
  lemma {:induction false} CleanedIsAllowed(s: string)
    ensures AllAllowed(ReplaceRuns(s, c => !Allowed(c), '-'))
    decreases |s|
  {
    var p := (c: char) => !Allowed(c);
    if s != "" {
      if p(s[0]) {
        CleanedIsAllowed(DropWhile(s[1..], p));
      } else {
        CleanedIsAllowed(s[1..]);
      }
    }
  }

  /** Collapsing runs of one character adds no other character and leaves no pair of it. */
  lemma {:induction false} Collapsed(s: string, c: char)
    ensures var t := ReplaceRuns(s, x => x == c, c);
      && NoPair(t, c)
      && (forall x :: x in t ==> x in s)
      && (s == "" <==> t == "") && (s != "" ==> t[0] == s[0])
    decreases |s|
  {
    var p := (x: char) => x == c;
    if s != "" {
      var rest := if p(s[0]) then DropWhile(s[1..], p) else s[1..];
      DropWhileIsSuffix(s[1..], p);
      Collapsed(rest, c);
    }
  }

  /** Collapsing one character makes no pair of another. */
  lemma {:induction false} CollapseKeepsNoPair(s: string, c: char, d: char)
    requires c != d && NoPair(s, d)
    ensures NoPair(ReplaceRuns(s, x => x == c, c), d)
    decreases |s|
  {
    var p := (x: char) => x == c;
    if s != "" {
      DropWhileIsSuffix(s[1..], p);
      var rest := if p(s[0]) then DropWhile(s[1..], p) else s[1..];
      assert forall i :: 0 <= i < |rest| ==> rest[i] == s[|s| - |rest| + i];
      CollapseKeepsNoPair(rest, c, d);
      Collapsed(rest, c);
    }
  }

  lemma ReplacedIsAllowed(lowered: string)
    ensures var s3 :=
        ReplaceRuns(ReplaceRuns(BackslashesToDashes(lowered), c => Reserved(c), '-'), c => !Allowed(c), '-');
      var s5 := ReplaceRuns(ReplaceRuns(s3, c => c == '-', '-'), c => c == '/', '/');
      AllAllowed(s5) && NoPair(s5, '-') && NoPair(s5, '/')
  {
    var s2 := ReplaceRuns(BackslashesToDashes(lowered), c => Reserved(c), '-');
    var s3 := ReplaceRuns(s2, c => !Allowed(c), '-');
    CleanedIsAllowed(s2);
    var s4 := ReplaceRuns(s3, c => c == '-', '-');
    Collapsed(s3, '-');
    var s5 := ReplaceRuns(s4, c => c == '/', '/');
    Collapsed(s4, '/');
    CollapseKeepsNoPair(s4, '/', '-');
    forall i | 0 <= i < |s5| ensures Allowed(s5[i]) {
      assert s5[i] in s5 && s5[i] in s4 && s5[i] in s3;
    }
  }

  lemma SliceKeeps(s: string, lo: nat, hi: nat)
    requires lo <= hi <= |s| && AllAllowed(s) && NoPair(s, '-') && NoPair(s, '/')
    ensures AllAllowed(s[lo..hi]) && NoPair(s[lo..hi], '-') && NoPair(s[lo..hi], '/')
  {
    assert forall i :: 0 <= i < hi - lo ==> s[lo..hi][i] == s[lo + i];
  }

  lemma StrippedIsNormal(s: string)
    requires AllAllowed(s) && NoPair(s, '-') && NoPair(s, '/')
    ensures var t := StripRight(DropWhile(s, c => Edge(c)));
      t == "" || Normal(t)
  {
    var left := DropWhile(s, c => Edge(c));
    var t := StripRight(left);
    DropWhileIsSuffix(s, c => Edge(c));
    StripRightIsPrefix(left);
    var lo := |s| - |left|;
    assert t == s[lo..lo + |t|];
    SliceKeeps(s, lo, lo + |t|);
  }

  /** Every sanitised segment is in normal form. */
  lemma SanitizedIsNormal(input: string)
    requires SanitizeUrnSegment(input).Ok?
    ensures Normal(SanitizeUrnSegment(input).value)
  {
    var lowered := Lower(Trim(input));
    ReplacedIsAllowed(lowered);
    var s3 := ReplaceRuns(ReplaceRuns(BackslashesToDashes(lowered), c => Reserved(c), '-'), c => !Allowed(c), '-');
    StrippedIsNormal(ReplaceRuns(ReplaceRuns(s3, c => c == '-', '-'), c => c == '/', '/'));
  }

  // ----- Fixed points ---------------------------------------------------------

  lemma {:induction false} ReplaceRunsNothing(s: string, p: char -> bool, c: char)
    requires forall i :: 0 <= i < |s| ==> !p(s[i])
    ensures ReplaceRuns(s, p, c) == s
  {
    if s != "" {
      ReplaceRunsNothing(s[1..], p, c);
    }
  }

  lemma {:induction false} CollapseNothing(s: string, c: char)
    requires NoPair(s, c)
    ensures ReplaceRuns(s, x => x == c, c) == s
  {
    if s != "" {
      assert forall i :: 0 <= i < |s| - 1 ==> s[1..][i] == s[i + 1];
      CollapseNothing(s[1..], c);
    }
  }

  lemma {:induction false} NoBackslashes(s: string)
    requires AllAllowed(s)
    ensures BackslashesToDashes(s) == s
  {
    if s != "" {
      assert forall i :: 0 <= i < |s| - 1 ==> s[1..][i] == s[i + 1];
      NoBackslashes(s[1..]);
    }
  }

  lemma CleanNothing(s: string)
    requires Normal(s)
    ensures Clean(s) == s
  {
    NoBackslashes(s);
    ReplaceRunsNothing(s, c => Reserved(c), '-');
    ReplaceRunsNothing(s, c => !Allowed(c), '-');
    CollapseNothing(s, '-');
    CollapseNothing(s, '/');
  }

  /** A normal form sanitises to itself, or is rejected as secret-like. */
  lemma NormalIsFixed(s: string)
    requires Normal(s)
    ensures SanitizeUrnSegment(s) == if SecretLike(s) then Err(SecretLikeSegment) else Ok(s)
  {
    TrimNothing(s);
    LowerNothing(s);
    CleanNothing(s);
  }

  /** Sanitising twice is sanitising once exactly when the first result is not secret-like. */
  lemma SanitizeTwice(input: string)
    requires SanitizeUrnSegment(input).Ok?
    ensures var once := SanitizeUrnSegment(input).value;
      SanitizeUrnSegment(once) == SanitizeUrnSegment(input) <==> !SecretLike(once)
  {
    SanitizedIsNormal(input);
    NormalIsFixed(SanitizeUrnSegment(input).value);
  }

  lemma TwoDashesCollapse(b: string)
    requires NoPair(b, '-') && b != "" && b[0] != '-'
    ensures ReplaceRuns("--" + b, c => c == '-', '-') == "-" + b
  {
    var p := (c: char) => c == '-';
    CollapseNothing(b, '-');
    assert ("--" + b)[1..] == "-" + b && ("-" + b)[1..] == b;
    assert DropWhile("-" + b, p) == b;
  }

  lemma {:induction false} DoubledDashCollapses(a: string, b: string)
    requires NoPair(a, '-') && NoPair(b, '-') && (a != "" ==> a[|a| - 1] != '-') && b != "" && b[0] != '-'
    ensures ReplaceRuns(a + "--" + b, c => c == '-', '-') == a + "-" + b
    decreases |a|
  {
    var p := (c: char) => c == '-';
    var s := a + "--" + b;
    if a == "" {
      assert s == "--" + b;
      TwoDashesCollapse(b);
    } else {
      assert s[1..] == a[1..] + "--" + b;
      assert forall i :: 0 <= i < |a| - 1 ==> a[1..][i] == a[i + 1];
      DoubledDashCollapses(a[1..], b);
      assert a[0] == '-' ==> s[1] != '-';
      assert DropWhile(s[1..], p) == s[1..] || s[0] != '-';
      assert ReplaceRuns(s, p, '-') == [a[0]] + ReplaceRuns(s[1..], p, '-');
    }
  }

  lemma JoinedBySeparators(a: string, middle: string, b: string)
    requires Normal(a) && Normal(b) && (middle == "-" || middle == "--")
    ensures var s := a + middle + b;
      AllAllowed(s) && NoPair(s, '/') && (middle == "-" ==> NoPair(s, '-')) && !Edge(s[0]) && !Edge(s[|s| - 1])
  {
    var s := a + middle + b;
    assert forall i :: 0 <= i < |a| ==> s[i] == a[i];
    assert forall i :: 0 <= i < |middle| ==> s[|a| + i] == middle[i];
    assert forall i :: |a| + |middle| <= i < |s| ==> s[i] == b[i - |a| - |middle|];
  }

  lemma OnlyCollapses(s: string)
    requires AllAllowed(s)
    ensures ReplaceRuns(ReplaceRuns(BackslashesToDashes(s), c => Reserved(c), '-'), c => !Allowed(c), '-') == s
  {
    NoBackslashes(s);
    ReplaceRunsNothing(s, c => Reserved(c), '-');
    ReplaceRunsNothing(s, c => !Allowed(c), '-');
  }

  lemma CleanDoubledDash(a: string, b: string)
    requires Normal(a) && Normal(b)
    ensures Clean(a + "--" + b) == a + "-" + b
  {
    var s := a + "--" + b;
    var t := a + "-" + b;
    JoinedBySeparators(a, "--", b);
    JoinedBySeparators(a, "-", b);
    OnlyCollapses(s);
    DoubledDashCollapses(a, b);
    CollapseNothing(t, '/');
  }

  /** A doubled dash between two normal forms is sanitised to a single one. */
  lemma DoubledDash(a: string, b: string)
    requires Normal(a) && Normal(b) && !SecretLike(a + "--" + b)
    ensures SanitizeUrnSegment(a + "--" + b) == Ok(a + "-" + b)
  {
    var s := a + "--" + b;
    JoinedBySeparators(a, "--", b);
    TrimNothing(s);
    LowerNothing(s);
    CleanDoubledDash(a, b);
  }

  lemma NotContained(s: string, word: string, at: nat)
    requires at < |word| && word[at] !in s
    ensures !Contains(s, word)
  {
    forall i | 0 <= i <= |s| ensures !StartsWith(s[i..], word) {
      assert |word| <= |s| - i ==> s[i..][at] == s[i + at] && s[i + at] in s;
    }
  }

  /** A letter of the word that "api--key" does not have. */
  function OddLetter(k: nat): nat {
    if k == 1 || k == 4 || k == 14 then 0 else if k == 2 || k == 3 then 2 else if k == 6 then 3 else 1
  }

  lemma OddLettersAreOdd(k: nat)
    requires k < 15 && k != 5 && k != 7
    ensures OddLetter(k) < |SECRET_WORDS[k]| && SECRET_WORDS[k][OddLetter(k)] in "ubsctr_"
  {
  }

  /** The two words made of its letters only start with "api" and go on with "k" or with "-k". */
  lemma NotAcrossTwoDashes(twice: string, k: nat)
    requires twice == "api--key" && (k == 5 || k == 7)
    ensures !Contains(twice, SECRET_WORDS[k])
  {
    var w := SECRET_WORDS[k];
    forall i | 0 <= i <= |twice| ensures !StartsWith(twice[i..], w) {
      assert i > 0 && i < |twice| ==> twice[i..][0] != w[0];
      assert i == 0 ==> twice[i..][4] != w[4];
    }
  }

  lemma NoWordAcrossTwoDashes(twice: string, k: nat)
    requires twice == "api--key" && k < 15
    ensures !Contains(twice, SECRET_WORDS[k])
  {
    if k == 5 || k == 7 {
      NotAcrossTwoDashes(twice, k);
    } else {
      OddLettersAreOdd(k);
      NotContained(twice, SECRET_WORDS[k], OddLetter(k));
    }
  }

  /** "api" and "key" with two dashes between them hold none of the words; with one dash they are one. */
  lemma TwoDashesAreNotSecretLike(twice: string)
    requires twice == "api--key"
    ensures !SecretLike(twice)
  {
    LowerNothing(twice);
    forall k | 0 <= k < |SECRET_WORDS| ensures !Contains(Lower(twice), SECRET_WORDS[k]) {
      NoWordAcrossTwoDashes(twice, k);
    }
  }

  lemma OneDashIsSecretLike(once: string)
    requires once == "api-key"
    ensures SecretLike(once)
  {
    LowerNothing(once);
    assert once[0..] == SECRET_WORDS[7];
    assert Contains(Lower(once), SECRET_WORDS[7]);
  }

  lemma RejectedOnSecondPass(a: string, b: string)
    requires Normal(a) && Normal(b) && !SecretLike(a + "--" + b) && SecretLike(a + "-" + b)
    ensures SanitizeUrnSegment(a + "--" + b) == Ok(a + "-" + b)
    ensures SanitizeUrnSegment(a + "-" + b) == Err(SecretLikeSegment)
  {
    DoubledDash(a, b);
    SanitizedIsNormal(a + "--" + b);
    NormalIsFixed(a + "-" + b);
  }

  /** The program does not always accept its own output: "api--key" becomes "api-key",
      which it rejects. */
  lemma SanitizedCanBeRejected()
    ensures exists input, output ::
      SanitizeUrnSegment(input) == Ok(output) && SanitizeUrnSegment(output) == Err(SecretLikeSegment)
  {
    var a, b := "api", "key";
    assert Normal(a) && Normal(b);
    TwoDashesAreNotSecretLike(a + "--" + b);
    OneDashIsSecretLike(a + "-" + b);
    RejectedOnSecondPass(a, b);
  }
}
