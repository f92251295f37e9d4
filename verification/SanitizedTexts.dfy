/** Which texts the segment normaliser puts out (packages/utils/src/resource-urn.ts): the normal forms that hold no
    secret-like word but perhaps one with a dash. A dash can be put in by the normaliser, after its check. */
module SanitizedTexts {
  import opened Wrappers
  import opened Text
  import opened ResourceUrn

  /** The words that only a dash can complete: "api-key", "access-key", "private-key". */
  predicate Dashed(word: string) {
    '-' in word
  }

  ghost predicate HoldsPlainWord(s: string) {
    exists k :: 0 <= k < |SECRET_WORDS| && !Dashed(SECRET_WORDS[k]) && Contains(s, SECRET_WORDS[k])
  }

  ghost predicate Possible(s: string) {
    Normal(s) && !HoldsPlainWord(s)
  }

  lemma WordIsLong(k: nat)
    requires k < |SECRET_WORDS|
    ensures |SECRET_WORDS[k]| >= 5
    ensures |SECRET_WORDS[k]| == 5 ==> SECRET_WORDS[k][0] == 't'
    ensures 'a' <= SECRET_WORDS[k][0] <= 'z'
  {
  }

  lemma WordHasNoSlashOrColon(k: nat)
    requires k < |SECRET_WORDS|
    ensures '/' !in SECRET_WORDS[k] && ':' !in SECRET_WORDS[k]
  {
  }

  // ----- No word appears on the way -------------------------------------------

  lemma ContainsWithin(s: string, lo: nat, hi: nat, word: string)
    requires lo <= hi <= |s| && Contains(s[lo..hi], word)
    ensures Contains(s, word)
  {
    var i :| 0 <= i <= hi - lo && StartsWith(s[lo..hi][i..], word);
    assert s[lo..hi][i..] == s[lo + i..hi];
    assert s[lo + i..hi][..|word|] == s[lo + i..][..|word|];
    assert StartsWith(s[lo + i..], word);
  }

  lemma {:induction false} PrefixWasThere(s: string, p: char -> bool, c: char, word: string)
    requires StartsWith(ReplaceRuns(s, p, c), word) && c !in word
    ensures StartsWith(s, word)
    decreases |s|
  {
    if word != "" {
      var t := ReplaceRuns(s, p, c);
      assert t[0] == word[0] && word[0] in word;
      assert t[1..] == ReplaceRuns(s[1..], p, c);
      assert t[1..][..|word| - 1] == t[..|word|][1..] == word[1..];
      PrefixWasThere(s[1..], p, c, word[1..]);
      assert s[..|word|] == [s[0]] + s[1..][..|word| - 1];
    }
  }

  /** Replacing runs makes no word without the replacing character. */
  lemma {:induction false} WordWasThere(s: string, p: char -> bool, c: char, word: string)
    requires Contains(ReplaceRuns(s, p, c), word) && c !in word
    ensures Contains(s, word)
    decreases |s|
  {
    var t := ReplaceRuns(s, p, c);
    var i :| 0 <= i <= |t| && StartsWith(t[i..], word);
    if i == 0 {
      assert t[0..] == t;
      PrefixWasThere(s, p, c, word);
      assert s[0..] == s;
    } else {
      var rest := if p(s[0]) then DropWhile(s[1..], p) else s[1..];
      DropWhileIsSuffix(s[1..], p);
      assert rest == s[|s| - |rest|..|s|];
      assert t[1..] == ReplaceRuns(rest, p, c) && t[1..][i - 1..] == t[i..];
      WordWasThere(rest, p, c, word);
      ContainsWithin(s, |s| - |rest|, |s|, word);
    }
  }

  lemma {:induction false} BackslashAt(s: string, i: nat)
    requires i < |s|
    ensures |BackslashesToDashes(s)| == |s| && BackslashesToDashes(s)[i] == if s[i] == '\\' then '-' else s[i]
  {
    if |s| > 1 {
      BackslashAt(s[1..], if i == 0 then 0 else i - 1);
    }
  }

  /** Texts that agree wherever the second holds a letter of the word hold it at the same places. */
  lemma SamePlaces(s: string, t: string, word: string)
    requires |s| == |t| && forall i :: 0 <= i < |s| ==> s[i] == t[i] || t[i] !in word
    requires Contains(t, word)
    ensures Contains(s, word)
  {
    var i :| 0 <= i <= |t| && StartsWith(t[i..], word);
    forall j | 0 <= j < |word| ensures s[i..][j] == word[j] {
      assert t[i..][j] == word[j] && t[i + j] == t[i..][j];
    }
    assert s[i..][..|word|] == word;
  }

  lemma BackslashesMakeNoWord(s: string, word: string)
    requires Contains(BackslashesToDashes(s), word) && '-' !in word
    ensures Contains(s, word)
  {
    var t := BackslashesToDashes(s);
    if s == "" {
    } else {
      BackslashAt(s, 0);
      forall i | 0 <= i < |s| ensures s[i] == t[i] || t[i] !in word {
        BackslashAt(s, i);
      }
      SamePlaces(s, t, word);
    }
  }

  lemma StrippedIsPart(s: string) returns (lo: nat, hi: nat)
    ensures lo <= hi <= |s| && StripRight(DropWhile(s, c => Edge(c))) == s[lo..hi]
  {
    var left := DropWhile(s, c => Edge(c));
    DropWhileIsSuffix(s, c => Edge(c));
    StripRightIsPrefix(left);
    lo := |s| - |left|;
    hi := lo + |StripRight(left)|;
  }

  lemma StrippedMakesNoWord(s: string, word: string)
    requires Contains(StripRight(DropWhile(s, c => Edge(c))), word)
    ensures Contains(s, word)
  {
    var lo, hi := StrippedIsPart(s);
    ContainsWithin(s, lo, hi, word);
  }

  lemma CleanMakesNoWord(lowered: string, word: string)
    requires Contains(Clean(lowered), word) && '-' !in word && '/' !in word
    ensures Contains(lowered, word)
  {
    var s1 := BackslashesToDashes(lowered);
    var s2 := ReplaceRuns(s1, c => Reserved(c), '-');
    var s3 := ReplaceRuns(s2, c => !Allowed(c), '-');
    var s4 := ReplaceRuns(s3, c => c == '-', '-');
    var s5 := ReplaceRuns(s4, c => c == '/', '/');
    StrippedMakesNoWord(s5, word);
    WordWasThere(s4, c => c == '/', '/', word);
    WordWasThere(s3, c => c == '-', '-', word);
    WordWasThere(s2, c => !Allowed(c), '-', word);
    WordWasThere(s1, c => Reserved(c), '-', word);
    BackslashesMakeNoWord(lowered, word);
  }

  lemma SanitizedIsPossible(input: string)
    requires SanitizeUrnSegment(input).Ok?
    ensures Possible(SanitizeUrnSegment(input).value)
  {
    SanitizedIsNormal(input);
    forall k | 0 <= k < |SECRET_WORDS| && !Dashed(SECRET_WORDS[k])
      ensures !Contains(SanitizeUrnSegment(input).value, SECRET_WORDS[k])
    {
      WordHasNoSlashOrColon(k);
      if Contains(Clean(Lower(Trim(input))), SECRET_WORDS[k]) {
        CleanMakesNoWord(Lower(Trim(input)), SECRET_WORDS[k]);
      }
    }
  }

  // ----- Every such text comes out --------------------------------------------

  /** The text with colons for its dashes: the normaliser puts the dashes back. */
  function Colons(s: string): (t: string)
    ensures |t| == |s| && forall i :: 0 <= i < |s| ==> t[i] == if s[i] == '-' then ':' else s[i]
  {
    seq(|s|, i requires 0 <= i < |s| => if s[i] == '-' then ':' else s[i])
  }

  lemma {:induction false} ColonsBecomeDashes(s: string)
    requires AllAllowed(s) && NoPair(s, '-')
    ensures ReplaceRuns(Colons(s), c => Reserved(c), '-') == s
    decreases |s|
  {
    var p := (c: char) => Reserved(c);
    if s != "" {
      assert Colons(s)[1..] == Colons(s[1..]);
      assert forall i :: 0 <= i < |s| - 1 ==> s[1..][i] == s[i + 1];
      ColonsBecomeDashes(s[1..]);
      if s[0] == '-' {
        assert s[1..] != "" ==> !p(Colons(s[1..])[0]);
        assert DropWhile(Colons(s)[1..], p) == Colons(s[1..]);
      }
      assert [s[0]] + s[1..] == s;
    }
  }

  lemma {:induction false} NoBackslashAnywhere(s: string)
    requires '\\' !in s
    ensures BackslashesToDashes(s) == s
  {
    if s != "" {
      NoBackslashAnywhere(s[1..]);
    }
  }

  lemma ColonsAreCleaned(s: string)
    requires Normal(s)
    ensures Clean(Colons(s)) == s
  {
    NoBackslashAnywhere(Colons(s));
    ColonsBecomeDashes(s);
    ReplaceRunsNothing(s, c => !Allowed(c), '-');
    CollapseNothing(s, '-');
    CollapseNothing(s, '/');
  }

  lemma ColonsAreNotSecretLike(s: string)
    requires Possible(s)
    ensures Lower(Colons(s)) == Colons(s) && !SecretLike(Colons(s))
  {
    LowerNothing(Colons(s));
    forall k | 0 <= k < |SECRET_WORDS| ensures !Contains(Colons(s), SECRET_WORDS[k]) {
      var word := SECRET_WORDS[k];
      WordHasNoSlashOrColon(k);
      if Dashed(word) {
        var at :| 0 <= at < |word| && word[at] == '-';
        NotContained(Colons(s), word, at);
      } else if Contains(Colons(s), word) {
        SamePlaces(s, Colons(s), word);
      }
    }
  }

  /** What is possible comes out of some input. */
  lemma ColonsAreSanitized(s: string)
    requires Possible(s)
    ensures SanitizeUrnSegment(Colons(s)) == Ok(s)
  {
    ColonsAreNotSecretLike(s);
    TrimNothing(Colons(s));
    ColonsAreCleaned(s);
  }

  /** The outputs of the normaliser are exactly the normal forms that hold no secret-like word without a dash. */
  lemma SanitizedExactly(s: string)
    ensures (exists input :: SanitizeUrnSegment(input) == Ok(s)) <==> Normal(s) && !HoldsPlainWord(s)
  {
    if Possible(s) {
      ColonsAreSanitized(s);
    }
    forall input | SanitizeUrnSegment(input) == Ok(s) ensures Possible(s) {
      SanitizedIsPossible(input);
    }
  }

  // ----- Texts joined by a slash ----------------------------------------------

  lemma WordOnOneSide(a: string, b: string, word: string)
    requires Contains(a + "/" + b, word) && '/' !in word && word != ""
    ensures Contains(a, word) || Contains(b, word)
  {
    var s := a + "/" + b;
    var i :| 0 <= i <= |s| && StartsWith(s[i..], word);
    assert forall j :: 0 <= j < |word| ==> s[i + j] == s[i..][j] == word[j] && word[j] in word;
    assert s[|a|] == '/';
    if i <= |a| {
      assert i + |word| <= |a|;
      assert a[i..][..|word|] == s[i..][..|word|];
      assert StartsWith(a[i..], word);
    } else {
      assert b[i - |a| - 1..] == s[i..];
    }
  }

  lemma SlashedIsPossible(a: string, b: string)
    requires Normal(a + "/" + b) && !HoldsPlainWord(a) && !HoldsPlainWord(b)
    ensures Possible(a + "/" + b)
  {
    forall k | 0 <= k < |SECRET_WORDS| && !Dashed(SECRET_WORDS[k]) ensures !Contains(a + "/" + b, SECRET_WORDS[k]) {
      WordHasNoSlashOrColon(k);
      WordIsLong(k);
      if Contains(a + "/" + b, SECRET_WORDS[k]) {
        WordOnOneSide(a, b, SECRET_WORDS[k]);
      }
    }
  }

  lemma TooShortForAWord(s: string)
    requires s == "build"
    ensures !HoldsPlainWord(s)
  {
    forall k | 0 <= k < |SECRET_WORDS| ensures !Contains(s, SECRET_WORDS[k]) {
      WordIsLong(k);
      forall i | 0 <= i <= |s| ensures !StartsWith(s[i..], SECRET_WORDS[k]) {
        assert i == 0 ==> s[i..][0] == 'b';
      }
    }
  }

  lemma PartHoldsNoWord(s: string, lo: nat)
    requires lo <= |s| && !HoldsPlainWord(s)
    ensures !HoldsPlainWord(s[lo..])
  {
  }
}
