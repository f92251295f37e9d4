/** The pattern of a plan's summary line, said declaratively (packages/utils/src/terraform-plan-summary.ts):
    `Plan:\s*(\d+)\s+to add,\s*(\d+)\s+to change,\s*(\d+)\s+to destroy\.` in any case. */
module PlanPattern {
  import opened Wrappers
  import opened Text
  import opened PlanSummary

  ghost predicate Spaces(s: string) {
    forall i :: 0 <= i < |s| ==> IsSpace(s[i])
  }

  ghost predicate Digits(s: string) {
    s != "" && forall c :: c in s ==> '0' <= c <= '9'
  }

  /** `\s*(\d+)\s+word` and the text after it. */
  ghost predicate Clause(s: string, n: nat, word: string, rest: string) {
    exists w, d, v, q :: Pieces(s, n, word, rest, w, d, v, q)
  }

  ghost predicate Pieces(
    s: string, n: nat, word: string, rest: string, w: string, d: string, v: string, q: string)
  {
    && s == w + (d + (v + (q + rest)))
    && Spaces(w) && Digits(d) && ParseDecimal(d) == n && Spaces(v) && v != "" && Lower(q) == word
  }

  /** A match at the front of a text. */
  ghost predicate Line(s: string, c: Counts) {
    exists p, s1, s2, s3, rest :: LineParts(s, c, p, s1, s2, s3, rest)
  }

  ghost predicate LineParts(
    s: string, c: Counts, p: string, s1: string, s2: string, s3: string, rest: string)
  {
    && s == p + s1 && Lower(p) == "plan:"
    && Clause(s1, c.addCount, "to add,", s2)
    && Clause(s2, c.changeCount, "to change,", s3)
    && Clause(s3, c.destroyCount, "to destroy.", rest)
  }

  // ----- A clause -------------------------------------------------------------

  lemma OneMoreSpace(c: char, s: string)
    requires IsSpace(c) && Spaces(s)
    ensures Spaces([c] + s)
  {
  }

  lemma {:induction false} TrimLeftParts(s: string)
    ensures var t := TrimLeft(s);
      |t| <= |s| && s == s[..|s| - |t|] + t && Spaces(s[..|s| - |t|]) && (t != "" ==> !IsSpace(t[0]))
  {
    if s != "" && IsSpace(s[0]) {
      TrimLeftParts(s[1..]);
      var n := |s| - |TrimLeft(s)|;
      OneMoreSpace(s[0], s[1..][..n - 1]);
      assert s[..n] == [s[0]] + s[1..][..n - 1];
    }
  }

  lemma {:induction false} TrimLeftOf(w: string, t: string)
    requires Spaces(w) && t != "" && !IsSpace(t[0])
    ensures TrimLeft(w + t) == t
  {
    if w == "" {
      assert w + t == t;
    } else {
      assert (w + t)[1..] == w[1..] + t;
      TrimLeftOf(w[1..], t);
    }
  }

  lemma ClauseIsRead(s: string, n: nat, word: string, rest: string, w: string, d: string, v: string, q: string)
    requires word != "" && 'a' <= word[0] <= 'z' && Pieces(s, n, word, rest, w, d, v, q)
    ensures NumberThen(s, word) == Some((n, rest))
  {
    var s1 := v + (q + rest);
    assert d[0] in d;
    TrimLeftOf(w, d + s1);
    assert s1[0] == v[0] && IsSpace(v[0]);
    DigitCountOf(d, s1);
    assert (d + s1)[..|d|] == d && (d + s1)[|d|..] == s1;
    assert LowerChar(q[0]) == word[0];
    TrimLeftOf(v, q + rest);
    assert (q + rest)[..|word|] == q && (q + rest)[|word|..] == rest;
  }

  lemma SpacedParts(s: string, word: string, rest: string) returns (v: string, q: string)
    requires SpacedWord(s, word) == Some(rest)
    ensures s == v + (q + rest) && Spaces(v) && v != "" && Lower(q) == word
  {
    var u := TrimLeft(s);
    TrimLeftParts(s);
    v, q := s[..|s| - |u|], u[..|word|];
    assert u == q + rest;
    assert v == "" ==> s == u;
  }

  lemma NumberParts(s: string, n: nat, rest: string) returns (w: string, d: string)
    requires Number(s) == Some((n, rest))
    ensures s == w + (d + rest) && Spaces(w) && Digits(d) && ParseDecimal(d) == n
  {
    var t := TrimLeft(s);
    TrimLeftParts(s);
    w, d := s[..|s| - |t|], t[..DigitCount(t)];
    assert t == d + rest;
  }

  lemma ReadIsClause(s: string, n: nat, word: string, rest: string)
    requires NumberThen(s, word) == Some((n, rest))
    ensures Clause(s, n, word, rest)
  {
    var s1 := Number(s).value.1;
    var w, d := NumberParts(s, n, s1);
    var v, q := SpacedParts(s1, word, rest);
    assert Pieces(s, n, word, rest, w, d, v, q);
  }

  lemma ClauseExactly(s: string, n: nat, word: string, rest: string)
    requires word != "" && 'a' <= word[0] <= 'z'
    ensures NumberThen(s, word) == Some((n, rest)) <==> Clause(s, n, word, rest)
  {
    if NumberThen(s, word) == Some((n, rest)) {
      ReadIsClause(s, n, word, rest);
    }
    if Clause(s, n, word, rest) {
      var w, d, v, q :| Pieces(s, n, word, rest, w, d, v, q);
      ClauseIsRead(s, n, word, rest, w, d, v, q);
    }
  }

  // ----- The line -------------------------------------------------------------

  lemma LineIsRead(s: string, c: Counts)
    requires Line(s, c)
    ensures MatchHere(s) == Some(c)
  {
    var p, s1, s2, s3, rest :| LineParts(s, c, p, s1, s2, s3, rest);
    ClauseExactly(s1, c.addCount, "to add,", s2);
    ClauseExactly(s2, c.changeCount, "to change,", s3);
    ClauseExactly(s3, c.destroyCount, "to destroy.", rest);
    assert s[..5] == p && s[5..] == s1;
  }

  lemma LineNumbers(s: string, c: Counts) returns (s2: string, s3: string, rest: string)
    requires MatchAdd(s) == Some(c)
    ensures NumberThen(s, "to add,") == Some((c.addCount, s2))
    ensures NumberThen(s2, "to change,") == Some((c.changeCount, s3))
    ensures NumberThen(s3, "to destroy.") == Some((c.destroyCount, rest))
  {
    s2 := NumberThen(s, "to add,").value.1;
    s3 := NumberThen(s2, "to change,").value.1;
    rest := NumberThen(s3, "to destroy.").value.1;
  }

  lemma ReadIsLine(s: string, c: Counts)
    requires MatchHere(s) == Some(c)
    ensures Line(s, c)
  {
    var s1 := s[5..];
    var s2, s3, rest := LineNumbers(s1, c);
    ReadIsClause(s1, c.addCount, "to add,", s2);
    ReadIsClause(s2, c.changeCount, "to change,", s3);
    ReadIsClause(s3, c.destroyCount, "to destroy.", rest);
    assert s == s[..5] + s1;
    assert LineParts(s, c, s[..5], s1, s2, s3, rest);
  }

  lemma LineExactly(s: string, c: Counts)
    ensures MatchHere(s) == Some(c) <==> Line(s, c)
  {
    if MatchHere(s) == Some(c) {
      ReadIsLine(s, c);
    }
    if Line(s, c) {
      LineIsRead(s, c);
    }
  }

  // ----- The whole text -------------------------------------------------------

  ghost predicate NoLine(s: string) {
    forall c :: !Line(s, c)
  }

  /** The leftmost match, at a position. */
  ghost predicate FirstAt(s: string, i: nat, c: Counts) {
    i <= |s| && Line(s[i..], c) && forall j :: 0 <= j < i ==> NoLine(s[j..])
  }

  lemma NothingHere(s: string)
    ensures MatchHere(s) == None <==> NoLine(s)
  {
    forall c ensures MatchHere(s) == Some(c) <==> Line(s, c) {
      LineExactly(s, c);
    }
    if MatchHere(s).Some? {
      assert Line(s, MatchHere(s).value);
    }
  }

  lemma FirstLater(s: string, i: nat, c: Counts)
    requires s != ""
    ensures FirstAt(s, i + 1, c) <==> NoLine(s) && FirstAt(s[1..], i, c)
  {
    assert s[0..] == s && (i < |s| ==> s[1..][i..] == s[i + 1..]);
    if FirstAt(s, i + 1, c) {
      forall j | 0 <= j < i ensures NoLine(s[1..][j..]) {
        assert s[1..][j..] == s[j + 1..];
      }
    }
    if NoLine(s) && FirstAt(s[1..], i, c) {
      forall j | 0 <= j < i + 1 ensures NoLine(s[j..]) {
        assert j > 0 ==> s[1..][j - 1..] == s[j..];
      }
    }
  }

  lemma {:induction false} FoundIsFirst(s: string, c: Counts) returns (i: nat)
    requires FirstMatch(s) == Some(c)
    ensures FirstAt(s, i, c)
  {
    assert s[0..] == s;
    NothingHere(s);
    LineExactly(s, c);
    i := 0;
    if MatchHere(s) == None {
      var j := FoundIsFirst(s[1..], c);
      FirstLater(s, j, c);
      i := j + 1;
    }
  }

  lemma {:induction false} FirstIsFound(s: string, i: nat, c: Counts)
    requires FirstAt(s, i, c)
    ensures FirstMatch(s) == Some(c)
  {
    assert s[0..] == s;
    NothingHere(s);
    LineExactly(s, c);
    if i > 0 {
      FirstLater(s, i - 1, c);
      FirstIsFound(s[1..], i - 1, c);
    }
  }

  /** The counts are those of the leftmost summary line, wherever it stands and whatever is around it; without one they
      are zero. */
  lemma CountsExactly(text: string, c: Counts)
    ensures (exists i :: FirstAt(text, i, c)) ==> ParseTerraformPlanCounts(text) == c
    ensures (forall i, d :: !FirstAt(text, i, d)) ==> ParseTerraformPlanCounts(text) == Counts(0, 0, 0)
  {
    if i :| FirstAt(text, i, c) {
      FirstIsFound(text, i, c);
    }
    if FirstMatch(text).Some? {
      var i := FoundIsFirst(text, FirstMatch(text).value);
    }
  }
}
