/** Reading the counts out of a plan's text (packages/utils/src/terraform-plan-summary.ts). */
module PlanSummary {
  import opened Wrappers
  import opened Text

  datatype Counts = Counts(addCount: nat, changeCount: nat, destroyCount: nat)

  datatype Risk = LOW | HIGH

  datatype Safety = Safety(counts: Counts, riskLevel: Risk, applyEligible: bool, blockedReasons: seq<string>)

  // ----- The pattern Plan:\s*(\d+)\s+to add,\s*(\d+)\s+to change,\s*(\d+)\s+to destroy\.  (any case) -----

  /** The text after a word matched in any case. */
  function AfterWord(s: string, lowerWord: string): (rest: Option<string>)
    ensures rest.Some? ==> |lowerWord| + |rest.value| == |s|
  {
    if |lowerWord| <= |s| && Lower(s[..|lowerWord|]) == lowerWord then Some(s[|lowerWord|..]) else None
  }

  function DigitCount(s: string): (n: nat)
    ensures n <= |s| && forall c :: c in s[..n] ==> IsDigit(c)
    ensures n < |s| ==> !IsDigit(s[n])
  {
    if s == "" || !IsDigit(s[0]) then 0
    else
      var n := 1 + DigitCount(s[1..]);
      assert s[..n] == [s[0]] + s[1..][..n - 1];
      n
  }

  /** `\s*(\d+)` at the front: the number and the text after it. */
  function Number(s: string): Option<(nat, string)> {
    var t := TrimLeft(s);
    var n := DigitCount(t);
    if n == 0 then None else Some((ParseDecimal(t[..n]), t[n..]))
  }

  /** `\s+word` at the front: the text after the word. */
  function SpacedWord(s: string, lowerWord: string): Option<string> {
    if s != "" && IsSpace(s[0]) then AfterWord(TrimLeft(s), lowerWord) else None
  }

  function NumberThen(s: string, lowerWord: string): Option<(nat, string)> {
    match Number(s)
    case None => None
    case Some((n, s1)) =>
      match SpacedWord(s1, lowerWord)
      case None => None
      case Some(rest) => Some((n, rest))
  }

  function MatchHere(s: string): Option<Counts> {
    match AfterWord(s, "plan:")
    case None => None
    case Some(s1) => MatchAdd(s1)
  }

  function MatchAdd(s: string): Option<Counts> {
    match NumberThen(s, "to add,")
    case None => None
    case Some((add, s1)) => MatchChange(add, s1)
  }

  function MatchChange(add: nat, s: string): Option<Counts> {
    match NumberThen(s, "to change,")
    case None => None
    case Some((change, s1)) => MatchDestroy(add, change, s1)
  }

  function MatchDestroy(add: nat, change: nat, s: string): Option<Counts> {
    match NumberThen(s, "to destroy.")
    case None => None
    case Some((destroy, _)) => Some(Counts(add, change, destroy))
  }

  /** The leftmost match. */
  function FirstMatch(s: string): Option<Counts> {
    if MatchHere(s).Some? then MatchHere(s)
    else if s == "" then None
    else FirstMatch(s[1..])
  }

  function ParseTerraformPlanCounts(output: string): Counts {
    match FirstMatch(output)
    case Some(counts) => counts
    case None => Counts(0, 0, 0)
  }

  function SummarizeTerraformPlanSafety(output: string): (s: Safety)
    ensures s.applyEligible <==> s.riskLevel == LOW
    ensures s.applyEligible <==> s.counts.destroyCount == 0
    ensures s.applyEligible <==> s.blockedReasons == []
  {
    var counts := ParseTerraformPlanCounts(output);
    Safety(
      counts,
      if counts.destroyCount > 0 then HIGH else LOW,
      counts.destroyCount == 0,
      if counts.destroyCount > 0 then
        ["Terraform plan includes destroy actions. Apply eligibility is blocked."] else [])
  }

  // ----- What the counts mean -------------------------------------------------

  /** ` n word` followed by more text. */
  function Phrase(n: nat, word: string, rest: string): string {
    " " + (Decimal(n) + (" " + (word + rest)))
  }

  /** The text after "Plan:" in the summary line, followed by more text. */
  function PlanTail(c: Counts, after: string): string {
    Phrase(c.addCount, "to add,", Phrase(c.changeCount, "to change,", Phrase(c.destroyCount, "to destroy.", after)))
  }

  lemma {:induction false} DigitCountOf(d: string, rest: string)
    requires (forall c :: c in d ==> IsDigit(c)) && (rest != "" ==> !IsDigit(rest[0]))
    ensures DigitCount(d + rest) == |d|
  {
    if d == "" {
      assert d + rest == rest;
    } else {
      assert (d + rest)[1..] == d[1..] + rest;
      DigitCountOf(d[1..], rest);
    }
  }

  lemma NumberPrinted(n: nat, rest: string)
    requires rest != "" && !IsDigit(rest[0])
    ensures Number(" " + (Decimal(n) + rest)) == Some((n, rest))
  {
    var t := Decimal(n) + rest;
    assert t[0] in Decimal(n) && IsDigit(t[0]);
    TrimLeftSpace(t);
    DigitCountOf(Decimal(n), rest);
    assert t[|Decimal(n)|..] == rest && t[..|Decimal(n)|] == Decimal(n);
    ParseDecimalPrinted(n);
  }

  predicate LowerWord(word: string) {
    word != "" && !IsSpace(word[0]) && forall c :: c in word ==> LowerChar(c) == c
  }

  lemma WordPrinted(word: string, rest: string)
    requires LowerWord(word)
    ensures SpacedWord(" " + (word + rest), word) == Some(rest)
  {
    var t := word + rest;
    TrimLeftSpace(t);
    LowerNothing(word);
    assert t[..|word|] == word && t[|word|..] == rest;
  }

  /** A printed number and word are read back. */
  lemma PhraseIsRead(n: nat, word: string, rest: string)
    requires LowerWord(word)
    ensures NumberThen(Phrase(n, word, rest), word) == Some((n, rest))
  {
    NumberPrinted(n, " " + (word + rest));
    WordPrinted(word, rest);
  }

  lemma ThePatternsWords()
    ensures LowerWord("to add,") && LowerWord("to change,") && LowerWord("to destroy.")
    ensures Lower("Plan:") == "plan:"
  {
  }

  lemma MatchPlanTail(c: Counts, after: string)
    ensures MatchAdd(PlanTail(c, after)) == Some(c)
  {
    ThePatternsWords();
    var destroy := Phrase(c.destroyCount, "to destroy.", after);
    var change := Phrase(c.changeCount, "to change,", destroy);
    PhraseIsRead(c.addCount, "to add,", change);
    PhraseIsRead(c.changeCount, "to change,", destroy);
    PhraseIsRead(c.destroyCount, "to destroy.", after);
  }

  lemma MatchPlanLine(c: Counts, after: string)
    ensures MatchHere("Plan:" + PlanTail(c, after)) == Some(c)
  {
    var s := "Plan:" + PlanTail(c, after);
    assert s[..5] == "Plan:" && s[5..] == PlanTail(c, after);
    ThePatternsWords();
    MatchPlanTail(c, after);
  }

  ghost predicate NoMatchBefore(s: string, end: nat) {
    forall i :: 0 <= i < end <= |s| ==> AfterWord(s[i..], "plan:") == None
  }

  lemma {:induction false} FirstMatchAfter(s: string, start: nat)
    requires start <= |s| && NoMatchBefore(s, start)
    ensures FirstMatch(s) == FirstMatch(s[start..])
  {
    if start > 0 {
      assert s[0..] == s;
      forall i | 0 <= i < start - 1 ensures AfterWord(s[1..][i..], "plan:") == None {
        assert s[1..][i..] == s[i + 1..];
      }
      FirstMatchAfter(s[1..], start - 1);
      assert s[1..][start - 1..] == s[start..];
    } else {
      assert s[0..] == s;
    }
  }

  /** The summary line is read back exactly, whatever surrounds it, when the text before it
      does not hold the word "plan:". */
  lemma PlanLineIsRead(before: string, c: Counts, after: string)
    requires NoMatchBefore(before + ("Plan:" + PlanTail(c, after)), |before|)
    ensures ParseTerraformPlanCounts(before + ("Plan:" + PlanTail(c, after))) == c
  {
    var line := "Plan:" + PlanTail(c, after);
    FirstMatchAfter(before + line, |before|);
    assert (before + line)[|before|..] == line;
    MatchPlanLine(c, after);
  }

  // ----- Plans that also import -----------------------------------------------

  /** The summary line, with the clause that a plan with imports puts first, and the text after it. */
  function PlanLine(imports: Option<nat>, c: Counts, after: string): string {
    "Plan:" + match imports
              case None => PlanTail(c, after)
              case Some(n) => Phrase(n, "to import,", PlanTail(c, after))
  }

  /** The text holds the word "plan:" nowhere else, in any case. */
  ghost predicate OnlyAt(s: string, at: nat) {
    forall i :: 0 <= i <= |s| && i != at ==> AfterWord(s[i..], "plan:") == None
  }

  lemma {:induction false} NowhereNoMatch(s: string)
    requires forall i :: 0 <= i <= |s| ==> AfterWord(s[i..], "plan:") == None
    ensures FirstMatch(s) == None
  {
    assert s[0..] == s;
    if s != "" {
      forall i | 0 <= i <= |s| - 1 ensures AfterWord(s[1..][i..], "plan:") == None {
        assert s[1..][i..] == s[i + 1..];
      }
      NowhereNoMatch(s[1..]);
    }
  }

  lemma OneChance(s: string, at: nat)
    requires at < |s| && OnlyAt(s, at)
    ensures FirstMatch(s) == MatchHere(s[at..])
  {
    FirstMatchAfter(s, at);
    var rest := s[at..][1..];
    forall i | 0 <= i <= |rest| ensures AfterWord(rest[i..], "plan:") == None {
      assert rest[i..] == s[at + 1 + i..];
    }
    NowhereNoMatch(rest);
  }

  lemma ImportPhraseIsNotAdd(imports: nat, rest: string)
    ensures MatchAdd(Phrase(imports, "to import,", rest)) == None
  {
    var word := "to import," + rest;
    NumberPrinted(imports, " " + word);
    TrimLeftSpace(word);
    assert Lower(word[..7])[3] == LowerChar(word[3]) == 'i';
  }

  lemma MatchImportLine(imports: nat, c: Counts, after: string)
    ensures MatchHere(PlanLine(Some(imports), c, after)) == None
  {
    var rest := Phrase(imports, "to import,", PlanTail(c, after));
    var s := PlanLine(Some(imports), c, after);
    assert s[..5] == "Plan:" && s[5..] == rest;
    ThePatternsWords();
    ImportPhraseIsNotAdd(imports, PlanTail(c, after));
  }

  /** A plan that also imports resources is not recognised, whatever surrounds its summary line: it is reported as
      changing nothing and as eligible for apply, however many resources it destroys. */
  lemma ImportPlansReadAsEmpty(before: string, imports: nat, c: Counts, after: string)
    requires OnlyAt(before + PlanLine(Some(imports), c, after), |before|)
    ensures var text := before + PlanLine(Some(imports), c, after);
      ParseTerraformPlanCounts(text) == Counts(0, 0, 0) && SummarizeTerraformPlanSafety(text).applyEligible
  {
    var line := PlanLine(Some(imports), c, after);
    OneChance(before + line, |before|);
    assert (before + line)[|before|..] == line;
    MatchImportLine(imports, c, after);
  }

  /** The counts of the summary line are read back exactly when it has no import clause, or nothing to lose. */
  lemma ReadBackExactly(before: string, imports: Option<nat>, c: Counts, after: string)
    requires OnlyAt(before + PlanLine(imports, c, after), |before|)
    ensures ParseTerraformPlanCounts(before + PlanLine(imports, c, after)) == c <==>
      imports.None? || c == Counts(0, 0, 0)
  {
    match imports
    case None => PlanLineIsRead(before, c, after);
    case Some(n) => ImportPlansReadAsEmpty(before, n, c, after);
  }
}
