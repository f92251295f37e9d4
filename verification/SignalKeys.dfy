/** Signal fingerprints (apps/api/src/modules/signals/signal.service.ts). The digest is taken to be
    injective, so a fingerprint is its text here. */
module SignalFingerprints {
  import opened Wrappers
  import opened Text

  datatype Mode = DEDUPE | EVENT

  /** What a fingerprint is made of. A metadata entry is None when it is missing or falsy
      (`buildNumber`, `eventId`) or not a string (`resourceIdentity`, `condition`). */
  datatype SignalInput = SignalInput(
    source: string, kind: string, severity: string, title: string,
    resourceNodeId: Option<string>, operationId: Option<string>, deploymentId: Option<string>,
    buildNumber: Option<string>, eventId: Option<string>,
    resourceIdentity: Option<string>, condition: Option<string>)

  function OrElse(value: Option<string>, fallback: string): string {
    match value
    case None => fallback
    case Some(s) => s
  }

  predicate Truthy(value: Option<string>) {
    value.Some? && value.value != ""
  }

  /** A metadata string counts when it is not blank; it is used untrimmed. */
  function MetadataString(value: Option<string>): Option<string> {
    if value.Some? && Trim(value.value) != "" then value else None
  }

  function Prefix(s: string, n: nat): string {
    if |s| <= n then s else s[..n]
  }

  function DedupeParts(org: string, i: SignalInput): seq<string> {
    [org, i.source, i.kind, OrElse(i.resourceNodeId, "none"), i.severity,
     OrElse(MetadataString(i.resourceIdentity), "no-resource-identity"),
     OrElse(MetadataString(i.condition), Prefix(i.title, 100))]
  }

  /** An event with no id of its own is told apart by the second it was observed in. */
  function EventParts(org: string, i: SignalInput, observedAtMs: nat): seq<string> {
    [org, i.source, i.kind, OrElse(i.resourceNodeId, "none"),
     OrElse(i.operationId, "no-op"), OrElse(i.deploymentId, "no-deploy"),
     OrElse(i.buildNumber, "no-build"), OrElse(i.eventId, "no-event")]
    + if !Truthy(i.operationId) && !Truthy(i.deploymentId) && i.buildNumber.None? && i.eventId.None?
      then [Decimal(observedAtMs / 1000)] else []
  }

  function Parts(org: string, i: SignalInput, mode: Mode, observedAtMs: nat): seq<string> {
    if mode.EVENT? then EventParts(org, i, observedAtMs) else DedupeParts(org, i)
  }

  function Fingerprint(org: string, i: SignalInput, mode: Mode, observedAtMs: nat): string {
    Join(Parts(org, i, mode, observedAtMs), '|')
  }

  // ----- The texts ------------------------------------------------------------

  lemma JoinFirst(first: string, rest: seq<string>)
    requires rest != []
    ensures Join([first] + rest, '|') == first + "|" + Join(rest, '|')
  {
    assert ([first] + rest)[1..] == rest;
  }

  lemma JoinFour(a: string, b: string, c: string, d: string)
    ensures Join([a, b, c, d], '|') == a + "|" + b + "|" + c + "|" + d
  {
    JoinFirst(c, [d]);
    JoinFirst(b, [c, d]);
    JoinFirst(a, [b, c, d]);
    assert [c] + [d] == [c, d] && [b] + [c, d] == [b, c, d] && [a] + [b, c, d] == [a, b, c, d];
  }

  lemma JoinAfterThree(a: string, b: string, c: string, rest: seq<string>)
    requires rest != []
    ensures Join([a, b, c] + rest, '|') == a + "|" + b + "|" + c + "|" + Join(rest, '|')
  {
    JoinFirst(c, rest);
    JoinFirst(b, [c] + rest);
    JoinFirst(a, [b] + ([c] + rest));
    assert [a] + ([b] + ([c] + rest)) == [a, b, c] + rest;
  }

  lemma JoinEnd(a: string, b: string, more: seq<string>)
    requires |more| <= 1
    ensures Join([a, b] + more, '|') == a + "|" + b + if more == [] then "" else "|" + more[0]
  {
    if more != [] {
      JoinFirst(b, more);
      assert more == [more[0]];
    }
    JoinFirst(a, [b] + more);
    assert [a] + ([b] + more) == [a, b] + more;
  }

  /** The text of a deduplicated signal: whose it is, where it comes from, and what goes on. */
  lemma DedupeText(org: string, i: SignalInput, at: nat)
    ensures
      var node := if i.resourceNodeId.Some? then i.resourceNodeId.value else "none";
      var identity := if i.resourceIdentity.Some? && Trim(i.resourceIdentity.value) != "" then i.resourceIdentity.value
                      else "no-resource-identity";
      var condition := if i.condition.Some? && Trim(i.condition.value) != "" then i.condition.value
                       else if |i.title| > 100 then i.title[..100] else i.title;
      Fingerprint(org, i, DEDUPE, at) == org + "|" + i.source + "|" + i.kind + "|"
        + (node + "|" + i.severity + "|" + identity + "|" + condition)
  {
    var parts := DedupeParts(org, i);
    JoinFour(parts[3], parts[4], parts[5], parts[6]);
    JoinAfterThree(org, i.source, i.kind, [parts[3], parts[4], parts[5], parts[6]]);
    assert parts == [org, i.source, i.kind] + [parts[3], parts[4], parts[5], parts[6]];
  }

  /** The text of an event: what it belongs to, and without any of that the second it was observed in. */
  lemma EventText(org: string, i: SignalInput, at: nat)
    ensures
      var node := if i.resourceNodeId.Some? then i.resourceNodeId.value else "none";
      var operation := if i.operationId.Some? then i.operationId.value else "no-op";
      var deployment := if i.deploymentId.Some? then i.deploymentId.value else "no-deploy";
      var build := if i.buildNumber.Some? then i.buildNumber.value else "no-build";
      var event := if i.eventId.Some? then i.eventId.value else "no-event";
      var alone := && i.operationId in {None, Some("")} && i.deploymentId in {None, Some("")}
                   && i.buildNumber == None && i.eventId == None;
      Fingerprint(org, i, EVENT, at) == org + "|" + i.source + "|" + i.kind + "|"
        + (node + "|" + operation + "|" + deployment + "|"
           + (build + "|" + event + if alone then "|" + Decimal(at / 1000) else ""))
  {
    var parts := EventParts(org, i, at);
    var last := [parts[6], parts[7]] + parts[8..];
    JoinEnd(parts[6], parts[7], parts[8..]);
    JoinAfterThree(parts[3], parts[4], parts[5], last);
    JoinAfterThree(org, i.source, i.kind, [parts[3], parts[4], parts[5]] + last);
    assert parts == [org, i.source, i.kind] + ([parts[3], parts[4], parts[5]] + last);
  }

  // ----- What the text determines ---------------------------------------------

  /** No part holds the separator. */
  ghost predicate Unpiped(parts: seq<string>) {
    forall p :: p in parts ==> Free(p, '|')
  }

  /** For parts without the separator the text determines the parts, so the two modes never meet:
      an event has at least one part more than a deduplicated signal. */
  lemma FingerprintIsUnambiguous(
    org: string, i: SignalInput, mode: Mode, at: nat, org': string, i': SignalInput, mode': Mode, at': nat)
    requires Unpiped(Parts(org, i, mode, at)) && Unpiped(Parts(org', i', mode', at'))
    ensures Fingerprint(org, i, mode, at) == Fingerprint(org', i', mode', at') <==>
      mode == mode' && Parts(org, i, mode, at) == Parts(org', i', mode', at')
  {
    SplitJoin(Parts(org, i, mode, at), '|');
    SplitJoin(Parts(org', i', mode', at'), '|');
  }

  /** Between two deduplicated signals the last part, a condition or a title, may hold anything. */
  lemma DedupeIsUnambiguous(org: string, i: SignalInput, org': string, i': SignalInput)
    requires Unpiped(DedupeParts(org, i)[..6]) && Unpiped(DedupeParts(org', i')[..6])
    ensures Fingerprint(org, i, DEDUPE, 0) == Fingerprint(org', i', DEDUPE, 0) <==>
      DedupeParts(org, i) == DedupeParts(org', i')
  {
    var a, b := DedupeParts(org, i), DedupeParts(org', i');
    forall k | 0 <= k < 6 ensures Free(a[k], '|') && Free(b[k], '|') {
      assert a[..6][k] == a[k] && b[..6][k] == b[k];
    }
    if Join(a, '|') == Join(b, '|') {
      JoinInjective(a, b, '|');
    }
  }

  predicate IsSeverity(s: string) {
    s == "INFO" || s == "WARNING" || s == "ERROR" || s == "CRITICAL"
  }

  /** The last part of a deduplicated signal may hold the separator, no other part does. The fifth part tells the modes
      apart: a severity, or the id of an operation. */
  ghost predicate Readable(parts: seq<string>) {
    if |parts| == 7 then Unpiped(parts[..6]) && IsSeverity(parts[4])
    else |parts| > 7 && Unpiped(parts) && !IsSeverity(parts[4])
  }

  lemma {:induction false} SameEarlierParts(a: seq<string>, b: seq<string>, n: nat)
    requires n < |a| && n < |b| && Join(a, '|') == Join(b, '|')
    requires forall i :: 0 <= i < n ==> Free(a[i], '|') && Free(b[i], '|')
    ensures a[..n] == b[..n]
    decreases n
  {
    if n > 0 {
      CutAtFirst(a[0], Join(a[1..], '|'), b[0], Join(b[1..], '|'), '|');
      SameEarlierParts(a[1..], b[1..], n - 1);
      assert a[..n] == [a[0]] + a[1..][..n - 1] && b[..n] == [b[0]] + b[1..][..n - 1];
    }
  }

  lemma EarlierPartsAreFree(parts: seq<string>)
    requires Readable(parts)
    ensures forall i :: 0 <= i < 6 ==> Free(parts[i], '|')
  {
    forall i | 0 <= i < 6 ensures Free(parts[i], '|') {
      assert parts[..6][i] == parts[i] && parts[..6][i] in parts[..6] && parts[i] in parts;
    }
  }

  lemma OfOneMode(a: seq<string>, b: seq<string>)
    requires Readable(a) && Readable(b) && Join(a, '|') == Join(b, '|')
    ensures |a| == 7 <==> |b| == 7
  {
    EarlierPartsAreFree(a);
    EarlierPartsAreFree(b);
    SameEarlierParts(a, b, 5);
    assert a[..5][4] == a[4] && b[..5][4] == b[4];
  }

  /** Readable parts, of either mode, are determined by their text. */
  lemma ReadableIsUnambiguous(a: seq<string>, b: seq<string>)
    requires Readable(a) && Readable(b)
    ensures Join(a, '|') == Join(b, '|') <==> a == b
  {
    if Join(a, '|') == Join(b, '|') {
      OfOneMode(a, b);
      if |a| == 7 {
        EarlierPartsAreFree(a);
        EarlierPartsAreFree(b);
        JoinInjective(a, b, '|');
      } else {
        SplitJoin(a, '|');
        SplitJoin(b, '|');
      }
    }
  }

  lemma JoinLastTwo(a: string, b: string)
    ensures Join([a, b], '|') == a + ("|" + b)
  {
    assert [a, b][1..] == [b];
  }

  lemma {:induction false} JoinSuffix(head: seq<string>, a: seq<string>, b: seq<string>)
    requires a != [] && b != [] && Join(a, '|') == Join(b, '|')
    ensures Join(head + a, '|') == Join(head + b, '|')
  {
    if head == [] {
      assert head + a == a && head + b == b;
    } else {
      JoinSuffix(head[1..], a, b);
      assert (head + a)[1..] == head[1..] + a && (head + b)[1..] == head[1..] + b;
    }
  }

  lemma {:induction false} TrimLeftEndsAt(s: string, at: nat)
    requires at < |s| && !IsSpace(s[at])
    ensures var t := TrimLeft(s);
      t != "" && !IsSpace(t[0]) && TrimRight(t) != ""
  {
    if IsSpace(s[0]) {
      TrimLeftEndsAt(s[1..], at - 1);
    } else {
      TrimRightKeepsFirst(s);
    }
  }

  lemma {:induction false} TrimRightKeepsFirst(s: string)
    requires s != "" && !IsSpace(s[0])
    ensures TrimRight(s) != ""
  {
    if |s| > 1 && IsSpace(s[|s| - 1]) {
      TrimRightKeepsFirst(s[..|s| - 1]);
    }
  }

  lemma SeparatedIsNotBlank(before: string, after: string)
    ensures Trim(before + ("|" + after)) != ""
  {
    var s := before + ("|" + after);
    assert s[|before|] == '|';
    TrimLeftEndsAt(s, |before|);
  }

  /** With a separator inside the resource identity it is not, unless only blanks stand before it: the text before the
      separator and the text after it can as well be another identity and condition. */
  lemma PipedIdentityCollides(org: string, i: SignalInput, before: string, after: string)
    requires Trim(before) != ""
    ensures
      var one := i.(resourceIdentity := Some(before + ("|" + after)));
      var last := DedupeParts(org, i)[6];
      var other := i.(resourceIdentity := Some(before), condition := Some(after + ("|" + last)));
      one != other && Fingerprint(org, one, DEDUPE, 0) == Fingerprint(org, other, DEDUPE, 0)
  {
    var one := i.(resourceIdentity := Some(before + ("|" + after)));
    var last := DedupeParts(org, i)[6];
    var other := i.(resourceIdentity := Some(before), condition := Some(after + ("|" + last)));
    SeparatedIsNotBlank(before, after);
    SeparatedIsNotBlank(after, last);
    var head := DedupeParts(org, one)[..5];
    var a, b := [before + ("|" + after), last], [before, after + ("|" + last)];
    JoinLastTwo(a[0], a[1]);
    JoinLastTwo(b[0], b[1]);
    assert (before + ("|" + after)) + ("|" + last) == before + ("|" + (after + ("|" + last)));
    assert DedupeParts(org, one) == head + a && DedupeParts(org, other) == head + b;
    JoinSuffix(head, a, b);
    assert |before + ("|" + after)| != |before|;
  }

  lemma {:induction false} JoinOfLaterParts(a: seq<string>, b: seq<string>, n: nat)
    requires n < |a| && n < |b| && Join(a, '|') == Join(b, '|')
    requires forall i :: 0 <= i < n ==> Free(a[i], '|') && Free(b[i], '|')
    ensures Join(a[n..], '|') == Join(b[n..], '|')
    decreases n
  {
    if n > 0 {
      CutAtFirst(a[0], Join(a[1..], '|'), b[0], Join(b[1..], '|'), '|');
      JoinOfLaterParts(a[1..], b[1..], n - 1);
      assert a[1..][n - 1..] == a[n..] && b[1..][n - 1..] == b[n..];
    }
  }

  /** Another cut of a text whose last part is free is at an earlier separator. */
  lemma OtherCutIsEarlier(id: string, last: string, id': string, last': string)
    requires id + ("|" + last) == id' + ("|" + last') && Free(last, '|') && (id, last) != (id', last')
    ensures |id'| < |id| && id == id' + ("|" + id[|id'| + 1..])
  {
    var s := id + ("|" + last);
    assert s[|id'|] == (id' + ("|" + last'))[|id'|] == '|';
    assert forall k :: |id| < k < |s| ==> s[k] == last[k - |id| - 1];
    assert id == s[..|id|] && id' == s[..|id'|];
    assert last == s[|id| + 1..] && last' == s[|id'| + 1..];
  }

  lemma IdentityIsNotBlank(org: string, i: SignalInput)
    ensures Trim(DedupeParts(org, i)[5]) != ""
  {
    if MetadataString(i.resourceIdentity).None? {
      TrimLeftEndsAt("no-resource-identity", 0);
    }
  }

  /** Another signal of the same node and severity, with another identity or condition. */
  ghost predicate Shares(org: string, i: SignalInput, other: SignalInput) {
    && DedupeParts(org, other)[..5] == DedupeParts(org, i)[..5] && DedupeParts(org, other) != DedupeParts(org, i)
    && Fingerprint(org, other, DEDUPE, 0) == Fingerprint(org, i, DEDUPE, 0)
  }

  lemma LastTwoParts(org: string, i: SignalInput)
    ensures Join(DedupeParts(org, i)[5..], '|') == DedupeParts(org, i)[5] + ("|" + DedupeParts(org, i)[6])
  {
    assert DedupeParts(org, i)[5..] == [DedupeParts(org, i)[5], DedupeParts(org, i)[6]];
    JoinLastTwo(DedupeParts(org, i)[5], DedupeParts(org, i)[6]);
  }

  lemma SharedIdentityIsPiped(org: string, i: SignalInput, other: SignalInput)
    requires Unpiped(DedupeParts(org, i)[..5]) && Free(DedupeParts(org, i)[6], '|') && Shares(org, i, other)
    ensures exists before, after :: DedupeParts(org, i)[5] == before + ("|" + after) && Trim(before) != ""
  {
    var a, b := DedupeParts(org, i), DedupeParts(org, other);
    forall k | 0 <= k < 5 ensures Free(a[k], '|') && Free(b[k], '|') {
      assert a[..5][k] == a[k] && b[..5][k] == b[k];
    }
    JoinOfLaterParts(a, b, 5);
    LastTwoParts(org, i);
    LastTwoParts(org, other);
    assert a == a[..5] + [a[5], a[6]] && b == b[..5] + [b[5], b[6]];
    OtherCutIsEarlier(a[5], a[6], b[5], b[6]);
    IdentityIsNotBlank(org, other);
  }

  lemma PipedIdentityIsShared(org: string, i: SignalInput, before: string, after: string)
    requires DedupeParts(org, i)[5] == before + ("|" + after) && Trim(before) != ""
    ensures Shares(
      org, i, i.(resourceIdentity := Some(before), condition := Some(after + ("|" + DedupeParts(org, i)[6]))))
  {
    var last := DedupeParts(org, i)[6];
    var other := i.(resourceIdentity := Some(before), condition := Some(after + ("|" + last)));
    PipedIdentityCollides(org, i, before, after);
    var one := i.(resourceIdentity := Some(before + ("|" + after)));
    SeparatedIsNotBlank(before, after);
    SeparatedIsNotBlank(after, last);
    assert DedupeParts(org, one) == DedupeParts(org, i);
    assert |DedupeParts(org, other)[5]| < |DedupeParts(org, i)[5]|;
  }

  /** For signals whose other parts hold no separator: another signal shares the fingerprint exactly when the resource
      identity holds a separator after text that is not blank. */
  lemma IdentityIsSharedExactly(org: string, i: SignalInput)
    requires Unpiped(DedupeParts(org, i)[..5]) && Free(DedupeParts(org, i)[6], '|')
    ensures (exists other :: Shares(org, i, other)) <==>
      exists before, after :: DedupeParts(org, i)[5] == before + ("|" + after) && Trim(before) != ""
  {
    if other :| Shares(org, i, other) {
      SharedIdentityIsPiped(org, i, other);
    }
    if before, after :| DedupeParts(org, i)[5] == before + ("|" + after) && Trim(before) != "" {
      PipedIdentityIsShared(org, i, before, after);
    }
  }
}

/** The keys that group signals into incidents (apps/api/src/modules/incidents/incident.service.ts and
    incident-timeline.service.ts). */
module CorrelationKeys {
  import opened Wrappers
  import opened Text

  /** The text of an enumeration value. */
  predicate EnumText(s: string) {
    s != "" && forall c :: c in s ==> 'A' <= c <= 'Z' || c == '_'
  }

  type EnumName = s: string | EnumText(s) witness "A"

  datatype KeySignal = KeySignal(
    source: EnumName, kind: EnumName, operationId: Option<string>, deploymentId: Option<string>,
    resourceNodeId: Option<string>, urn: Option<string>)

  predicate Truthy(value: Option<string>) {
    value.Some? && value.value != ""
  }

  function GroupType(kind: string): string {
    if StartsWith(kind, "KUBERNETES_") then "kubernetes-context"
    else if StartsWith(kind, "DOCKER_") then "docker-context"
    else if StartsWith(kind, "JENKINS_") then "jenkins-context"
    else kind
  }

  function ResourcePart(s: KeySignal): string {
    if Truthy(s.resourceNodeId) then s.resourceNodeId.value
    else if Truthy(s.urn) then s.urn.value
    else "no-resource"
  }

  function BuildCorrelationKey(s: KeySignal): string {
    if s.kind == "PROVIDER_UNREACHABLE" || s.kind == "PROVIDER_AUTH_FAILED" then
      "provider-connectivity" + ":" + s.source
    else if Truthy(s.operationId) then "operation" + ":" + s.operationId.value
    else if Truthy(s.deploymentId) then "deployment" + ":" + s.deploymentId.value
    else s.source + ":" + (GroupType(s.kind) + ":" + ResourcePart(s))
  }

  /** What a signal is grouped by. */
  datatype Group =
    | Connectivity(source: EnumName)
    | OfOperation(id: string)
    | OfDeployment(id: string)
    | OfResource(source: EnumName, context: string, resource: string)

  function GroupOf(s: KeySignal): Group {
    if s.kind == "PROVIDER_UNREACHABLE" || s.kind == "PROVIDER_AUTH_FAILED" then Connectivity(s.source)
    else if Truthy(s.operationId) then OfOperation(s.operationId.value)
    else if Truthy(s.deploymentId) then OfDeployment(s.deploymentId.value)
    else OfResource(s.source, GroupType(s.kind), ResourcePart(s))
  }

  lemma EnumTextIsNoPrefix(s: EnumName)
    ensures Free(s, ':') && s != "operation" && s != "deployment" && s != "provider-connectivity"
  {
    assert s[0] in s;
  }

  lemma GroupTypeHasNoColon(kind: EnumName)
    ensures Free(GroupType(kind), ':')
  {
  }

  /** The text before the first colon and the text after it. */
  function Head(g: Group): string {
    match g
    case Connectivity(_) => "provider-connectivity"
    case OfOperation(_) => "operation"
    case OfDeployment(_) => "deployment"
    case OfResource(source, _, _) => source
  }

  function Tail(g: Group): string {
    match g
    case Connectivity(source) => source
    case OfOperation(id) => id
    case OfDeployment(id) => id
    case OfResource(_, context, resource) => context + ":" + resource
  }

  lemma KeyIsHeadAndTail(s: KeySignal)
    ensures BuildCorrelationKey(s) == Head(GroupOf(s)) + [':'] + Tail(GroupOf(s)) && Free(Head(GroupOf(s)), ':')
  {
    EnumTextIsNoPrefix(s.source);
  }

  /** Two signals have one key exactly when they have one group: the families of keys are disjoint,
      whatever ids and URNs the signals carry. */
  lemma SameKeyExactly(s: KeySignal, t: KeySignal)
    ensures BuildCorrelationKey(s) == BuildCorrelationKey(t) <==> GroupOf(s) == GroupOf(t)
  {
    var g, h := GroupOf(s), GroupOf(t);
    KeyIsHeadAndTail(s);
    KeyIsHeadAndTail(t);
    EnumTextIsNoPrefix(s.source);
    EnumTextIsNoPrefix(t.source);
    if BuildCorrelationKey(s) == BuildCorrelationKey(t) {
      CutAtFirst(Head(g), Tail(g), Head(h), Tail(h), ':');
      if g.OfResource? {
        GroupTypeHasNoColon(s.kind);
        GroupTypeHasNoColon(t.kind);
        CutAtFirst(g.context, g.resource, h.context, h.resource, ':');
      }
    }
  }

  /** The context of a type is its family's, or the type itself. */
  lemma ContextIs(kind: EnumName)
    ensures "KUBERNETES_" <= kind ==> GroupType(kind) == "kubernetes-context"
    ensures "DOCKER_" <= kind ==> GroupType(kind) == "docker-context"
    ensures "JENKINS_" <= kind ==> GroupType(kind) == "jenkins-context"
    ensures !("KUBERNETES_" <= kind) && !("DOCKER_" <= kind) && !("JENKINS_" <= kind) ==> GroupType(kind) == kind
  {
    assert "KUBERNETES_" <= kind ==> kind[0] == 'K';
    assert "DOCKER_" <= kind ==> kind[0] == 'D';
    assert "JENKINS_" <= kind ==> kind[0] == 'J';
  }

  /** The text of a key: of a source's connectivity, of an operation, of a deployment, or of a source's context and
      resource, in this order. */
  lemma KeyText(s: KeySignal)
    ensures
      var connectivity := s.kind in ["PROVIDER_UNREACHABLE", "PROVIDER_AUTH_FAILED"];
      var operation := s.operationId.Some? && s.operationId.value != "";
      var deployment := s.deploymentId.Some? && s.deploymentId.value != "";
      var text := s.source + ":" + GroupType(s.kind) + ":";
      var node := s.resourceNodeId.Some? && s.resourceNodeId.value != "";
      var urn := s.urn.Some? && s.urn.value != "";
      var key := BuildCorrelationKey(s);
      && (connectivity ==> key == "provider-connectivity:" + s.source)
      && (!connectivity && operation ==> key == "operation:" + s.operationId.value)
      && (!connectivity && !operation && deployment ==> key == "deployment:" + s.deploymentId.value)
      && (!connectivity && !operation && !deployment ==>
           && (node ==> key == text + s.resourceNodeId.value)
           && (!node && urn ==> key == text + s.urn.value)
           && (!node && !urn ==> key == text + "no-resource"))
  {
    assert "provider-connectivity" + ":" == "provider-connectivity:";
    assert "operation" + ":" == "operation:" && "deployment" + ":" == "deployment:";
    var context, resource := GroupType(s.kind), ResourcePart(s);
    assert s.source + ":" + (context + ":" + resource) == s.source + ":" + context + ":" + resource;
  }

  // ----- Reading an id back ---------------------------------------------------

  /** `slice(prefix.length) || null` behind `startsWith(prefix)`. */
  function IdAfter(key: string, prefix: string): Option<string> {
    if StartsWith(key, prefix) && |key| > |prefix| then Some(key[|prefix|..]) else None
  }

  function OperationIdFromCorrelationKey(key: string): Option<string> {
    IdAfter(key, "operation:")
  }

  function DeploymentIdFromCorrelationKey(key: string): Option<string> {
    IdAfter(key, "deployment:")
  }

  lemma IdAfterHead(head: string, tail: string, word: string)
    requires Free(head, ':') && Free(word, ':')
    ensures IdAfter(head + [':'] + tail, word + [':']) == if head == word && tail != "" then Some(tail) else None
  {
    var key, prefix := head + [':'] + tail, word + [':'];
    if StartsWith(key, prefix) {
      var rest := key[|prefix|..];
      assert key == word + [':'] + rest;
      CutAtFirst(head, tail, word, rest, ':');
    }
    assert prefix <= word + [':'] + tail;
  }

  /** The timeline reads an operation's or a deployment's id back from exactly the keys printed for one. */
  lemma TimelineReadsIds(s: KeySignal)
    ensures var g, key := GroupOf(s), BuildCorrelationKey(s);
      && OperationIdFromCorrelationKey(key) == (if g.OfOperation? then Some(g.id) else None)
      && DeploymentIdFromCorrelationKey(key) == (if g.OfDeployment? then Some(g.id) else None)
  {
    var g := GroupOf(s);
    KeyIsHeadAndTail(s);
    EnumTextIsNoPrefix(s.source);
    IdAfterHead(Head(g), Tail(g), "operation");
    IdAfterHead(Head(g), Tail(g), "deployment");
    assert "operation" + [':'] == "operation:" && "deployment" + [':'] == "deployment:";
  }
}
