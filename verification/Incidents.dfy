/** Incidents and the signals that open and feed them (apps/api/src/modules/incidents/incident.service.ts,
    apps/worker/src/runtime/operation-incidents.ts). */
module Incidents {
  import opened Wrappers
  import opened CorrelationKeys

  datatype Severity = INFO | WARNING | ERROR | CRITICAL

  datatype IncidentStatus = OPEN | ACKNOWLEDGED | RESOLVED

  datatype Source = SIGNAL_CORRELATION | SYSTEM

  datatype Role = TRIGGER | RELATED

  type SignalId = nat

  datatype Signal = Signal(org: string, keyed: KeySignal, severity: Severity, active: bool, observedAt: int)

  /** A link, with what the signal said when it was linked. */
  datatype Link = Link(signal: SignalId, role: Role, severity: Severity, observedAt: int)

  datatype Incident = Incident(
    org: string, key: string, operationId: Option<string>, severity: Severity, status: IncidentStatus,
    source: Source, signalCount: nat, firstObservedAt: int, lastObservedAt: int, archivedAt: Option<int>,
    links: seq<Link>)

  type Signals = map<SignalId, Signal>

  function Key(s: Signal): string {
    BuildCorrelationKey(s.keyed)
  }

  predicate Live(i: Incident) {
    (i.status == OPEN || i.status == ACKNOWLEDGED) && i.archivedAt.None?
  }

  predicate LiveFor(i: Incident, org: string, key: string) {
    Live(i) && i.org == org && i.key == key
  }

  /** The place of the live incident for a key. */
  function FindLive(incidents: seq<Incident>, org: string, key: string): (r: Option<nat>)
    ensures r.Some? ==> r.value < |incidents| && LiveFor(incidents[r.value], org, key)
    ensures r.None? <==> forall i :: 0 <= i < |incidents| ==> !LiveFor(incidents[i], org, key)
  {
    if incidents == [] then None
    else
      var n := |incidents| - 1;
      match FindLive(incidents[..n], org, key)
      case Some(i) => Some(i)
      case None => if LiveFor(incidents[n], org, key) then Some(n) else None
  }

  predicate Linked(i: Incident, signal: SignalId) {
    exists k :: 0 <= k < |i.links| && i.links[k].signal == signal
  }

  /** The unique column: one incident per operation. */
  predicate Taken(incidents: seq<Incident>, operationId: Option<string>) {
    operationId.Some? && exists i :: 0 <= i < |incidents| && incidents[i].operationId == operationId
  }

  function Order(s: Severity): nat {
    match s
    case INFO => 0
    case WARNING => 1
    case ERROR => 2
    case CRITICAL => 3
  }

  function EscalateSeverity(current: Severity, incoming: Severity): Severity {
    if Order(incoming) > Order(current) then incoming else current
  }

  function Later(current: int, incoming: int): int {
    if incoming > current then incoming else current
  }

  // ----- One signal -----------------------------------------------------------

  datatype Action = CREATED | UPDATED | SKIPPED

  datatype Refusal = OperationIdTaken

  function WithLink(i: Incident, id: SignalId, s: Signal): Incident {
    i.(links := i.links + [Link(id, RELATED, s.severity, s.observedAt)],
       signalCount := i.signalCount + 1,
       lastObservedAt := Later(i.lastObservedAt, s.observedAt),
       severity := EscalateSeverity(i.severity, s.severity))
  }

  function Opened(id: SignalId, s: Signal): Incident {
    Incident(s.org, Key(s), s.keyed.operationId, s.severity, OPEN, SIGNAL_CORRELATION, 1, s.observedAt, s.observedAt,
             None, [Link(id, TRIGGER, s.severity, s.observedAt)])
  }

  /** What correlating one signal writes, and what it answers; refused by the unique column it throws. */
  function Correlate(incidents: seq<Incident>, signals: Signals, org: string, id: SignalId)
    : Result<(seq<Incident>, Action), Refusal>
  {
    if id !in signals || signals[id].org != org then Ok((incidents, SKIPPED))
    else
      var s := signals[id];
      match FindLive(incidents, org, Key(s))
      case Some(i) =>
        if Linked(incidents[i], id) then Ok((incidents, SKIPPED))
        else Ok((incidents[i := WithLink(incidents[i], id, s)], UPDATED))
      case None =>
        if Taken(incidents, s.keyed.operationId) then Err(OperationIdTaken)
        else Ok((incidents + [Opened(id, s)], CREATED))
  }

  // ----- A failed operation ---------------------------------------------------

  function OpenedForOperation(org: string, operationId: string, severity: Severity, now: int): Incident {
    Incident(org, "operation" + ":" + operationId, Some(operationId), severity, OPEN, SYSTEM, 0, now, now, None, [])
  }

  function CreatedForOperation(
    incidents: seq<Incident>, org: string, operationId: string, severity: Severity, now: int): seq<Incident>
  {
    if Taken(incidents, Some(operationId)) then incidents
    else incidents + [OpenedForOperation(org, operationId, severity, now)]
  }

  // ----- People's decisions ---------------------------------------------------

  datatype IncidentError = NotFound | BadRequest

  function Acknowledge(incidents: seq<Incident>, org: string, id: nat): Result<seq<Incident>, IncidentError> {
    if id >= |incidents| || incidents[id].org != org then Err(NotFound)
    else if incidents[id].status != OPEN then Err(BadRequest)
    else Ok(incidents[id := incidents[id].(status := ACKNOWLEDGED)])
  }

  function Resolve(incidents: seq<Incident>, org: string, id: nat): Result<seq<Incident>, IncidentError> {
    if id >= |incidents| || incidents[id].org != org then Err(NotFound)
    else if incidents[id].status == RESOLVED then Err(BadRequest)
    else Ok(incidents[id := incidents[id].(status := RESOLVED)])
  }

  /** Archiving leaves the status as it is. */
  function Archive(incidents: seq<Incident>, org: string, id: nat, now: int): Result<seq<Incident>, IncidentError> {
    if id >= |incidents| || incidents[id].org != org then Err(NotFound)
    else if incidents[id].archivedAt.Some? then Err(BadRequest)
    else Ok(incidents[id := incidents[id].(archivedAt := Some(now))])
  }
}

/** What every reachable table of incidents satisfies. */
module IncidentLaws {
  import opened Wrappers
  import opened Runs
  import opened CorrelationKeys
  import opened Incidents

  datatype State = State(incidents: seq<Incident>, signals: Signals)

  datatype Step =
    | SignalsChange(signals: Signals)
    | CorrelateStep(org: string, id: SignalId)
    | AcknowledgeStep(org: string, incident: nat)
    | ResolveStep(org: string, incident: nat)
    | ArchiveStep(org: string, incident: nat, now: int)
    | OperationFails(org: string, operationId: string, severity: Severity, now: int)

  function OrSame(r: Result<seq<Incident>, IncidentError>, incidents: seq<Incident>): seq<Incident> {
    match r
    case Err(_) => incidents
    case Ok(after) => after
  }

  function After(s: State, step: Step): State {
    match step
    case SignalsChange(signals) => s.(signals := signals)
    case CorrelateStep(org, id) => (
      match Correlate(s.incidents, s.signals, org, id)
      case Err(_) => s
      case Ok((incidents, _)) => s.(incidents := incidents))
    case AcknowledgeStep(org, i) => s.(incidents := OrSame(Acknowledge(s.incidents, org, i), s.incidents))
    case ResolveStep(org, i) => s.(incidents := OrSame(Resolve(s.incidents, org, i), s.incidents))
    case ArchiveStep(org, i, now) => s.(incidents := OrSame(Archive(s.incidents, org, i, now), s.incidents))
    case OperationFails(org, id, severity, now) =>
      s.(incidents := CreatedForOperation(s.incidents, org, id, severity, now))
  }

  /** An operation's id is not empty. */
  ghost function Next(s: State, step: Step): Option<State> {
    if step.OperationFails? && step.operationId == "" then None else Some(After(s, step))
  }

  // ----- The invariant --------------------------------------------------------

  ghost predicate OneLive(incidents: seq<Incident>) {
    forall i, j :: 0 <= i < j < |incidents| && Live(incidents[i]) && Live(incidents[j]) ==>
      incidents[i].org != incidents[j].org || incidents[i].key != incidents[j].key
  }

  /** An operation's key is used for that operation's incident only. */
  ghost predicate KeyFits(i: Incident) {
    OperationIdFromCorrelationKey(i.key).Some? ==> i.operationId == OperationIdFromCorrelationKey(i.key)
  }

  ghost predicate DistinctSignals(links: seq<Link>) {
    forall j, k :: 0 <= j < k < |links| ==> links[j].signal != links[k].signal
  }

  /** The highest severity and the latest observation among the links. */
  ghost predicate IsMaxSeverity(severity: Severity, links: seq<Link>) {
    && (exists k :: 0 <= k < |links| && links[k].severity == severity)
    && (forall k :: 0 <= k < |links| ==> Order(links[k].severity) <= Order(severity))
  }

  ghost predicate IsLatest(at: int, links: seq<Link>) {
    && (exists k :: 0 <= k < |links| && links[k].observedAt == at)
    && (forall k :: 0 <= k < |links| ==> links[k].observedAt <= at)
  }

  /** The running aggregates of an incident are those of its links. */
  ghost predicate Aggregates(i: Incident) {
    && i.signalCount == |i.links|
    && DistinctSignals(i.links)
    && (forall k :: 0 <= k < |i.links| ==> (i.links[k].role == TRIGGER <==> k == 0 && i.source == SIGNAL_CORRELATION))
    && (i.source == SIGNAL_CORRELATION ==>
      && i.links != [] && i.firstObservedAt == i.links[0].observedAt
      && IsMaxSeverity(i.severity, i.links) && IsLatest(i.lastObservedAt, i.links))
  }

  ghost predicate Inv(incidents: seq<Incident>) {
    OneLive(incidents) && forall i :: 0 <= i < |incidents| ==> KeyFits(incidents[i]) && Aggregates(incidents[i])
  }

  lemma WithLinkKeeps(i: Incident, id: SignalId, s: Signal)
    requires Aggregates(i) && !Linked(i, id)
    ensures Aggregates(WithLink(i, id, s))
  {
    var after := WithLink(i, id, s);
    var n := |i.links|;
    assert forall k :: 0 <= k < n ==> after.links[k] == i.links[k];
    assert after.links[n].signal == id;
    if i.source == SIGNAL_CORRELATION {
      var k :| 0 <= k < n && i.links[k].severity == i.severity;
      var m :| 0 <= m < n && i.links[m].observedAt == i.lastObservedAt;
      assert after.links[k].severity == i.severity && after.links[m].observedAt == i.lastObservedAt;
      assert after.links[n].severity == s.severity && after.links[n].observedAt == s.observedAt;
    }
  }

  lemma OpenedKeeps(id: SignalId, s: Signal)
    ensures Aggregates(Opened(id, s)) && KeyFits(Opened(id, s))
  {
    var i := Opened(id, s);
    assert i.links[0].severity == s.severity && i.links[0].observedAt == s.observedAt;
    TimelineReadsIds(s.keyed);
  }

  lemma CorrelateKeeps(incidents: seq<Incident>, signals: Signals, org: string, id: SignalId)
    requires Inv(incidents)
    ensures var r := Correlate(incidents, signals, org, id); r.Ok? ==> Inv(r.value.0)
  {
    if id in signals && signals[id].org == org {
      var s := signals[id];
      match FindLive(incidents, org, Key(s))
      case Some(i) =>
        if !Linked(incidents[i], id) {
          WithLinkKeeps(incidents[i], id, s);
        }
      case None =>
        OpenedKeeps(id, s);
    }
  }

  lemma OperationKey(operationId: string)
    requires operationId != ""
    ensures OperationIdFromCorrelationKey("operation" + ":" + operationId) == Some(operationId)
  {
    IdAfterHead("operation", operationId, "operation");
    assert "operation" + [':'] == "operation:";
  }

  lemma OperationFailsKeeps(incidents: seq<Incident>, org: string, operationId: string, severity: Severity, now: int)
    requires Inv(incidents) && operationId != ""
    ensures Inv(CreatedForOperation(incidents, org, operationId, severity, now))
  {
    OperationKey(operationId);
    var created := OpenedForOperation(org, operationId, severity, now);
    if !Taken(incidents, Some(operationId)) {
      assert forall i :: 0 <= i < |incidents| ==>
        KeyFits(incidents[i]) && incidents[i].operationId != Some(operationId);
      assert forall i :: 0 <= i < |incidents| ==> incidents[i].key != created.key;
    }
  }

  /** A decision changes the status or the archive time of one incident, and makes none live. */
  lemma DecisionKeeps(incidents: seq<Incident>, i: nat, after: Incident)
    requires Inv(incidents) && i < |incidents| && (Live(after) ==> Live(incidents[i]))
    requires after == incidents[i].(status := after.status, archivedAt := after.archivedAt)
    ensures Inv(incidents[i := after])
  {
    assert KeyFits(incidents[i]) && Aggregates(incidents[i]);
  }

  lemma StepKeeps(s: State, step: Step)
    requires Inv(s.incidents) && Next(s, step).Some?
    ensures Inv(Next(s, step).value.incidents)
  {
    match step
    case SignalsChange(_) =>
    case CorrelateStep(org, id) => CorrelateKeeps(s.incidents, s.signals, org, id);
    case AcknowledgeStep(org, i) =>
      if Acknowledge(s.incidents, org, i).Ok? {
        DecisionKeeps(s.incidents, i, s.incidents[i].(status := ACKNOWLEDGED));
      }
    case ResolveStep(org, i) =>
      if Resolve(s.incidents, org, i).Ok? {
        DecisionKeeps(s.incidents, i, s.incidents[i].(status := RESOLVED));
      }
    case ArchiveStep(org, i, now) =>
      if Archive(s.incidents, org, i, now).Ok? {
        DecisionKeeps(s.incidents, i, s.incidents[i].(archivedAt := Some(now)));
      }
    case OperationFails(org, id, severity, now) => OperationFailsKeeps(s.incidents, org, id, severity, now);
  }

  /** In every reachable state there is at most one live incident per organization and key, and each incident's
      count, trigger, severity and last observation are those of its links. */
  lemma {:induction false} EveryRunIsSound(signals: Signals, steps: seq<Step>)
    requires Final(Next, State([], signals), steps).Some?
    ensures var incidents := Final(Next, State([], signals), steps).value.incidents;
      OneLive(incidents) && forall i :: 0 <= i < |incidents| ==> KeyFits(incidents[i]) && Aggregates(incidents[i])
  {
    var inv := (s: State) => Inv(s.incidents);
    forall s, step | inv(s) && Next(s, step).Some? ensures inv(Next(s, step).value) {
      StepKeeps(s, step);
    }
    Invariant(Next, inv, State([], signals), steps);
  }

  // ----- In terms of the columns ----------------------------------------------

  /** Open or acknowledged, and not archived. */
  ghost predicate Unsettled(i: Incident, org: string, key: string) {
    i.org == org && i.key == key && i.status != RESOLVED && i.archivedAt == None
  }

  ghost predicate OneUnsettled(incidents: seq<Incident>, org: string, key: string) {
    forall i, j :: 0 <= i < j < |incidents| ==>
      !(Unsettled(incidents[i], org, key) && Unsettled(incidents[j], org, key))
  }

  ghost predicate Holding(i: Incident, id: SignalId) {
    exists k :: 0 <= k < |i.links| && i.links[k].signal == id
  }

  /** In every run two unsettled incidents of one organization and key are the same incident. */
  lemma {:induction false} OneUnsettledPerKey(signals: Signals, steps: seq<Step>, org: string, key: string)
    requires Final(Next, State([], signals), steps).Some?
    ensures var incidents := Final(Next, State([], signals), steps).value.incidents;
      forall i, j |
        && 0 <= i < |incidents| && 0 <= j < |incidents|
        && incidents[i].org == org && incidents[i].key == key && incidents[i].archivedAt == None
        && (incidents[i].status == OPEN || incidents[i].status == ACKNOWLEDGED)
        && incidents[j].org == org && incidents[j].key == key && incidents[j].archivedAt == None
        && (incidents[j].status == OPEN || incidents[j].status == ACKNOWLEDGED) :: i == j
  {
    EveryRunIsSound(signals, steps);
  }

  /** Where a key has an unsettled incident, its signals are linked to that one, and no incident is opened. */
  lemma UnsettledIsFed(incidents: seq<Incident>, signals: Signals, org: string, id: SignalId, i: nat)
    requires id in signals && signals[id].org == org && i < |incidents|
    requires Unsettled(incidents[i], org, BuildCorrelationKey(signals[id].keyed))
    requires OneUnsettled(incidents, org, BuildCorrelationKey(signals[id].keyed))
    ensures var r := Correlate(incidents, signals, org, id);
      && r.Ok? && |r.value.0| == |incidents|
      && (forall j :: 0 <= j < |incidents| && j != i ==> r.value.0[j] == incidents[j])
      && r.value.1 == (if Holding(incidents[i], id) then SKIPPED else UPDATED)
      && (r.value.1 == SKIPPED ==> r.value.0[i] == incidents[i])
      && (r.value.1 == UPDATED ==>
           var link := Link(id, RELATED, signals[id].severity, signals[id].observedAt);
           && r.value.0[i].links == incidents[i].links + [link]
           && r.value.0[i] == incidents[i].(links := r.value.0[i].links, signalCount := incidents[i].signalCount + 1,
                lastObservedAt := r.value.0[i].lastObservedAt, severity := r.value.0[i].severity)
           && r.value.0[i].lastObservedAt ==
                (if signals[id].observedAt > incidents[i].lastObservedAt then signals[id].observedAt
                 else incidents[i].lastObservedAt))
  {
  }

  /** Where it has none, an incident is opened with the signal as its trigger, unless that is refused. */
  lemma SettledIsOpenedAnew(incidents: seq<Incident>, signals: Signals, org: string, id: SignalId)
    requires id in signals && signals[id].org == org
    requires forall i :: 0 <= i < |incidents| ==> !Unsettled(incidents[i], org, BuildCorrelationKey(signals[id].keyed))
    ensures var (s, r) := (signals[id], Correlate(incidents, signals, org, id));
      && (r.Err? <==>
           (s.keyed.operationId.Some? &&
            exists i :: 0 <= i < |incidents| && incidents[i].operationId == s.keyed.operationId))
      && (r.Ok? ==> r.value == (incidents + [Incident(
           org, BuildCorrelationKey(s.keyed), s.keyed.operationId, s.severity, OPEN, SIGNAL_CORRELATION, 1,
           s.observedAt, s.observedAt, None, [Link(id, TRIGGER, s.severity, s.observedAt)])], CREATED))
  {
  }

  /** Whatever is correlated, an incident that is resolved or archived stays as it is, and so does every incident of
      another organization or key; an unknown signal changes nothing. */
  lemma SettledStays(incidents: seq<Incident>, signals: Signals, org: string, id: SignalId, i: nat)
    requires i < |incidents| && Correlate(incidents, signals, org, id).Ok?
    ensures var after := Correlate(incidents, signals, org, id).value.0;
      && i < |after|
      && (incidents[i].status == RESOLVED || incidents[i].archivedAt.Some? || incidents[i].org != org
          || (id in signals && incidents[i].key != BuildCorrelationKey(signals[id].keyed)) ==>
            after[i] == incidents[i])
    ensures id !in signals || signals[id].org != org ==>
      Correlate(incidents, signals, org, id).value == (incidents, SKIPPED)
  {
  }

  /** The severity of an incident is the higher one. */
  lemma EscalatesToHigher(current: Severity, incoming: Severity)
    ensures var s := EscalateSeverity(current, incoming);
      && (s == CRITICAL <==> current == CRITICAL || incoming == CRITICAL)
      && (s == INFO <==> current == INFO && incoming == INFO)
      && (s == ERROR || s == CRITICAL <==>
           current == ERROR || current == CRITICAL || incoming == ERROR || incoming == CRITICAL)
  {
  }

  function Stage(status: IncidentStatus): nat {
    match status
    case OPEN => 0
    case ACKNOWLEDGED => 1
    case RESOLVED => 2
  }

  /** An incident never goes back: not from acknowledged to open, not from resolved, and not out of the archive; and
      its key, organization and links stay. */
  lemma NeverGoesBack(s: State, step: Step, i: nat)
    requires Next(s, step).Some? && i < |s.incidents|
    ensures var after := Next(s, step).value.incidents;
      && i < |after| && Stage(s.incidents[i].status) <= Stage(after[i].status)
      && (s.incidents[i].archivedAt.Some? ==> after[i].archivedAt == s.incidents[i].archivedAt)
      && after[i].org == s.incidents[i].org && after[i].key == s.incidents[i].key
      && s.incidents[i].links <= after[i].links
  {
  }

  /** Which decisions are taken: acknowledging an open incident, resolving one that is not, archiving one that is
      not; each of the organization, and each changes its one column. */
  lemma DecisionsTaken(incidents: seq<Incident>, org: string, i: nat, now: int)
    ensures (i >= |incidents| || incidents[i].org != org) <==> Acknowledge(incidents, org, i) == Err(NotFound)
    ensures (i >= |incidents| || incidents[i].org != org) <==> Resolve(incidents, org, i) == Err(NotFound)
    ensures (i >= |incidents| || incidents[i].org != org) <==> Archive(incidents, org, i, now) == Err(NotFound)
    ensures i < |incidents| && incidents[i].org == org ==>
      && (Acknowledge(incidents, org, i).Ok? <==> incidents[i].status == OPEN)
      && (Resolve(incidents, org, i).Ok? <==> incidents[i].status == OPEN || incidents[i].status == ACKNOWLEDGED)
      && (Archive(incidents, org, i, now).Ok? <==> incidents[i].archivedAt == None)
    ensures Acknowledge(incidents, org, i).Ok? ==>
      Acknowledge(incidents, org, i).value == incidents[i := incidents[i].(status := ACKNOWLEDGED)]
    ensures Resolve(incidents, org, i).Ok? ==>
      Resolve(incidents, org, i).value == incidents[i := incidents[i].(status := RESOLVED)]
    ensures Archive(incidents, org, i, now).Ok? ==>
      Archive(incidents, org, i, now).value == incidents[i := incidents[i].(archivedAt := Some(now))]
  {
  }

  /** A failed operation gets one open incident of the system, under its own key, unless some incident stands for it
      already, settled or not. */
  lemma FailedOperationOpens(incidents: seq<Incident>, org: string, operationId: string, severity: Severity, now: int)
    ensures CreatedForOperation(incidents, org, operationId, severity, now) ==
      if exists i :: 0 <= i < |incidents| && incidents[i].operationId == Some(operationId) then incidents
      else incidents + [Incident(org, "operation:" + operationId, Some(operationId), severity, OPEN, SYSTEM, 0,
                                 now, now, None, [])]
  {
    assert "operation" + ":" == "operation:";
  }

  // ----- When correlation is refused ------------------------------------------

  /** Correlating a signal throws exactly when its key has no live incident and some incident, live or not,
      already stands for the signal's operation. */
  lemma RefusedExactly(incidents: seq<Incident>, signals: Signals, org: string, id: SignalId)
    requires id in signals && signals[id].org == org
    ensures Correlate(incidents, signals, org, id).Err? <==>
      && (forall i :: 0 <= i < |incidents| ==> !LiveFor(incidents[i], org, Key(signals[id])))
      && signals[id].keyed.operationId.Some?
      && (exists i :: 0 <= i < |incidents| && incidents[i].operationId == signals[id].keyed.operationId)
  {
  }

  /** Once the incident of an operation is resolved, correlating a signal of that operation throws. */
  lemma {:induction false} RefusedAfterResolving(
    signals: Signals, org: string, operationId: string, severity: Severity, now: int, id: SignalId)
    requires operationId != "" && id in signals && signals[id].org == org
    requires GroupOf(signals[id].keyed) == OfOperation(operationId)
    ensures
      var steps := [OperationFails(org, operationId, severity, now), ResolveStep(org, 0)];
      && Final(Next, State([], signals), steps).Some?
      && Correlate(Final(Next, State([], signals), steps).value.incidents, signals, org, id) == Err(OperationIdTaken)
  {
    var created := OpenedForOperation(org, operationId, severity, now);
    var s1, s2 := State([created], signals), State([created.(status := RESOLVED)], signals);
    var first, second := OperationFails(org, operationId, severity, now), ResolveStep(org, 0);
    var none: seq<Incident> := [];
    assert none + [created] == [created] && s1.incidents[0 := created.(status := RESOLVED)] == s2.incidents;
    assert Next(State([], signals), first) == Some(s1) && Next(s1, second) == Some(s2);
    Prepend(Next, s1, second, []);
    Prepend(Next, State([], signals), first, [second]);
    assert [first] + [second] == [first, second] && [second] + [] == [second];
    assert s2.incidents[0].operationId == Some(operationId) && !Live(s2.incidents[0]);
  }
}
