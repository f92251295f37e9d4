/** The signal table (apps/api/src/modules/signals/signal.service.ts). */
module Signals {
  import opened Wrappers
  import opened Text
  import opened Runs
  import opened SignalFingerprints

  datatype SignalStatus = ACTIVE | ACKNOWLEDGED | RESOLVED | SUPPRESSED | EXPIRED | ARCHIVED

  datatype Json = Str(s: string) | Num(n: real) | Bool(b: bool) | Null

  /** The links that a reconciliation may ask for. */
  datatype Links = Links(
    resourceNodeId: Option<string>, operationId: Option<string>, deploymentId: Option<string>,
    projectId: Option<string>, environmentId: Option<string>)

  datatype SignalRow = SignalRow(
    source: string, kind: string, severity: string, title: string, links: Links, metadata: map<string, Json>,
    status: SignalStatus, observedAt: int, firstSeenAt: int, lastSeenAt: int, count: nat, archivedAt: Option<int>)

  /** Organization and fingerprint: the table's unique key. */
  type RowId = (string, string)

  type Rows = map<RowId, SignalRow>

  // ----- Ingesting ------------------------------------------------------------

  datatype Ingest = Ingest(
    input: SignalInput, links: Links, metadata: map<string, Json>, mode: Mode, observedAt: Option<nat>)

  /** A resource node that is not found in the organization is left out. */
  function Owned(i: Ingest, nodeFound: bool): Ingest {
    if Truthy(i.input.resourceNodeId) && !nodeFound
    then i.(input := i.input.(resourceNodeId := None), links := i.links.(resourceNodeId := None))
    else i
  }

  function ObservedAt(i: Ingest, now: nat): nat {
    match i.observedAt
    case None => now
    case Some(t) => t
  }

  function RowIdOf(org: string, i: Ingest, now: nat): RowId {
    (org, Fingerprint(org, i.input, i.mode, ObservedAt(i, now)))
  }

  function Fresh(i: Ingest, now: nat): SignalRow {
    SignalRow(i.input.source, i.input.kind, i.input.severity, i.input.title, i.links, i.metadata, ACTIVE,
              ObservedAt(i, now), now, now, 1, None)
  }

  function SeenAgain(row: SignalRow, i: Ingest, now: nat): SignalRow {
    row.(lastSeenAt := now, observedAt := ObservedAt(i, now), metadata := i.metadata, status := ACTIVE,
         archivedAt := None, count := if i.mode.DEDUPE? then row.count + 1 else row.count)
  }

  function Ingested(rows: Rows, org: string, i: Ingest, now: nat): Rows {
    var id := RowIdOf(org, i, now);
    rows[id := if id in rows then SeenAgain(rows[id], i, now) else Fresh(i, now)]
  }

  // ----- Reconciling ----------------------------------------------------------

  /** A column of the scope: not asked for, or asked to be this value or null. */
  type Wanted = Option<Option<string>>

  datatype Scope = Scope(
    resourceNodeId: Wanted, operationId: Wanted, deploymentId: Wanted, projectId: Wanted, environmentId: Wanted,
    metadata: seq<(string, Option<Json>)>)

  datatype Reconciliation = Reconciliation(
    source: string, kind: string, observedFingerprints: seq<string>, scope: Scope, scanCompleted: bool,
    observedAt: int)

  datatype ReconcileResult = ReconcileResult(scanned: nat, observed: nat, resolved: nat, skipped: bool)

  datatype ReconcileError = UnsupportedScope(key: string)

  predicate SupportedKey(key: string) {
    key == "condition" || key == "monitoringScope" || key == "resourceIdentity"
  }

  /** The first metadata key that the scope may not use. */
  function Unsupported(entries: seq<(string, Option<Json>)>): (r: Option<string>)
    ensures r.None? <==> forall e :: e in entries ==> e.0 in ["condition", "monitoringScope", "resourceIdentity"]
    ensures r.Some? ==> r.value !in ["condition", "monitoringScope", "resourceIdentity"]
    ensures r.Some? ==> exists k :: 0 <= k < |entries| && entries[k].0 == r.value && Unsupported(entries[..k]).None?
  {
    if entries == [] then None
    else if !SupportedKey(entries[0].0) then Some(entries[0].0)
    else Unsupported(entries[1..])
  }

  predicate Matches(wanted: Wanted, value: Option<string>) {
    wanted.None? || wanted.value == value
  }

  predicate MatchesMetadata(entries: seq<(string, Option<Json>)>, metadata: map<string, Json>) {
    forall e :: e in entries && e.1.Some? ==> e.0 in metadata && metadata[e.0] == e.1.value
  }

  predicate Open(row: SignalRow) {
    (row.status == ACTIVE || row.status == ACKNOWLEDGED) && row.archivedAt.None?
  }

  /** An open row that the scan was about and that nothing has seen since. */
  predicate InScope(org: string, r: Reconciliation, id: RowId, row: SignalRow) {
    && id.0 == org && row.source == r.source && row.kind == r.kind
    && Open(row) && row.lastSeenAt <= r.observedAt
    && Matches(r.scope.resourceNodeId, row.links.resourceNodeId)
    && Matches(r.scope.operationId, row.links.operationId)
    && Matches(r.scope.deploymentId, row.links.deploymentId)
    && Matches(r.scope.projectId, row.links.projectId)
    && Matches(r.scope.environmentId, row.links.environmentId)
    && MatchesMetadata(r.scope.metadata, row.metadata)
  }

  /** The fingerprints of the scan, trimmed, without blanks and repetitions. */
  function Observed(fingerprints: seq<string>): set<string> {
    set i | 0 <= i < |fingerprints| && Trim(fingerprints[i]) != "" :: Trim(fingerprints[i])
  }

  predicate IsStale(org: string, r: Reconciliation, id: RowId, row: SignalRow) {
    InScope(org, r, id, row) && id.1 !in Observed(r.observedFingerprints)
  }

  function Resolved(row: SignalRow): SignalRow {
    row.(status := RESOLVED, archivedAt := None)
  }

  function Reconciled(rows: Rows, org: string, r: Reconciliation): Rows {
    map id | id in rows :: if IsStale(org, r, id, rows[id]) then Resolved(rows[id]) else rows[id]
  }

  function Scanned(rows: Rows, org: string, r: Reconciliation): set<RowId> {
    set id | id in rows && InScope(org, r, id, rows[id])
  }

  function Stale(rows: Rows, org: string, r: Reconciliation): set<RowId> {
    set id | id in rows && IsStale(org, r, id, rows[id])
  }

  /** Each observed fingerprint of one organization names one row. */
  function Seen(rows: Rows, org: string, r: Reconciliation): set<RowId> {
    set id | id in rows && InScope(org, r, id, rows[id]) && id.1 in Observed(r.observedFingerprints)
  }

  /** After a completed scan every row still open in its scope was observed; every other row is as it was:
      another organization's, one seen later, one out of scope, one observed. */
  lemma OpenInScopeWasObserved(rows: Rows, org: string, r: Reconciliation)
    ensures var after := Reconciled(rows, org, r);
      && after.Keys == rows.Keys
      && (forall id :: id in after && InScope(org, r, id, after[id]) ==> id.1 in Observed(r.observedFingerprints))
      && (forall id :: id in rows && !IsStale(org, r, id, rows[id]) ==> after[id] == rows[id])
      && (forall id :: id in rows && IsStale(org, r, id, rows[id]) ==> after[id].status == RESOLVED)
  {
  }

  /** What was scanned and not resolved is what was observed. */
  lemma ScannedMinusResolved(rows: Rows, org: string, r: Reconciliation)
    ensures |Scanned(rows, org, r)| - |Stale(rows, org, r)| == |Seen(rows, org, r)|
  {
    var scanned, stale, seen := Scanned(rows, org, r), Stale(rows, org, r), Seen(rows, org, r);
    assert scanned == stale + seen && stale !! seen;
  }

  /** Repeating the reconciliation resolves nothing. */
  lemma ReconcilingTwice(rows: Rows, org: string, r: Reconciliation)
    ensures Stale(Reconciled(rows, org, r), org, r) == {}
    ensures Reconciled(Reconciled(rows, org, r), org, r) == Reconciled(rows, org, r)
  {
    OpenInScopeWasObserved(rows, org, r);
  }

  // ----- In terms of the columns ----------------------------------------------

  /** A row stands outside a scan for any of these reasons alone: whose it is, what it is about, what became of
      it, when it was last seen, what it links to, what its metadata says. */
  predicate OutsideScan(org: string, r: Reconciliation, id: RowId, row: SignalRow) {
    || id.0 != org
    || row.source != r.source
    || row.kind != r.kind
    || row.status !in {ACTIVE, ACKNOWLEDGED}
    || row.archivedAt.Some?
    || r.observedAt < row.lastSeenAt
    || (r.scope.resourceNodeId.Some? && r.scope.resourceNodeId.value != row.links.resourceNodeId)
    || (r.scope.operationId.Some? && r.scope.operationId.value != row.links.operationId)
    || (r.scope.deploymentId.Some? && r.scope.deploymentId.value != row.links.deploymentId)
    || (r.scope.projectId.Some? && r.scope.projectId.value != row.links.projectId)
    || (r.scope.environmentId.Some? && r.scope.environmentId.value != row.links.environmentId)
    || exists e :: e in r.scope.metadata && e.1.Some? && (e.0 !in row.metadata || row.metadata[e.0] != e.1.value)
  }

  /** A row is left as it is exactly when it stands outside the scan or one of the scan's fingerprints, trimmed,
      is its own; every other row ends resolved. It is counted as scanned exactly when it stands inside, and as
      resolved exactly when it also changes. */
  lemma ReconcilesExactly(rows: Rows, org: string, r: Reconciliation, id: RowId)
    requires id in rows
    ensures var row, after := rows[id], Reconciled(rows, org, r);
      var seen := exists f :: f in r.observedFingerprints && Trim(f) == id.1 && Trim(f) != "";
      && after.Keys == rows.Keys
      && (id in Scanned(rows, org, r) <==> !OutsideScan(org, r, id, row))
      && (id in Stale(rows, org, r) <==> !OutsideScan(org, r, id, row) && !seen)
      && (OutsideScan(org, r, id, row) || seen ==> after[id] == row)
      && (!OutsideScan(org, r, id, row) && !seen ==>
          after[id] == row.(status := RESOLVED) && after[id] != row)
  {
    var row := rows[id];
    assert MatchesMetadata(r.scope.metadata, row.metadata) <==>
      !exists e :: e in r.scope.metadata && e.1.Some? && (e.0 !in row.metadata || row.metadata[e.0] != e.1.value);
    assert id.1 in Observed(r.observedFingerprints) <==>
      exists f :: f in r.observedFingerprints && Trim(f) == id.1 && Trim(f) != "";
  }

  /** A table before and after a scan: every row inside the scan that no listed fingerprint names is resolved. */
  predicate ScanApplied(before: Rows, org: string, r: Reconciliation, after: Rows) {
    && after.Keys == before.Keys
    && forall id :: id in before ==>
         after[id] == if OutsideScan(org, r, id, before[id]) || id.1 in Observed(r.observedFingerprints)
                      then before[id] else before[id].(status := RESOLVED)
  }

  lemma ReconciledTable(rows: Rows, org: string, r: Reconciliation)
    ensures ScanApplied(rows, org, r, Reconciled(rows, org, r))
  {
    forall id | id in rows
      ensures Reconciled(rows, org, r)[id] ==
              if OutsideScan(org, r, id, rows[id]) || id.1 in Observed(r.observedFingerprints)
              then rows[id] else rows[id].(status := RESOLVED)
    {
      ReconcilesExactly(rows, org, r, id);
    }
  }

  /** One ingestion writes one row of its own organization. Whatever became of the row, it is ACTIVE and
      unarchived again with the new metadata and times; an old row keeps its origin, its links and its first
      sighting, and a deduplicated signal adds one to its count. */
  lemma IngestedRow(rows: Rows, org: string, i: Ingest, now: nat)
    ensures var id, after := RowIdOf(org, i, now), Ingested(rows, org, i, now);
      && id.0 == org && after.Keys == rows.Keys + {id}
      && (forall other :: other in rows && other != id ==> after[other] == rows[other])
      && after[id].status == ACTIVE && after[id].archivedAt == None
      && after[id].lastSeenAt == now && after[id].metadata == i.metadata
      && (i.observedAt.Some? ==> after[id].observedAt == i.observedAt.value)
      && (i.observedAt.None? ==> after[id].observedAt == now)
      && (id in rows ==>
          && after[id].count == rows[id].count + (if i.mode == DEDUPE then 1 else 0)
          && after[id].firstSeenAt == rows[id].firstSeenAt && after[id].links == rows[id].links
          && after[id].source == rows[id].source && after[id].kind == rows[id].kind
          && after[id].severity == rows[id].severity && after[id].title == rows[id].title)
      && (id !in rows ==>
          && after[id].count == 1 && after[id].firstSeenAt == now && after[id].links == i.links
          && after[id].source == i.input.source && after[id].kind == i.input.kind
          && after[id].severity == i.input.severity && after[id].title == i.input.title)
  {
  }

  /** Nothing links to a resource node that the organization does not have; every other field is as given. */
  lemma ForeignNodeIsDropped(i: Ingest, nodeFound: bool)
    ensures var kept := Owned(i, nodeFound);
      && (nodeFound || i.input.resourceNodeId in {None, Some("")} ==> kept == i)
      && (!nodeFound && i.input.resourceNodeId !in {None, Some("")} ==>
          kept.input.resourceNodeId == None && kept.links.resourceNodeId == None)
      && kept.(input := kept.input.(resourceNodeId := i.input.resourceNodeId),
               links := kept.links.(resourceNodeId := i.links.resourceNodeId)) == i
  {
  }

  /** Resolving by fingerprint changes exactly the organization's ACTIVE, unarchived rows that are listed. */
  lemma ResolvesListedExactly(rows: Rows, org: string, fingerprints: seq<string>, id: RowId)
    requires id in rows
    ensures var row, after := rows[id], WithStatus(rows, ActiveAmong(rows, org, fingerprints), RESOLVED, None);
      var listed := id.0 == org && id.1 in fingerprints && id.1 != "";
      && after.Keys == rows.Keys
      && (id in ActiveAmong(rows, org, fingerprints) <==> listed && row.status == ACTIVE && row.archivedAt == None)
      && (listed && row.status == ACTIVE && row.archivedAt == None ==> after[id] == row.(status := RESOLVED))
      && (!listed || row.status != ACTIVE || row.archivedAt != None ==> after[id] == row)
  {
  }

  // ----- The table ------------------------------------------------------------

  class SignalTable {
    var rows: Rows

    constructor ()
      ensures rows == map[]
    {
      rows := map[];
    }

    /** `nodeFound` is the lookup of the signal's resource node in the organization. */
    method IngestSignal(org: string, i: Ingest, nodeFound: bool, now: nat)
      modifies this
      ensures rows == Ingested(old(rows), org, Owned(i, nodeFound), now)
    {
      var owned := i;
      if Truthy(i.input.resourceNodeId) {
        if !nodeFound {
          owned := i.(input := i.input.(resourceNodeId := None), links := i.links.(resourceNodeId := None));
        }
      }
      var id := RowIdOf(org, owned, now);
      if id in rows {
        rows := rows[id := SeenAgain(rows[id], owned, now)];
      } else {
        rows := rows[id := Fresh(owned, now)];
      }
    }

    method ResolveSignalsByFingerprints(org: string, fingerprints: seq<string>) returns (resolved: nat)
      modifies this
      ensures rows == WithStatus(old(rows), ActiveAmong(old(rows), org, fingerprints), RESOLVED, None)
      ensures resolved == |ActiveAmong(old(rows), org, fingerprints)|
    {
      var chosen := ActiveAmong(rows, org, fingerprints);
      rows := WithStatus(rows, chosen, RESOLVED, None);
      resolved := |chosen|;
    }

    method ArchiveSignal(id: RowId, now: int) returns (found: bool)
      modifies this
      ensures found == (id in old(rows))
      ensures rows == WithStatus(old(rows), {id}, ARCHIVED, Some(now))
      ensures rows == if id in old(rows)
                      then old(rows)[id := old(rows)[id].(status := ARCHIVED, archivedAt := Some(now))] else old(rows)
    {
      found := id in rows;
      if found {
        rows := rows[id := rows[id].(status := ARCHIVED, archivedAt := Some(now))];
      }
    }

    method ReconcileHistoricalSignals(org: string, r: Reconciliation)
      returns (result: Result<ReconcileResult, ReconcileError>)
      modifies this
      ensures !r.scanCompleted ==>
        rows == old(rows) && result == Ok(ReconcileResult(0, |Observed(r.observedFingerprints)|, 0, true))
      ensures r.scanCompleted && Unsupported(r.scope.metadata).Some? ==>
        rows == old(rows) && result == Err(UnsupportedScope(Unsupported(r.scope.metadata).value))
      ensures r.scanCompleted && Unsupported(r.scope.metadata).None? ==>
        && rows == Reconciled(old(rows), org, r)
        && result == Ok(ReconcileResult(|Scanned(old(rows), org, r)|, |Observed(r.observedFingerprints)|,
                                        |Stale(old(rows), org, r)|, false))
      ensures r.scanCompleted && result.Ok? ==> ScanApplied(old(rows), org, r, rows)
    {
      var observed := DistinctTrimmed(r.observedFingerprints);
      if !r.scanCompleted {
        return Ok(ReconcileResult(0, |observed|, 0, true));
      }
      var unsupported := Unsupported(r.scope.metadata);
      if unsupported.Some? {
        return Err(UnsupportedScope(unsupported.value));
      }
      var scanned := set id | id in rows && InScope(org, r, id, rows[id]);
      var stale := set id | id in scanned && (observed != {} ==> id.1 !in observed);
      rows := map id | id in rows :: if id in stale then Resolved(rows[id]) else rows[id];
      assert stale == Stale(old(rows), org, r);
      result := Ok(ReconcileResult(|scanned|, |observed|, |stale|, false));
      assert rows == Reconciled(old(rows), org, r);
      ReconciledTable(old(rows), org, r);
    }
  }

  method DistinctTrimmed(fingerprints: seq<string>) returns (observed: set<string>)
    ensures observed == Observed(fingerprints)
  {
    observed := {};
    for i := 0 to |fingerprints|
      invariant observed == set j | 0 <= j < i && Trim(fingerprints[j]) != "" :: Trim(fingerprints[j])
    {
      var trimmed := Trim(fingerprints[i]);
      if trimmed != "" {
        observed := observed + {trimmed};
      }
    }
  }

  /** A status written to some rows: what resolving, archiving and acknowledging do. */
  function WithStatus(rows: Rows, chosen: set<RowId>, status: SignalStatus, archivedAt: Option<int>): Rows {
    map id | id in rows :: if id in chosen then rows[id].(status := status, archivedAt := archivedAt) else rows[id]
  }

  function ActiveAmong(rows: Rows, org: string, fingerprints: seq<string>): set<RowId> {
    set id | id in rows && id.0 == org && id.1 in fingerprints && id.1 != ""
             && rows[id].status == ACTIVE && rows[id].archivedAt.None?
  }
}
