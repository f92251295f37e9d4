/** What a signal's count means over a whole run of the table. */
module SignalCounts {
  import opened Wrappers
  import opened Text
  import opened Runs
  import opened SignalFingerprints
  import opened Signals

  datatype Step =
    | Ingesting(org: string, ingest: Ingest, now: nat)
    | Writing(chosen: set<RowId>, status: SignalStatus, archivedAt: Option<Option<int>>)
    | Reconciling(org: string, r: Reconciliation)

  /** The table and everything done to it so far. */
  datatype State = State(rows: Rows, log: seq<Step>)

  const NO_SIGNALS := State(map[], [])

  /** A status, and an archive time unless it is left as it was: what every other call writes. */
  function Written(rows: Rows, chosen: set<RowId>, status: SignalStatus, archivedAt: Option<Option<int>>): Rows {
    map id | id in rows ::
      if id !in chosen then rows[id]
      else if archivedAt.None? then rows[id].(status := status)
      else rows[id].(status := status, archivedAt := archivedAt.value)
  }

  function PartsOf(s: Step): seq<string>
    requires s.Ingesting?
  {
    Parts(s.org, s.ingest.input, s.ingest.mode, ObservedAt(s.ingest, s.now))
  }

  function After(rows: Rows, s: Step): Rows {
    match s
    case Ingesting(org, ingest, now) => Ingested(rows, org, ingest, now)
    case Writing(chosen, status, archivedAt) => Written(rows, chosen, status, archivedAt)
    case Reconciling(org, r) =>
      if r.scanCompleted && Unsupported(r.scope.metadata).None? then Reconciled(rows, org, r) else rows
  }

  /** Any step, as long as what is ingested holds no separator but in the last part of a deduplicated signal. */
  ghost function Next(s: State, step: Step): Option<State> {
    if step.Ingesting? && !Readable(PartsOf(step)) then None
    else Some(State(After(s.rows, step), s.log + [step]))
  }

  predicate IngestsThis(s: Step, parts: seq<string>) {
    s.Ingesting? && s.ingest.mode == DEDUPE && PartsOf(s) == parts
  }

  /** How often a run ingested the deduplicated signal with these parts. */
  function Ingests(log: seq<Step>, parts: seq<string>): nat {
    if log == [] then 0
    else Ingests(log[..|log| - 1], parts) + if IngestsThis(log[|log| - 1], parts) then 1 else 0
  }

  function IdOf(parts: seq<string>): RowId
    requires parts != []
  {
    (parts[0], Join(parts, '|'))
  }

  ghost predicate DedupeCounted(s: State, parts: seq<string>)
    requires |parts| == 7
  {
    && (IdOf(parts) in s.rows <==> Ingests(s.log, parts) > 0)
    && (IdOf(parts) in s.rows ==> s.rows[IdOf(parts)].count == Ingests(s.log, parts))
  }

  ghost predicate EventCounted(s: State, parts: seq<string>)
    requires |parts| > 7
  {
    IdOf(parts) in s.rows ==> s.rows[IdOf(parts)].count == 1
  }

  ghost predicate Counted(s: State) {
    && (forall parts :: |parts| == 7 && Readable(parts) ==> DedupeCounted(s, parts))
    && (forall parts :: |parts| > 7 && Readable(parts) ==> EventCounted(s, parts))
  }

  lemma SameIdSameParts(a: seq<string>, b: seq<string>)
    requires a != [] && b != [] && Readable(a) && Readable(b)
    ensures IdOf(a) == IdOf(b) <==> a == b
  {
    if IdOf(a) == IdOf(b) {
      ReadableIsUnambiguous(a, b);
    }
  }

  /** An ingest counts in its own row and touches no other. */
  lemma IngestCountsInItsRow(rows: Rows, step: Step)
    requires step.Ingesting?
    ensures PartsOf(step) != [] && (|PartsOf(step)| == 7 <==> step.ingest.mode.DEDUPE?)
    ensures var id, after := IdOf(PartsOf(step)), After(rows, step);
      && after.Keys == rows.Keys + {id}
      && (forall other :: other in rows && other != id ==> after[other] == rows[other])
      && after[id].count == if id !in rows then 1 else rows[id].count + if step.ingest.mode.DEDUPE? then 1 else 0
  {
  }

  lemma LogGrows(log: seq<Step>, step: Step, parts: seq<string>)
    ensures Ingests(log + [step], parts) == Ingests(log, parts) + if IngestsThis(step, parts) then 1 else 0
  {
    assert (log + [step])[..|log|] == log;
  }

  lemma IngestIsCounted(s: State, step: Step, parts: seq<string>)
    requires Counted(s) && step.Ingesting? && Readable(PartsOf(step)) && |parts| >= 7 && Readable(parts)
    ensures var after := State(After(s.rows, step), s.log + [step]);
      if |parts| == 7 then DedupeCounted(after, parts) else EventCounted(after, parts)
  {
    IngestCountsInItsRow(s.rows, step);
    LogGrows(s.log, step, parts);
    SameIdSameParts(parts, PartsOf(step));
    assert if |parts| == 7 then DedupeCounted(s, parts) else EventCounted(s, parts);
  }

  /** Nothing but an ingest adds a row or touches a count. */
  lemma OthersKeepCounts(rows: Rows, step: Step, id: RowId)
    requires !step.Ingesting?
    ensures var after := After(rows, step);
      (id in after <==> id in rows) && (id in rows ==> after[id].count == rows[id].count)
  {
  }

  lemma OtherStepIsCounted(s: State, step: Step, parts: seq<string>)
    requires Counted(s) && !step.Ingesting? && |parts| >= 7 && Readable(parts)
    ensures var after := State(After(s.rows, step), s.log + [step]);
      if |parts| == 7 then DedupeCounted(after, parts) else EventCounted(after, parts)
  {
    OthersKeepCounts(s.rows, step, IdOf(parts));
    assert (s.log + [step])[..|s.log|] == s.log;
    assert if |parts| == 7 then DedupeCounted(s, parts) else EventCounted(s, parts);
  }

  lemma StepIsCounted(s: State, step: Step)
    requires Counted(s) && Next(s, step).Some?
    ensures Counted(Next(s, step).value)
  {
    forall parts | |parts| >= 7 && Readable(parts)
      ensures if |parts| == 7 then DedupeCounted(Next(s, step).value, parts)
        else EventCounted(Next(s, step).value, parts)
    {
      if step.Ingesting? {
        IngestIsCounted(s, step, parts);
      } else {
        OtherStepIsCounted(s, step, parts);
      }
    }
  }

  /** In every run, however statuses are written in between: a deduplicated signal has a row exactly when it was
      ingested, and the row counts its ingests; an event's row counts one. */
  lemma {:induction false} CountsAreIngests(steps: seq<Step>)
    requires Final(Next, NO_SIGNALS, steps).Some?
    ensures var end := Final(Next, NO_SIGNALS, steps).value;
      && end.log == steps
      && (forall parts :: |parts| == 7 && Readable(parts) ==> DedupeCounted(end, parts))
      && (forall parts :: |parts| > 7 && Readable(parts) ==> EventCounted(end, parts))
  {
    forall s, step | Counted(s) && Next(s, step).Some? ensures Counted(Next(s, step).value) {
      StepIsCounted(s, step);
    }
    Invariant(Next, Counted, NO_SIGNALS, steps);
    LogIsRun(NO_SIGNALS, steps);
    assert NO_SIGNALS.log + steps == steps;
  }

  lemma {:induction false} LogIsRun(s: State, steps: seq<Step>)
    ensures Final(Next, s, steps).Some? ==> Final(Next, s, steps).value.log == s.log + steps
    decreases |steps|
  {
    if steps != [] && Next(s, steps[0]).Some? {
      LogIsRun(Next(s, steps[0]).value, steps[1..]);
    }
  }

  /** With a separator inside the resource identity, after some text, the count is not what it says: two different
      signals, each ingested once, share a row that counts two. */
  lemma PipedIdentitiesShareARow(org: string, i: Ingest, before: string, after: string, t1: nat, t2: nat)
    requires i.mode == DEDUPE && Trim(before) != ""
    ensures
      var one := i.(input := i.input.(resourceIdentity := Some(before + ("|" + after))));
      var last := DedupeParts(org, i.input)[6];
      var other := i.(input := i.input.(resourceIdentity := Some(before), condition := Some(after + ("|" + last))));
      var rows := Ingested(Ingested(map[], org, one, t1), org, other, t2);
      one.input != other.input && rows.Keys == {RowIdOf(org, one, t1)} && rows[RowIdOf(org, one, t1)].count == 2
  {
    PipedIdentityCollides(org, i.input, before, after);
  }
}
