/** What holds of operations when a decision is atomic: no approval or rejection is written to a row that is
    no longer pending. */
module OperationOnce {
  import opened Wrappers
  import opened Runs
  import opened OperationPolicy
  import opened OperationLifecycle
  import opened OperationSafety

  /** The row that a decision is written to. */
  function Target(s: State, c: CallId): Status
    requires c in s.calls && s.calls[c].op < |s.rows|
  {
    s.rows[s.calls[c].op].status
  }

  /** A decision finds its row still pending when it writes. */
  ghost function AtomicNext(s: State, e: Step): Option<State> {
    if !Possible(s, e) then None
    else if e.Commit? && Target(s, e.call) != PENDING_APPROVAL then None
    else Some(Apply(s, e))
  }

  predicate Terminal(status: Status) {
    status == SUCCEEDED || status == FAILED || status == REJECTED
  }

  function Rank(status: Status): nat {
    match status
    case PENDING_APPROVAL => 3
    case QUEUED => 2
    case RUNNING => 1
    case _ => 0
  }

  // ----- The invariant --------------------------------------------------------

  ghost predicate RowOnce(r: Row) {
    && r.queuedWrites <= 1
    && r.executions + (if r.status == QUEUED then 1 else 0) == r.queuedWrites
    && (r.status == PENDING_APPROVAL || r.status == REJECTED <==> r.queuedWrites == 0)
    && r.changes + Rank(r.status) <= 3
  }

  ghost predicate Executes(s: State, w: WorkerId) {
    w in s.workers && s.workers[w].Executing?
  }

  /** An executor's row is RUNNING, and no other executor works on it. */
  ghost predicate ExecutorsAlone(s: State) {
    && (forall w :: Executes(s, w) ==> s.workers[w].op < |s.rows| && s.rows[s.workers[w].op].status == RUNNING)
    && (forall v, w :: Executes(s, v) && Executes(s, w) && s.workers[v].op == s.workers[w].op ==> v == w)
  }

  ghost predicate RowsOnce(s: State) {
    (forall i :: 0 <= i < |s.rows| ==> RowOnce(s.rows[i])) && ExecutorsAlone(s)
  }

  ghost predicate Once(s: State) {
    Safe(s) && RowsOnce(s)
  }

  /** What a step may do to the statuses: each stays or goes down, and a change is counted. */
  ghost predicate Falls(before: Row, after: Row) {
    && (after.status == before.status || Rank(after.status) < Rank(before.status))
    && after.changes == before.changes + (if after.status == before.status then 0 else 1)
  }

  ghost predicate AllFall(rows: seq<Row>, after: seq<Row>) {
    |rows| <= |after| && forall i :: 0 <= i < |rows| ==> Falls(rows[i], after[i])
  }

  // ----- Statuses only fall, and executors stay alone -------------------------

  lemma CreateAlone(s: State, c: CallId, r: Request)
    requires ExecutorsAlone(s) && c !in s.calls
    ensures ExecutorsAlone(AfterCreate(s, c, r)) && AllFall(s.rows, AfterCreate(s, c, r).rows)
  {
  }

  lemma CheckAlone(s: State, c: CallId)
    requires ExecutorsAlone(s) && Possible(s, CheckRole(c))
    ensures ExecutorsAlone(AfterCheckRole(s, c)) && AllFall(s.rows, AfterCheckRole(s, c).rows)
  {
  }

  /** A row that no executor works on is rewritten. */
  lemma RewriteAlone(s: State, op: OpId, after: Row, calls: map<CallId, Call>)
    requires ExecutorsAlone(s) && op < |s.rows|
    requires forall w :: Executes(s, w) ==> s.workers[w].op != op
    ensures ExecutorsAlone(s.(rows := s.rows[op := after], calls := calls))
  {
    var t := s.(rows := s.rows[op := after], calls := calls);
    forall w | Executes(t, w) ensures t.workers[w].op < |t.rows| && t.rows[t.workers[w].op].status == RUNNING {
      assert Executes(s, w);
    }
    forall v, w | Executes(t, v) && Executes(t, w) && t.workers[v].op == t.workers[w].op ensures v == w {
      assert Executes(s, v) && Executes(s, w);
    }
  }

  lemma CommitAlone(s: State, c: CallId, now: int)
    requires ExecutorsAlone(s) && Possible(s, Commit(c, now))
    requires forall w :: Executes(s, w) ==> s.workers[w].op != s.calls[c].op
    ensures ExecutorsAlone(AfterCommit(s, c, now))
    ensures Target(s, c) == PENDING_APPROVAL ==> AllFall(s.rows, AfterCommit(s, c, now).rows)
  {
    var d := s.calls[c];
    if d.approve {
      RewriteAlone(s, d.op, Approved(s.rows[d.op], d.user, now), s.calls[c := Enqueueing(d.op)]);
    } else {
      RewriteAlone(s, d.op, Rejected(s.rows[d.op], d.user), s.calls - {c});
    }
  }

  lemma ClaimAlone(s: State, w: WorkerId)
    requires ExecutorsAlone(s) && Possible(s, Claim(w))
    ensures ExecutorsAlone(AfterClaim(s, w)) && AllFall(s.rows, AfterClaim(s, w).rows)
  {
    var t := AfterClaim(s, w);
    forall v | Executes(t, v) && v != w ensures Executes(s, v) {
    }
  }

  lemma FinishAlone(s: State, w: WorkerId, succeeded: bool)
    requires ExecutorsAlone(s) && Possible(s, Finish(w, succeeded))
    ensures ExecutorsAlone(AfterFinish(s, w, succeeded)) && AllFall(s.rows, AfterFinish(s, w, succeeded).rows)
  {
    var t := AfterFinish(s, w, succeeded);
    assert Executes(s, w);
    forall v | Executes(t, v) ensures Executes(s, v) && v != w {
    }
  }

  /** Every other step leaves the rows alone and starts no executor. */
  lemma OtherAlone(s: State, e: Step)
    requires ExecutorsAlone(s) && Possible(s, e)
    requires !e.Create? && !e.CheckRole? && !e.Commit? && !e.Claim? && !e.Finish?
    ensures ExecutorsAlone(Apply(s, e)) && Apply(s, e).rows == s.rows
  {
    forall v | Executes(Apply(s, e), v) ensures Executes(s, v) {
    }
  }

  lemma StepAlone(s: State, e: Step)
    requires ExecutorsAlone(s) && AtomicNext(s, e).Some?
    ensures ExecutorsAlone(AtomicNext(s, e).value) && AllFall(s.rows, AtomicNext(s, e).value.rows)
  {
    match e
    case Create(c, r) => CreateAlone(s, c, r);
    case CheckRole(c) => CheckAlone(s, c);
    case Commit(c, now) => CommitAlone(s, c, now);
    case Claim(w) => ClaimAlone(s, w);
    case Finish(w, succeeded) => FinishAlone(s, w, succeeded);
    case _ => OtherAlone(s, e);
  }

  // ----- What is kept row by row ----------------------------------------------

  lemma OthersLeaveRows(s: State, e: Step)
    requires Possible(s, e) && !e.Create? && !e.CheckRole? && !e.Commit? && !e.Claim? && !e.Finish?
    ensures Apply(s, e).rows == s.rows
  {
  }

  /** What new rows have and the writes of an atomic run keep, every row keeps. */
  lemma RowsKeep(s: State, e: Step, keeps: Row -> bool)
    requires AtomicNext(s, e).Some? && forall i :: 0 <= i < |s.rows| ==> keeps(s.rows[i])
    requires forall r, role :: keeps(NewRow(r, role))
    requires forall row: Row, after: Row :: keeps(row) && after == row.(grants := after.grants) ==> keeps(after)
    requires forall row, user, now :: keeps(row) && row.status == PENDING_APPROVAL ==> keeps(Approved(row, user, now))
    requires forall row, user :: keeps(row) && row.status == PENDING_APPROVAL ==> keeps(Rejected(row, user))
    requires forall row :: keeps(row) && row.status == QUEUED ==> keeps(Claimed(row))
    requires e.Finish? ==> forall status ::
      status == SUCCEEDED || status == FAILED ==> keeps(WithStatus(s.rows[s.workers[e.worker].op], status))
    ensures forall i :: 0 <= i < |AtomicNext(s, e).value.rows| ==> keeps(AtomicNext(s, e).value.rows[i])
  {
    if !e.Create? && !e.CheckRole? && !e.Commit? && !e.Claim? && !e.Finish? {
      OthersLeaveRows(s, e);
    }
  }

  lemma FinishedOnce(s: State, w: WorkerId, status: Status)
    requires RowsOnce(s) && Executes(s, w) && (status == SUCCEEDED || status == FAILED)
    ensures RowOnce(WithStatus(s.rows[s.workers[w].op], status))
  {
    assert RowOnce(s.rows[s.workers[w].op]);
  }

  lemma RowsStayOnce(s: State, e: Step)
    requires RowsOnce(s) && AtomicNext(s, e).Some?
    ensures forall i :: 0 <= i < |AtomicNext(s, e).value.rows| ==> RowOnce(AtomicNext(s, e).value.rows[i])
  {
    if e.Finish? {
      FinishedOnce(s, e.worker, SUCCEEDED);
      FinishedOnce(s, e.worker, FAILED);
    }
    RowsKeep(s, e, RowOnce);
  }

  lemma StepOnce(s: State, e: Step)
    requires Once(s) && AtomicNext(s, e).Some?
    ensures Once(AtomicNext(s, e).value)
  {
    StepIsSafe(s, e);
    StepAlone(s, e);
    RowsStayOnce(s, e);
  }

  lemma {:induction false} EveryAtomicRun(steps: seq<Step>)
    ensures Final(AtomicNext, EMPTY, steps).Some? ==> Once(Final(AtomicNext, EMPTY, steps).value)
  {
    forall s, e | Once(s) && AtomicNext(s, e).Some? ensures Once(AtomicNext(s, e).value) {
      StepOnce(s, e);
    }
    Invariant(AtomicNext, Once, EMPTY, steps);
  }

  /** With decisions atomic, under any interleaving, duplicate delivery, retry and crash, an operation is executed at
      most once, and the executor is alone with it while it runs. */
  lemma {:induction false} ExecutedAtMostOnce(steps: seq<Step>, op: OpId)
    requires Final(AtomicNext, EMPTY, steps).Some? && op < |Final(AtomicNext, EMPTY, steps).value.rows|
    ensures var s := Final(AtomicNext, EMPTY, steps).value;
      && s.rows[op].executions <= 1
      && (forall v, w :: Executes(s, v) && Executes(s, w) && s.workers[v].op == s.workers[w].op ==> v == w)
  {
    EveryAtomicRun(steps);
    assert RowOnce(Final(AtomicNext, EMPTY, steps).value.rows[op]);
  }

  lemma {:induction false} TerminalStays(s: State, more: seq<Step>, op: OpId)
    requires ExecutorsAlone(s) && op < |s.rows| && Terminal(s.rows[op].status)
    ensures var t := Final(AtomicNext, s, more);
      t.Some? ==> op < |t.value.rows| && t.value.rows[op].status == s.rows[op].status
  {
    var status := s.rows[op].status;
    var stays := (x: State) => ExecutorsAlone(x) && op < |x.rows| && x.rows[op].status == status;
    forall x, e | stays(x) && AtomicNext(x, e).Some? ensures stays(AtomicNext(x, e).value) {
      StepAlone(x, e);
      assert Falls(x.rows[op], AtomicNext(x, e).value.rows[op]);
    }
    Invariant(AtomicNext, stays, s, more);
  }

  /** A terminal status never changes again, however the run goes on. */
  lemma {:induction false} TerminalIsFinal(steps: seq<Step>, more: seq<Step>, op: OpId)
    requires Final(AtomicNext, EMPTY, steps + more).Some?
    ensures Final(AtomicNext, EMPTY, steps).Some?
    ensures
      var s, t := Final(AtomicNext, EMPTY, steps).value, Final(AtomicNext, EMPTY, steps + more).value;
      op < |s.rows| && Terminal(s.rows[op].status) ==> op < |t.rows| && t.rows[op].status == s.rows[op].status
  {
    Concatenate(AtomicNext, EMPTY, steps, more);
    EveryAtomicRun(steps);
    var s := Final(AtomicNext, EMPTY, steps).value;
    if op < |s.rows| && Terminal(s.rows[op].status) {
      TerminalStays(s, more, op);
    }
  }

  function TotalChanges(rows: seq<Row>): nat {
    if rows == [] then 0 else TotalChanges(rows[..|rows| - 1]) + rows[|rows| - 1].changes
  }

  lemma {:induction false} ChangesAreBounded(rows: seq<Row>)
    requires forall i :: 0 <= i < |rows| ==> RowOnce(rows[i])
    ensures TotalChanges(rows) <= 3 * |rows|
  {
    if rows != [] {
      ChangesAreBounded(rows[..|rows| - 1]);
    }
  }

  /** Every step of an atomic run lowers the rank of each status it changes, so a run over n operations changes
      statuses at most 3n times. */
  lemma {:induction false} RunsChangeLittle(steps: seq<Step>, e: Step)
    requires Final(AtomicNext, EMPTY, steps).Some?
    ensures var s := Final(AtomicNext, EMPTY, steps).value;
      && TotalChanges(s.rows) <= 3 * |s.rows|
      && (AtomicNext(s, e).Some? ==> AllFall(s.rows, AtomicNext(s, e).value.rows))
  {
    EveryAtomicRun(steps);
    var s := Final(AtomicNext, EMPTY, steps).value;
    ChangesAreBounded(s.rows);
    if AtomicNext(s, e).Some? {
      StepAlone(s, e);
    }
  }
}
