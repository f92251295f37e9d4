/** Decisions that come late. A decision is written by id, whatever the status of its row is by then: this says
    exactly when such a write can have an operation executed twice, take back an end, or leave it to nobody.
    Every other decision of the run is atomic, so the harm is this one's. */
module OperationLate {
  import opened Wrappers
  import opened Runs
  import opened OperationPolicy
  import opened OperationLifecycle
  import opened OperationSafety
  import opened OperationOnce
  import opened OperationProgress

  /** What the decision writes. */
  function Written(approve: bool): Status {
    if approve then QUEUED else REJECTED
  }

  ghost predicate RunsTwice(s: Option<State>, op: OpId) {
    s.Some? && op < |s.value.rows| && s.value.rows[op].executions >= 2
  }

  ghost predicate TakesBack(before: Option<State>, after: Option<State>, op: OpId) {
    && before.Some? && after.Some? && op < |before.value.rows| && op < |after.value.rows|
    && Terminal(before.value.rows[op].status)
    && after.value.rows[op].status != before.value.rows[op].status
  }

  /** After the decision, or between the end of `first` and that of `more`, a terminal status is changed. */
  ghost predicate TakenBack(s: State, t: State, op: OpId, first: seq<Step>, more: seq<Step>) {
    || TakesBack(Some(s), Final(AtomicNext, t, first), op)
    || TakesBack(Final(AtomicNext, t, first), Final(AtomicNext, t, first + more), op)
  }

  /** QUEUED, and nobody will ever look at it: no worker, no call, and no job but perhaps an ended one. */
  ghost predicate Abandoned(s: Option<State>, op: OpId) {
    && s.Some? && op < |s.value.rows| && s.value.rows[op].status == QUEUED
    && (op in s.value.jobs ==> s.value.jobs[op] == Ended)
    && (forall w :: !WorksOn(s.value, w, op))
    && (forall c :: !Enqueues(s.value, c, op))
  }

  /** The job's id is still known, but the job does not wait, and no worker has it. */
  ghost predicate JobIsOver(s: State, op: OpId) {
    op in s.jobs && s.jobs[op] != Waiting && forall w :: !WorksOn(s, w, op)
  }

  // ----- A QUEUED row can be claimed while a call will add its job ------------

  lemma {:induction false} Unused(ids: set<nat>) returns (id: nat)
    ensures forall i :: i in ids ==> i < id
    decreases |ids|
  {
    if ids == {} {
      id := 0;
    } else {
      var x :| x in ids;
      var rest := Unused(ids - {x});
      assert forall i :: i in ids ==> i == x || i in ids - {x};
      id := if x < rest then rest else x + 1;
    }
  }

  lemma {:induction false} JobWaits(s: State, c: CallId, op: OpId) returns (steps: seq<Step>, end: State)
    requires Enqueues(s, c, op)
    ensures Final(AtomicNext, s, steps) == Some(end)
    ensures end.rows == s.rows && end.workers == s.workers && op in end.jobs && end.jobs[op] == Waiting
  {
    if op !in s.jobs {
      steps, end := [Enqueue(c)], Apply(s, Enqueue(c));
      One(AtomicNext, s, Enqueue(c), end);
    } else if s.jobs[op] == Waiting {
      steps, end := [], s;
    } else if s.jobs[op] == Active {
      steps, end := [Redeliver(op)], Apply(s, Redeliver(op));
      One(AtomicNext, s, Redeliver(op), end);
    } else {
      var t := Apply(s, RemoveJob(op));
      steps, end := [RemoveJob(op)] + [Enqueue(c)], Apply(t, Enqueue(c));
      One(AtomicNext, t, Enqueue(c), end);
      Then(AtomicNext, s, RemoveJob(op), t, [Enqueue(c)], end);
    }
  }

  lemma {:induction false} JobIsClaimed(s: State, w: WorkerId, op: OpId) returns (end: State)
    requires op < |s.rows| && s.rows[op].status == QUEUED
    requires op in s.jobs && s.jobs[op] == Waiting && w !in s.workers
    ensures Final(AtomicNext, s, [Deliver(w, op)] + ([WorkerRead(w)] + [Claim(w)])) == Some(end)
    ensures end.rows == s.rows[op := Claimed(s.rows[op])]
    ensures end.workers == s.workers[w := Executing(op, Seen(s.rows[op].approvedBy, s.rows[op].approvedAt))]
  {
    var t := Apply(s, Deliver(w, op));
    var u := Apply(t, WorkerRead(w));
    end := Apply(u, Claim(w));
    One(AtomicNext, u, Claim(w), end);
    Then(AtomicNext, t, WorkerRead(w), u, [Claim(w)], end);
    Then(AtomicNext, s, Deliver(w, op), t, [WorkerRead(w)] + [Claim(w)], end);
  }

  lemma {:induction false} ClaimedOnceMore(s: State, c: CallId, op: OpId)
    returns (w: WorkerId, steps: seq<Step>, end: State)
    requires op < |s.rows| && s.rows[op].status == QUEUED && Enqueues(s, c, op)
    ensures Final(AtomicNext, s, steps) == Some(end) && end.rows == s.rows[op := Claimed(s.rows[op])]
    ensures w !in s.workers && w in end.workers && end.workers - {w} == s.workers
    ensures end.workers[w].Executing? && end.workers[w].op == op
  {
    var first, t := JobWaits(s, c, op);
    w := Unused(s.workers.Keys);
    end := JobIsClaimed(t, w, op);
    var second := [Deliver(w, op)] + ([WorkerRead(w)] + [Claim(w)]);
    steps := first + second;
    Concatenate(AtomicNext, s, first, second);
  }

  // ----- Executed twice -------------------------------------------------------

  /** An execution is behind the row, or one is still possible, but not both. */
  ghost predicate OneExecution(r: Row) {
    r.executions + (if r.status == PENDING_APPROVAL || r.status == QUEUED then 1 else 0) <= 1
  }

  lemma {:induction false} OneExecutionContinues(s: State, steps: seq<Step>)
    requires forall i :: 0 <= i < |s.rows| ==> OneExecution(s.rows[i])
    ensures var t := Final(AtomicNext, s, steps);
      t.Some? ==> forall i :: 0 <= i < |t.value.rows| ==> OneExecution(t.value.rows[i])
  {
    var inv := (x: State) => forall i :: 0 <= i < |x.rows| ==> OneExecution(x.rows[i]);
    forall x, e | inv(x) && AtomicNext(x, e).Some? ensures inv(AtomicNext(x, e).value) {
      RowsKeep(x, e, OneExecution);
    }
    Invariant(AtomicNext, inv, s, steps);
  }

  /** Exactly the late approvals of an operation that an executor already took up can have it executed again. */
  lemma {:induction false} DecisionExecutesTwiceExactly(s: State, c: CallId, now: int)
    requires Once(s) && Possible(s, Commit(c, now))
    ensures var op, status := s.calls[c].op, Target(s, c);
      (exists steps :: RunsTwice(Final(AtomicNext, AfterCommit(s, c, now), steps), op)) <==>
      s.calls[c].approve && (status == RUNNING || status == SUCCEEDED || status == FAILED)
  {
    var op, t := s.calls[c].op, AfterCommit(s, c, now);
    assert RowOnce(s.rows[op]);
    if s.calls[c].approve && s.rows[op].executions == 1 {
      var w, steps, end := ClaimedOnceMore(t, c, op);
      assert RunsTwice(Final(AtomicNext, t, steps), op);
    } else {
      forall i | 0 <= i < |t.rows| ensures OneExecution(t.rows[i]) {
        assert RowOnce(s.rows[i]);
      }
      forall steps ensures !RunsTwice(Final(AtomicNext, t, steps), op) {
        OneExecutionContinues(t, steps);
      }
    }
  }

  // ----- An end taken back ----------------------------------------------------

  lemma FinishesAs(s: State, w: WorkerId, succeeded: bool)
    requires Executes(s, w) && s.workers[w].op < |s.rows|
    ensures Possible(s, Finish(w, succeeded))
    ensures AfterFinish(s, w, succeeded).rows[s.workers[w].op].status == if succeeded then SUCCEEDED else FAILED
  {
  }

  /** The executor of a row that was rejected meanwhile ends it all the same. */
  lemma {:induction false} RejectionIsOverwritten(s: State, w: WorkerId, op: OpId)
    requires op < |s.rows| && Executes(s, w) && s.workers[w].op == op && s.rows[op].status == REJECTED
    ensures TakesBack(Final(AtomicNext, s, []), Final(AtomicNext, s, [] + [Finish(w, true)]), op)
  {
    assert [] + [Finish(w, true)] == [Finish(w, true)];
    FinishesAs(s, w, true);
    One(AtomicNext, s, Finish(w, true), AfterFinish(s, w, true));
  }

  /** A second executor is let in beside the first one, and each ends the row its own way. */
  lemma {:induction false} TwoEnds(s: State, c: CallId, v: WorkerId, op: OpId)
    returns (first: seq<Step>, more: seq<Step>)
    requires op < |s.rows| && s.rows[op].status == QUEUED && Enqueues(s, c, op)
    requires Executes(s, v) && s.workers[v].op == op
    ensures TakesBack(Final(AtomicNext, s, first), Final(AtomicNext, s, first + more), op)
  {
    var w, steps, t := ClaimedOnceMore(s, c, op);
    assert v in t.workers - {w};
    FinishesAs(t, v, true);
    var u := AfterFinish(t, v, true);
    FinishesAs(u, w, false);
    first, more := steps + [Finish(v, true)], [Finish(w, false)];
    One(AtomicNext, t, Finish(v, true), u);
    Concatenate(AtomicNext, s, steps, [Finish(v, true)]);
    One(AtomicNext, u, Finish(w, false), AfterFinish(u, w, false));
    Concatenate(AtomicNext, s, first, more);
  }

  lemma {:induction false} EndsStay(s: State, t: State, op: OpId, first: seq<Step>, more: seq<Step>)
    requires ExecutorsAlone(t) && op < |s.rows| && op < |t.rows|
    requires Terminal(s.rows[op].status) ==> t.rows[op].status == s.rows[op].status
    ensures !TakenBack(s, t, op, first, more)
  {
    Concatenate(AtomicNext, t, first, more);
    if Terminal(t.rows[op].status) {
      TerminalStays(t, first, op);
    }
    if Final(AtomicNext, t, first).Some? {
      var x := Final(AtomicNext, t, first).value;
      AloneContinues(t, first);
      if op < |x.rows| && Terminal(x.rows[op].status) {
        TerminalStays(x, more, op);
      }
    }
  }

  lemma {:induction false} AloneContinues(s: State, steps: seq<Step>)
    requires ExecutorsAlone(s)
    ensures Final(AtomicNext, s, steps).Some? ==> ExecutorsAlone(Final(AtomicNext, s, steps).value)
  {
    forall x, e | ExecutorsAlone(x) && AtomicNext(x, e).Some? ensures ExecutorsAlone(AtomicNext(x, e).value) {
      StepAlone(x, e);
    }
    Invariant(AtomicNext, ExecutorsAlone, s, steps);
  }

  lemma {:induction false} DecisionTakesBack(s: State, c: CallId, now: int) returns (first: seq<Step>, more: seq<Step>)
    requires Once(s) && Possible(s, Commit(c, now))
    requires (Terminal(Target(s, c)) && Target(s, c) != Written(s.calls[c].approve)) || Executed(s, s.calls[c].op)
    ensures TakenBack(s, AfterCommit(s, c, now), s.calls[c].op, first, more)
  {
    var op, t := s.calls[c].op, AfterCommit(s, c, now);
    first, more := [], [];
    if v :| WorksOn(s, v, op) && s.workers[v].Executing? {
      assert Executes(s, v) && Executes(t, v);
      if s.calls[c].approve {
        first, more := TwoEnds(t, c, v, op);
      } else {
        more := [Finish(v, true)];
        RejectionIsOverwritten(t, v, op);
      }
    }
  }

  /** A late decision can change a terminal status, at once or later, exactly when its row has ended otherwise than the
      decision writes, or an executor is at work on it. */
  lemma {:induction false} DecisionTakesBackExactly(s: State, c: CallId, now: int)
    requires Once(s) && Possible(s, Commit(c, now))
    ensures var op, status := s.calls[c].op, Target(s, c);
      (exists first, more :: TakenBack(s, AfterCommit(s, c, now), op, first, more)) <==>
      (Terminal(status) && status != Written(s.calls[c].approve)) || Executed(s, op)
  {
    var op, t, status := s.calls[c].op, AfterCommit(s, c, now), Target(s, c);
    if (Terminal(status) && status != Written(s.calls[c].approve)) || Executed(s, op) {
      var first, more := DecisionTakesBack(s, c, now);
    } else {
      forall w | Executes(s, w) ensures s.workers[w].op != op {
        assert WorksOn(s, w, s.workers[w].op);
      }
      CommitAlone(s, c, now);
      forall first, more ensures !TakenBack(s, t, op, first, more) {
        EndsStay(s, t, op, first, more);
      }
    }
  }

  // ----- Left to nobody -------------------------------------------------------

  /** The job of the ended operation ends too, and adding it again does nothing. */
  lemma {:induction false} ApprovalAbandons(s: State, c: CallId, now: int) returns (steps: seq<Step>)
    requires Calm(s) && Possible(s, Commit(c, now)) && s.calls[c].approve && Terminal(Target(s, c))
    requires JobIsOver(s, s.calls[c].op)
    ensures Abandoned(Final(CalmNext, AfterCommit(s, c, now), steps), s.calls[c].op)
  {
    var op, t := s.calls[c].op, AfterCommit(s, c, now);
    var u := if t.jobs[op] == Active then Apply(t, EndJob(op)) else t;
    forall w ensures !WorksOn(t, w, op) {
      assert !WorksOn(s, w, op);
    }
    var end := Apply(u, Enqueue(c));
    One(CalmNext, u, Enqueue(c), end);
    if t.jobs[op] == Active {
      Then(CalmNext, t, EndJob(op), u, [Enqueue(c)], end);
    }
    steps := (if t.jobs[op] == Active then [EndJob(op)] else []) + [Enqueue(c)];
    assert [] + [Enqueue(c)] == [Enqueue(c)];
    forall w ensures !WorksOn(end, w, op) {
      assert !WorksOn(t, w, op);
    }
    forall d ensures !Enqueues(end, d, op) {
      assert !Enqueues(s, d, op);
    }
  }

  /** A written decision leaves every operation in hand, unless it queues an ended one whose job is no longer
      to come. */
  lemma CommitKeeps(s: State, c: CallId, now: int)
    requires Calm(s) && Possible(s, Commit(c, now))
    requires s.calls[c].approve && Terminal(Target(s, c)) ==> !JobIsOver(s, s.calls[c].op)
    ensures Kept(AfterCommit(s, c, now))
  {
    var op, t := s.calls[c].op, AfterCommit(s, c, now);
    forall d, o: OpId | Enqueues(t, d, o) && d != c ensures Enqueues(s, d, o) {
    }
    forall w, o: OpId ensures WorksOn(t, w, o) <==> WorksOn(s, w, o) {
    }
    forall o: OpId | Executed(s, o) ensures Executed(t, o) {
      KeepsExecuted(s, t, o);
    }
    forall o: OpId | Covered(s, o) ensures Covered(t, o) {
      if w :| WorksOn(s, w, o) && !s.workers[w].Executing? {
        assert WorksOn(t, w, o);
      } else if d :| Enqueues(s, d, o) {
        assert Enqueues(t, d, o);
      }
    }
    if s.calls[c].approve {
      assert Enqueues(t, c, op);
      if w :| WorksOn(s, w, op) {
        assert WorksOn(t, w, op);
      }
    }
  }

  /** In a calm run a late decision can leave an operation QUEUED with nobody to run it exactly when it approves an
      ended one whose job is still known, does not wait, and is in no worker's hands. */
  lemma {:induction false} DecisionAbandonsExactly(s: State, c: CallId, now: int)
    requires Calm(s) && Possible(s, Commit(c, now))
    ensures var op := s.calls[c].op;
      (exists steps :: Abandoned(Final(CalmNext, AfterCommit(s, c, now), steps), op)) <==>
      s.calls[c].approve && Terminal(Target(s, c)) && JobIsOver(s, op)
  {
    var op, t := s.calls[c].op, AfterCommit(s, c, now);
    if s.calls[c].approve && Terminal(Target(s, c)) && JobIsOver(s, op) {
      var steps := ApprovalAbandons(s, c, now);
      assert exists more :: Abandoned(Final(CalmNext, AfterCommit(s, c, now), more), op);
    } else {
      CommitKeeps(s, c, now);
      forall steps ensures !Abandoned(Final(CalmNext, t, steps), op) {
        KeptContinues(t, steps);
      }
    }
  }

  lemma NobodyComes(s: State, e: Step, op: OpId)
    requires Abandoned(Some(s), op) && AtomicNext(s, e).Some?
    ensures forall w :: !WorksOn(Apply(s, e), w, op)
    ensures forall c :: !Enqueues(Apply(s, e), c, op)
  {
    var t := Apply(s, e);
    forall w ensures !WorksOn(t, w, op) {
      assert !WorksOn(s, w, op);
    }
    forall c ensures !Enqueues(t, c, op) {
      assert !Enqueues(s, c, op);
    }
  }

  lemma AbandonedStep(s: State, e: Step, op: OpId)
    requires Abandoned(Some(s), op) && AtomicNext(s, e).Some?
    ensures Abandoned(AtomicNext(s, e), op)
  {
    NobodyComes(s, e, op);
    match e
    case Enqueue(c) => assert !Enqueues(s, c, op);
    case Claim(w) => assert !WorksOn(s, w, op);
    case Finish(w, _) => assert !WorksOn(s, w, op);
    case _ =>
  }

  /** Nobody ever comes back to it. */
  lemma {:induction false} AbandonedForGood(s: State, steps: seq<Step>, op: OpId)
    requires Abandoned(Some(s), op) && Final(AtomicNext, s, steps).Some?
    ensures Abandoned(Final(AtomicNext, s, steps), op)
  {
    var inv := (x: State) => Abandoned(Some(x), op);
    forall x, e | inv(x) && AtomicNext(x, e).Some? ensures inv(AtomicNext(x, e).value) {
      AbandonedStep(x, e, op);
    }
    Invariant(AtomicNext, inv, s, steps);
  }
}
