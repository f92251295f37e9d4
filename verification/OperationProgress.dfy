/** Without crashes and storage failures no queued operation is forgotten; with overlapping decisions one is
    executed twice, or forgotten. */
module OperationProgress {
  import opened Wrappers
  import opened Runs
  import opened OperationPolicy
  import opened OperationLifecycle
  import opened OperationOnce

  ghost predicate WorksOn(s: State, w: WorkerId, op: OpId) {
    w in s.workers && s.workers[w].op == op
  }

  ghost predicate Enqueues(s: State, c: CallId, op: OpId) {
    c in s.calls && s.calls[c] == Enqueueing(op)
  }

  /** Decisions are atomic, no worker crashes, no call ends between its commit and its enqueue, and a job ends only
      after its workers did. Jobs may still be delivered again. */
  ghost function CalmNext(s: State, e: Step): Option<State> {
    if e.Crash? then None
    else if e.EndCall? && e.call in s.calls && s.calls[e.call].Enqueueing? then None
    else if e.EndJob? && (exists w :: WorksOn(s, w, e.op)) then None
    else AtomicNext(s, e)
  }

  /** Somebody still has the operation in hand: its job waits, a worker has not claimed it yet, or a call will add
      its job. */
  ghost predicate Covered(s: State, op: OpId) {
    || (op in s.jobs && s.jobs[op] == Waiting)
    || (exists w :: WorksOn(s, w, op) && !s.workers[w].Executing?)
    || (op !in s.jobs && exists c :: Enqueues(s, c, op))
  }

  ghost predicate Executed(s: State, op: OpId) {
    exists w :: WorksOn(s, w, op) && s.workers[w].Executing?
  }

  ghost predicate CallsCalm(s: State) {
    && (forall c, op: OpId :: Enqueues(s, c, op) ==> op < |s.rows| && s.rows[op].status == QUEUED && op !in s.jobs)
    && (forall c, op: OpId, w :: Enqueues(s, c, op) ==> !WorksOn(s, w, op))
    && (forall c, d, op: OpId :: Enqueues(s, c, op) && Enqueues(s, d, op) ==> c == d)
  }

  ghost predicate Undecided(s: State, op: OpId) {
    op < |s.rows| ==> s.rows[op].status == PENDING_APPROVAL
  }

  /** A pending operation is in nobody's hands, a QUEUED or RUNNING one is in somebody's. */
  ghost predicate Kept(s: State) {
    && (forall op: OpId :: op in s.jobs ==> !Undecided(s, op))
    && (forall w, op: OpId :: WorksOn(s, w, op) ==> !Undecided(s, op))
    && (forall c, op: OpId :: Enqueues(s, c, op) ==> !Undecided(s, op))
    && (forall op: OpId :: op < |s.rows| && s.rows[op].status == QUEUED ==> Covered(s, op) || Executed(s, op))
    && (forall op: OpId :: op < |s.rows| && s.rows[op].status == RUNNING ==> Executed(s, op))
  }

  ghost predicate Calm(s: State) {
    Kept(s) && CallsCalm(s)
  }

  /** A step keeps operations in hand, and keeps the calls calm when they were. */
  ghost predicate StaysCalm(s: State, t: State) {
    Kept(t) && (CallsCalm(s) ==> CallsCalm(t))
  }

  /** A step that takes nothing away keeps what was covered. */
  lemma KeepsCover(s: State, t: State)
    requires forall op: OpId :: op in s.jobs && s.jobs[op] == Waiting ==> op in t.jobs && t.jobs[op] == Waiting
    requires t.workers == s.workers && t.jobs.Keys <= s.jobs.Keys
    requires forall c :: c in s.calls && s.calls[c].Enqueueing? ==> c in t.calls && t.calls[c] == s.calls[c]
    ensures forall op: OpId :: Covered(s, op) ==> Covered(t, op)
    ensures forall op: OpId :: Executed(s, op) ==> Executed(t, op)
  {
    forall op: OpId | Executed(s, op) ensures Executed(t, op) {
      var w :| WorksOn(s, w, op) && s.workers[w].Executing?;
      assert WorksOn(t, w, op);
    }
    forall op: OpId | Covered(s, op) ensures Covered(t, op) {
      if w :| WorksOn(s, w, op) && !s.workers[w].Executing? {
        assert WorksOn(t, w, op);
      } else if op !in s.jobs {
        var c :| Enqueues(s, c, op);
        assert Enqueues(t, c, op) && op !in t.jobs;
      }
    }
  }

  /** Executors that go on keep what was executed. */
  lemma KeepsExecuted(s: State, t: State, op: OpId)
    requires Executed(s, op)
    requires forall w :: WorksOn(s, w, op) && s.workers[w].Executing? ==> w in t.workers && t.workers[w] == s.workers[w]
    ensures Executed(t, op)
  {
    var w :| WorksOn(s, w, op) && s.workers[w].Executing?;
    assert WorksOn(t, w, op);
  }

  /** A new row, and the call that may enqueue it. */
  lemma AppendCalm(s: State, row: Row, c: CallId)
    requires Kept(s) && c !in s.calls
    ensures row.status == QUEUED ==>
      StaysCalm(s, s.(rows := s.rows + [row], calls := s.calls[c := Enqueueing(|s.rows|)]))
    ensures row.status == PENDING_APPROVAL ==> StaysCalm(s, s.(rows := s.rows + [row]))
  {
    var t := s.(rows := s.rows + [row]);
    var u := t.(calls := s.calls[c := Enqueueing(|s.rows|)]);
    KeepsCover(s, t);
    KeepsCover(s, u);
    assert Enqueues(u, c, |s.rows|);
    forall d, op: OpId | Enqueues(u, d, op) && d != c ensures Enqueues(s, d, op) {
    }
    forall d, op: OpId ensures Enqueues(t, d, op) <==> Enqueues(s, d, op) {
    }
    forall w, op: OpId
      ensures (WorksOn(t, w, op) <==> WorksOn(s, w, op)) && (WorksOn(u, w, op) <==> WorksOn(s, w, op))
    {
    }
  }

  lemma CreateCalm(s: State, c: CallId, r: Request)
    requires Kept(s) && c !in s.calls
    ensures StaysCalm(s, AfterCreate(s, c, r))
  {
    if Admitted(s, r) {
      AppendCalm(s, NewRow(r, RoleOf(s, r.org, r.user).value), c);
    }
  }

  /** A decision on a pending row: nobody works on it, and nobody enqueues it but an approving call. */
  lemma ApproveCalm(s: State, c: CallId, op: OpId, row: Row)
    requires Kept(s) && c in s.calls && s.calls[c].Deciding? && op < |s.rows|
    requires s.rows[op].status == PENDING_APPROVAL && row.status == QUEUED
    ensures StaysCalm(s, s.(rows := s.rows[op := row], calls := s.calls[c := Enqueueing(op)]))
  {
    var t := s.(rows := s.rows[op := row], calls := s.calls[c := Enqueueing(op)]);
    KeepsCover(s, t);
    assert Enqueues(t, c, op);
    forall d, o: OpId | Enqueues(t, d, o) && d != c ensures Enqueues(s, d, o) {
    }
    forall w, o: OpId ensures WorksOn(t, w, o) <==> WorksOn(s, w, o) {
    }
  }

  lemma RejectCalm(s: State, c: CallId, op: OpId, row: Row)
    requires Kept(s) && c in s.calls && s.calls[c].Deciding? && op < |s.rows|
    requires s.rows[op].status == PENDING_APPROVAL && row.status == REJECTED
    ensures StaysCalm(s, s.(rows := s.rows[op := row], calls := s.calls - {c}))
  {
    var t := s.(rows := s.rows[op := row], calls := s.calls - {c});
    KeepsCover(s, t);
    forall d, o: OpId ensures Enqueues(t, d, o) <==> Enqueues(s, d, o) {
    }
    forall w, o: OpId ensures WorksOn(t, w, o) <==> WorksOn(s, w, o) {
    }
  }

  lemma CommitCalm(s: State, c: CallId, now: int)
    requires Kept(s) && Possible(s, Commit(c, now)) && Target(s, c) == PENDING_APPROVAL
    ensures StaysCalm(s, AfterCommit(s, c, now))
  {
    var d := s.calls[c];
    if d.approve {
      ApproveCalm(s, c, d.op, Approved(s.rows[d.op], d.user, now));
    } else {
      RejectCalm(s, c, d.op, Rejected(s.rows[d.op], d.user));
    }
  }

  lemma EnqueueCalm(s: State, c: CallId)
    requires Kept(s) && Possible(s, Enqueue(c))
    ensures StaysCalm(s, AfterEnqueue(s, c))
  {
    var t := AfterEnqueue(s, c);
    forall o: OpId | Executed(s, o) ensures Executed(t, o) {
      KeepsExecuted(s, t, o);
    }
    var op := s.calls[c].op;
    assert Enqueues(s, c, op);
    forall o: OpId | Covered(s, o) ensures Covered(t, o) {
      if w :| WorksOn(s, w, o) && !s.workers[w].Executing? {
        assert WorksOn(t, w, o);
      } else if d :| Enqueues(s, d, o) && d != c {
        assert Enqueues(t, d, o);
      }
    }
    forall d, o: OpId | Enqueues(t, d, o) ensures Enqueues(s, d, o) && (CallsCalm(s) ==> o != op) {
      assert Enqueues(s, d, o);
    }
    forall w, o: OpId ensures WorksOn(t, w, o) <==> WorksOn(s, w, o) {
    }
  }

  lemma DeliverCalm(s: State, w: WorkerId, op: OpId)
    requires Kept(s) && Possible(s, Deliver(w, op))
    ensures StaysCalm(s, Apply(s, Deliver(w, op)))
  {
    var t := Apply(s, Deliver(w, op));
    forall o: OpId | Executed(s, o) ensures Executed(t, o) {
      KeepsExecuted(s, t, o);
    }
    assert WorksOn(t, w, op);
    forall o: OpId | Covered(s, o) ensures Covered(t, o) {
      if v :| WorksOn(s, v, o) && !s.workers[v].Executing? {
        assert WorksOn(t, v, o);
      } else if d :| Enqueues(s, d, o) {
        assert Enqueues(t, d, o);
      }
    }
    forall d, o: OpId ensures Enqueues(t, d, o) <==> Enqueues(s, d, o) {
    }
    forall v, o: OpId | WorksOn(t, v, o) && v != w ensures WorksOn(s, v, o) {
    }
  }

  lemma WorkerReadCalm(s: State, w: WorkerId)
    requires Kept(s) && Possible(s, WorkerRead(w))
    ensures StaysCalm(s, AfterWorkerRead(s, w))
  {
    var t := AfterWorkerRead(s, w);
    forall o: OpId | Executed(s, o) ensures Executed(t, o) {
      KeepsExecuted(s, t, o);
    }
    var op := s.workers[w].op;
    forall o: OpId | Covered(s, o) && s.rows[o].status == QUEUED && o < |s.rows| ensures Covered(t, o) {
      if v :| WorksOn(s, v, o) && !s.workers[v].Executing? {
        assert WorksOn(t, v, o);
      } else if d :| Enqueues(s, d, o) {
        assert Enqueues(t, d, o);
      }
    }
    forall d, o: OpId ensures Enqueues(t, d, o) <==> Enqueues(s, d, o) {
    }
    forall v, o: OpId | WorksOn(t, v, o) ensures WorksOn(s, v, o) {
    }
  }

  /** A worker writes the row it works on, so that is no longer QUEUED. */
  lemma WorkerWritesCalm(s: State, w: WorkerId, after: Row, workers: map<WorkerId, Worker>)
    requires Kept(s) && w in s.workers && s.workers[w].op < |s.rows|
    requires after.status != QUEUED && after.status != PENDING_APPROVAL
    requires after.status == RUNNING ==> w in workers && workers[w].Executing?
    requires forall v :: v in workers ==> v in s.workers && workers[v].op == s.workers[v].op
    requires forall v :: v in s.workers && v != w ==> v in workers && workers[v] == s.workers[v]
    ensures StaysCalm(s, s.(rows := s.rows[s.workers[w].op := after], workers := workers))
  {
    var op := s.workers[w].op;
    var t := s.(rows := s.rows[op := after], workers := workers);
    assert WorksOn(s, w, op);
    if after.status == RUNNING {
      assert WorksOn(t, w, op);
    }
    forall o: OpId | Executed(s, o) && o != op ensures Executed(t, o) {
      KeepsExecuted(s, t, o);
    }
    forall o: OpId | Covered(s, o) && o != op ensures Covered(t, o) {
      if v :| WorksOn(s, v, o) && !s.workers[v].Executing? {
        assert WorksOn(t, v, o);
      } else if d :| Enqueues(s, d, o) {
        assert Enqueues(t, d, o);
      }
    }
    forall d, o: OpId ensures Enqueues(t, d, o) <==> Enqueues(s, d, o) {
    }
    forall v, o: OpId | WorksOn(t, v, o) ensures WorksOn(s, v, o) {
    }
  }

  /** A worker whose row is not QUEUED goes away. */
  lemma WorkerLeavesCalm(s: State, w: WorkerId)
    requires Kept(s) && w in s.workers && !s.workers[w].Executing?
    requires s.workers[w].op < |s.rows| && s.rows[s.workers[w].op].status != QUEUED
    ensures StaysCalm(s, s.(workers := s.workers - {w}))
  {
    var t := s.(workers := s.workers - {w});
    forall o: OpId | Executed(s, o) ensures Executed(t, o) {
      KeepsExecuted(s, t, o);
    }
    forall o: OpId | Covered(s, o) && o < |s.rows| && s.rows[o].status == QUEUED ensures Covered(t, o) {
      if v :| WorksOn(s, v, o) && !s.workers[v].Executing? {
        assert WorksOn(t, v, o);
      } else if d :| Enqueues(s, d, o) {
        assert Enqueues(t, d, o);
      }
    }
    forall d, o: OpId ensures Enqueues(t, d, o) <==> Enqueues(s, d, o) {
    }
    forall v, o: OpId | WorksOn(t, v, o) ensures WorksOn(s, v, o) {
    }
  }

  lemma ClaimCalm(s: State, w: WorkerId)
    requires Kept(s) && Possible(s, Claim(w))
    ensures StaysCalm(s, AfterClaim(s, w))
  {
    var Claiming(op, seen) := s.workers[w];
    if s.rows[op].status == QUEUED {
      WorkerWritesCalm(s, w, Claimed(s.rows[op]), s.workers[w := Executing(op, seen)]);
    } else {
      WorkerLeavesCalm(s, w);
    }
  }

  lemma FinishCalm(s: State, w: WorkerId, succeeded: bool)
    requires Kept(s) && Possible(s, Finish(w, succeeded))
    ensures StaysCalm(s, AfterFinish(s, w, succeeded))
  {
    var row := s.rows[s.workers[w].op];
    WorkerWritesCalm(s, w, WithStatus(row, if succeeded then SUCCEEDED else FAILED), s.workers - {w});
  }

  /** Steps that only move a job or a call that enqueues nothing. */
  lemma JobCalm(s: State, jobs: map<OpId, Job>)
    requires Kept(s) && jobs.Keys <= s.jobs.Keys
    requires forall op: OpId :: op in s.jobs && s.jobs[op] == Waiting ==> op in jobs && jobs[op] == Waiting
    ensures StaysCalm(s, s.(jobs := jobs))
  {
    var t := s.(jobs := jobs);
    KeepsCover(s, t);
    forall op: OpId | op in jobs ensures op in s.jobs {
    }
    forall d, o: OpId ensures Enqueues(t, d, o) <==> Enqueues(s, d, o) {
    }
    forall v, o: OpId ensures WorksOn(t, v, o) <==> WorksOn(s, v, o) {
    }
  }

  lemma CallCalm(s: State, rows: seq<Row>, calls: map<CallId, Call>)
    requires Kept(s) && |rows| == |s.rows|
    requires forall i :: 0 <= i < |rows| ==> rows[i].status == s.rows[i].status
    requires forall c :: c in calls && calls[c].Enqueueing? ==> c in s.calls && s.calls[c] == calls[c]
    requires forall c :: c in s.calls && s.calls[c].Enqueueing? ==> c in calls && s.calls[c] == calls[c]
    ensures StaysCalm(s, s.(rows := rows, calls := calls))
  {
    var t := s.(rows := rows, calls := calls);
    KeepsCover(s, t);
    forall d, o: OpId ensures Enqueues(t, d, o) <==> Enqueues(s, d, o) {
    }
    forall v, o: OpId ensures WorksOn(t, v, o) <==> WorksOn(s, v, o) {
    }
  }

  lemma RolesCalm(s: State, roles: map<(string, User), Role>)
    requires Kept(s)
    ensures StaysCalm(s, s.(roles := roles))
  {
    var t := s.(roles := roles);
    KeepsCover(s, t);
    forall d, o: OpId ensures Enqueues(t, d, o) <==> Enqueues(s, d, o) {
    }
    forall v, o: OpId ensures WorksOn(t, v, o) <==> WorksOn(s, v, o) {
    }
  }

  lemma CallStepCalm(s: State, e: Step)
    requires Kept(s) && CalmNext(s, e).Some? && (e.ReadPending? || e.CheckRole? || e.EndCall?)
    ensures StaysCalm(s, CalmNext(s, e).value)
  {
    var t := Apply(s, e);
    CallCalm(s, t.rows, t.calls);
  }

  lemma JobStepCalm(s: State, e: Step)
    requires Kept(s) && CalmNext(s, e).Some? && (e.Redeliver? || e.EndJob? || e.RemoveJob?)
    ensures StaysCalm(s, CalmNext(s, e).value)
  {
    JobCalm(s, Apply(s, e).jobs);
  }

  lemma StepCalm(s: State, e: Step)
    requires Kept(s) && CalmNext(s, e).Some?
    ensures StaysCalm(s, CalmNext(s, e).value)
  {
    match e
    case SetRole(_, _, _) => RolesCalm(s, Apply(s, e).roles);
    case Create(c, r) => CreateCalm(s, c, r);
    case Commit(c, now) => CommitCalm(s, c, now);
    case Enqueue(c) => EnqueueCalm(s, c);
    case Deliver(w, op) => DeliverCalm(s, w, op);
    case WorkerRead(w) => WorkerReadCalm(s, w);
    case Claim(w) => ClaimCalm(s, w);
    case Finish(w, succeeded) => FinishCalm(s, w, succeeded);
    case _ =>
      if e.Redeliver? || e.EndJob? || e.RemoveJob? {
        JobStepCalm(s, e);
      } else {
        CallStepCalm(s, e);
      }
  }

  lemma {:induction false} EveryCalmRun(steps: seq<Step>)
    ensures Final(CalmNext, EMPTY, steps).Some? ==> Calm(Final(CalmNext, EMPTY, steps).value)
  {
    forall s, e | Calm(s) && CalmNext(s, e).Some? ensures Calm(CalmNext(s, e).value) {
      StepCalm(s, e);
    }
    Invariant(CalmNext, Calm, EMPTY, steps);
  }

  lemma {:induction false} KeptContinues(s: State, steps: seq<Step>)
    requires Kept(s)
    ensures Final(CalmNext, s, steps).Some? ==> Kept(Final(CalmNext, s, steps).value)
  {
    forall x, e | Kept(x) && CalmNext(x, e).Some? ensures Kept(CalmNext(x, e).value) {
      StepCalm(x, e);
    }
    Invariant(CalmNext, Kept, s, steps);
  }

  /** Calm runs are atomic runs, and atomic runs are runs. */
  lemma {:induction false} CalmIsAtomic(steps: seq<Step>)
    requires Final(CalmNext, EMPTY, steps).Some?
    ensures Final(AtomicNext, EMPTY, steps) == Final(CalmNext, EMPTY, steps)
    ensures Final(Next, EMPTY, steps) == Final(CalmNext, EMPTY, steps)
  {
    GuardedRun(CalmNext, AtomicNext, EMPTY, steps);
    GuardedRun(AtomicNext, Next, EMPTY, steps);
  }

  /** In every calm run a QUEUED operation has a waiting job, a worker that holds its job and has not claimed it yet,
      or no job yet and an API call between its commit and its enqueue. */
  lemma {:induction false} NothingIsForgotten(steps: seq<Step>, op: OpId)
    requires Final(CalmNext, EMPTY, steps).Some? && op < |Final(CalmNext, EMPTY, steps).value.rows|
    requires Final(CalmNext, EMPTY, steps).value.rows[op].status == QUEUED
    ensures var s := Final(CalmNext, EMPTY, steps).value;
      || (op in s.jobs && s.jobs[op] == Waiting)
      || (exists w :: w in s.workers && s.workers[w].op == op && (s.workers[w].Got? || s.workers[w].Claiming?))
      || (op !in s.jobs && exists c :: c in s.calls && s.calls[c] == Enqueueing(op))
  {
    EveryCalmRun(steps);
    CalmIsAtomic(steps);
    EveryAtomicRun(steps);
    var s := Final(CalmNext, EMPTY, steps).value;
    assert !Executed(s, op) by {
      if w :| WorksOn(s, w, op) && s.workers[w].Executing? {
        assert Executes(s, w);
      }
    }
    if w :| WorksOn(s, w, op) && !s.workers[w].Executing? {
      assert s.workers[w].Got? || s.workers[w].Claiming?;
    } else if c :| Enqueues(s, c, op) {
      assert c in s.calls;
    }
  }

  /** A calm run that has come to rest, with no waiting job, no worker and no call, has decided every operation it
      could: each is pending approval or at its end. */
  lemma {:induction false} RestIsDecided(steps: seq<Step>, op: OpId)
    requires Final(CalmNext, EMPTY, steps).Some? && op < |Final(CalmNext, EMPTY, steps).value.rows|
    requires var s := Final(CalmNext, EMPTY, steps).value;
      s.calls == map[] && s.workers == map[] && forall o :: o in s.jobs ==> s.jobs[o] != Waiting
    ensures var status := Final(CalmNext, EMPTY, steps).value.rows[op].status;
      status == PENDING_APPROVAL || Terminal(status)
  {
    EveryCalmRun(steps);
    var s := Final(CalmNext, EMPTY, steps).value;
    assert !Covered(s, op) && !Executed(s, op);
  }
}
