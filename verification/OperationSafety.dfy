/** What holds of operations in every interleaving, and what needs decisions that are atomic. */
module OperationSafety {
  import opened Wrappers
  import opened Runs
  import opened OperationPolicy
  import opened OperationLifecycle

  // ----- Every interleaving ---------------------------------------------------

  ghost predicate GrantsFit(r: Row) {
    forall g :: g in r.grants ==> (g.role == OWNER || g.role == ADMIN) && g.user != r.requestedBy
  }

  ghost predicate Granted(r: Row, user: User) {
    exists g :: g in r.grants && g.user == user
  }

  ghost predicate ApprovalFits(r: Row) {
    && (r.approvedAt.Some? <==> r.approvedBy.Some?)
    && (r.approvedBy.Some? ==> r.required && Granted(r, r.approvedBy.value))
    && (r.required && r.status != PENDING_APPROVAL && r.status != REJECTED ==> r.approvedAt.Some?)
    && (!r.required ==> r.status != PENDING_APPROVAL && r.status != REJECTED)
    && r.required == (EvaluateOperationPolicy(r.facts, r.pushFlag).approvalRequired || r.opaRequired)
  }

  /** Executions, and one more that is due while the row is QUEUED, are paid for by writes of QUEUED. */
  ghost predicate Paid(r: Row) {
    r.executions + (if r.status == QUEUED then 1 else 0) <= r.queuedWrites
  }

  ghost predicate RowFits(r: Row) {
    GrantsFit(r) && ApprovalFits(r) && Paid(r) && r.requesterRole != VIEWER
  }

  /** What never changes of a row, and what only grows. */
  ghost predicate Grows(before: Row, after: Row) {
    && after.required == before.required && after.requestedBy == before.requestedBy && after.facts == before.facts
    && after.opaRequired == before.opaRequired && after.pushFlag == before.pushFlag
    && after.requesterRole == before.requesterRole
    && before.grants <= after.grants && (before.approvedAt.Some? ==> after.approvedAt.Some?)
  }

  ghost predicate CallFits(rows: seq<Row>, c: Call) {
    && c.op < |rows|
    && (c.Deciding? ==> rows[c.op].required && (c.granted ==> Granted(rows[c.op], c.user)))
  }

  /** A worker past its read saw a row of an approved operation, or of one that needs no approval. */
  ghost predicate SeenFits(r: Row, seen: Seen) {
    && (r.required <==> seen.approvedAt.Some?) && (r.required ==> r.approvedAt.Some?)
    && (seen.approvedAt.Some? <==> seen.approvedBy.Some?)
    && (seen.approvedBy.Some? ==> Granted(r, seen.approvedBy.value))
  }

  ghost predicate WorkerFits(rows: seq<Row>, w: Worker) {
    w.op < |rows| && (!w.Got? ==> SeenFits(rows[w.op], w.seen))
  }

  ghost predicate Safe(s: State) {
    && (forall i :: 0 <= i < |s.rows| ==> RowFits(s.rows[i]))
    && (forall c :: c in s.calls ==> CallFits(s.rows, s.calls[c]))
    && (forall op :: op in s.jobs ==> op < |s.rows|)
    && (forall w :: w in s.workers ==> WorkerFits(s.rows, s.workers[w]))
  }

  ghost predicate RowsGrow(rows: seq<Row>, after: seq<Row>) {
    |rows| <= |after| && forall i :: 0 <= i < |rows| ==> Grows(rows[i], after[i])
  }

  lemma ThreadsStayFit(s: State, after: seq<Row>)
    requires Safe(s) && RowsGrow(s.rows, after)
    ensures forall c :: c in s.calls ==> CallFits(after, s.calls[c])
    ensures forall w :: w in s.workers ==> WorkerFits(after, s.workers[w])
  {
    forall c | c in s.calls ensures CallFits(after, s.calls[c]) {
      assert Grows(s.rows[s.calls[c].op], after[s.calls[c].op]);
    }
    forall w | w in s.workers ensures WorkerFits(after, s.workers[w]) {
      assert Grows(s.rows[s.workers[w].op], after[s.workers[w].op]);
    }
  }

  lemma CreateIsSafe(s: State, c: CallId, r: Request)
    requires Safe(s) && c !in s.calls
    ensures Safe(AfterCreate(s, c, r))
  {
    if Admitted(s, r) {
      ThreadsStayFit(s, s.rows + [NewRow(r, RoleOf(s, r.org, r.user).value)]);
    }
  }

  // The rows that the steps write.

  lemma ApprovedRowFits(r: Row, user: User, now: int)
    requires RowFits(r) && r.required && Granted(r, user)
    ensures RowFits(Approved(r, user, now)) && Grows(r, Approved(r, user, now))
  {
  }

  lemma RejectedRowFits(r: Row, user: User)
    requires RowFits(r) && r.required
    ensures RowFits(Rejected(r, user)) && Grows(r, Rejected(r, user))
  {
    assert r.approvedBy.Some? ==> Granted(Rejected(r, user), r.approvedBy.value);
  }

  lemma ClaimedRowFits(r: Row)
    requires RowFits(r) && r.status == QUEUED
    ensures RowFits(Claimed(r)) && Grows(r, Claimed(r))
  {
    assert r.approvedBy.Some? ==> Granted(Claimed(r), r.approvedBy.value);
  }

  lemma FinishedRowFits(r: Row, status: Status)
    requires RowFits(r) && (r.required ==> r.approvedAt.Some?) && (status == SUCCEEDED || status == FAILED)
    ensures RowFits(WithStatus(r, status)) && Grows(r, WithStatus(r, status))
  {
    assert r.approvedBy.Some? ==> Granted(WithStatus(r, status), r.approvedBy.value);
  }

  /** One row is rewritten, and one thread of control moves or ends. */
  lemma RewriteIsSafe(s: State, op: OpId, after: Row, calls: map<CallId, Call>, workers: map<WorkerId, Worker>)
    requires Safe(s) && op < |s.rows| && RowFits(after) && Grows(s.rows[op], after)
    requires forall c :: c in calls && (c !in s.calls || calls[c] != s.calls[c]) ==> calls[c] == Enqueueing(op)
    requires forall w :: w in workers && (w !in s.workers || workers[w] != s.workers[w]) ==>
      workers[w].op == op && WorkerFits(s.rows, workers[w])
    ensures Safe(s.(rows := s.rows[op := after], calls := calls, workers := workers))
  {
    var rows := s.rows[op := after];
    ThreadsStayFit(s, rows);
    forall w | w in workers ensures WorkerFits(rows, workers[w]) {
      if w !in s.workers || workers[w] != s.workers[w] {
        assert Grows(s.rows[op], rows[op]);
      }
    }
  }

  lemma GrantedRowFits(r: Row, g: Grant)
    requires RowFits(r) && (g.role == OWNER || g.role == ADMIN) && g.user != r.requestedBy
    ensures var after := r.(grants := r.grants + {g}); RowFits(after) && Grows(r, after) && Granted(after, g.user)
  {
    var after := r.(grants := r.grants + {g});
    assert g in after.grants;
    assert r.approvedBy.Some? ==> Granted(r, r.approvedBy.value);
  }

  lemma CheckIsSafe(s: State, c: CallId)
    requires Safe(s) && Possible(s, CheckRole(c))
    ensures Safe(AfterCheckRole(s, c))
  {
    var d := s.calls[c];
    var row := s.rows[d.op];
    assert RowFits(row) && CallFits(s.rows, d);
    var role := RoleOf(s, row.org, d.user);
    if CanDecideWithRole(role, d.user, PENDING_APPROVAL, Some(row.requestedBy)) {
      var g := Grant(d.user, role.value);
      GrantedRowFits(row, g);
      ThreadsStayFit(s, s.rows[d.op := row.(grants := row.grants + {g})]);
    }
  }

  lemma CommitIsSafe(s: State, c: CallId, now: int)
    requires Safe(s) && Possible(s, Commit(c, now))
    ensures Safe(AfterCommit(s, c, now))
  {
    var d := s.calls[c];
    assert RowFits(s.rows[d.op]) && CallFits(s.rows, d);
    if d.approve {
      ApprovedRowFits(s.rows[d.op], d.user, now);
      RewriteIsSafe(s, d.op, Approved(s.rows[d.op], d.user, now), s.calls[c := Enqueueing(d.op)], s.workers);
    } else {
      RejectedRowFits(s.rows[d.op], d.user);
      RewriteIsSafe(s, d.op, Rejected(s.rows[d.op], d.user), s.calls - {c}, s.workers);
    }
  }

  lemma WorkerReadIsSafe(s: State, w: WorkerId)
    requires Safe(s) && Possible(s, WorkerRead(w))
    ensures Safe(AfterWorkerRead(s, w))
  {
    assert RowFits(s.rows[s.workers[w].op]);
  }

  lemma ClaimIsSafe(s: State, w: WorkerId)
    requires Safe(s) && Possible(s, Claim(w))
    ensures Safe(AfterClaim(s, w))
  {
    var Claiming(op, seen) := s.workers[w];
    assert RowFits(s.rows[op]) && WorkerFits(s.rows, s.workers[w]);
    if s.rows[op].status == QUEUED {
      ClaimedRowFits(s.rows[op]);
      RewriteIsSafe(s, op, Claimed(s.rows[op]), s.calls, s.workers[w := Executing(op, seen)]);
    }
  }

  lemma FinishIsSafe(s: State, w: WorkerId, succeeded: bool)
    requires Safe(s) && Possible(s, Finish(w, succeeded))
    ensures Safe(AfterFinish(s, w, succeeded))
  {
    var op := s.workers[w].op;
    var status := if succeeded then SUCCEEDED else FAILED;
    assert RowFits(s.rows[op]) && WorkerFits(s.rows, s.workers[w]);
    FinishedRowFits(s.rows[op], status);
    RewriteIsSafe(s, op, WithStatus(s.rows[op], status), s.calls, s.workers - {w});
  }

  lemma StepIsSafe(s: State, e: Step)
    requires Safe(s) && Possible(s, e)
    ensures Safe(Apply(s, e))
  {
    match e
    case Create(c, r) => CreateIsSafe(s, c, r);
    case CheckRole(c) => CheckIsSafe(s, c);
    case Commit(c, now) => CommitIsSafe(s, c, now);
    case WorkerRead(w) => WorkerReadIsSafe(s, w);
    case Claim(w) => ClaimIsSafe(s, w);
    case Finish(w, succeeded) => FinishIsSafe(s, w, succeeded);
    case SetRole(_, _, _) =>
    case ReadPending(c, op, org, user, approve) => ReadIsSafe(s, c, op, org, user, approve);
    case Enqueue(c) => assert CallFits(s.rows, s.calls[c]);
    case EndCall(_) =>
    case Deliver(_, _) =>
    case Redeliver(_) =>
    case EndJob(_) =>
    case RemoveJob(_) =>
    case Crash(_) =>
  }

  lemma ReadIsSafe(s: State, c: CallId, op: OpId, org: string, user: User, approve: bool)
    requires Safe(s) && c !in s.calls
    ensures Safe(AfterReadPending(s, c, op, org, user, approve))
  {
    if op < |s.rows| {
      assert RowFits(s.rows[op]);
    }
  }

  lemma {:induction false} EveryRunIsSafe(steps: seq<Step>)
    ensures Final(Next, EMPTY, steps).Some? ==> Safe(Final(Next, EMPTY, steps).value)
  {
    forall s, e | Safe(s) && Next(s, e).Some? ensures Safe(Next(s, e).value) {
      StepIsSafe(s, e);
    }
    Invariant(Next, Safe, EMPTY, steps);
  }

  /** In every interleaving, an executor that runs an operation created as approval-required has seen an approval time
      and an approver, who was OWNER or ADMIN when checked and is not the requester; for an operation that needs no
      approval it has seen none. */
  lemma {:induction false} ExecutorsSawApproval(steps: seq<Step>, w: WorkerId)
    requires Final(Next, EMPTY, steps).Some? && w in Final(Next, EMPTY, steps).value.workers
    requires Final(Next, EMPTY, steps).value.workers[w].Executing?
    ensures
      var s := Final(Next, EMPTY, steps).value;
      var worker := s.workers[w];
      && worker.op < |s.rows|
      && var row := s.rows[worker.op];
         && (row.required <==> worker.seen.approvedAt.Some?)
         && (row.required <==> worker.seen.approvedBy.Some?)
         && (row.required ==> exists g :: g in row.grants && g.user == worker.seen.approvedBy.value
                                          && (g.role == OWNER || g.role == ADMIN) && g.user != row.requestedBy)
  {
    EveryRunIsSafe(steps);
    var s := Final(Next, EMPTY, steps).value;
    var worker := s.workers[w];
    assert WorkerFits(s.rows, worker) && RowFits(s.rows[worker.op]);
    if s.rows[worker.op].required {
      var g :| g in s.rows[worker.op].grants && g.user == worker.seen.approvedBy.value;
    }
  }

  /** Hence the worker's own approval check fires exactly for what the policy lets through: never for Terraform apply,
      Ansible run, ECS apply and rollback. */
  lemma {:induction false} WorkerGateInEveryRun(steps: seq<Step>, w: WorkerId)
    requires Final(Next, EMPTY, steps).Some? && w in Final(Next, EMPTY, steps).value.workers
    requires Final(Next, EMPTY, steps).value.workers[w].Executing?
    ensures
      var s := Final(Next, EMPTY, steps).value;
      var worker := s.workers[w];
      && worker.op < |s.rows|
      && var row := s.rows[worker.op];
         && (WorkerGateFires(row.facts, worker.seen.approvedAt.Some?) <==>
             !row.opaRequired && PolicyGap(row.facts, row.pushFlag))
         && (row.facts.kind in {TERRAFORM_APPLY, ANSIBLE_RUN, AWS_TERRAFORM_ECS_APPLY, AWS_ECS_RELEASE_ROLLBACK} ==>
              !WorkerGateFires(row.facts, worker.seen.approvedAt.Some?))
  {
    ExecutorsSawApproval(steps, w);
    EveryRunIsSafe(steps);
    var s := Final(Next, EMPTY, steps).value;
    var row := s.rows[s.workers[w].op];
    assert RowFits(row);
    GateFiresInGapExactly(row.facts, row.pushFlag, row.opaRequired);
  }

  /** Under any interleaving, duplicate delivery and retry, the executions of an operation, and one more while it is
      QUEUED, never exceed the times QUEUED was written to it. */
  lemma {:induction false} ExecutionsArePaid(steps: seq<Step>, op: OpId)
    requires Final(Next, EMPTY, steps).Some? && op < |Final(Next, EMPTY, steps).value.rows|
    ensures var row := Final(Next, EMPTY, steps).value.rows[op];
      row.executions + (if row.status == QUEUED then 1 else 0) <= row.queuedWrites
  {
    EveryRunIsSafe(steps);
    assert RowFits(Final(Next, EMPTY, steps).value.rows[op]);
  }

  /** In every run, whoever requested an operation was OWNER, ADMIN or MEMBER of its organization when the operation
      was created. */
  lemma {:induction false} RequestersCouldTrigger(steps: seq<Step>, op: OpId)
    requires Final(Next, EMPTY, steps).Some? && op < |Final(Next, EMPTY, steps).value.rows|
    ensures Final(Next, EMPTY, steps).value.rows[op].requesterRole in {OWNER, ADMIN, MEMBER}
  {
    EveryRunIsSafe(steps);
    assert RowFits(Final(Next, EMPTY, steps).value.rows[op]);
  }

  /** The role that a row records is the one that its requester had when the row was added. */
  lemma RequesterRoleIsAsCreated(s: State, e: Step)
    requires Possible(s, e)
    ensures |s.rows| <= |Apply(s, e).rows|
    ensures forall i :: 0 <= i < |s.rows| ==> Apply(s, e).rows[i].requesterRole == s.rows[i].requesterRole
    ensures forall i :: |s.rows| <= i < |Apply(s, e).rows| ==>
      && e.Create? && i == |s.rows|
      && var row := Apply(s, e).rows[i];
         && row.org == e.request.org && row.requestedBy == e.request.user
         && (row.org, row.requestedBy) in s.roles && s.roles[(row.org, row.requestedBy)] == row.requesterRole
  {
  }

  /** The check of a decision passes exactly the OWNERs and ADMINs of the operation's organization who did not request
      it, and records who passed. Everybody else's call ends there. */
  lemma CheckGrantsExactly(s: State, c: CallId)
    requires Possible(s, CheckRole(c))
    ensures
      var t, d := Apply(s, CheckRole(c)), s.calls[c];
      var row := s.rows[d.op];
      var trusted := && (row.org, d.user) in s.roles && s.roles[(row.org, d.user)] in {OWNER, ADMIN}
                     && row.requestedBy != d.user;
      && (trusted ==>
          && t.calls == s.calls[c := d.(granted := true)]
          && t.rows == s.rows[d.op := row.(grants := row.grants + {Grant(d.user, s.roles[(row.org, d.user)])})])
      && (!trusted ==> t.calls == s.calls - {c} && t.rows == s.rows)
  {
  }

  /** A call can end and a worker can crash between any two of its statements, and only
      it is gone then; a job in progress can be delivered again. */
  lemma CutShortAnywhere(s: State)
    ensures forall c :: c in s.calls ==>
      Possible(s, EndCall(c)) && Apply(s, EndCall(c)) == s.(calls := s.calls - {c})
    ensures forall w :: w in s.workers ==>
      Possible(s, Crash(w)) && Apply(s, Crash(w)) == s.(workers := s.workers - {w})
    ensures forall op :: op in s.jobs && s.jobs[op] == Active ==>
      Possible(s, Redeliver(op)) && Apply(s, Redeliver(op)) == s.(jobs := s.jobs[op := Waiting])
  {
  }

  // ----- Idempotency keys -----------------------------------------------------

  ghost predicate KeysUnique(rows: seq<Row>) {
    forall i, j :: 0 <= i < j < |rows| && rows[i].key.Some? && rows[i].key == rows[j].key ==> rows[i].org != rows[j].org
  }

  ghost predicate KeysKept(rows: seq<Row>, after: seq<Row>) {
    |after| == |rows| && forall i :: 0 <= i < |rows| ==> after[i].org == rows[i].org && after[i].key == rows[i].key
  }

  /** Only a create adds a row, and no statement changes a row's organization or key. */
  lemma KeysStay(s: State, e: Step)
    requires Possible(s, e) && !e.Create?
    ensures KeysKept(s.rows, Apply(s, e).rows)
  {
    match e
    case CheckRole(c) => assert KeysKept(s.rows, AfterCheckRole(s, c).rows);
    case Commit(c, now) => assert KeysKept(s.rows, AfterCommit(s, c, now).rows);
    case Claim(w) => assert KeysKept(s.rows, AfterClaim(s, w).rows);
    case Finish(w, succeeded) => assert KeysKept(s.rows, AfterFinish(s, w, succeeded).rows);
    case _ =>
  }

  /** In every run an organization's idempotency key belongs to at most one operation. */
  lemma {:induction false} OneOperationPerKey(steps: seq<Step>)
    requires Final(Next, EMPTY, steps).Some?
    ensures var rows := Final(Next, EMPTY, steps).value.rows;
      forall i, j :: 0 <= i < j < |rows| && rows[i].key.Some? && rows[i].key == rows[j].key ==>
        rows[i].org != rows[j].org
  {
    var inv := (s: State) => KeysUnique(s.rows);
    forall s, e | inv(s) && Next(s, e).Some? ensures inv(Next(s, e).value) {
      if !e.Create? {
        KeysStay(s, e);
      }
    }
    Invariant(Next, inv, EMPTY, steps);
  }
}
