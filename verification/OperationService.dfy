/** The calls themselves, undisturbed: each is a run of the interleaved machine
    (apps/api/src/modules/operations/operation.service.ts, apps/worker/src/queues/operations.queue.ts). */
module OperationServices {
  import opened Wrappers
  import opened Runs
  import opened OperationPolicy
  import opened OperationLifecycle
  import opened OperationOnce

  /** `DuplicateKey` is the unique column's own error. */
  datatype OperationError = Unauthorized | BadRequest | NotFound | Conflict | DuplicateKey

  /** An operation's id, or the error of the first check that fails. An empty idempotency key is not looked up, but
      it is stored. */
  function CreateOutcome(s: State, r: Request): Result<OpId, OperationError> {
    if !CanTriggerWithRole(RoleOf(s, r.org, r.user)) then Err(Unauthorized)
    else if r.token == "" then Err(BadRequest)
    else if !r.scopeFound then Err(NotFound)
    else if r.key != Some("") && KeyUsed(s.rows, r.org, r.key) then Ok(KeyHolder(s.rows, r.org, r.key))
    else if !TokenFits(r) then Err(BadRequest)
    else if !Opa(r).allow then Err(BadRequest)
    else if KeyUsed(s.rows, r.org, r.key) then Err(DuplicateKey)
    else Ok(|s.rows|)
  }

  /** The operation that an idempotency key belongs to. */
  function KeyHolder(rows: seq<Row>, org: string, key: Option<string>): (op: OpId)
    requires KeyUsed(rows, org, key)
    ensures op < |rows| && rows[op].org == org && rows[op].key == key
  {
    var n := |rows| - 1;
    if rows[n].org == org && rows[n].key == key then n else KeyHolder(rows[..n], org, key)
  }

  /** Who may decide is asked in this order. */
  function DecideOutcome(s: State, op: OpId, org: string, user: User): Option<OperationError> {
    if op >= |s.rows| || s.rows[op].org != org then Some(NotFound)
    else if s.rows[op].status != PENDING_APPROVAL then Some(Conflict)
    else if !CanDecideWithRole(RoleOf(s, org, user), user, s.rows[op].status, Some(s.rows[op].requestedBy))
    then Some(Unauthorized)
    else None
  }

  // The steps of a call or of a worker that nothing comes between. Other calls and workers may be under way: they are
  // in the state, and stay as they are.

  function CreateSteps(s: State, c: CallId, r: Request): seq<Step> {
    [Create(c, r)] + if Admitted(s, r) && !NeedsApproval(r) then [Enqueue(c)] else []
  }

  function DecideSteps(s: State, c: CallId, op: OpId, org: string, user: User, approve: bool, now: int): seq<Step> {
    var read := ReadPending(c, op, org, user, approve);
    match DecideOutcome(s, op, org, user)
    case Some(Unauthorized) => [read, CheckRole(c)]
    case Some(_) => [read]
    case None => [read, CheckRole(c), Commit(c, now)] + if approve then [Enqueue(c)] else []
  }

  function ProcessSteps(s: State, w: WorkerId, op: OpId, succeeded: bool): seq<Step> {
    [Deliver(w, op), WorkerRead(w)]
    + if op < |s.rows| && s.rows[op].status == QUEUED then [Claim(w), Finish(w, succeeded)] else []
  }

  // ----- What those runs end in -----------------------------------------------

  function WithJob(jobs: map<OpId, Job>, op: OpId): map<OpId, Job> {
    if op in jobs then jobs else jobs[op := Waiting]
  }

  function Created(s: State, r: Request): Row
    requires Admitted(s, r)
  {
    NewRow(r, RoleOf(s, r.org, r.user).value)
  }

  function CreatedState(s: State, r: Request): State {
    if !Admitted(s, r) then s
    else if NeedsApproval(r) then s.(rows := s.rows + [Created(s, r)])
    else s.(rows := s.rows + [Created(s, r)], jobs := WithJob(s.jobs, |s.rows|))
  }

  /** The row with the check that was passed. */
  function Checked(row: Row, user: User, role: Role): Row {
    row.(grants := row.grants + {Grant(user, role)})
  }

  function DecidedState(s: State, op: OpId, org: string, user: User, approve: bool, now: int): State {
    if DecideOutcome(s, op, org, user).Some? then s
    else
      var row := Checked(s.rows[op], user, RoleOf(s, org, user).value);
      if approve then s.(rows := s.rows[op := Approved(row, user, now)], jobs := WithJob(s.jobs, op))
      else s.(rows := s.rows[op := Rejected(row, user)])
  }

  function Done(row: Row, succeeded: bool): Row {
    WithStatus(Claimed(row), if succeeded then SUCCEEDED else FAILED)
  }

  function ProcessedState(s: State, op: OpId, succeeded: bool): State
    requires op < |s.rows|
  {
    var t := s.(jobs := s.jobs[op := Active]);
    if s.rows[op].status != QUEUED then t
    else t.(rows := s.rows[op := Done(s.rows[op], succeeded)])
  }

  // ----- In terms of the tables -----------------------------------------------

  /** Who may create an operation, and what every answer to a create means. */
  lemma CreateOutcomeExactly(s: State, r: Request)
    ensures
      var who := (r.org, r.user);
      var trusted := who in s.roles && s.roles[who] in {OWNER, ADMIN, MEMBER};
      var held := r.key.Some? && exists i :: 0 <= i < |s.rows| && s.rows[i].org == r.org && s.rows[i].key == r.key;
      var labelled := EvaluateOperationPolicy(r.facts, r.pushFlag).token in {None, Some(r.token)};
      var outcome := CreateOutcome(s, r);
      && (outcome == Err(Unauthorized) <==> !trusted)
      && (outcome == Err(NotFound) <==> trusted && r.token != "" && !r.scopeFound)
      && (outcome == Err(DuplicateKey) ==> held && r.key == Some(""))
      && (outcome.Ok? && outcome.value != |s.rows| <==>
          trusted && r.token != "" && r.scopeFound && held && r.key != Some(""))
      && (outcome.Ok? && outcome.value != |s.rows| ==>
          outcome.value < |s.rows| && s.rows[outcome.value].org == r.org && s.rows[outcome.value].key == r.key)
      && (outcome == Ok(|s.rows|) <==>
          trusted && r.token != "" && r.scopeFound && !held && labelled && OpaEnforced(r.opaMode, r.opaAnswer).allow)
      && outcome != Err(Conflict)
  {
  }

  /** Every answer but a new operation leaves everything as it was. A new one is pending, with no job, when the
      policy or OPA asks for approval, and otherwise QUEUED with a job. */
  lemma CreatedStateExactly(s: State, r: Request)
    ensures
      var after := CreatedState(s, r);
      var required := EvaluateOperationPolicy(r.facts, r.pushFlag).approvalRequired
                      || OpaEnforced(r.opaMode, r.opaAnswer).approvalRequired;
      && (CreateOutcome(s, r) != Ok(|s.rows|) ==> after == s)
      && (CreateOutcome(s, r) == Ok(|s.rows|) ==>
          && |after.rows| == |s.rows| + 1 && after.rows[..|s.rows|] == s.rows
          && after == s.(rows := after.rows, jobs := after.jobs)
          && (forall op :: op != |s.rows| ==> (op in after.jobs <==> op in s.jobs))
          && (forall op :: op in s.jobs ==> after.jobs[op] == s.jobs[op])
          && (required ==> after.jobs == s.jobs) && (!required ==> |s.rows| in after.jobs)
          && var row := after.rows[|s.rows|];
             && row.org == r.org && row.requestedBy == r.user && row.facts == r.facts && row.key == r.key
             && row.required == required && row.status == (if required then PENDING_APPROVAL else QUEUED)
             && row.approvedBy == None && row.approvedAt == None && row.rejectedBy == None && row.executions == 0)
  {
  }

  /** Who may decide a pending operation: an OWNER or ADMIN of its organization who did not request it, and every
      one of them. */
  lemma DecideOutcomeExactly(s: State, op: OpId, org: string, user: User)
    ensures
      var outcome := DecideOutcome(s, op, org, user);
      var there := op < |s.rows| && s.rows[op].org == org;
      && (outcome == None <==>
          && there && s.rows[op].status == PENDING_APPROVAL && s.rows[op].requestedBy != user
          && (org, user) in s.roles && s.roles[(org, user)] in {OWNER, ADMIN})
      && (outcome == Some(NotFound) <==> !there)
      && (outcome == Some(Conflict) <==> there && s.rows[op].status != PENDING_APPROVAL)
      && outcome in {None, Some(NotFound), Some(Conflict), Some(Unauthorized)}
  {
  }

  /** A refused decision changes nothing. An accepted one changes one row: an approval queues it under the
      approver's name and gives it a job, a rejection ends it under the rejecter's. */
  lemma DecidedStateExactly(s: State, op: OpId, org: string, user: User, approve: bool, now: int)
    ensures
      var after := DecidedState(s, op, org, user, approve, now);
      && (DecideOutcome(s, op, org, user).Some? ==> after == s)
      && (DecideOutcome(s, op, org, user).None? ==>
          && |after.rows| == |s.rows| && after == s.(rows := after.rows, jobs := after.jobs)
          && (forall i :: 0 <= i < |s.rows| && i != op ==> after.rows[i] == s.rows[i])
          && (approve ==> after.jobs.Keys == s.jobs.Keys + {op}) && (!approve ==> after.jobs == s.jobs)
          && (forall i :: i in s.jobs ==> after.jobs[i] == s.jobs[i])
          && var row := after.rows[op];
             && row.status == (if approve then QUEUED else REJECTED)
             && row.approvedBy == (if approve then Some(user) else s.rows[op].approvedBy)
             && row.approvedAt == (if approve then Some(now) else s.rows[op].approvedAt)
             && row.rejectedBy == (if approve then s.rows[op].rejectedBy else Some(user))
             && row.executions == s.rows[op].executions && row.requestedBy == s.rows[op].requestedBy
             && row.org == s.rows[op].org && row.key == s.rows[op].key && row.facts == s.rows[op].facts)
  {
  }

  /** A delivery runs a QUEUED operation, once and to its end, and leaves any other as it is. */
  lemma ProcessedStateExactly(s: State, op: OpId, succeeded: bool)
    requires op < |s.rows|
    ensures
      var after := ProcessedState(s, op, succeeded);
      var row := after.rows[op];
      && after == s.(rows := s.rows[op := row], jobs := s.jobs[op := Active])
      && (s.rows[op].status != QUEUED ==> row == s.rows[op])
      && (s.rows[op].status == QUEUED ==>
          && row.status == (if succeeded then SUCCEEDED else FAILED) && row.executions == s.rows[op].executions + 1
          && row.approvedBy == s.rows[op].approvedBy && row.approvedAt == s.rows[op].approvedAt
          && row.org == s.rows[op].org && row.requestedBy == s.rows[op].requestedBy && row.key == s.rows[op].key)
  {
    var row := s.rows[op];
    assert s.rows == s.rows[op := row];
  }

  lemma Places<K, V>(others: map<K, V>, k: K, a: V, b: V)
    requires k !in others
    ensures others[k := a][k := b] == others[k := b] && others[k := a] - {k} == others
  {
  }

  lemma {:induction false} CreateRun(s: State, c: CallId, r: Request)
    requires c !in s.calls
    ensures Final(AtomicNext, s, CreateSteps(s, c, r)) == Some(CreatedState(s, r))
  {
    if Admitted(s, r) && !NeedsApproval(r) {
      var t := s.(rows := s.rows + [Created(s, r)], calls := s.calls[c := Enqueueing(|s.rows|)]);
      var end := CreatedState(s, r);
      Places(s.calls, c, Enqueueing(|s.rows|), Enqueueing(0));
      One(AtomicNext, t, Enqueue(c), end);
      Then(AtomicNext, s, Create(c, r), t, [Enqueue(c)], end);
    } else {
      assert [Create(c, r)] + [] == [Create(c, r)];
      One(AtomicNext, s, Create(c, r), CreatedState(s, r));
    }
  }

  /** A call that has read a pending row and passed the check. */
  lemma {:induction false} CommitRun(
    s: State, c: CallId, op: OpId, user: User, approve: bool, now: int, others: map<CallId, Call>)
    requires c !in others && s.calls == others[c := Deciding(op, user, approve, true)]
    requires op < |s.rows| && s.rows[op].status == PENDING_APPROVAL
    ensures
      var end := if approve then s.(rows := s.rows[op := Approved(s.rows[op], user, now)], calls := others,
                                    jobs := WithJob(s.jobs, op))
                 else s.(rows := s.rows[op := Rejected(s.rows[op], user)], calls := others);
      Final(AtomicNext, s, [Commit(c, now)] + if approve then [Enqueue(c)] else []) == Some(end)
  {
    Places(others, c, Deciding(op, user, approve, true), Enqueueing(op));
    Places(others, c, Enqueueing(op), Enqueueing(op));
    if approve {
      var t := s.(rows := s.rows[op := Approved(s.rows[op], user, now)], calls := others[c := Enqueueing(op)]);
      var end := t.(calls := others, jobs := WithJob(s.jobs, op));
      One(AtomicNext, t, Enqueue(c), end);
      Then(AtomicNext, s, Commit(c, now), t, [Enqueue(c)], end);
    } else {
      assert [Commit(c, now)] + [] == [Commit(c, now)];
      One(AtomicNext, s, Commit(c, now), s.(rows := s.rows[op := Rejected(s.rows[op], user)], calls := others));
    }
  }

  lemma {:induction false} RoleRefusedRun(
    s: State, c: CallId, op: OpId, org: string, user: User, approve: bool, now: int)
    requires c !in s.calls && DecideOutcome(s, op, org, user) == Some(Unauthorized)
    ensures Final(AtomicNext, s, DecideSteps(s, c, op, org, user, approve, now)) == Some(s)
  {
    var read := ReadPending(c, op, org, user, approve);
    var deciding := Deciding(op, user, approve, false);
    var t := s.(calls := s.calls[c := deciding]);
    Places(s.calls, c, deciding, deciding);
    One(AtomicNext, t, CheckRole(c), s);
    Then(AtomicNext, s, read, t, [CheckRole(c)], s);
  }

  lemma {:induction false} RefusedRun(s: State, c: CallId, op: OpId, org: string, user: User, approve: bool, now: int)
    requires c !in s.calls && DecideOutcome(s, op, org, user).Some?
    ensures Final(AtomicNext, s, DecideSteps(s, c, op, org, user, approve, now)) == Some(s)
  {
    if DecideOutcome(s, op, org, user) == Some(Unauthorized) {
      RoleRefusedRun(s, c, op, org, user, approve, now);
    } else {
      One(AtomicNext, s, ReadPending(c, op, org, user, approve), s);
    }
  }

  lemma {:induction false} AcceptedRun(s: State, c: CallId, op: OpId, org: string, user: User, approve: bool, now: int)
    requires c !in s.calls && DecideOutcome(s, op, org, user).None?
    ensures Final(AtomicNext, s, DecideSteps(s, c, op, org, user, approve, now)) ==
      Some(DecidedState(s, op, org, user, approve, now))
  {
    var read := ReadPending(c, op, org, user, approve);
    var t := s.(calls := s.calls[c := Deciding(op, user, approve, false)]);
    var u := s.(rows := s.rows[op := Checked(s.rows[op], user, RoleOf(s, org, user).value)],
                calls := s.calls[c := Deciding(op, user, approve, true)]);
    var end := DecidedState(s, op, org, user, approve, now);
    var rest := [Commit(c, now)] + if approve then [Enqueue(c)] else [];
    CommitRun(u, c, op, user, approve, now, s.calls);
    Places(s.calls, c, Deciding(op, user, approve, false), Deciding(op, user, approve, true));
    assert u.rows[op := Approved(u.rows[op], user, now)] == s.rows[op := Approved(u.rows[op], user, now)];
    assert u.rows[op := Rejected(u.rows[op], user)] == s.rows[op := Rejected(u.rows[op], user)];
    Then(AtomicNext, t, CheckRole(c), u, rest, end);
    Then(AtomicNext, s, read, t, [CheckRole(c)] + rest, end);
    assert [read] + ([CheckRole(c)] + rest) == DecideSteps(s, c, op, org, user, approve, now);
  }

  lemma {:induction false} DecideRun(s: State, c: CallId, op: OpId, org: string, user: User, approve: bool, now: int)
    requires c !in s.calls
    ensures Final(AtomicNext, s, DecideSteps(s, c, op, org, user, approve, now)) ==
      Some(DecidedState(s, op, org, user, approve, now))
  {
    if DecideOutcome(s, op, org, user).Some? {
      RefusedRun(s, c, op, org, user, approve, now);
    } else {
      AcceptedRun(s, c, op, org, user, approve, now);
    }
  }

  lemma {:induction false} ExecuteRun(
    s: State, w: WorkerId, op: OpId, seen: Seen, succeeded: bool, others: map<WorkerId, Worker>)
    requires w !in others && s.workers == others[w := Claiming(op, seen)]
    requires op < |s.rows| && s.rows[op].status == QUEUED
    ensures Final(AtomicNext, s, [Claim(w), Finish(w, succeeded)]) ==
      Some(s.(rows := s.rows[op := Done(s.rows[op], succeeded)], workers := others))
  {
    var t := s.(rows := s.rows[op := Claimed(s.rows[op])], workers := others[w := Executing(op, seen)]);
    var end := s.(rows := s.rows[op := Done(s.rows[op], succeeded)], workers := others);
    Places(others, w, Claiming(op, seen), Executing(op, seen));
    Places(others, w, Executing(op, seen), Executing(op, seen));
    assert t.rows[op := end.rows[op]] == end.rows;
    One(AtomicNext, t, Finish(w, succeeded), end);
    Then(AtomicNext, s, Claim(w), t, [Finish(w, succeeded)], end);
  }

  /** A worker that holds the job reads the row, and goes on when it is QUEUED. */
  lemma {:induction false} PickedUpRun(
    s: State, w: WorkerId, op: OpId, succeeded: bool, others: map<WorkerId, Worker>)
    requires w !in others && s.workers == others[w := Got(op)] && op < |s.rows|
    ensures
      if s.rows[op].status == QUEUED then
        Final(AtomicNext, s, [WorkerRead(w)] + [Claim(w), Finish(w, succeeded)]) ==
          Some(s.(rows := s.rows[op := Done(s.rows[op], succeeded)], workers := others))
      else
        Final(AtomicNext, s, [WorkerRead(w)]) == Some(s.(workers := others))
  {
    var seen := Seen(s.rows[op].approvedBy, s.rows[op].approvedAt);
    Places(others, w, Got(op), Claiming(op, seen));
    if s.rows[op].status == QUEUED {
      var t := s.(workers := others[w := Claiming(op, seen)]);
      ExecuteRun(t, w, op, seen, succeeded, others);
      Then(AtomicNext, s, WorkerRead(w), t, [Claim(w), Finish(w, succeeded)],
           s.(rows := s.rows[op := Done(s.rows[op], succeeded)], workers := others));
    } else {
      One(AtomicNext, s, WorkerRead(w), s.(workers := others));
    }
  }

  lemma {:induction false} ProcessRun(s: State, w: WorkerId, op: OpId, succeeded: bool)
    requires w !in s.workers && op < |s.rows| && op in s.jobs && s.jobs[op] == Waiting
    ensures Final(AtomicNext, s, ProcessSteps(s, w, op, succeeded)) == Some(ProcessedState(s, op, succeeded))
  {
    var t := s.(jobs := s.jobs[op := Active], workers := s.workers[w := Got(op)]);
    var rest := [WorkerRead(w)] + if s.rows[op].status == QUEUED then [Claim(w), Finish(w, succeeded)] else [];
    assert [WorkerRead(w)] + [] == [WorkerRead(w)];
    PickedUpRun(t, w, op, succeeded, s.workers);
    Then(AtomicNext, s, Deliver(w, op), t, rest, ProcessedState(s, op, succeeded));
    assert [Deliver(w, op)] + rest == ProcessSteps(s, w, op, succeeded);
  }

  /** The operations, the roles and the queue. The ghost fields are the calls and workers of other processes. */
  class OperationService {
    var rows: seq<Row>
    var roles: map<(string, User), Role>
    var jobs: map<OpId, Job>
    ghost var calls: map<CallId, Call>
    ghost var workers: map<WorkerId, Worker>

    constructor ()
      ensures View() == EMPTY
    {
      rows := [];
      roles := map[];
      jobs := map[];
      calls := map[];
      workers := map[];
    }

    ghost function View(): State
      reads this
    {
      State(rows, roles, calls, jobs, workers)
    }

    /** The membership lookup. */
    function FindRole(org: string, user: User): (role: Option<Role>)
      reads this
      ensures role == RoleOf(View(), org, user)
    {
      if (org, user) in roles then Some(roles[(org, user)]) else None
    }

    method CreateQueuedOperation(ghost call: CallId, r: Request) returns (result: Result<OpId, OperationError>)
      requires call !in calls
      modifies this`rows, this`jobs
      ensures result == CreateOutcome(old(View()), r)
      ensures result == Err(Unauthorized) <==>
              !((r.org, r.user) in roles && roles[(r.org, r.user)] in {OWNER, ADMIN, MEMBER})
      ensures View() == CreatedState(old(View()), r)
      ensures Final(AtomicNext, old(View()), CreateSteps(old(View()), call, r)) == Some(View())
    {
      ghost var s := View();
      CreateRun(s, call, r);
      CreateOutcomeExactly(s, r);
      var role := FindRole(r.org, r.user);
      if !CanTriggerWithRole(role) {
        return Err(Unauthorized);
      }
      if r.token == "" {
        return Err(BadRequest);
      }
      if !r.scopeFound {
        return Err(NotFound);
      }
      if r.key != Some("") && KeyUsed(rows, r.org, r.key) {
        return Ok(KeyHolder(rows, r.org, r.key));
      }
      var policy := EvaluateOperationPolicy(r.facts, r.pushFlag);
      if policy.token.Some? && r.token != policy.token.value {
        return Err(BadRequest);
      }
      var opa := EvaluateOpa(r.opaMode, r.opaAnswer);
      if !opa.allow {
        return Err(BadRequest);
      }
      if KeyUsed(rows, r.org, r.key) {
        return Err(DuplicateKey);
      }
      var required := policy.approvalRequired || opa.approvalRequired;
      var op := |rows|;
      rows := rows + [NewRow(r, role.value)];
      if !required {
        EnqueueOperationJob(op);
      }
      result := Ok(op);
    }

    /** Adding a job under a known id does nothing. */
    method EnqueueOperationJob(op: OpId)
      modifies this`jobs
      ensures jobs == if op in old(jobs) then old(jobs) else old(jobs)[op := Waiting]
    {
      if op !in jobs {
        jobs := jobs[op := Waiting];
      }
    }

    method ApproveOperation(ghost call: CallId, op: OpId, org: string, user: User, now: int)
      returns (error: Option<OperationError>)
      requires call !in calls
      modifies this`rows, this`jobs
      ensures error == DecideOutcome(old(View()), op, org, user)
      ensures error.None? <==>
              && op < |old(rows)| && old(rows)[op].org == org && old(rows)[op].status == PENDING_APPROVAL
              && old(rows)[op].requestedBy != user
              && (org, user) in roles && roles[(org, user)] in {OWNER, ADMIN}
      ensures View() == DecidedState(old(View()), op, org, user, true, now)
      ensures Final(AtomicNext, old(View()), DecideSteps(old(View()), call, op, org, user, true, now)) ==
        Some(View())
    {
      ghost var s := View();
      DecideOutcomeExactly(s, op, org, user);
      DecideRun(s, call, op, org, user, true, now);
      error := CheckDecision(op, org, user);
      if error.Some? {
        return;
      }
      rows := rows[op := Approved(rows[op], user, now)];
      EnqueueOperationJob(op);
      assert View() == DecidedState(s, op, org, user, true, now) by {
        assert rows == DecidedState(s, op, org, user, true, now).rows;
      }
    }

    method RejectOperation(ghost call: CallId, op: OpId, org: string, user: User, now: int)
      returns (error: Option<OperationError>)
      requires call !in calls
      modifies this`rows
      ensures error == DecideOutcome(old(View()), op, org, user)
      ensures error.None? <==>
              && op < |old(rows)| && old(rows)[op].org == org && old(rows)[op].status == PENDING_APPROVAL
              && old(rows)[op].requestedBy != user
              && (org, user) in roles && roles[(org, user)] in {OWNER, ADMIN}
      ensures View() == DecidedState(old(View()), op, org, user, false, now)
      ensures Final(AtomicNext, old(View()), DecideSteps(old(View()), call, op, org, user, false, now)) ==
        Some(View())
    {
      ghost var s := View();
      DecideOutcomeExactly(s, op, org, user);
      DecideRun(s, call, op, org, user, false, now);
      error := CheckDecision(op, org, user);
      if error.Some? {
        return;
      }
      rows := rows[op := Rejected(rows[op], user)];
      assert View() == DecidedState(s, op, org, user, false, now) by {
        assert rows == DecidedState(s, op, org, user, false, now).rows;
      }
    }

    /** The checks of both decisions; who passes them is recorded. */
    method CheckDecision(op: OpId, org: string, user: User) returns (error: Option<OperationError>)
      modifies this`rows
      ensures error == DecideOutcome(old(View()), op, org, user)
      ensures error.Some? ==> rows == old(rows)
      ensures error.None? ==>
        rows == old(rows)[op := Checked(old(rows)[op], user, RoleOf(old(View()), org, user).value)]
    {
      if op >= |rows| || rows[op].org != org {
        return Some(NotFound);
      }
      if rows[op].status != PENDING_APPROVAL {
        return Some(Conflict);
      }
      var role := FindRole(org, user);
      if !CanDecideWithRole(role, user, rows[op].status, Some(rows[op].requestedBy)) {
        return Some(Unauthorized);
      }
      rows := rows[op := Checked(rows[op], user, role.value)];
      error := None;
    }

    /** One delivery of a job. `succeeded` is how the execution ends, when there is one. */
    method ProcessOperation(ghost worker: WorkerId, op: OpId, succeeded: bool) returns (executed: bool)
      requires worker !in workers && op < |rows| && op in jobs && jobs[op] == Waiting
      modifies this`rows, this`jobs
      ensures executed == (old(rows)[op].status == QUEUED)
      ensures View() == ProcessedState(old(View()), op, succeeded)
      ensures Final(AtomicNext, old(View()), ProcessSteps(old(View()), worker, op, succeeded)) == Some(View())
    {
      ghost var s := View();
      ProcessRun(s, worker, op, succeeded);
      jobs := jobs[op := Active];
      var operation := rows[op];
      if operation.status != QUEUED {
        return false;
      }
      var claimed := 0;
      if rows[op].status == QUEUED {
        rows := rows[op := Claimed(rows[op])];
        claimed := 1;
      }
      if claimed != 1 {
        return false;
      }
      if succeeded {
        rows := rows[op := WithStatus(rows[op], SUCCEEDED)];
      } else {
        rows := rows[op := WithStatus(rows[op], FAILED)];
      }
      executed := true;
      assert View() == ProcessedState(s, op, succeeded) by {
        assert rows == ProcessedState(s, op, succeeded).rows;
      }
    }
  }
}
