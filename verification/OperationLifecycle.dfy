/** The life of an operation, with any number of API calls and workers interleaved between their reads and writes
    (apps/api/src/modules/operations/operation.service.ts and operation.queue.ts,
    apps/worker/src/queues/operations.queue.ts). */
module OperationLifecycle {
  import opened Wrappers
  import opened Runs
  import opened OperationPolicy

  type User = string
  type OpId = nat
  type CallId = nat
  type WorkerId = nat

  /** Somebody who passed the approval check, and the role found for them then. */
  datatype Grant = Grant(user: User, role: Role)

  /** A row of the operations table. `required` is stored with the input. The last five are history: the role found
      for the requester, who passed the check of a decision, how often QUEUED was written, how often an executor
      started, how often the status changed. */
  datatype Row = Row(
    org: string, requestedBy: User, facts: Facts, key: Option<string>, required: bool, status: Status,
    approvedBy: Option<User>, approvedAt: Option<int>, rejectedBy: Option<User>,
    opaRequired: bool, pushFlag: bool, requesterRole: Role, grants: set<Grant>, queuedWrites: nat, executions: nat,
    changes: nat)

  /** An API call between two of its statements. */
  datatype Call =
    | Deciding(op: OpId, user: User, approve: bool, granted: bool)
    | Enqueueing(op: OpId)

  /** What a worker has read of a row. */
  datatype Seen = Seen(approvedBy: Option<User>, approvedAt: Option<int>)

  datatype Worker =
    | Got(op: OpId)
    | Claiming(op: OpId, seen: Seen)
    | Executing(op: OpId, seen: Seen)

  /** A job under the operation's job id: an ended one is kept for a while. */
  datatype Job = Waiting | Active | Ended

  datatype State = State(
    rows: seq<Row>, roles: map<(string, User), Role>, calls: map<CallId, Call>, jobs: map<OpId, Job>,
    workers: map<WorkerId, Worker>)

  datatype Request = Request(
    org: string, user: User, token: string, key: Option<string>, facts: Facts, scopeFound: bool,
    opaMode: OpaMode, opaAnswer: Option<OpaDecision>, pushFlag: bool)

  datatype Step =
    | SetRole(org: string, user: User, role: Option<Role>)
    | Create(call: CallId, request: Request)
    | ReadPending(call: CallId, op: OpId, org: string, user: User, approve: bool)
    | CheckRole(call: CallId)
    | Commit(call: CallId, now: int)
    | Enqueue(call: CallId)
    | EndCall(call: CallId)
    | Deliver(worker: WorkerId, op: OpId)
    | Redeliver(op: OpId)
    | EndJob(op: OpId)
    | RemoveJob(op: OpId)
    | WorkerRead(worker: WorkerId)
    | Claim(worker: WorkerId)
    | Finish(worker: WorkerId, succeeded: bool)
    | Crash(worker: WorkerId)

  const EMPTY := State([], map[], map[], map[], map[])

  function RoleOf(s: State, org: string, user: User): Option<Role> {
    if (org, user) in s.roles then Some(s.roles[(org, user)]) else None
  }

  predicate KeyUsed(rows: seq<Row>, org: string, key: Option<string>) {
    key.Some? && exists i :: 0 <= i < |rows| && rows[i].org == org && rows[i].key == key
  }

  function Opa(r: Request): OpaDecision {
    OpaEnforced(r.opaMode, r.opaAnswer)
  }

  /** The confirmation token has to be the operation's label, when it has one. */
  predicate TokenFits(r: Request) {
    var expected := EvaluateOperationPolicy(r.facts, r.pushFlag).token;
    expected.Some? ==> r.token == expected.value
  }

  /** Every check a new operation has to pass, in any order: none of them writes an operation. */
  predicate Admitted(s: State, r: Request) {
    && CanTriggerWithRole(RoleOf(s, r.org, r.user))
    && r.token != "" && r.scopeFound && !KeyUsed(s.rows, r.org, r.key)
    && TokenFits(r) && Opa(r).allow
  }

  predicate NeedsApproval(r: Request) {
    EvaluateOperationPolicy(r.facts, r.pushFlag).approvalRequired || Opa(r).approvalRequired
  }

  function NewRow(r: Request, role: Role): Row {
    var required := NeedsApproval(r);
    Row(r.org, r.user, r.facts, r.key, required, if required then PENDING_APPROVAL else QUEUED,
        None, None, None, Opa(r).approvalRequired, r.pushFlag, role, {}, if required then 0 else 1, 0, 0)
  }

  /** A status write. */
  function WithStatus(r: Row, status: Status): Row {
    r.(status := status, changes := if r.status == status then r.changes else r.changes + 1,
       queuedWrites := if status == QUEUED then r.queuedWrites + 1 else r.queuedWrites)
  }

  function Approved(r: Row, user: User, now: int): Row {
    WithStatus(r, QUEUED).(approvedBy := Some(user), approvedAt := Some(now))
  }

  function Claimed(r: Row): Row {
    WithStatus(r, RUNNING).(executions := r.executions + 1)
  }

  function Rejected(r: Row, user: User): Row {
    WithStatus(r, REJECTED).(rejectedBy := Some(user))
  }

  predicate Possible(s: State, e: Step) {
    match e
    case SetRole(_, _, _) => true
    case Create(c, _) => c !in s.calls
    case ReadPending(c, _, _, _, _) => c !in s.calls
    case CheckRole(c) => c in s.calls && s.calls[c].Deciding? && !s.calls[c].granted && s.calls[c].op < |s.rows|
    case Commit(c, _) => c in s.calls && s.calls[c].Deciding? && s.calls[c].granted && s.calls[c].op < |s.rows|
    case Enqueue(c) => c in s.calls && s.calls[c].Enqueueing?
    case EndCall(c) => c in s.calls
    case Deliver(w, op) => w !in s.workers && op in s.jobs && s.jobs[op] == Waiting
    case Redeliver(op) => op in s.jobs && s.jobs[op] == Active
    case EndJob(op) => op in s.jobs && s.jobs[op] == Active
    case RemoveJob(op) => op in s.jobs && s.jobs[op] == Ended
    case WorkerRead(w) => w in s.workers && s.workers[w].Got? && s.workers[w].op < |s.rows|
    case Claim(w) => w in s.workers && s.workers[w].Claiming? && s.workers[w].op < |s.rows|
    case Finish(w, _) => w in s.workers && s.workers[w].Executing? && s.workers[w].op < |s.rows|
    case Crash(w) => w in s.workers
  }

  function AfterCreate(s: State, c: CallId, r: Request): State {
    if !Admitted(s, r) then s
    else
      var row := NewRow(r, RoleOf(s, r.org, r.user).value);
      s.(rows := s.rows + [row], calls := if row.required then s.calls else s.calls[c := Enqueueing(|s.rows|)])
  }

  function AfterReadPending(s: State, c: CallId, op: OpId, org: string, user: User, approve: bool): State {
    if op < |s.rows| && s.rows[op].org == org && s.rows[op].status == PENDING_APPROVAL
    then s.(calls := s.calls[c := Deciding(op, user, approve, false)])
    else s
  }

  /** The check uses the row as it was read: pending, and its requester, which never changes. */
  function AfterCheckRole(s: State, c: CallId): State
    requires Possible(s, CheckRole(c))
  {
    var d := s.calls[c];
    var row := s.rows[d.op];
    var role := RoleOf(s, row.org, d.user);
    if CanDecideWithRole(role, d.user, PENDING_APPROVAL, Some(row.requestedBy)) then
      s.(rows := s.rows[d.op := row.(grants := row.grants + {Grant(d.user, role.value)})],
         calls := s.calls[c := d.(granted := true)])
    else s.(calls := s.calls - {c})
  }

  /** The update is by id: whatever the status is now. */
  function AfterCommit(s: State, c: CallId, now: int): State
    requires Possible(s, Commit(c, now))
  {
    var d := s.calls[c];
    if d.approve then
      s.(rows := s.rows[d.op := Approved(s.rows[d.op], d.user, now)], calls := s.calls[c := Enqueueing(d.op)])
    else
      s.(rows := s.rows[d.op := Rejected(s.rows[d.op], d.user)], calls := s.calls - {c})
  }

  /** Adding a job whose id is still known does nothing. */
  function AfterEnqueue(s: State, c: CallId): State
    requires Possible(s, Enqueue(c))
  {
    var op := s.calls[c].op;
    s.(calls := s.calls - {c}, jobs := if op in s.jobs then s.jobs else s.jobs[op := Waiting])
  }

  function AfterWorkerRead(s: State, w: WorkerId): State
    requires Possible(s, WorkerRead(w))
  {
    var op := s.workers[w].op;
    var row := s.rows[op];
    if row.status == QUEUED
    then s.(workers := s.workers[w := Claiming(op, Seen(row.approvedBy, row.approvedAt))])
    else s.(workers := s.workers - {w})
  }

  /** Compare and set: only a row that is still QUEUED is claimed. */
  function AfterClaim(s: State, w: WorkerId): State
    requires Possible(s, Claim(w))
  {
    var Claiming(op, seen) := s.workers[w];
    var row := s.rows[op];
    if row.status == QUEUED then
      s.(rows := s.rows[op := Claimed(row)],
         workers := s.workers[w := Executing(op, seen)])
    else s.(workers := s.workers - {w})
  }

  function AfterFinish(s: State, w: WorkerId, succeeded: bool): State
    requires Possible(s, Finish(w, succeeded))
  {
    var op := s.workers[w].op;
    s.(rows := s.rows[op := WithStatus(s.rows[op], if succeeded then SUCCEEDED else FAILED)],
       workers := s.workers - {w})
  }

  function Apply(s: State, e: Step): State
    requires Possible(s, e)
  {
    match e
    case SetRole(org, user, role) =>
      s.(roles := if role.None? then s.roles - {(org, user)} else s.roles[(org, user) := role.value])
    case Create(c, r) => AfterCreate(s, c, r)
    case ReadPending(c, op, org, user, approve) => AfterReadPending(s, c, op, org, user, approve)
    case CheckRole(c) => AfterCheckRole(s, c)
    case Commit(c, now) => AfterCommit(s, c, now)
    case Enqueue(c) => AfterEnqueue(s, c)
    case EndCall(c) => s.(calls := s.calls - {c})
    case Deliver(w, op) => s.(jobs := s.jobs[op := Active], workers := s.workers[w := Got(op)])
    case Redeliver(op) => s.(jobs := s.jobs[op := Waiting])
    case EndJob(op) => s.(jobs := s.jobs[op := Ended])
    case RemoveJob(op) => s.(jobs := s.jobs - {op})
    case WorkerRead(w) => AfterWorkerRead(s, w)
    case Claim(w) => AfterClaim(s, w)
    case Finish(w, succeeded) => AfterFinish(s, w, succeeded)
    case Crash(w) => s.(workers := s.workers - {w})
  }

  ghost function Next(s: State, e: Step): Option<State> {
    if Possible(s, e) then Some(Apply(s, e)) else None
  }
}
