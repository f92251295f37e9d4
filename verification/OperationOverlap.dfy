/** Two decisions that overlap: the update is by id, so the second one is written to a row that is no longer
    pending. */
module OperationOverlap {
  import opened Wrappers
  import opened Runs
  import opened OperationPolicy
  import opened OperationLifecycle
  import opened OperationOnce
  import opened OperationLate

  const ROLES := map[("o", "r") := MEMBER, ("o", "a") := OWNER, ("o", "b") := OWNER]

  /** A request by "r" for an operation that needs approval, in organization "o". */
  const REQUEST := Request(
    "o", "r", "token", None, Facts(GITHUB, GITHUB_WORKFLOW_DISPATCH, None, None), true, Enforce,
    Some(OpaDecision(true, false, [])), true)

  /** The operations table with the one row, after its creation and later. */
  function World(row: Row, calls: map<CallId, Call>, jobs: map<OpId, Job>, workers: map<WorkerId, Worker>): State {
    State([row], ROLES, calls, jobs, workers)
  }

  /** A pending row of "r" in "o". */
  predicate Pending(row: Row) {
    row.org == "o" && row.requestedBy == "r" && row.status == PENDING_APPROVAL && row.grants == {}
    && row.queuedWrites == 0 && row.executions == 0
  }

  function Both(row: Row): Row {
    row.(grants := {Grant("a", OWNER), Grant("b", OWNER)})
  }

  function BothGranted(second: bool): map<CallId, Call> {
    map[1 := Deciding(0, "a", true, true), 2 := Deciding(0, "b", second, true)]
  }

  function OneGranted(second: bool): map<CallId, Call> {
    map[2 := Deciding(0, "b", second, true)]
  }

  /** The row after the first approval was carried out. */
  function Done(row: Row): Row {
    WithStatus(Claimed(Approved(Both(row), "a", 1)), SUCCEEDED)
  }

  const SETUP := [
    SetRole("o", "r", Some(MEMBER)), SetRole("o", "a", Some(OWNER)), SetRole("o", "b", Some(OWNER)),
    Create(0, REQUEST)]

  lemma {:induction false} Setup()
    ensures Final(Next, EMPTY, SETUP) == Some(World(NewRow(REQUEST, MEMBER), map[], map[], map[]))
  {
    var e := SETUP;
    var end := World(NewRow(REQUEST, MEMBER), map[], map[], map[]);
    var s1 := State([], map[("o", "r") := MEMBER], map[], map[], map[]);
    var s2 := State([], map[("o", "r") := MEMBER, ("o", "a") := OWNER], map[], map[], map[]);
    var s3 := State([], ROLES, map[], map[], map[]);
    CreateFirst(s3);
    One(Next, s3, e[3], end);
    Then(Next, s2, e[2], s3, [e[3]], end);
    Then(Next, s1, e[1], s2, [e[2], e[3]], end);
    Then(Next, EMPTY, e[0], s1, [e[1], e[2], e[3]], end);
  }

  lemma CreateFirst(s: State)
    requires s == State([], ROLES, map[], map[], map[])
    ensures Next(s, Create(0, REQUEST)) == Some(World(NewRow(REQUEST, MEMBER), map[], map[], map[]))
  {
    assert ("o", "r") in ROLES;
    var none: seq<Row> := [];
    assert none + [NewRow(REQUEST, MEMBER)] == [NewRow(REQUEST, MEMBER)];
  }

  function GrantSteps(second: bool): seq<Step> {
    [ReadPending(1, 0, "o", "a", true), ReadPending(2, 0, "o", "b", second), CheckRole(1), CheckRole(2)]
  }

  /** Both calls read the row while it is pending, and both pass the check: an approval, and another one or
      a rejection. */
  lemma {:induction false} Grants(row: Row, second: bool)
    requires Pending(row)
    ensures Final(Next, World(row, map[], map[], map[]), GrantSteps(second)) ==
      Some(World(Both(row), BothGranted(second), map[], map[]))
  {
    var e := GrantSteps(second);
    var one := row.(grants := {Grant("a", OWNER)});
    var read1 := Deciding(0, "a", true, false);
    var read2 := Deciding(0, "b", second, false);
    var s0, end := World(row, map[], map[], map[]), World(Both(row), BothGranted(second), map[], map[]);
    var s1, s2 := World(row, map[1 := read1], map[], map[]), World(row, map[1 := read1, 2 := read2], map[], map[]);
    var s3 := World(one, map[1 := read1.(granted := true), 2 := read2], map[], map[]);
    assert s3.calls[2 := read2.(granted := true)] == end.calls &&
      one.grants + {Grant("b", OWNER)} == end.rows[0].grants;
    GrantStep(s3, 2, "b", second, end);
    One(Next, s3, e[3], end);
    assert s2.calls[1 := read1.(granted := true)] == s3.calls && row.grants + {Grant("a", OWNER)} == one.grants;
    GrantStep(s2, 1, "a", true, s3);
    Then(Next, s2, e[2], s3, [e[3]], end);
    assert s1.calls[2 := read2] == s2.calls;
    Then(Next, s1, e[1], s2, [e[2], e[3]], end);
    assert s0.calls[1 := read1] == s1.calls;
    Then(Next, s0, e[0], s1, [e[1], e[2], e[3]], end);
  }

  lemma GrantStep(s: State, c: CallId, user: User, approve: bool, t: State)
    requires |s.rows| == 1 && s.rows[0].org == "o" && s.rows[0].requestedBy == "r" && s.roles == ROLES
    requires user == "a" || user == "b"
    requires c in s.calls && s.calls[c] == Deciding(0, user, approve, false)
    requires t == World(s.rows[0].(grants := s.rows[0].grants + {Grant(user, OWNER)}),
                        s.calls[c := Deciding(0, user, approve, true)], s.jobs, s.workers)
    ensures Next(s, CheckRole(c)) == Some(t)
  {
    assert ("o", user) in ROLES;
    assert AfterCheckRole(s, c).rows == t.rows;
  }

  function CarryOut(c: CallId, now: int): seq<Step> {
    [Commit(c, now), Enqueue(c)] + [Deliver(9, 0), WorkerRead(9), Claim(9)]
  }

  lemma {:induction false} CommittedAndEnqueued(row: Row, c: CallId, user: User, now: int, calls: map<CallId, Call>)
    requires c in calls && calls[c] == Deciding(0, user, true, true)
    ensures Final(Next, World(row, calls, map[], map[]), [Commit(c, now), Enqueue(c)]) ==
      Some(World(Approved(row, user, now), calls - {c}, map[0 := Waiting], map[]))
  {
    var s0 := World(row, calls, map[], map[]);
    var s1 := World(Approved(row, user, now), calls[c := Enqueueing(0)], map[], map[]);
    var end := World(Approved(row, user, now), calls - {c}, map[0 := Waiting], map[]);
    assert calls[c := Enqueueing(0)] - {c} == calls - {c} && s1.jobs[0 := Waiting] == end.jobs;
    One(Next, s1, Enqueue(c), end);
    assert AfterCommit(s0, c, now).rows == s1.rows;
    Then(Next, s0, Commit(c, now), s1, [Enqueue(c)], end);
  }

  lemma ClaimStep(row: Row, calls: map<CallId, Call>, seen: Seen)
    requires row.status == QUEUED
    ensures Next(World(row, calls, map[0 := Active], map[9 := Claiming(0, seen)]), Claim(9)) ==
      Some(World(Claimed(row), calls, map[0 := Active], map[9 := Executing(0, seen)]))
  {
    var s := World(row, calls, map[0 := Active], map[9 := Claiming(0, seen)]);
    assert s.rows[0 := Claimed(row)] == [Claimed(row)];
    assert s.workers[9 := Executing(0, seen)] == map[9 := Executing(0, seen)];
  }

  lemma ReadStep(row: Row, calls: map<CallId, Call>, seen: Seen)
    requires row.status == QUEUED && seen == Seen(row.approvedBy, row.approvedAt)
    ensures Next(World(row, calls, map[0 := Active], map[9 := Got(0)]), WorkerRead(9)) ==
      Some(World(row, calls, map[0 := Active], map[9 := Claiming(0, seen)]))
  {
    assert World(row, calls, map[0 := Active], map[9 := Got(0)]).workers[9 := Claiming(0, seen)]
        == map[9 := Claiming(0, seen)];
  }

  lemma DeliverStep(row: Row, calls: map<CallId, Call>)
    ensures Next(World(row, calls, map[0 := Waiting], map[]), Deliver(9, 0)) ==
      Some(World(row, calls, map[0 := Active], map[9 := Got(0)]))
  {
    var s := World(row, calls, map[0 := Waiting], map[]);
    assert s.jobs[0 := Active] == map[0 := Active] && s.workers[9 := Got(0)] == map[9 := Got(0)];
  }

  lemma {:induction false} DeliveredAndClaimed(row: Row, calls: map<CallId, Call>, seen: Seen)
    requires row.status == QUEUED && seen == Seen(row.approvedBy, row.approvedAt)
    ensures Final(Next, World(row, calls, map[0 := Waiting], map[]), [Deliver(9, 0), WorkerRead(9), Claim(9)]) ==
      Some(World(Claimed(row), calls, map[0 := Active], map[9 := Executing(0, seen)]))
  {
    var s0 := World(row, calls, map[0 := Waiting], map[]);
    var s1 := World(row, calls, map[0 := Active], map[9 := Got(0)]);
    var s2 := World(row, calls, map[0 := Active], map[9 := Claiming(0, seen)]);
    var end := World(Claimed(row), calls, map[0 := Active], map[9 := Executing(0, seen)]);
    ClaimStep(row, calls, seen);
    One(Next, s2, Claim(9), end);
    ReadStep(row, calls, seen);
    Then(Next, s1, WorkerRead(9), s2, [Claim(9)], end);
    DeliverStep(row, calls);
    Then(Next, s0, Deliver(9, 0), s1, [WorkerRead(9), Claim(9)], end);
  }

  /** An approval is written, its job is added and delivered, and the worker claims the row: whatever the row was. */
  lemma {:induction false} CarriedOut(row: Row, c: CallId, user: User, now: int, calls: map<CallId, Call>)
    requires c in calls && calls[c] == Deciding(0, user, true, true)
    ensures var approved := Approved(row, user, now);
      Final(Next, World(row, calls, map[], map[]), CarryOut(c, now)) ==
      Some(World(Claimed(approved), calls - {c}, map[0 := Active],
                 map[9 := Executing(0, Seen(approved.approvedBy, approved.approvedAt))]))
  {
    CommittedAndEnqueued(row, c, user, now, calls);
    var approved := Approved(row, user, now);
    DeliveredAndClaimed(approved, calls - {c}, Seen(approved.approvedBy, approved.approvedAt));
    Concatenate(Next, World(row, calls, map[], map[]), [Commit(c, now), Enqueue(c)],
      [Deliver(9, 0), WorkerRead(9), Claim(9)]);
  }

  lemma {:induction false} Ended(row: Row, seen: Seen, calls: map<CallId, Call>)
    ensures Final(Next, World(row, calls, map[0 := Active], map[9 := Executing(0, seen)]), [Finish(9, true), EndJob(0)])
      == Some(World(WithStatus(row, SUCCEEDED), calls, map[0 := Job.Ended], map[]))
  {
    var s0 := World(row, calls, map[0 := Active], map[9 := Executing(0, seen)]);
    var s1 := World(WithStatus(row, SUCCEEDED), calls, map[0 := Active], map[]);
    var end := World(WithStatus(row, SUCCEEDED), calls, map[0 := Job.Ended], map[]);
    assert AfterFinish(s0, 9, true).rows == s1.rows && AfterFinish(s0, 9, true).workers == map[];
    assert s1.jobs[0 := Job.Ended] == end.jobs;
    One(Next, s1, EndJob(0), end);
    Then(Next, s0, Finish(9, true), s1, [EndJob(0)], end);
  }

  function DoneSteps(second: bool): seq<Step> {
    GrantSteps(second) + CarryOut(1, 1) + [Finish(9, true), EndJob(0)]
  }

  lemma {:induction false} DoneFrom(row: Row, second: bool)
    requires Pending(row)
    ensures Final(Next, World(row, map[], map[], map[]), DoneSteps(second)) ==
      Some(World(Done(row), OneGranted(second), map[0 := Job.Ended], map[]))
  {
    var s0 := World(row, map[], map[], map[]);
    var approved := Approved(Both(row), "a", 1);
    Grants(row, second);
    CarriedOut(Both(row), 1, "a", 1, BothGranted(second));
    assert BothGranted(second) - {1} == OneGranted(second);
    Ended(Claimed(approved), Seen(approved.approvedBy, approved.approvedAt), OneGranted(second));
    Concatenate(Next, s0, GrantSteps(second), CarryOut(1, 1));
    Concatenate(Next, s0, GrantSteps(second) + CarryOut(1, 1), [Finish(9, true), EndJob(0)]);
  }

  lemma RemoveStep(row: Row, calls: map<CallId, Call>)
    ensures Next(World(row, calls, map[0 := Job.Ended], map[]), RemoveJob(0)) == Some(World(row, calls, map[], map[]))
  {
    assert World(row, calls, map[0 := Job.Ended], map[]).jobs - {0} == map[];
  }

  lemma {:induction false} RemovedAndCarriedOut(row: Row, calls: map<CallId, Call>, approved: Row, end: State)
    requires 2 in calls && calls[2] == Deciding(0, "b", true, true) && approved == Approved(row, "b", 2)
    requires end == World(Claimed(approved), calls - {2}, map[0 := Active],
                          map[9 := Executing(0, Seen(approved.approvedBy, approved.approvedAt))])
    ensures Final(Next, World(row, calls, map[0 := Job.Ended], map[]), [RemoveJob(0)] + CarryOut(2, 2)) == Some(end)
  {
    CarriedOut(row, 2, "b", 2, calls);
    RemoveStep(row, calls);
    Then(Next, World(row, calls, map[0 := Job.Ended], map[]), RemoveJob(0),
      World(row, calls, map[], map[]), CarryOut(2, 2), end);
  }

  /** From a pending row the second approval is carried out after the first: the job was removed in between. */
  lemma {:induction false} TwiceFrom(row: Row) returns (steps: seq<Step>, end: State)
    requires Pending(row)
    ensures Final(Next, World(row, map[], map[], map[]), steps) == Some(end)
    ensures |end.rows| == 1 && end.rows[0].executions == 2
  {
    var first := DoneSteps(true);
    DoneFrom(row, true);
    var approved := Approved(Done(row), "b", 2);
    end := World(Claimed(approved), OneGranted(true) - {2}, map[0 := Active],
      map[9 := Executing(0, Seen(approved.approvedBy, approved.approvedAt))]);
    RemovedAndCarriedOut(Done(row), OneGranted(true), approved, end);
    steps := first + ([RemoveJob(0)] + CarryOut(2, 2));
    Concatenate(Next, World(row, map[], map[], map[]), first, [RemoveJob(0)] + CarryOut(2, 2));
  }

  /** The row that the second approval leaves when the finished job is still known. */
  lemma {:induction false} LateApproval(row: Row)
    requires Pending(row)
    ensures Final(Next, World(Done(row), OneGranted(true), map[0 := Job.Ended], map[]), [Commit(2, 2), Enqueue(2)]) ==
      Some(World(Approved(Done(row), "b", 2), map[], map[0 := Job.Ended], map[]))
  {
    var approved := Approved(Done(row), "b", 2);
    var s0 := World(Done(row), OneGranted(true), map[0 := Job.Ended], map[]);
    var s1 := World(approved, map[2 := Enqueueing(0)], map[0 := Job.Ended], map[]);
    var end := World(approved, map[], map[0 := Job.Ended], map[]);
    assert s1.calls - {2} == map[];
    One(Next, s1, Enqueue(2), end);
    assert AfterCommit(s0, 2, 2).rows == s1.rows && OneGranted(true)[2 := Enqueueing(0)] == s1.calls;
    Then(Next, s0, Commit(2, 2), s1, [Enqueue(2)], end);
  }

  lemma {:induction false} ForgottenFrom(row: Row) returns (steps: seq<Step>, end: State)
    requires Pending(row)
    ensures Final(Next, World(row, map[], map[], map[]), steps) == Some(end)
    ensures |end.rows| == 1 && end.rows[0].executions == 1 && Abandoned(Some(end), 0)
  {
    var first := DoneSteps(true);
    DoneFrom(row, true);
    LateApproval(row);
    steps := first + [Commit(2, 2), Enqueue(2)];
    Concatenate(Next, World(row, map[], map[], map[]), first, [Commit(2, 2), Enqueue(2)]);
    end := World(Approved(Done(row), "b", 2), map[], map[0 := Job.Ended], map[]);
  }

  /** A run in which one operation is executed twice: its first approval was carried out and its job was removed from
      the queue before the second approval was written. */
  lemma {:induction false} ExecutedTwice()
    ensures exists steps: seq<Step>, s: State ::
      Final(Next, EMPTY, steps) == Some(s) && |s.rows| == 1 && s.rows[0].executions == 2
  {
    Setup();
    var steps, end := TwiceFrom(NewRow(REQUEST, MEMBER));
    Concatenate(Next, EMPTY, SETUP, steps);
    assert Final(Next, EMPTY, SETUP + steps) == Some(end);
  }

  /** A run that ends with the operation QUEUED and nobody left to run it: the finished job was still known, so the
      second approval's enqueue did nothing. The status SUCCEEDED was taken back. */
  lemma {:induction false} Forgotten()
    ensures exists steps: seq<Step>, s: State ::
      && Final(Next, EMPTY, steps) == Some(s) && |s.rows| == 1
      && s.rows[0].executions == 1 && Abandoned(Some(s), 0)
  {
    Setup();
    var steps, end := ForgottenFrom(NewRow(REQUEST, MEMBER));
    Concatenate(Next, EMPTY, SETUP, steps);
    assert Final(Next, EMPTY, SETUP + steps) == Some(end);
  }

  lemma {:induction false} LateRejection(row: Row)
    requires Pending(row)
    ensures Final(Next, World(Done(row), OneGranted(false), map[0 := Job.Ended], map[]), [Commit(2, 2)]) ==
      Some(World(Rejected(Done(row), "b"), map[], map[0 := Job.Ended], map[]))
  {
    var s0 := World(Done(row), OneGranted(false), map[0 := Job.Ended], map[]);
    var end := World(Rejected(Done(row), "b"), map[], map[0 := Job.Ended], map[]);
    assert AfterCommit(s0, 2, 2).rows == end.rows && OneGranted(false) - {2} == end.calls;
    One(Next, s0, Commit(2, 2), end);
  }

  lemma {:induction false} RejectedFrom(row: Row)
    requires Pending(row)
    ensures var done := Final(Next, World(row, map[], map[], map[]), DoneSteps(false));
      done.Some? && |done.value.rows| == 1 && done.value.rows[0].status == SUCCEEDED
    ensures var end := Final(Next, World(row, map[], map[], map[]), DoneSteps(false) + [Commit(2, 2)]);
      end.Some? && |end.value.rows| == 1 && end.value.rows[0].status == REJECTED && end.value.rows[0].executions == 1
  {
    DoneFrom(row, false);
    LateRejection(row);
    Concatenate(Next, World(row, map[], map[], map[]), DoneSteps(false), [Commit(2, 2)]);
  }

  /** A run in which an operation that was approved, executed and SUCCEEDED ends as REJECTED. */
  lemma {:induction false} RejectedAfterSuccess()
    ensures exists steps: seq<Step>, last: Step ::
      && var before, after := Final(Next, EMPTY, steps), Final(Next, EMPTY, steps + [last]);
      && before.Some? && |before.value.rows| == 1 && before.value.rows[0].status == SUCCEEDED
      && after.Some? && |after.value.rows| == 1 && after.value.rows[0].status == REJECTED
  {
    Setup();
    RejectedFrom(NewRow(REQUEST, MEMBER));
    Concatenate(Next, EMPTY, SETUP, DoneSteps(false));
    Concatenate(Next, EMPTY, SETUP, DoneSteps(false) + [Commit(2, 2)]);
    assert SETUP + DoneSteps(false) + [Commit(2, 2)] == SETUP + (DoneSteps(false) + [Commit(2, 2)]);
    assert Final(Next, EMPTY, (SETUP + DoneSteps(false)) + [Commit(2, 2)]).Some?;
  }
}
