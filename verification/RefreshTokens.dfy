/** Refresh-token rotation (apps/api/src/modules/auth/auth.service.ts).

    A refresh token is fresh random text and its digest is injective, so the raw token, the digest
    and the row are one: a token is named by the position of its row, in creation order. */
module RefreshTokens {
  import opened Wrappers
  import opened Runs

  type Time = nat
  type CallId = nat

  /** For whom, and when, the row was checked that a new token was issued for. */
  datatype Exchange = Exchange(subject: string, checkedAt: Time)

  /** `exchanges` and `lost` are history: the checks after which new tokens were issued for this one, and how many of
      them came from a call that ended before the row was updated. */
  datatype Token = Token(
    userId: string, expiresAt: Time, revokedAt: Option<Time>, replacedBy: Option<nat>,
    exchanges: seq<Exchange>, lost: nat)

  /** A `refresh` between two of its statements. `checkedAt` is history. */
  datatype Call = Checked(token: nat, userId: string, checkedAt: Time) | Issued(token: nat, replacement: nat)

  /** The table, the refreshes in flight, and history counters. */
  datatype State = State(
    rows: seq<Token>, calls: map<CallId, Call>, signIns: nat, logouts: set<nat>, lost: nat)

  datatype Step =
    | SignIn(userId: string, expiresAt: Time)
    | Logout(token: nat, now: Time)
    | Check(call: CallId, token: nat, subject: string, now: Time)
    | Issue(call: CallId, expiresAt: Time)
    | Retire(call: CallId, now: Time)
    | Abandon(call: CallId)

  function NewToken(userId: string, expiresAt: Time): Token {
    Token(userId, expiresAt, None, None, [], 0)
  }

  /** The test that `refresh` makes on the stored row. */
  predicate Acceptable(rows: seq<Token>, token: nat, subject: string, now: Time) {
    && token < |rows|
    && rows[token].revokedAt.None?
    && now <= rows[token].expiresAt
    && rows[token].userId == subject
  }

  predicate Possible(s: State, e: Step) {
    match e
    case SignIn(_, _) => true
    case Logout(_, _) => true
    case Check(c, _, _, _) => c !in s.calls
    case Issue(c, _) => c in s.calls && s.calls[c].Checked? && s.calls[c].token < |s.rows|
    case Retire(c, _) => c in s.calls && s.calls[c].Issued? && s.calls[c].token < |s.rows|
    case Abandon(c) => c in s.calls && s.calls[c].token < |s.rows|
  }

  function Apply(s: State, e: Step): State
    requires Possible(s, e)
  {
    match e
    case SignIn(userId, expiresAt) =>
      s.(rows := s.rows + [NewToken(userId, expiresAt)], signIns := s.signIns + 1)
    case Logout(token, now) =>
      if token < |s.rows| && s.rows[token].revokedAt.None? then
        s.(rows := s.rows[token := s.rows[token].(revokedAt := Some(now))], logouts := s.logouts + {token})
      else s
    case Check(c, token, subject, now) =>
      if Acceptable(s.rows, token, subject, now) then s.(calls := s.calls[c := Checked(token, subject, now)]) else s
    case Issue(c, expiresAt) =>
      var Checked(token, userId, checkedAt) := s.calls[c];
      var row := s.rows[token].(exchanges := s.rows[token].exchanges + [Exchange(userId, checkedAt)]);
      s.(rows := s.rows[token := row] + [NewToken(userId, expiresAt)],
         calls := s.calls[c := Issued(token, |s.rows|)])
    case Retire(c, now) =>
      var Issued(token, replacement) := s.calls[c];
      var row := s.rows[token];
      s.(rows := s.rows[token := row.(revokedAt := Some(now), replacedBy := Some(replacement))],
         calls := s.calls - {c})
    case Abandon(c) =>
      var row := s.rows[s.calls[c].token];
      if s.calls[c].Issued? then
        s.(rows := s.rows[s.calls[c].token := row.(lost := row.lost + 1)], calls := s.calls - {c}, lost := s.lost + 1)
      else s.(calls := s.calls - {c})
  }

  ghost function Next(s: State, e: Step): Option<State> {
    if Possible(s, e) then Some(Apply(s, e)) else None
  }

  // ----- Every interleaving ---------------------------------------------------

  ghost predicate Consistent(s: State) {
    && (forall c :: c in s.calls ==> s.calls[c].token < |s.rows|)
    && (forall c :: c in s.calls && s.calls[c].Issued? ==> s.calls[c].token < s.calls[c].replacement < |s.rows|)
    && (forall t :: 0 <= t < |s.rows| ==> RowConsistent(s, t))
    && (forall t :: t in s.logouts ==> t < |s.rows| && s.rows[t].revokedAt.Some?)
  }

  ghost predicate RowConsistent(s: State, t: nat)
    requires t < |s.rows|
  {
    && (s.rows[t].replacedBy.Some? ==> t < s.rows[t].replacedBy.value < |s.rows| && s.rows[t].revokedAt.Some?)
    && (s.rows[t].revokedAt.Some? && s.rows[t].replacedBy.None? ==> t in s.logouts)
  }

  const EMPTY := State([], map[], 0, {}, 0)

  lemma ConsistentStep(s: State, e: Step)
    requires Consistent(s) && Possible(s, e)
    ensures Consistent(Apply(s, e))
  {
    var s' := Apply(s, e);
    forall t | 0 <= t < |s'.rows| ensures RowConsistent(s', t) {
      if t < |s.rows| { assert RowConsistent(s, t); }
    }
  }

  lemma {:induction false} ConsistentRun(steps: seq<Step>)
    ensures Final(Next, EMPTY, steps).Some? ==> Consistent(Final(Next, EMPTY, steps).value)
  {
    forall x, e | Consistent(x) && Next(x, e).Some? ensures Consistent(Next(x, e).value) {
      ConsistentStep(x, e);
    }
    Invariant(Next, Consistent, EMPTY, steps);
  }

  // What was checked before every exchange.

  /** A check passes exactly for the owner of a stored, unrevoked and unexpired token; another call goes no further. */
  lemma CheckPassesExactly(s: State, c: CallId, token: nat, subject: string, now: Time)
    requires Possible(s, Check(c, token, subject, now))
    ensures
      var t := Apply(s, Check(c, token, subject, now));
      var passes := && token < |s.rows| && s.rows[token].revokedAt == None && now <= s.rows[token].expiresAt
                    && s.rows[token].userId == subject;
      && (passes ==> t == s.(calls := s.calls[c := Checked(token, subject, now)]))
      && (!passes ==> t == s)
  {
  }

  ghost predicate OwnerInTime(row: Token, subject: string, checkedAt: Time) {
    subject == row.userId && checkedAt <= row.expiresAt
  }

  ghost predicate RowEntitled(rows: seq<Token>, row: Token) {
    && (forall x :: x in row.exchanges ==> OwnerInTime(row, x.subject, x.checkedAt))
    && (row.replacedBy.Some? ==> row.replacedBy.value < |rows| && rows[row.replacedBy.value].userId == row.userId)
  }

  ghost predicate CallEntitled(rows: seq<Token>, c: Call) {
    && c.token < |rows|
    && (c.Checked? ==> OwnerInTime(rows[c.token], c.userId, c.checkedAt))
    && (c.Issued? ==> c.replacement < |rows| && rows[c.replacement].userId == rows[c.token].userId)
  }

  ghost predicate Entitled(s: State) {
    && (forall t :: 0 <= t < |s.rows| ==> RowEntitled(s.rows, s.rows[t]))
    && (forall c :: c in s.calls ==> CallEntitled(s.rows, s.calls[c]))
  }

  /** Rows are only added, and nothing changes whose a token is and when it expires. */
  lemma StaysEntitled(s: State, rows: seq<Token>)
    requires Entitled(s) && |s.rows| <= |rows|
    requires forall t :: 0 <= t < |s.rows| ==>
      rows[t].userId == s.rows[t].userId && rows[t].expiresAt == s.rows[t].expiresAt
    ensures forall t :: 0 <= t < |s.rows| ==> RowEntitled(rows, s.rows[t])
    ensures forall c :: c in s.calls ==> CallEntitled(rows, s.calls[c])
  {
  }

  lemma EntitledStep(s: State, e: Step)
    requires Entitled(s) && Possible(s, e)
    ensures Entitled(Apply(s, e))
  {
    var s' := Apply(s, e);
    StaysEntitled(s, s'.rows);
    if e.Issue? || e.Retire? || e.Abandon? {
      assert CallEntitled(s.rows, s.calls[e.call]);
    }
    forall t | 0 <= t < |s'.rows| ensures RowEntitled(s'.rows, s'.rows[t]) {
      if t < |s.rows| { assert RowEntitled(s'.rows, s.rows[t]); }
    }
  }

  /** In every interleaving, each exchange of a token was checked for the token's own user while it had not expired,
      and a token's replacement is its user's. */
  lemma {:induction false} ExchangedByOwnerInTime(steps: seq<Step>, s: State, t: nat)
    requires Final(Next, EMPTY, steps) == Some(s) && t < |s.rows|
    ensures forall x :: x in s.rows[t].exchanges ==>
      x.subject == s.rows[t].userId && x.checkedAt <= s.rows[t].expiresAt
    ensures s.rows[t].replacedBy.Some? ==>
      s.rows[t].replacedBy.value < |s.rows| && s.rows[s.rows[t].replacedBy.value].userId == s.rows[t].userId
  {
    forall x, e | Entitled(x) && Next(x, e).Some? ensures Entitled(Next(x, e).value) {
      EntitledStep(x, e);
    }
    Invariant(Next, Entitled, EMPTY, steps);
    assert RowEntitled(s.rows, s.rows[t]);
  }

  /** The last token of a replacement chain. */
  ghost function ChainEnd(s: State, t: nat): nat
    requires Consistent(s) && t < |s.rows|
    decreases |s.rows| - t
  {
    assert RowConsistent(s, t);
    match s.rows[t].replacedBy
    case None => t
    case Some(next) => ChainEnd(s, next)
  }

  /** In every interleaving a chain climbs in creation order, so it is acyclic,
      and it ends at a token that is unrevoked or was logged out. */
  lemma {:induction false} ChainsEnd(steps: seq<Step>, s: State, t: nat)
    requires Final(Next, EMPTY, steps) == Some(s) && t < |s.rows|
    ensures Consistent(s)
    ensures t <= ChainEnd(s, t) < |s.rows|
    ensures s.rows[t].replacedBy.Some? ==> t < s.rows[t].replacedBy.value <= ChainEnd(s, t)
    ensures s.rows[ChainEnd(s, t)].revokedAt.None? || ChainEnd(s, t) in s.logouts
  {
    ConsistentRun(steps);
    ChainEndIsFree(s, t);
  }

  lemma {:induction false} ChainEndIsFree(s: State, t: nat)
    requires Consistent(s) && t < |s.rows|
    ensures var e := ChainEnd(s, t);
      t <= e < |s.rows| && (s.rows[t].replacedBy.Some? ==> t < s.rows[t].replacedBy.value <= e) &&
      (s.rows[e].revokedAt.None? || e in s.logouts)
    decreases |s.rows| - t
  {
    assert RowConsistent(s, t);
    if s.rows[t].replacedBy.Some? {
      ChainEndIsFree(s, s.rows[t].replacedBy.value);
    }
  }

  // ----- Refreshes of one token that do not overlap ---------------------------

  ghost predicate Held(s: State, t: nat) {
    exists c :: c in s.calls && s.calls[c].token == t
  }

  /** No refresh of a token starts while another refresh of it is in flight; a logout may. */
  ghost function RefreshNext(s: State, e: Step): Option<State> {
    if e.Check? && Held(s, e.token) then None else Next(s, e)
  }

  /** Nor does a logout of it. */
  ghost function SerialNext(s: State, e: Step): Option<State> {
    if e.Logout? && Held(s, e.token) then None else RefreshNext(s, e)
  }

  function Unrevoked(rows: seq<Token>): nat {
    if rows == [] then 0
    else Unrevoked(rows[..|rows| - 1]) + (if rows[|rows| - 1].revokedAt.None? then 1 else 0)
  }

  ghost function IssuedCalls(s: State): set<CallId> {
    set c | c in s.calls && s.calls[c].Issued?
  }

  ghost function IssuedFor(s: State, t: nat): set<CallId> {
    set c | c in s.calls && s.calls[c].Issued? && s.calls[c].token == t
  }

  /** One holder per token, and a held token has no replacement yet. */
  ghost predicate Exclusive(s: State) {
    && Consistent(s)
    && (forall c, d :: c in s.calls && d in s.calls && s.calls[c].token == s.calls[d].token ==> c == d)
    && (forall c :: c in s.calls ==> s.rows[s.calls[c].token].replacedBy.None?)
  }

  /** Tokens that were logged out while a refresh held them, and that the refresh replaced all the same. */
  ghost function LoggedOutAndReplaced(s: State): set<nat> {
    set t | t in s.logouts && t < |s.rows| && s.rows[t].replacedBy.Some?
  }

  /** Sign-ins, outstanding replacements and tokens revoked twice pay for the unrevoked tokens and the logouts. */
  ghost predicate Conserved(s: State) {
    Unrevoked(s.rows) + |s.logouts| == s.signIns + |IssuedCalls(s)| + s.lost + |LoggedOutAndReplaced(s)|
  }

  /** Every exchange was cut short, is outstanding, or is recorded in the row. */
  ghost predicate Accounted(s: State, t: nat)
    requires t < |s.rows|
  {
    |s.rows[t].exchanges| == s.rows[t].lost + |IssuedFor(s, t)| + (if s.rows[t].replacedBy.Some? then 1 else 0)
  }

  ghost predicate Rotating(s: State) {
    Exclusive(s) && forall t :: 0 <= t < |s.rows| ==> Accounted(s, t)
  }

  ghost predicate Paid(s: State) {
    Exclusive(s) && Conserved(s)
  }

  /** Held tokens are unrevoked, and logged-out ones have no replacement. */
  ghost predicate Undisturbed(s: State) {
    && Consistent(s)
    && (forall c :: c in s.calls ==> s.rows[s.calls[c].token].revokedAt.None?)
    && (forall c, d :: c in s.calls && d in s.calls && s.calls[c].token == s.calls[d].token ==> c == d)
    && LoggedOutAndReplaced(s) == {}
  }

  lemma {:induction false} UnrevokedUpdate(rows: seq<Token>, t: nat, row: Token)
    requires t < |rows|
    ensures Unrevoked(rows[t := row]) ==
      Unrevoked(rows) - (if rows[t].revokedAt.None? then 1 else 0) + (if row.revokedAt.None? then 1 else 0)
  {
    var n := |rows| - 1;
    if t < n {
      UnrevokedUpdate(rows[..n], t, row);
      assert rows[t := row][..n] == rows[..n][t := row];
    } else {
      assert rows[t := row][..n] == rows[..n];
    }
  }

  lemma UnrevokedAppend(rows: seq<Token>, row: Token)
    ensures Unrevoked(rows + [row]) == Unrevoked(rows) + (if row.revokedAt.None? then 1 else 0)
  {
    assert (rows + [row])[..|rows|] == rows;
  }

  lemma ExclusiveStep(s: State, e: Step)
    requires Exclusive(s) && RefreshNext(s, e).Some?
    ensures Exclusive(RefreshNext(s, e).value)
  {
    ConsistentStep(s, e);
    if e.Check? && Acceptable(s.rows, e.token, e.subject, e.now) {
      assert RowConsistent(s, e.token);
    }
  }

  lemma ConservedLogout(s: State, t: nat, now: Time)
    requires Consistent(s) && Conserved(s)
    ensures Conserved(Apply(s, Logout(t, now)))
  {
    var s' := Apply(s, Logout(t, now));
    assert IssuedCalls(s') == IssuedCalls(s);
    if t < |s.rows| && s.rows[t].revokedAt.None? {
      assert RowConsistent(s, t);
      assert t !in s.logouts;
      UnrevokedUpdate(s.rows, t, s.rows[t].(revokedAt := Some(now)));
    }
    assert LoggedOutAndReplaced(s') == LoggedOutAndReplaced(s);
  }

  lemma ConservedIssue(s: State, c: CallId, expiresAt: Time)
    requires Consistent(s) && Conserved(s) && Possible(s, Issue(c, expiresAt))
    ensures Conserved(Apply(s, Issue(c, expiresAt)))
  {
    var s' := Apply(s, Issue(c, expiresAt));
    var Checked(t, userId, checkedAt) := s.calls[c];
    var row := s.rows[t].(exchanges := s.rows[t].exchanges + [Exchange(userId, checkedAt)]);
    UnrevokedUpdate(s.rows, t, row);
    UnrevokedAppend(s.rows[t := row], NewToken(userId, expiresAt));
    assert IssuedCalls(s') == IssuedCalls(s) + {c};
    assert LoggedOutAndReplaced(s') == LoggedOutAndReplaced(s);
  }

  lemma RetireLogsOut(s: State, c: CallId, now: Time)
    requires Exclusive(s) && Possible(s, Retire(c, now))
    ensures var t := s.calls[c].token;
      LoggedOutAndReplaced(Apply(s, Retire(c, now))) ==
        LoggedOutAndReplaced(s) + (if s.rows[t].revokedAt.Some? then {t} else {})
    ensures s.calls[c].token !in LoggedOutAndReplaced(s)
  {
    assert RowConsistent(s, s.calls[c].token);
  }

  /** A refresh that ends revokes its token, or gives a logged-out token a replacement. */
  lemma ConservedRetire(s: State, c: CallId, now: Time)
    requires Exclusive(s) && Conserved(s) && Possible(s, Retire(c, now))
    ensures Conserved(Apply(s, Retire(c, now)))
  {
    var s' := Apply(s, Retire(c, now));
    var t := s.calls[c].token;
    UnrevokedUpdate(s.rows, t, s'.rows[t]);
    assert IssuedCalls(s) == IssuedCalls(s') + {c};
    RetireLogsOut(s, c, now);
  }

  lemma ConservedAbandon(s: State, c: CallId)
    requires Conserved(s) && Possible(s, Abandon(c))
    ensures Conserved(Apply(s, Abandon(c)))
  {
    var s' := Apply(s, Abandon(c));
    assert LoggedOutAndReplaced(s') == LoggedOutAndReplaced(s);
    if s.calls[c].Issued? {
      UnrevokedUpdate(s.rows, s.calls[c].token, s'.rows[s.calls[c].token]);
      assert IssuedCalls(s) == IssuedCalls(s') + {c};
    } else {
      assert IssuedCalls(s) == IssuedCalls(s');
    }
  }

  lemma ConservedStep(s: State, e: Step)
    requires Paid(s) && RefreshNext(s, e).Some?
    ensures Conserved(RefreshNext(s, e).value)
  {
    var s' := Apply(s, e);
    match e
    case SignIn(userId, expiresAt) =>
      UnrevokedAppend(s.rows, NewToken(userId, expiresAt));
      assert IssuedCalls(s') == IssuedCalls(s) && LoggedOutAndReplaced(s') == LoggedOutAndReplaced(s);
    case Logout(t, now) => ConservedLogout(s, t, now);
    case Check(_, _, _, _) =>
      assert IssuedCalls(s') == IssuedCalls(s) && LoggedOutAndReplaced(s') == LoggedOutAndReplaced(s);
    case Issue(c, expiresAt) => ConservedIssue(s, c, expiresAt);
    case Retire(c, now) => ConservedRetire(s, c, now);
    case Abandon(c) => ConservedAbandon(s, c);
  }

  lemma StillNoneReplaced(s: State, e: Step)
    requires Undisturbed(s) && SerialNext(s, e).Some?
    ensures LoggedOutAndReplaced(Apply(s, e)) == {}
  {
    var s' := Apply(s, e);
    forall t | t in s'.logouts && t < |s'.rows| ensures s'.rows[t].replacedBy.None? {
      if t in s.logouts {
        assert t !in LoggedOutAndReplaced(s);
      } else {
        assert RowConsistent(s, t);
      }
    }
  }

  lemma HeldStayUnrevoked(s: State, e: Step)
    requires Undisturbed(s) && SerialNext(s, e).Some?
    ensures forall c :: c in Apply(s, e).calls ==>
      Apply(s, e).calls[c].token < |Apply(s, e).rows| && Apply(s, e).rows[Apply(s, e).calls[c].token].revokedAt.None?
  {
    var s' := Apply(s, e);
    forall c | c in s'.calls && (e.Retire? || e.Logout?)
      ensures s'.calls[c].token < |s'.rows| && s'.rows[s'.calls[c].token].revokedAt.None?
    {
      assert c in s.calls && s'.calls[c] == s.calls[c];
    }
  }

  lemma HoldersStayAlone(s: State, e: Step)
    requires Undisturbed(s) && SerialNext(s, e).Some?
    ensures forall c, d :: c in Apply(s, e).calls && d in Apply(s, e).calls ==>
      Apply(s, e).calls[c].token == Apply(s, e).calls[d].token ==> c == d
  {
  }

  lemma UndisturbedStep(s: State, e: Step)
    requires Undisturbed(s) && SerialNext(s, e).Some?
    ensures Undisturbed(SerialNext(s, e).value)
  {
    ConsistentStep(s, e);
    HeldStayUnrevoked(s, e);
    HoldersStayAlone(s, e);
    StillNoneReplaced(s, e);
  }

  /** A step of another token's refresh, or no refresh step at all. */
  lemma AccountedElsewhere(s: State, e: Step, t: nat)
    requires Exclusive(s) && RefreshNext(s, e).Some? && t < |s.rows| && Accounted(s, t)
    requires (e.Retire? || e.Abandon? || e.Issue?) ==> s.calls[e.call].token != t
    ensures Accounted(Apply(s, e), t)
  {
    var s' := Apply(s, e);
    assert RowConsistent(s, t);
    assert IssuedFor(s', t) == IssuedFor(s, t);
  }

  lemma AccountedIssue(s: State, e: Step, t: nat)
    requires Exclusive(s) && Possible(s, e) && e.Issue? && s.calls[e.call].token == t && Accounted(s, t)
    ensures Accounted(Apply(s, e), t)
  {
    assert IssuedFor(Apply(s, e), t) == IssuedFor(s, t) + {e.call};
  }

  lemma AccountedEnd(s: State, e: Step, t: nat)
    requires Exclusive(s) && Possible(s, e) && (e.Retire? || e.Abandon?) &&
      s.calls[e.call].token == t && Accounted(s, t)
    ensures Accounted(Apply(s, e), t)
  {
    assert RowConsistent(s, t);
    if s.calls[e.call].Issued? {
      assert IssuedFor(s, t) == IssuedFor(Apply(s, e), t) + {e.call};
    } else {
      assert IssuedFor(s, t) == IssuedFor(Apply(s, e), t);
    }
  }

  lemma AccountedStep(s: State, e: Step, t: nat)
    requires Exclusive(s) && RefreshNext(s, e).Some?
    requires t < |s.rows| ==> Accounted(s, t)
    requires t < |Apply(s, e).rows|
    ensures Accounted(Apply(s, e), t)
  {
    if t == |s.rows| {
      assert IssuedFor(Apply(s, e), t) == {};
    } else if e.Issue? && s.calls[e.call].token == t {
      AccountedIssue(s, e, t);
    } else if (e.Retire? || e.Abandon?) && s.calls[e.call].token == t {
      AccountedEnd(s, e, t);
    } else {
      AccountedElsewhere(s, e, t);
    }
  }

  lemma {:induction false} RotatingRun(s: State, steps: seq<Step>)
    requires Rotating(s)
    ensures Final(RefreshNext, s, steps).Some? ==> Rotating(Final(RefreshNext, s, steps).value)
  {
    forall x, e | Rotating(x) && RefreshNext(x, e).Some? ensures Rotating(RefreshNext(x, e).value) {
      ExclusiveStep(x, e);
      forall t | 0 <= t < |Apply(x, e).rows| ensures Accounted(Apply(x, e), t) {
        AccountedStep(x, e, t);
      }
    }
    Invariant(RefreshNext, Rotating, s, steps);
  }

  lemma {:induction false} PaidRun(steps: seq<Step>)
    ensures Final(RefreshNext, EMPTY, steps).Some? ==> Paid(Final(RefreshNext, EMPTY, steps).value)
  {
    assert IssuedCalls(EMPTY) == {} && LoggedOutAndReplaced(EMPTY) == {};
    forall x, e | Paid(x) && RefreshNext(x, e).Some? ensures Paid(RefreshNext(x, e).value) {
      ExclusiveStep(x, e);
      ConservedStep(x, e);
    }
    Invariant(RefreshNext, Paid, EMPTY, steps);
  }

  lemma {:induction false} UndisturbedRun(s: State, steps: seq<Step>)
    requires Undisturbed(s)
    ensures Final(SerialNext, s, steps).Some? ==> Undisturbed(Final(SerialNext, s, steps).value)
  {
    forall x, e | Undisturbed(x) && SerialNext(x, e).Some? ensures Undisturbed(SerialNext(x, e).value) {
      UndisturbedStep(x, e);
    }
    Invariant(SerialNext, Undisturbed, s, steps);
  }

  lemma AccountedBound(s: State, t: nat)
    requires Rotating(s) && t < |s.rows|
    ensures |s.rows[t].exchanges| <= 1 + s.rows[t].lost
    ensures s.rows[t].replacedBy.Some? ==> |s.rows[t].exchanges| == 1 + s.rows[t].lost
  {
    assert Accounted(s, t) && RowConsistent(s, t);
    if IssuedFor(s, t) != {} {
      var c :| c in IssuedFor(s, t);
      assert IssuedFor(s, t) == {c};
    }
  }

  /** When refreshes of one token do not overlap, however refreshes of different tokens and logouts
      interleave, a token is exchanged at most once, apart from exchanges that were cut short. */
  lemma {:induction false} ExchangedAtMostOnce(steps: seq<Step>, s: State, t: nat)
    requires Final(RefreshNext, EMPTY, steps) == Some(s) && t < |s.rows|
    ensures |s.rows[t].exchanges| <= 1 + s.rows[t].lost
    ensures s.rows[t].replacedBy.Some? ==> |s.rows[t].exchanges| == 1 + s.rows[t].lost
  {
    RotatingRun(EMPTY, steps);
    AccountedBound(s, t);
  }

  /** Conservation in every run whose refreshes of one token do not overlap. With no refresh in flight and none
      cut short, the unrevoked tokens are the sign-ins minus the logouts that revoked one, exactly when
      no token was logged out under a refresh that went on to replace it. */
  lemma {:induction false} UnrevokedAreConserved(steps: seq<Step>, s: State)
    requires Final(RefreshNext, EMPTY, steps) == Some(s)
    ensures Unrevoked(s.rows) + |s.logouts| == s.signIns + |IssuedCalls(s)| + s.lost + |LoggedOutAndReplaced(s)|
    ensures s.calls == map[] && s.lost == 0 ==>
      (Unrevoked(s.rows) == s.signIns - |s.logouts| <==> LoggedOutAndReplaced(s) == {})
  {
    PaidRun(steps);
    if s.calls == map[] { assert IssuedCalls(s) == {}; }
  }

  /** No token is, when no logout of a token starts while a refresh of it is in flight. */
  lemma {:induction false} NoneIsLoggedOutAndReplaced(steps: seq<Step>, s: State)
    requires Final(SerialNext, EMPTY, steps) == Some(s)
    ensures Final(RefreshNext, EMPTY, steps) == Some(s)
    ensures LoggedOutAndReplaced(s) == {}
  {
    assert LoggedOutAndReplaced(EMPTY) == {};
    UndisturbedRun(EMPTY, steps);
    GuardedRun(SerialNext, RefreshNext, EMPTY, steps);
  }

  lemma {:induction false} HeldTokenIsReplaced(s: State, c: CallId, t: nat, now: Time)
    requires Undisturbed(s) && c in s.calls && s.calls[c].token == t
    ensures var steps := (if s.calls[c].Checked? then [Issue(c, now)] else []) + [Retire(c, now)];
      var end := Final(SerialNext, Apply(s, Logout(t, now)), steps);
      end.Some? && t in LoggedOutAndReplaced(end.value)
  {
    var u := Apply(s, Logout(t, now));
    if s.calls[c].Checked? {
      var v := Apply(u, Issue(c, now));
      One(SerialNext, v, Retire(c, now), Apply(v, Retire(c, now)));
      Then(SerialNext, u, Issue(c, now), v, [Retire(c, now)], Apply(v, Retire(c, now)));
    } else {
      One(SerialNext, u, Retire(c, now), Apply(u, Retire(c, now)));
      assert [] + [Retire(c, now)] == [Retire(c, now)];
    }
  }

  /** A logout can end in a logged-out token with a replacement, and so in a surplus unrevoked token,
      exactly when a refresh of its token is in flight. */
  lemma {:induction false} LogoutIsUndoneExactly(s: State, t: nat, now: Time)
    requires Undisturbed(s)
    ensures Held(s, t) <==>
      exists steps :: (
        var end := Final(SerialNext, Apply(s, Logout(t, now)), steps);
        end.Some? && LoggedOutAndReplaced(end.value) != {})
  {
    if Held(s, t) {
      var c :| c in s.calls && s.calls[c].token == t;
      HeldTokenIsReplaced(s, c, t, now);
    } else {
      UndisturbedStep(s, Logout(t, now));
      forall steps | Final(SerialNext, Apply(s, Logout(t, now)), steps).Some?
        ensures LoggedOutAndReplaced(Final(SerialNext, Apply(s, Logout(t, now)), steps).value) == {}
      {
        UndisturbedRun(Apply(s, Logout(t, now)), steps);
      }
    }
  }

  // ----- Refreshes of one token that overlap ----------------------------------

  ghost predicate ExchangedTwice(s: State, t: nat) {
    t < |s.rows| && |s.rows[t].exchanges| >= 2 + s.rows[t].lost
  }

  /** What issues a new token in both calls. */
  function ExchangingSteps(first: Call, c: CallId, d: CallId, expiresAt: Time): seq<Step> {
    (if first.Checked? then [Issue(c, expiresAt)] else []) + [Issue(d, expiresAt)]
  }

  /** A refresh accepted while another of its token is in flight leads to a second exchange. */
  lemma {:induction false} OverlapExchangesTwice(
    s: State, c: CallId, d: CallId, t: nat, subject: string, now: Time, expiresAt: Time)
    requires Rotating(s) && c in s.calls && s.calls[c].token == t
    requires d !in s.calls && Acceptable(s.rows, t, subject, now)
    ensures var end :=
        Final(RefreshNext, Apply(s, Check(d, t, subject, now)), ExchangingSteps(s.calls[c], c, d, expiresAt));
      end.Some? && ExchangedTwice(end.value, t)
  {
    var u := Apply(s, Check(d, t, subject, now));
    assert Accounted(s, t);
    if s.calls[c].Checked? {
      var v := Apply(u, Issue(c, expiresAt));
      One(RefreshNext, v, Issue(d, expiresAt), Apply(v, Issue(d, expiresAt)));
      Then(RefreshNext, u, Issue(c, expiresAt), v, [Issue(d, expiresAt)], Apply(v, Issue(d, expiresAt)));
    } else {
      assert c in IssuedFor(s, t);
      assert |IssuedFor(s, t)| > 0;
      One(RefreshNext, u, Issue(d, expiresAt), Apply(u, Issue(d, expiresAt)));
      assert [] + [Issue(d, expiresAt)] == [Issue(d, expiresAt)];
    }
  }

  /** Nothing in the code serialises the calls. From any state that refreshes without overlap lead to, an accepted
      refresh can end in a second exchange of its token exactly when another refresh of it is in flight. */
  lemma {:induction false} RefreshExchangesTwiceExactly(s: State, d: CallId, t: nat, subject: string, now: Time)
    requires Rotating(s) && d !in s.calls && Acceptable(s.rows, t, subject, now)
    ensures Held(s, t) <==>
      exists steps :: (
        var end := Final(RefreshNext, Apply(s, Check(d, t, subject, now)), steps);
        end.Some? && ExchangedTwice(end.value, t))
  {
    var e := Check(d, t, subject, now);
    if Held(s, t) {
      var c :| c in s.calls && s.calls[c].token == t;
      OverlapExchangesTwice(s, c, d, t, subject, now, now);
    } else {
      ExclusiveStep(s, e);
      forall r | 0 <= r < |Apply(s, e).rows| ensures Accounted(Apply(s, e), r) {
        AccountedStep(s, e, r);
      }
      forall steps | Final(RefreshNext, Apply(s, e), steps).Some?
        ensures !ExchangedTwice(Final(RefreshNext, Apply(s, e), steps).value, t)
      {
        RotatingRun(Apply(s, e), steps);
        if t < |Final(RefreshNext, Apply(s, e), steps).value.rows| {
          AccountedBound(Final(RefreshNext, Apply(s, e), steps).value, t);
        }
      }
    }
  }

  // ----- The service, one call at a time --------------------------------------

  /** The refresh-token table behind `AuthService`. The ghost fields are the machine's bookkeeping
      for the calls of other processes. */
  class TokenTable {
    var rows: seq<Token>
    ghost var calls: map<CallId, Call>
    ghost var signIns: nat
    ghost var logouts: set<nat>
    ghost var lost: nat

    ghost function View(): State
      reads this
    {
      State(rows, calls, signIns, logouts, lost)
    }

    constructor ()
      ensures View() == EMPTY
    {
      rows, calls, signIns, logouts, lost := [], map[], 0, {}, 0;
    }

    /** The token row written for a registration or a login. */
    method SignInUser(userId: string, expiresAt: Time) returns (token: nat)
      modifies this
      ensures View() == Apply(old(View()), SignIn(userId, expiresAt))
      ensures token == old(|rows|) && |rows| == token + 1 && rows[..token] == old(rows)
      ensures rows[token].userId == userId && rows[token].expiresAt == expiresAt && rows[token].revokedAt == None
    {
      token := |rows|;
      rows := rows + [NewToken(userId, expiresAt)];
      signIns := signIns + 1;
    }

    /** An undisturbed `refresh` is the run Check, Issue, Retire; a refused one changes nothing.
        `subject` is None when the token does not verify. */
    method Refresh(ghost call: CallId, token: nat, subject: Option<string>, now: Time, expiresAt: Time)
      returns (replacement: Option<nat>)
      requires call !in calls
      modifies this
      ensures replacement.Some? <==>
              && subject.Some? && token < old(|rows|)
              && old(rows)[token].revokedAt == None && now <= old(rows)[token].expiresAt
              && old(rows)[token].userId == subject.value
      ensures replacement.None? ==> View() == old(View())
      ensures replacement.Some? ==>
        Final(Next, old(View()), [Check(call, token, subject.value, now), Issue(call, expiresAt), Retire(call, now)])
          == Some(View())
      ensures replacement.Some? ==>
        && token < old(|rows|) == replacement.value == |rows| - 1
        && rows[token].replacedBy == replacement && rows[token].revokedAt == Some(now)
        && rows[replacement.value].userId == subject.value && rows[replacement.value].expiresAt == expiresAt
        && rows[replacement.value].revokedAt == None
        && (forall t :: 0 <= t < old(|rows|) && t != token ==> rows[t] == old(rows[t]))
    {
      if subject.None? { return None; }
      if token >= |rows| { return None; }
      var stored := rows[token];
      if stored.revokedAt.Some? || stored.expiresAt < now || stored.userId != subject.value { return None; }
      ghost var before := View();
      var issued := |rows|;
      rows := rows[token := stored.(exchanges := stored.exchanges + [Exchange(subject.value, now)])]
              + [NewToken(subject.value, expiresAt)];
      ghost var checked := Apply(before, Check(call, token, subject.value, now));
      ghost var middle := Apply(checked, Issue(call, expiresAt));
      rows := rows[token := rows[token].(revokedAt := Some(now), replacedBy := Some(issued))];
      assert middle.calls - {call} == calls;
      assert View() == Apply(middle, Retire(call, now));
      Prepend(Next, middle, Retire(call, now), []);
      Prepend(Next, checked, Issue(call, expiresAt), [Retire(call, now)] + []);
      Prepend(Next, before, Check(call, token, subject.value, now),
        [Issue(call, expiresAt)] + ([Retire(call, now)] + []));
      assert [Check(call, token, subject.value, now)] + ([Issue(call, expiresAt)] + ([Retire(call, now)] + []))
        == [Check(call, token, subject.value, now), Issue(call, expiresAt), Retire(call, now)];
      return Some(issued);
    }

    method LogoutToken(token: nat, now: Time)
      modifies this
      ensures View() == Apply(old(View()), Logout(token, now))
      ensures token < |rows| ==> rows[token].revokedAt.Some?
    {
      if token < |rows| && rows[token].revokedAt.None? {
        rows := rows[token := rows[token].(revokedAt := Some(now))];
        logouts := logouts + {token};
      }
    }
  }
}
