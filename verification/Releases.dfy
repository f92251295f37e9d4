/** Release bookkeeping after an ECS apply (apps/worker/src/queues/operations.queue.ts, recordNewAwsRelease). */
module Releases {
  import opened Wrappers
  import opened Runs

  type CallId = nat

  datatype Key = Key(organizationId: string, targetSlug: string, environmentSlug: string)

  datatype Status = ACTIVE | SUPERSEDED | ROLLED_BACK | FAILED

  /** What the caller supplies besides the key. */
  datatype Origin = Origin(
    applyOperationId: string, planOperationId: Option<string>, sourceOperationId: Option<string>,
    imageUri: string, imageDigest: Option<string>,
    promotedFromReleaseId: Option<string>, rolledBackFromReleaseId: Option<string>,
    createdByUserId: Option<string>, approvedByUserId: Option<string>)

  datatype Release = Release(key: Key, version: nat, status: Status, origin: Origin)

  /** A recording between two of its statements. */
  datatype Call = Superseded(key: Key) | Counted(key: Key, count: nat)

  /** `interrupted` is history: keys whose last recording stopped after its first statement. */
  datatype State = State(rows: seq<Release>, calls: map<CallId, Call>, interrupted: set<Key>)

  datatype Step =
    | Supersede(call: CallId, key: Key)
    | Count(call: CallId)
    | Create(call: CallId, origin: Origin)
    | Crash(call: CallId)

  const EMPTY := State([], map[], {})

  /** The releases of one key, oldest first. */
  function Of(rows: seq<Release>, key: Key): (r: seq<Release>)
    ensures |r| <= |rows|
  {
    if rows == [] then []
    else Of(rows[..|rows| - 1], key) + (if rows[|rows| - 1].key == key then [rows[|rows| - 1]] else [])
  }

  function SupersedeRow(r: Release, key: Key): Release {
    if r.key == key && r.status == ACTIVE then r.(status := SUPERSEDED) else r
  }

  /** `updateMany` on the ACTIVE rows of the key. */
  function SupersedeAll(rows: seq<Release>, key: Key): (r: seq<Release>)
    ensures |r| == |rows| && forall i :: 0 <= i < |r| ==> r[i] == SupersedeRow(rows[i], key)
  {
    seq(|rows|, i requires 0 <= i < |rows| => SupersedeRow(rows[i], key))
  }

  predicate Possible(s: State, e: Step) {
    match e
    case Supersede(c, _) => c !in s.calls
    case Count(c) => c in s.calls && s.calls[c].Superseded?
    case Create(c, _) => c in s.calls && s.calls[c].Counted?
    case Crash(c) => c in s.calls
  }

  function Apply(s: State, e: Step): State
    requires Possible(s, e)
  {
    match e
    case Supersede(c, key) => s.(rows := SupersedeAll(s.rows, key), calls := s.calls[c := Superseded(key)])
    case Count(c) => s.(calls := s.calls[c := Counted(s.calls[c].key, |Of(s.rows, s.calls[c].key)|)])
    case Create(c, origin) =>
      var Counted(key, count) := s.calls[c];
      State(s.rows + [Release(key, count + 1, ACTIVE, origin)], s.calls - {c}, s.interrupted - {key})
    case Crash(c) => s.(calls := s.calls - {c}, interrupted := s.interrupted + {s.calls[c].key})
  }

  ghost function Next(s: State, e: Step): Option<State> {
    if Possible(s, e) then Some(Apply(s, e)) else None
  }

  ghost predicate InFlight(s: State, key: Key) {
    exists c :: c in s.calls && s.calls[c].key == key
  }

  /** Recordings of one key do not overlap; recordings of different keys may. */
  ghost function SerialNext(s: State, e: Step): Option<State> {
    if e.Supersede? && InFlight(s, e.key) then None else Next(s, e)
  }

  lemma {:induction false} OfSuperseded(rows: seq<Release>, key: Key, k: Key)
    ensures Of(SupersedeAll(rows, key), k) == SupersedeAll(Of(rows, k), key)
  {
    if rows != [] {
      var n := |rows| - 1;
      OfSuperseded(rows[..n], key, k);
      assert SupersedeAll(rows, key)[..n] == SupersedeAll(rows[..n], key);
    }
  }

  lemma {:induction false} OfHasKey(rows: seq<Release>, key: Key)
    ensures forall r :: r in Of(rows, key) ==> r.key == key
  {
    if rows != [] {
      OfHasKey(rows[..|rows| - 1], key);
    }
  }

  lemma OfAppend(rows: seq<Release>, r: Release, k: Key)
    ensures Of(rows + [r], k) == Of(rows, k) + (if r.key == k then [r] else [])
  {
    assert (rows + [r])[..|rows|] == rows;
  }

  /** Versions 1..n in recording order; everything but the last superseded; the last one ACTIVE if `live`. */
  ghost predicate OrderedList(of: seq<Release>, key: Key, live: bool) {
    forall i :: 0 <= i < |of| ==>
      && of[i].key == key
      && of[i].version == i + 1
      && of[i].status == (if i == |of| - 1 && live then ACTIVE else SUPERSEDED)
  }

  /** The last release is live unless a recording of the key is in flight or stopped half-way. */
  ghost predicate Live(s: State, key: Key) {
    !InFlight(s, key) && key !in s.interrupted
  }

  ghost predicate Ordered(s: State, key: Key) {
    OrderedList(Of(s.rows, key), key, Live(s, key))
  }

  ghost predicate Serialised(s: State) {
    && (forall c, d :: c in s.calls && d in s.calls && s.calls[c].key == s.calls[d].key ==> c == d)
    && (forall c :: c in s.calls && s.calls[c].Counted? ==> s.calls[c].count == |Of(s.rows, s.calls[c].key)|)
  }

  ghost predicate Inv(s: State) {
    Serialised(s) && forall key :: Ordered(s, key)
  }

  lemma SerialisedStep(s: State, e: Step)
    requires Serialised(s) && SerialNext(s, e).Some?
    ensures Serialised(SerialNext(s, e).value)
  {
    var s' := Apply(s, e);
    forall c | c in s'.calls && s'.calls[c].Counted? ensures s'.calls[c].count == |Of(s'.rows, s'.calls[c].key)| {
      match e
      case Supersede(d, key) => OfSuperseded(s.rows, key, s.calls[c].key);
      case Count(d) =>
      case Create(d, origin) => OfAppend(s.rows, s'.rows[|s.rows|], s.calls[c].key);
      case Crash(d) =>
    }
  }

  lemma InFlightStep(s: State, e: Step, key: Key)
    requires Serialised(s) && SerialNext(s, e).Some?
    ensures InFlight(Apply(s, e), key) ==
      match e
      case Supersede(_, k) => key == k || InFlight(s, key)
      case Count(_) => InFlight(s, key)
      case Create(c, _) => key != s.calls[c].key && InFlight(s, key)
      case Crash(c) => key != s.calls[c].key && InFlight(s, key)
  {
    var s' := Apply(s, e);
    if InFlight(s, key) {
      var c :| c in s.calls && s.calls[c].key == key;
      if c in s'.calls { assert s'.calls[c].key == key; }
    }
    if e.Supersede? { assert s'.calls[e.call].key == e.key; }
    if InFlight(s', key) {
      var c :| c in s'.calls && s'.calls[c].key == key;
      if c in s.calls { assert s.calls[c].key == key; }
    }
  }

  lemma OrderedSupersede(s: State, c: CallId, k: Key, key: Key)
    requires Ordered(s, key) && SerialNext(s, Supersede(c, k)).Some?
    requires InFlight(Apply(s, Supersede(c, k)), key) == (key == k || InFlight(s, key))
    ensures Ordered(Apply(s, Supersede(c, k)), key)
  {
    OfSuperseded(s.rows, k, key);
    OfHasKey(s.rows, key);
  }

  lemma OrderedCreate(s: State, c: CallId, origin: Origin, key: Key)
    requires Serialised(s) && Ordered(s, key) && Possible(s, Create(c, origin))
    requires InFlight(Apply(s, Create(c, origin)), key) == (key != s.calls[c].key && InFlight(s, key))
    ensures Ordered(Apply(s, Create(c, origin)), key)
  {
    OfAppend(s.rows, Apply(s, Create(c, origin)).rows[|s.rows|], key);
    assert InFlight(s, s.calls[c].key);
  }

  lemma OrderedStep(s: State, e: Step, key: Key)
    requires Serialised(s) && Ordered(s, key) && SerialNext(s, e).Some?
    ensures Ordered(Apply(s, e), key)
  {
    InFlightStep(s, e, key);
    match e
    case Supersede(c, k) => OrderedSupersede(s, c, k, key);
    case Count(c) =>
    case Create(c, origin) => OrderedCreate(s, c, origin, key);
    case Crash(c) => assert InFlight(s, s.calls[c].key);
  }

  lemma {:induction false} InvContinues(s: State, steps: seq<Step>)
    requires Inv(s)
    ensures Final(SerialNext, s, steps).Some? ==> Inv(Final(SerialNext, s, steps).value)
  {
    forall x, e | Inv(x) && SerialNext(x, e).Some? ensures Inv(SerialNext(x, e).value) {
      SerialisedStep(x, e);
      forall key ensures Ordered(Apply(x, e), key) { OrderedStep(x, e, key); }
    }
    Invariant(SerialNext, Inv, s, steps);
  }

  /** Recordings of different keys may interleave statement by statement, and any of them may stop
      half-way: the versions of a key are still exactly 1..n in recording order, nothing but the last
      one is ever ACTIVE, and the last one is ACTIVE unless a recording of the key is under way or stopped. */
  lemma {:induction false} VersionsInOrder(steps: seq<Step>, s: State, key: Key)
    requires Final(SerialNext, EMPTY, steps) == Some(s)
    ensures OrderedList(Of(s.rows, key), key, Live(s, key))
  {
    InvContinues(EMPTY, steps);
    assert Ordered(s, key);
  }

  /** No step of a recording touches another key's releases. */
  lemma OtherKeysUntouched(s: State, e: Step, key: Key)
    requires Possible(s, e)
    requires key != if e.Supersede? then e.key else s.calls[e.call].key
    ensures Of(Apply(s, e).rows, key) == Of(s.rows, key)
  {
    match e
    case Supersede(c, k) =>
      OfSuperseded(s.rows, k, key);
      OfHasKey(s.rows, key);
      assert SupersedeAll(Of(s.rows, key), k) == Of(s.rows, key);
    case Count(c) =>
    case Create(c, origin) => OfAppend(s.rows, Apply(s, e).rows[|s.rows|], key);
    case Crash(c) =>
  }

  // ----- Recordings that overlap ----------------------------------------------

  /** Two releases of one key with one version. */
  ghost predicate Collides(rows: seq<Release>) {
    exists i, j :: 0 <= i < j < |rows| && rows[i].key == rows[j].key && rows[i].version == rows[j].version
  }

  /** The place of a release among those of its key. */
  lemma {:induction false} OfPosition(rows: seq<Release>, i: nat)
    requires i < |rows|
    ensures |Of(rows[..i], rows[i].key)| < |Of(rows, rows[i].key)|
    ensures Of(rows, rows[i].key)[|Of(rows[..i], rows[i].key)|] == rows[i]
    ensures forall j :: i < j <= |rows| ==> |Of(rows[..i], rows[i].key)| < |Of(rows[..j], rows[i].key)|
  {
    var n := |rows| - 1;
    assert rows[..n + 1] == rows;
    if i < n {
      OfPosition(rows[..n], i);
      assert rows[..n][..i] == rows[..i];
      forall j | i < j <= |rows| ensures |Of(rows[..i], rows[i].key)| < |Of(rows[..j], rows[i].key)| {
        if j <= n { assert rows[..n][..j] == rows[..j]; }
      }
    }
  }

  lemma OrderedNeverCollides(s: State)
    requires forall key :: Ordered(s, key)
    ensures !Collides(s.rows)
  {
    var rows := s.rows;
    forall i, j | 0 <= i < j < |rows| && rows[i].key == rows[j].key ensures rows[i].version != rows[j].version {
      OfPosition(rows, i);
      OfPosition(rows, j);
      assert Ordered(s, rows[i].key);
    }
  }

  /** What two recordings of one key still have to do when the second has just started. */
  function CollidingSteps(first: Call, c: CallId, d: CallId, origin: Origin, other: Origin): seq<Step> {
    (if first.Superseded? then [Count(c)] else []) + ([Count(d)] + ([Create(c, origin)] + [Create(d, other)]))
  }

  lemma {:induction false} BothCountTheSame(s: State, c: CallId, d: CallId, origin: Origin, other: Origin)
    requires c in s.calls && d in s.calls && c != d && s.calls[c].key == s.calls[d].key
    requires s.calls[c].Counted? && s.calls[c].count == |Of(s.rows, s.calls[c].key)| && s.calls[d].Superseded?
    ensures var end := Final(SerialNext, s, [Count(d)] + ([Create(c, origin)] + [Create(d, other)]));
      end.Some? && Collides(end.value.rows)
  {
    var s1 := Apply(s, Count(d));
    var s2 := Apply(s1, Create(c, origin));
    var s3 := Apply(s2, Create(d, other));
    One(SerialNext, s2, Create(d, other), s3);
    Then(SerialNext, s1, Create(c, origin), s2, [Create(d, other)], s3);
    Then(SerialNext, s, Count(d), s1, [Create(c, origin)] + [Create(d, other)], s3);
    var n := |s.rows|;
    assert s3.rows[n].key == s3.rows[n + 1].key && s3.rows[n].version == s3.rows[n + 1].version;
  }

  /** A recording that starts while another of its key is under way leads to a collision,
      whatever the two record and whatever the table holds. */
  lemma {:induction false} OverlapCollides(s: State, c: CallId, d: CallId, key: Key, origin: Origin, other: Origin)
    requires Serialised(s) && c in s.calls && s.calls[c].key == key && d !in s.calls
    ensures var end := Final(SerialNext, Apply(s, Supersede(d, key)), CollidingSteps(s.calls[c], c, d, origin, other));
      end.Some? && Collides(end.value.rows)
  {
    var t := Apply(s, Supersede(d, key));
    OfSuperseded(s.rows, key, key);
    var rest := [Count(d)] + ([Create(c, origin)] + [Create(d, other)]);
    if s.calls[c].Superseded? {
      var u := Apply(t, Count(c));
      BothCountTheSame(u, c, d, origin, other);
      Then(SerialNext, t, Count(c), u, rest, Final(SerialNext, u, rest).value);
    } else {
      BothCountTheSame(t, c, d, origin, other);
      assert [] + rest == rest;
    }
  }

  /** Nothing in the code serialises recordings. From any state that serialised recordings lead to, starting a
      recording can end in two releases of one version exactly when a recording of the same key is under way. */
  lemma {:induction false} StartCollidesExactly(s: State, d: CallId, key: Key)
    requires Inv(s) && d !in s.calls
    ensures InFlight(s, key) <==>
      exists steps :: (
        var end := Final(SerialNext, Apply(s, Supersede(d, key)), steps);
        end.Some? && Collides(end.value.rows))
  {
    var t := Apply(s, Supersede(d, key));
    if InFlight(s, key) {
      var c :| c in s.calls && s.calls[c].key == key;
      var origin := Origin("apply", None, None, "image", None, None, None, None, None);
      OverlapCollides(s, c, d, key, origin, origin.(applyOperationId := "other"));
    } else {
      assert Next(s, Supersede(d, key)) == SerialNext(s, Supersede(d, key)) == Some(t);
      SerialisedStep(s, Supersede(d, key));
      forall k ensures Ordered(t, k) { OrderedStep(s, Supersede(d, key), k); }
      forall steps | Final(SerialNext, t, steps).Some?
        ensures !Collides(Final(SerialNext, t, steps).value.rows)
      {
        InvContinues(t, steps);
        OrderedNeverCollides(Final(SerialNext, t, steps).value);
      }
    }
  }

  // ----- The worker, one recording at a time ----------------------------------

  class ReleaseTable {
    var rows: seq<Release>
    ghost var calls: map<CallId, Call>
    ghost var interrupted: set<Key>

    ghost function View(): State
      reads this
    {
      State(rows, calls, interrupted)
    }

    constructor ()
      ensures View() == EMPTY
    {
      rows, calls, interrupted := [], map[], {};
    }

    /** An undisturbed recording is the run Supersede, Count, Create. */
    method RecordNewAwsRelease(ghost call: CallId, key: Key, origin: Origin) returns (created: Release)
      requires call !in calls
      modifies this
      ensures Final(Next, old(View()), [Supersede(call, key), Count(call), Create(call, origin)]) == Some(View())
      ensures created == Release(key, old(|Of(rows, key)|) + 1, ACTIVE, origin)
      ensures rows == SupersedeAll(old(rows), key) + [created]
      ensures forall i :: 0 <= i < |old(rows)| ==>
        rows[i] == if old(rows)[i].key == key && old(rows)[i].status == ACTIVE then old(rows)[i].(status := SUPERSEDED)
                   else old(rows)[i]
    {
      ghost var before := View();
      rows := SupersedeAll(rows, key);
      var count := |Of(rows, key)|;
      OfSuperseded(before.rows, key, key);
      created := Release(key, count + 1, ACTIVE, origin);
      rows := rows + [created];
      interrupted := interrupted - {key};
      ghost var s1 := Apply(before, Supersede(call, key));
      ghost var s2 := Apply(s1, Count(call));
      assert s2.calls - {call} == calls;
      assert Apply(s2, Create(call, origin)) == View();
      Prepend(Next, s2, Create(call, origin), []);
      Prepend(Next, s1, Count(call), [Create(call, origin)] + []);
      Prepend(Next, before, Supersede(call, key), [Count(call)] + ([Create(call, origin)] + []));
      assert [Supersede(call, key)] + ([Count(call)] + ([Create(call, origin)] + []))
        == [Supersede(call, key), Count(call), Create(call, origin)];
    }
  }
}
