/** Correlating all open signals of an organization (apps/api/src/modules/incidents/incident.service.ts). */
module IncidentBatches {
  import opened Wrappers
  import opened CorrelationKeys
  import opened Incidents
  import opened IncidentLaws

  datatype Tally = Tally(created: nat, updated: nat, linked: nat, skipped: nat)

  const NO_TALLY := Tally(0, 0, 0, 0)

  function Counted(t: Tally, action: Action): Tally {
    match action
    case CREATED => t.(created := t.created + 1, linked := t.linked + 1)
    case UPDATED => t.(updated := t.updated + 1, linked := t.linked + 1)
    case SKIPPED => t.(skipped := t.skipped + 1)
  }

  datatype BatchResult = BatchResult(incidents: seq<Incident>, tally: Tally, refused: bool)

  /** One signal after the other, until one is refused. */
  function Batch(incidents: seq<Incident>, signals: Signals, org: string, ids: seq<SignalId>): BatchResult {
    if ids == [] then BatchResult(incidents, NO_TALLY, false)
    else
      var n := |ids| - 1;
      var before := Batch(incidents, signals, org, ids[..n]);
      if before.refused then before
      else
        match Correlate(before.incidents, signals, org, ids[n])
        case Err(_) => before.(refused := true)
        case Ok((after, action)) => BatchResult(after, Counted(before.tally, action), false)
  }

  // ----- Groups ---------------------------------------------------------------

  function LinkedSignals(i: Incident): set<SignalId> {
    set k | 0 <= k < |i.links| :: i.links[k].signal
  }

  predicate HasLive(incidents: seq<Incident>, org: string, key: string) {
    FindLive(incidents, org, key).Some?
  }

  /** The signals of the live incident for a key. */
  function GroupFor(incidents: seq<Incident>, org: string, key: string): set<SignalId> {
    match FindLive(incidents, org, key)
    case None => {}
    case Some(i) => LinkedSignals(incidents[i])
  }

  function TotalLinks(incidents: seq<Incident>): nat {
    if incidents == [] then 0
    else TotalLinks(incidents[..|incidents| - 1]) + |incidents[|incidents| - 1].links|
  }

  lemma {:induction false} TotalLinksOfUpdate(incidents: seq<Incident>, i: nat, after: Incident)
    requires i < |incidents|
    ensures TotalLinks(incidents[i := after]) == TotalLinks(incidents) - |incidents[i].links| + |after.links|
  {
    var n := |incidents| - 1;
    if i < n {
      TotalLinksOfUpdate(incidents[..n], i, after);
      assert incidents[i := after][..n] == incidents[..n][i := after];
    } else {
      assert incidents[i := after][..n] == incidents[..n];
    }
  }

  lemma FindLiveIs(incidents: seq<Incident>, org: string, key: string, i: nat)
    requires OneLive(incidents) && i < |incidents| && LiveFor(incidents[i], org, key)
    ensures FindLive(incidents, org, key) == Some(i)
  {
    var j := FindLive(incidents, org, key).value;
    assert LiveFor(incidents[j], org, key);
  }

  lemma SameLive(incidents: seq<Incident>, after: seq<Incident>, org: string, key: string)
    requires OneLive(incidents) && OneLive(after) && |incidents| <= |after|
    requires forall i :: 0 <= i < |incidents| ==> (LiveFor(incidents[i], org, key) <==> LiveFor(after[i], org, key))
    requires forall i :: |incidents| <= i < |after| ==> !LiveFor(after[i], org, key)
    ensures FindLive(after, org, key) == FindLive(incidents, org, key)
  {
    match FindLive(incidents, org, key)
    case None =>
      assert forall i :: 0 <= i < |after| ==> !LiveFor(after[i], org, key);
    case Some(i) => FindLiveIs(after, org, key, i);
  }

  // ----- The effect of one signal ---------------------------------------------

  /** Correlating one signal: its group has a live incident and holds the signal; no other group changes. */
  ghost predicate Effect(incidents: seq<Incident>, after: seq<Incident>, org: string, key: string, id: SignalId) {
    && OneLive(after)
    && (forall k :: HasLive(after, org, k) <==> HasLive(incidents, org, k) || k == key)
    && (forall k :: GroupFor(after, org, k) == GroupFor(incidents, org, k) + if k == key then {id} else {})
  }

  /** What it answers, and how the number of links grows. */
  ghost predicate EffectCounts(
    incidents: seq<Incident>, after: seq<Incident>, org: string, key: string, id: SignalId, action: Action)
  {
    && (action == CREATED <==> !HasLive(incidents, org, key))
    && (action == SKIPPED <==> id in GroupFor(incidents, org, key))
    && TotalLinks(after) == TotalLinks(incidents) + (if action == SKIPPED then 0 else 1)
  }

  lemma WithLinkAdds(i: Incident, id: SignalId, s: Signal)
    ensures LinkedSignals(WithLink(i, id, s)) == LinkedSignals(i) + {id}
  {
    var after := WithLink(i, id, s);
    var n := |i.links|;
    assert after.links[n].signal == id;
    forall x | x in LinkedSignals(i) ensures x in LinkedSignals(after) {
      var k :| 0 <= k < n && i.links[k].signal == x;
      assert after.links[k].signal == x;
    }
  }

  lemma UpdateKeepsLive(incidents: seq<Incident>, org: string, i: nat, linked: Incident)
    requires OneLive(incidents) && i < |incidents|
    requires linked.org == incidents[i].org && linked.key == incidents[i].key && Live(linked) == Live(incidents[i])
    ensures OneLive(incidents[i := linked])
    ensures forall k :: FindLive(incidents[i := linked], org, k) == FindLive(incidents, org, k)
  {
    var after := incidents[i := linked];
    forall k ensures FindLive(after, org, k) == FindLive(incidents, org, k) {
      SameLive(incidents, after, org, k);
    }
  }

  lemma UpdateEffect(incidents: seq<Incident>, org: string, key: string, i: nat, id: SignalId, s: Signal)
    requires OneLive(incidents) && FindLive(incidents, org, key) == Some(i) && !Linked(incidents[i], id)
    ensures Effect(incidents, incidents[i := WithLink(incidents[i], id, s)], org, key, id)
    ensures EffectCounts(incidents, incidents[i := WithLink(incidents[i], id, s)], org, key, id, UPDATED)
  {
    var linked := WithLink(incidents[i], id, s);
    UpdateKeepsLive(incidents, org, i, linked);
    WithLinkAdds(incidents[i], id, s);
    OneKeyAt(incidents, org, key, i);
    TotalLinksOfUpdate(incidents, i, linked);
  }

  /** Of two keys only one can have its live incident at a place. */
  lemma OneKeyAt(incidents: seq<Incident>, org: string, key: string, i: nat)
    requires FindLive(incidents, org, key) == Some(i)
    ensures forall k :: FindLive(incidents, org, k) == Some(i) ==> k == key
  {
  }

  lemma AppendKeepsLive(incidents: seq<Incident>, org: string, key: string, created: Incident)
    requires OneLive(incidents) && FindLive(incidents, org, key).None? && LiveFor(created, org, key)
    ensures OneLive(incidents + [created])
    ensures FindLive(incidents + [created], org, key) == Some(|incidents|)
    ensures forall k :: k != key ==> FindLive(incidents + [created], org, k) == FindLive(incidents, org, k)
  {
    var after := incidents + [created];
    assert after[|incidents|] == created;
    FindLiveIs(after, org, key, |incidents|);
    forall k | k != key ensures FindLive(after, org, k) == FindLive(incidents, org, k) {
      SameLive(incidents, after, org, k);
    }
  }

  lemma CreateEffect(incidents: seq<Incident>, org: string, key: string, id: SignalId, created: Incident)
    requires OneLive(incidents) && FindLive(incidents, org, key).None? && LiveFor(created, org, key)
    requires LinkedSignals(created) == {id} && |created.links| == 1
    ensures Effect(incidents, incidents + [created], org, key, id)
    ensures EffectCounts(incidents, incidents + [created], org, key, id, CREATED)
  {
    AppendKeepsLive(incidents, org, key, created);
    assert (incidents + [created])[..|incidents|] == incidents;
  }

  lemma SkipEffect(incidents: seq<Incident>, org: string, key: string, id: SignalId, i: nat)
    requires OneLive(incidents) && FindLive(incidents, org, key) == Some(i) && Linked(incidents[i], id)
    ensures Effect(incidents, incidents, org, key, id)
    ensures EffectCounts(incidents, incidents, org, key, id, SKIPPED)
  {
    var k :| 0 <= k < |incidents[i].links| && incidents[i].links[k].signal == id;
    assert id in LinkedSignals(incidents[i]);
  }

  lemma CorrelateEffect(incidents: seq<Incident>, signals: Signals, org: string, id: SignalId)
    requires OneLive(incidents) && id in signals && signals[id].org == org
    requires Correlate(incidents, signals, org, id).Ok?
    ensures var (after, action) := Correlate(incidents, signals, org, id).value;
      && Effect(incidents, after, org, Key(signals[id]), id)
      && EffectCounts(incidents, after, org, Key(signals[id]), id, action)
  {
    var s := signals[id];
    match FindLive(incidents, org, Key(s))
    case Some(i) =>
      if Linked(incidents[i], id) {
        SkipEffect(incidents, org, Key(s), id, i);
      } else {
        UpdateEffect(incidents, org, Key(s), i, id, s);
      }
    case None =>
      assert Opened(id, s).links[0].signal == id;
      assert LinkedSignals(Opened(id, s)) == {id};
      CreateEffect(incidents, org, Key(s), id, Opened(id, s));
  }

  // ----- The effect of a batch ------------------------------------------------

  ghost predicate InBatch(signals: Signals, org: string, ids: seq<SignalId>) {
    forall i :: 0 <= i < |ids| ==> ids[i] in signals && signals[ids[i]].org == org
  }

  function BatchKeys(signals: Signals, org: string, ids: seq<SignalId>): set<string>
    requires InBatch(signals, org, ids)
  {
    set i | 0 <= i < |ids| :: Key(signals[ids[i]])
  }

  function SignalsFor(signals: Signals, org: string, ids: seq<SignalId>, key: string): set<SignalId>
    requires InBatch(signals, org, ids)
  {
    set i | 0 <= i < |ids| && Key(signals[ids[i]]) == key :: ids[i]
  }

  /** The keys of the batch that have no live incident beforehand. */
  function NewKeys(incidents: seq<Incident>, signals: Signals, org: string, ids: seq<SignalId>): set<string>
    requires InBatch(signals, org, ids)
  {
    set k | k in BatchKeys(signals, org, ids) && !HasLive(incidents, org, k)
  }

  /** The signals of the batch that are not linked beforehand. */
  function NewSignals(incidents: seq<Incident>, signals: Signals, org: string, ids: seq<SignalId>): set<SignalId>
    requires InBatch(signals, org, ids)
  {
    set i | 0 <= i < |ids| && ids[i] !in GroupFor(incidents, org, Key(signals[ids[i]])) :: ids[i]
  }

  ghost predicate Grouped(
    incidents: seq<Incident>, after: seq<Incident>, signals: Signals, org: string, ids: seq<SignalId>)
    requires InBatch(signals, org, ids)
  {
    && OneLive(after)
    && (forall k :: HasLive(after, org, k) <==> HasLive(incidents, org, k) || k in BatchKeys(signals, org, ids))
    && (forall k :: GroupFor(after, org, k) == GroupFor(incidents, org, k) + SignalsFor(signals, org, ids, k))
  }

  ghost predicate Tallied(
    incidents: seq<Incident>, after: seq<Incident>, signals: Signals, org: string, ids: seq<SignalId>, t: Tally)
    requires InBatch(signals, org, ids)
  {
    && t.created == |NewKeys(incidents, signals, org, ids)|
    && t.linked == |NewSignals(incidents, signals, org, ids)|
    && TotalLinks(after) == TotalLinks(incidents) + t.linked
    && t.created + t.updated == t.linked
    && t.created + t.updated + t.skipped == |ids|
  }

  /** One more signal at the end of a batch. */
  lemma BatchSets(incidents: seq<Incident>, signals: Signals, org: string, ids: seq<SignalId>, n: nat)
    requires n + 1 == |ids| && InBatch(signals, org, ids)
    ensures InBatch(signals, org, ids[..n])
    ensures var key := Key(signals[ids[n]]);
      && BatchKeys(signals, org, ids) == BatchKeys(signals, org, ids[..n]) + {key}
      && NewSignals(incidents, signals, org, ids) ==
           NewSignals(incidents, signals, org, ids[..n]) +
           (if ids[n] in GroupFor(incidents, org, key) then {} else {ids[n]})
  {
    var key := Key(signals[ids[n]]);
    assert ids == ids[..n] + [ids[n]];
    forall k | k in BatchKeys(signals, org, ids[..n]) ensures k in BatchKeys(signals, org, ids) {
      var i :| 0 <= i < n && Key(signals[ids[..n][i]]) == k;
      assert Key(signals[ids[i]]) == k;
    }
    forall x | x in NewSignals(incidents, signals, org, ids[..n])
      ensures x in NewSignals(incidents, signals, org, ids) {
      var i :| 0 <= i < n && ids[..n][i] == x && x !in GroupFor(incidents, org, Key(signals[x]));
      assert ids[i] == x;
    }
    forall x | x in NewSignals(incidents, signals, org, ids) && x != ids[n]
      ensures x in NewSignals(incidents, signals, org, ids[..n])
    {
      var i :| 0 <= i <= n && ids[i] == x;
      assert ids[..n][i] == x;
    }
  }

  lemma BatchGroup(signals: Signals, org: string, ids: seq<SignalId>, n: nat, key: string)
    requires n + 1 == |ids| && InBatch(signals, org, ids) && InBatch(signals, org, ids[..n])
    ensures SignalsFor(signals, org, ids, key) ==
      SignalsFor(signals, org, ids[..n], key) + if Key(signals[ids[n]]) == key then {ids[n]} else {}
  {
    forall x | x in SignalsFor(signals, org, ids[..n], key) ensures x in SignalsFor(signals, org, ids, key) {
      var i :| 0 <= i < n && ids[..n][i] == x && Key(signals[x]) == key;
      assert ids[i] == x;
    }
    forall x | x in SignalsFor(signals, org, ids, key) && x != ids[n]
      ensures x in SignalsFor(signals, org, ids[..n], key) {
      var i :| 0 <= i <= n && ids[i] == x;
      assert ids[..n][i] == x;
    }
  }

  lemma GroupedStep(
    incidents: seq<Incident>, mid: seq<Incident>, after: seq<Incident>, signals: Signals, org: string,
    ids: seq<SignalId>, n: nat)
    requires n + 1 == |ids| && InBatch(signals, org, ids) && InBatch(signals, org, ids[..n])
    requires Grouped(incidents, mid, signals, org, ids[..n])
    requires Effect(mid, after, org, Key(signals[ids[n]]), ids[n])
    ensures Grouped(incidents, after, signals, org, ids)
  {
    BatchSets(incidents, signals, org, ids, n);
    forall k ensures GroupFor(after, org, k) == GroupFor(incidents, org, k) + SignalsFor(signals, org, ids, k) {
      BatchGroup(signals, org, ids, n, k);
    }
  }

  /** A signal is linked before its turn exactly when it was linked beforehand or came earlier. */
  lemma LinkedBefore(
    incidents: seq<Incident>, mid: seq<Incident>, signals: Signals, org: string, earlier: seq<SignalId>, id: SignalId)
    requires InBatch(signals, org, earlier) && Grouped(incidents, mid, signals, org, earlier) && id in signals
    ensures id in GroupFor(mid, org, Key(signals[id])) <==>
      id in GroupFor(incidents, org, Key(signals[id])) || id in earlier
  {
    var key := Key(signals[id]);
    assert GroupFor(mid, org, key) == GroupFor(incidents, org, key) + SignalsFor(signals, org, earlier, key);
    if id in earlier {
      var i :| 0 <= i < |earlier| && earlier[i] == id;
      assert id in SignalsFor(signals, org, earlier, key);
    }
  }

  lemma AddOne<T>(s: set<T>, x: T)
    ensures |s + {x}| == |s| + if x in s then 0 else 1
  {
    if x in s {
      assert s + {x} == s;
    }
  }

  lemma NewKeysStep(incidents: seq<Incident>, signals: Signals, org: string, ids: seq<SignalId>, n: nat, key: string)
    requires n + 1 == |ids| && InBatch(signals, org, ids) && InBatch(signals, org, ids[..n])
    requires key == Key(signals[ids[n]])
    ensures var keys := NewKeys(incidents, signals, org, ids[..n]);
      NewKeys(incidents, signals, org, ids) == if HasLive(incidents, org, key) then keys else keys + {key}
  {
    BatchSets(incidents, signals, org, ids, n);
  }

  /** The signal at the end opens an incident exactly when its key is one more new key. */
  lemma OneMoreKey(
    incidents: seq<Incident>, mid: seq<Incident>, signals: Signals, org: string, ids: seq<SignalId>,
    n: nat, key: string)
    requires n + 1 == |ids| && InBatch(signals, org, ids) && InBatch(signals, org, ids[..n])
    requires key == Key(signals[ids[n]]) && Grouped(incidents, mid, signals, org, ids[..n])
    ensures |NewKeys(incidents, signals, org, ids)| ==
      |NewKeys(incidents, signals, org, ids[..n])| + if HasLive(mid, org, key) then 0 else 1
  {
    NewKeysStep(incidents, signals, org, ids, n, key);
    AddOne(NewKeys(incidents, signals, org, ids[..n]), key);
  }

  lemma Reappears(
    incidents: seq<Incident>, signals: Signals, org: string, earlier: seq<SignalId>, id: SignalId)
    requires InBatch(signals, org, earlier) && id in signals && id !in GroupFor(incidents, org, Key(signals[id]))
    ensures id in NewSignals(incidents, signals, org, earlier) <==> id in earlier
  {
    if id in earlier {
      var i :| 0 <= i < |earlier| && earlier[i] == id;
    }
  }

  /** It is linked exactly when it is one more new signal. */
  lemma OneMoreSignal(
    incidents: seq<Incident>, mid: seq<Incident>, signals: Signals, org: string, ids: seq<SignalId>, n: nat)
    requires n + 1 == |ids| && InBatch(signals, org, ids) && InBatch(signals, org, ids[..n])
    requires Grouped(incidents, mid, signals, org, ids[..n])
    ensures |NewSignals(incidents, signals, org, ids)| ==
      |NewSignals(incidents, signals, org, ids[..n])|
      + if ids[n] in GroupFor(mid, org, Key(signals[ids[n]])) then 0 else 1
  {
    BatchSets(incidents, signals, org, ids, n);
    LinkedBefore(incidents, mid, signals, org, ids[..n], ids[n]);
    if ids[n] !in GroupFor(incidents, org, Key(signals[ids[n]])) {
      Reappears(incidents, signals, org, ids[..n], ids[n]);
      AddOne(NewSignals(incidents, signals, org, ids[..n]), ids[n]);
    }
  }

  lemma TalliedStep(
    incidents: seq<Incident>, mid: seq<Incident>, after: seq<Incident>, signals: Signals, org: string,
    ids: seq<SignalId>, n: nat, action: Action, t: Tally)
    requires n + 1 == |ids| && InBatch(signals, org, ids) && InBatch(signals, org, ids[..n])
    requires Grouped(incidents, mid, signals, org, ids[..n]) && Tallied(incidents, mid, signals, org, ids[..n], t)
    requires EffectCounts(mid, after, org, Key(signals[ids[n]]), ids[n], action)
    ensures Tallied(incidents, after, signals, org, ids, Counted(t, action))
  {
    OneMoreKey(incidents, mid, signals, org, ids, n, Key(signals[ids[n]]));
    OneMoreSignal(incidents, mid, signals, org, ids, n);
  }

  lemma {:induction false} BatchEffect(incidents: seq<Incident>, signals: Signals, org: string, ids: seq<SignalId>)
    requires OneLive(incidents) && InBatch(signals, org, ids) && !Batch(incidents, signals, org, ids).refused
    ensures var r := Batch(incidents, signals, org, ids);
      && Grouped(incidents, r.incidents, signals, org, ids)
      && Tallied(incidents, r.incidents, signals, org, ids, r.tally)
  {
    if ids != [] {
      var n := |ids| - 1;
      assert InBatch(signals, org, ids[..n]);
      BatchEffect(incidents, signals, org, ids[..n]);
      var before := Batch(incidents, signals, org, ids[..n]);
      CorrelateEffect(before.incidents, signals, org, ids[n]);
      var (after, action) := Correlate(before.incidents, signals, org, ids[n]).value;
      GroupedStep(incidents, before.incidents, after, signals, org, ids, n);
      TalliedStep(incidents, before.incidents, after, signals, org, ids, n, action, before.tally);
    }
  }

  lemma {:induction false} LinkedAreSkipped(incidents: seq<Incident>, signals: Signals, org: string, ids: seq<SignalId>)
    requires InBatch(signals, org, ids)
    requires forall i :: 0 <= i < |ids| ==> ids[i] in GroupFor(incidents, org, Key(signals[ids[i]]))
    ensures Batch(incidents, signals, org, ids) == BatchResult(incidents, Tally(0, 0, 0, |ids|), false)
  {
    if ids != [] {
      var n := |ids| - 1;
      assert forall i :: 0 <= i < n ==> ids[..n][i] == ids[i];
      LinkedAreSkipped(incidents, signals, org, ids[..n]);
      assert ids[n] in GroupFor(incidents, org, Key(signals[ids[n]]));
    }
  }

  /** A batch creates one incident per key that had none, links what grew, and counts every signal once. */
  lemma BatchTallies(incidents: seq<Incident>, signals: Signals, org: string, ids: seq<SignalId>)
    requires OneLive(incidents) && InBatch(signals, org, ids) && !Batch(incidents, signals, org, ids).refused
    ensures var r := Batch(incidents, signals, org, ids);
      && r.tally.created == |NewKeys(incidents, signals, org, ids)|
      && TotalLinks(r.incidents) == TotalLinks(incidents) + r.tally.linked
      && r.tally.created + r.tally.updated == r.tally.linked
      && r.tally.created + r.tally.updated + r.tally.skipped == |ids|
  {
    BatchEffect(incidents, signals, org, ids);
  }

  /** A second batch right after the first skips every signal and writes nothing. */
  lemma SecondBatchSkips(incidents: seq<Incident>, signals: Signals, org: string, ids: seq<SignalId>)
    requires OneLive(incidents) && InBatch(signals, org, ids) && !Batch(incidents, signals, org, ids).refused
    ensures var after := Batch(incidents, signals, org, ids).incidents;
      Batch(after, signals, org, ids) == BatchResult(after, Tally(0, 0, 0, |ids|), false)
  {
    BatchEffect(incidents, signals, org, ids);
    var after := Batch(incidents, signals, org, ids).incidents;
    forall i | 0 <= i < |ids| ensures ids[i] in GroupFor(after, org, Key(signals[ids[i]])) {
      assert ids[i] in SignalsFor(signals, org, ids, Key(signals[ids[i]]));
    }
    LinkedAreSkipped(after, signals, org, ids);
  }

  lemma SameSets(incidents: seq<Incident>, signals: Signals, org: string, ids: seq<SignalId>, other: seq<SignalId>)
    requires InBatch(signals, org, ids) && InBatch(signals, org, other)
    requires forall i :: 0 <= i < |ids| ==> ids[i] in other
    ensures BatchKeys(signals, org, ids) <= BatchKeys(signals, org, other)
    ensures NewSignals(incidents, signals, org, ids) <= NewSignals(incidents, signals, org, other)
    ensures forall k :: SignalsFor(signals, org, ids, k) <= SignalsFor(signals, org, other, k)
  {
    forall i | 0 <= i < |ids|
      ensures exists j :: 0 <= j < |other| && other[j] == ids[i] && Key(signals[other[j]]) == Key(signals[ids[i]])
    {
      var j :| 0 <= j < |other| && other[j] == ids[i];
    }
  }

  /** Grouping does not depend on the order the signals are processed in: two batches of the same signals leave the
      same keys live with the same signals, and count the same. */
  lemma OrderDoesNotMatter(
    incidents: seq<Incident>, signals: Signals, org: string, ids: seq<SignalId>, other: seq<SignalId>)
    requires OneLive(incidents) && InBatch(signals, org, ids) && InBatch(signals, org, other) && |ids| == |other|
    requires forall i :: 0 <= i < |ids| ==> ids[i] in other
    requires forall i :: 0 <= i < |other| ==> other[i] in ids
    requires !Batch(incidents, signals, org, ids).refused && !Batch(incidents, signals, org, other).refused
    ensures var a, b := Batch(incidents, signals, org, ids), Batch(incidents, signals, org, other);
      && a.tally == b.tally
      && forall k :: (HasLive(a.incidents, org, k) <==> HasLive(b.incidents, org, k))
                     && GroupFor(a.incidents, org, k) == GroupFor(b.incidents, org, k)
  {
    BatchEffect(incidents, signals, org, ids);
    BatchEffect(incidents, signals, org, other);
    SameSets(incidents, signals, org, ids, other);
    SameSets(incidents, signals, org, other, ids);
    assert NewKeys(incidents, signals, org, ids) == NewKeys(incidents, signals, org, other);
    assert NewSignals(incidents, signals, org, ids) == NewSignals(incidents, signals, org, other);
    forall k ensures SignalsFor(signals, org, ids, k) == SignalsFor(signals, org, other, k) {
    }
  }

  // ----- When a batch throws --------------------------------------------------

  /** The signal that would open its key's incident: no incident is live for the key, and none of the batch
      before it has the key. */
  ghost predicate Opens(incidents: seq<Incident>, signals: Signals, org: string, ids: seq<SignalId>, j: nat)
    requires InBatch(signals, org, ids) && j < |ids|
  {
    && !HasLive(incidents, org, Key(signals[ids[j]]))
    && forall i :: 0 <= i < j ==> Key(signals[ids[i]]) != Key(signals[ids[j]])
  }

  ghost predicate OpensFor(
    incidents: seq<Incident>, signals: Signals, org: string, ids: seq<SignalId>, j: nat, operationId: Option<string>)
    requires InBatch(signals, org, ids) && j < |ids|
  {
    operationId.Some? && Opens(incidents, signals, org, ids, j) && signals[ids[j]].keyed.operationId == operationId
  }

  /** It would open it for an operation that has an incident, or gets one earlier in the batch. */
  ghost predicate Clashes(incidents: seq<Incident>, signals: Signals, org: string, ids: seq<SignalId>, j: nat)
    requires InBatch(signals, org, ids) && j < |ids|
  {
    var operationId := signals[ids[j]].keyed.operationId;
    && OpensFor(incidents, signals, org, ids, j, operationId)
    && (Taken(incidents, operationId) ||
         exists i :: 0 <= i < j && OpensFor(incidents, signals, org, ids, i, operationId))
  }

  ghost predicate OpensIn(
    incidents: seq<Incident>, signals: Signals, org: string, ids: seq<SignalId>, n: nat, operationId: Option<string>)
    requires InBatch(signals, org, ids) && n <= |ids|
  {
    exists i :: 0 <= i < n && OpensFor(incidents, signals, org, ids, i, operationId)
  }

  lemma TakenAfter(incidents: seq<Incident>, signals: Signals, org: string, id: SignalId, operationId: Option<string>)
    requires id in signals && signals[id].org == org && Correlate(incidents, signals, org, id).Ok?
    ensures Taken(Correlate(incidents, signals, org, id).value.0, operationId) <==>
      || Taken(incidents, operationId)
      || (operationId.Some? && !HasLive(incidents, org, Key(signals[id])) &&
          signals[id].keyed.operationId == operationId)
  {
    var after := Correlate(incidents, signals, org, id).value.0;
    if Taken(incidents, operationId) {
      var i :| 0 <= i < |incidents| && incidents[i].operationId == operationId;
      assert after[i].operationId == operationId;
    }
    if !HasLive(incidents, org, Key(signals[id])) {
      assert after[|incidents|].operationId == signals[id].keyed.operationId;
    }
  }

  /** A signal finds no live incident at its turn exactly when it opens one. */
  lemma OpensAtTurn(incidents: seq<Incident>, signals: Signals, org: string, ids: seq<SignalId>, n: nat)
    requires OneLive(incidents) && InBatch(signals, org, ids) && n < |ids| && InBatch(signals, org, ids[..n])
    requires !Batch(incidents, signals, org, ids[..n]).refused
    ensures !HasLive(Batch(incidents, signals, org, ids[..n]).incidents, org, Key(signals[ids[n]])) <==>
      Opens(incidents, signals, org, ids, n)
  {
    var key := Key(signals[ids[n]]);
    BatchEffect(incidents, signals, org, ids[..n]);
    assert key in BatchKeys(signals, org, ids[..n]) <==> exists i :: 0 <= i < n && Key(signals[ids[i]]) == key by {
      if i :| 0 <= i < n && Key(signals[ids[i]]) == key {
        assert ids[..n][i] == ids[i];
      }
    }
  }

  lemma TakenByTurn(
    incidents: seq<Incident>, signals: Signals, org: string, ids: seq<SignalId>, m: nat, operationId: Option<string>)
    requires OneLive(incidents) && InBatch(signals, org, ids) && m < |ids| && InBatch(signals, org, ids[..m])
    requires !Batch(incidents, signals, org, ids[..m + 1]).refused
    ensures !Batch(incidents, signals, org, ids[..m]).refused
    ensures Taken(Batch(incidents, signals, org, ids[..m + 1]).incidents, operationId) <==>
      || Taken(Batch(incidents, signals, org, ids[..m]).incidents, operationId)
      || OpensFor(incidents, signals, org, ids, m, operationId)
  {
    assert ids[..m + 1][..m] == ids[..m];
    TakenAfter(Batch(incidents, signals, org, ids[..m]).incidents, signals, org, ids[m], operationId);
    OpensAtTurn(incidents, signals, org, ids, m);
  }

  lemma OpensInStep(
    incidents: seq<Incident>, signals: Signals, org: string, ids: seq<SignalId>, m: nat, operationId: Option<string>)
    requires InBatch(signals, org, ids) && m < |ids|
    ensures OpensIn(incidents, signals, org, ids, m + 1, operationId) <==>
      OpensIn(incidents, signals, org, ids, m, operationId) || OpensFor(incidents, signals, org, ids, m, operationId)
  {
  }

  lemma {:induction false} TakenAtTurn(
    incidents: seq<Incident>, signals: Signals, org: string, ids: seq<SignalId>, n: nat, operationId: Option<string>)
    requires OneLive(incidents) && InBatch(signals, org, ids) && n <= |ids|
    requires !Batch(incidents, signals, org, ids[..n]).refused
    ensures Taken(Batch(incidents, signals, org, ids[..n]).incidents, operationId) <==>
      Taken(incidents, operationId) || OpensIn(incidents, signals, org, ids, n, operationId)
    decreases n
  {
    if n > 0 {
      var m := n - 1;
      assert forall i :: 0 <= i < m ==> ids[..m][i] == ids[i];
      TakenByTurn(incidents, signals, org, ids, m, operationId);
      TakenAtTurn(incidents, signals, org, ids, m, operationId);
      OpensInStep(incidents, signals, org, ids, m, operationId);
    }
  }

  lemma RefusedAtTurn(incidents: seq<Incident>, signals: Signals, org: string, ids: seq<SignalId>, m: nat)
    requires OneLive(incidents) && InBatch(signals, org, ids) && m < |ids|
    requires !Batch(incidents, signals, org, ids[..m]).refused
    ensures Correlate(Batch(incidents, signals, org, ids[..m]).incidents, signals, org, ids[m]).Err? <==>
      Clashes(incidents, signals, org, ids, m)
  {
    assert InBatch(signals, org, ids[..m]);
    OpensAtTurn(incidents, signals, org, ids, m);
    TakenAtTurn(incidents, signals, org, ids, m, signals[ids[m]].keyed.operationId);
  }

  lemma {:induction false} RefusedUpTo(
    incidents: seq<Incident>, signals: Signals, org: string, ids: seq<SignalId>, n: nat)
    requires OneLive(incidents) && InBatch(signals, org, ids) && n <= |ids|
    ensures Batch(incidents, signals, org, ids[..n]).refused <==>
      exists j :: 0 <= j < n && Clashes(incidents, signals, org, ids, j)
    decreases n
  {
    if n > 0 {
      var m := n - 1;
      assert ids[..n][..m] == ids[..m] && ids[..n][m] == ids[m];
      RefusedUpTo(incidents, signals, org, ids, m);
      if !Batch(incidents, signals, org, ids[..m]).refused {
        RefusedAtTurn(incidents, signals, org, ids, m);
      }
    }
  }

  /** A batch throws exactly when one of its signals would open an incident for an operation that already has one:
      beforehand, or from an earlier signal of the batch with another key. */
  lemma BatchRefusedExactly(incidents: seq<Incident>, signals: Signals, org: string, ids: seq<SignalId>)
    requires OneLive(incidents) && InBatch(signals, org, ids)
    ensures Batch(incidents, signals, org, ids).refused <==>
      exists j :: 0 <= j < |ids| && Clashes(incidents, signals, org, ids, j)
  {
    RefusedUpTo(incidents, signals, org, ids, |ids|);
    assert ids[..|ids|] == ids;
  }

  // ----- The service ----------------------------------------------------------

  class IncidentService {
    var incidents: seq<Incident>
    var signals: Signals

    constructor (found: Signals)
      ensures incidents == [] && signals == found
    {
      incidents := [];
      signals := found;
    }

    /** One signal: linked to the live incident of its key, or opening one. */
    method CorrelateSignal(org: string, id: SignalId) returns (r: Result<Action, Refusal>)
      modifies this`incidents
      ensures match Correlate(old(incidents), signals, org, id)
        case Err(e) => r == Err(e) && incidents == old(incidents)
        case Ok((after, action)) => r == Ok(action) && incidents == after
    {
      if id !in signals || signals[id].org != org {
        return Ok(SKIPPED);
      }
      var s := signals[id];
      var existing := FindLive(incidents, org, Key(s));
      if existing.Some? {
        var i := existing.value;
        if !Linked(incidents[i], id) {
          incidents := incidents[i := WithLink(incidents[i], id, s)];
          return Ok(UPDATED);
        }
        return Ok(SKIPPED);
      }
      if Taken(incidents, s.keyed.operationId) {
        return Err(OperationIdTaken);
      }
      incidents := incidents + [Opened(id, s)];
      r := Ok(CREATED);
    }

    /** `found` is the query's result: active signals of the organization, oldest observation first. */
    method CorrelateSignalsForOrg(org: string, found: seq<SignalId>) returns (r: Result<Tally, Refusal>)
      requires InBatch(signals, org, found) && OneLive(incidents)
      modifies this`incidents
      ensures var batch := Batch(old(incidents), signals, org, found);
        incidents == batch.incidents && r == if batch.refused then Err(OperationIdTaken) else Ok(batch.tally)
      ensures r.Ok? ==>
        && r.value.created == |NewKeys(old(incidents), signals, org, found)|
        && TotalLinks(incidents) == TotalLinks(old(incidents)) + r.value.linked
        && r.value.created + r.value.updated + r.value.skipped == |found|
    {
      ghost var start := incidents;
      var created, updated, linked, skipped := 0, 0, 0, 0;
      for i := 0 to |found|
        invariant Batch(start, signals, org, found[..i]) ==
          BatchResult(incidents, Tally(created, updated, linked, skipped), false)
      {
        assert found[..i + 1][..i] == found[..i];
        var result := CorrelateSignal(org, found[i]);
        if result.Err? {
          RefusalStays(start, signals, org, found, i + 1);
          return Err(result.error);
        }
        match result.value {
          case CREATED => created := created + 1;
          case UPDATED => updated := updated + 1;
          case SKIPPED => skipped := skipped + 1;
        }
        if result.value != SKIPPED {
          linked := linked + 1;
        }
      }
      assert found[..|found|] == found;
      BatchTallies(start, signals, org, found);
      r := Ok(Tally(created, updated, linked, skipped));
    }

    method AcknowledgeIncident(org: string, id: nat) returns (r: Result<(), IncidentError>)
      modifies this`incidents
      ensures match Acknowledge(old(incidents), org, id)
        case Err(e) => r == Err(e) && incidents == old(incidents)
        case Ok(after) => r == Ok(()) && incidents == after
    {
      if id >= |incidents| || incidents[id].org != org {
        return Err(NotFound);
      }
      if incidents[id].status != OPEN {
        return Err(BadRequest);
      }
      incidents := incidents[id := incidents[id].(status := ACKNOWLEDGED)];
      r := Ok(());
    }

    method ResolveIncident(org: string, id: nat) returns (r: Result<(), IncidentError>)
      modifies this`incidents
      ensures match Resolve(old(incidents), org, id)
        case Err(e) => r == Err(e) && incidents == old(incidents)
        case Ok(after) => r == Ok(()) && incidents == after
    {
      if id >= |incidents| || incidents[id].org != org {
        return Err(NotFound);
      }
      if incidents[id].status == RESOLVED {
        return Err(BadRequest);
      }
      incidents := incidents[id := incidents[id].(status := RESOLVED)];
      r := Ok(());
    }

    method ArchiveIncident(org: string, id: nat, now: int) returns (r: Result<(), IncidentError>)
      modifies this`incidents
      ensures match Archive(old(incidents), org, id, now)
        case Err(e) => r == Err(e) && incidents == old(incidents)
        case Ok(after) => r == Ok(()) && incidents == after
    {
      if id >= |incidents| || incidents[id].org != org {
        return Err(NotFound);
      }
      if incidents[id].archivedAt.Some? {
        return Err(BadRequest);
      }
      incidents := incidents[id := incidents[id].(archivedAt := Some(now))];
      r := Ok(());
    }

    /** The worker's call after an operation failed. */
    method CreateIncidentForFailedOperation(org: string, operationId: string, severity: Severity, now: int)
      modifies this`incidents
      ensures incidents == CreatedForOperation(old(incidents), org, operationId, severity, now)
    {
      if !Taken(incidents, Some(operationId)) {
        incidents := incidents + [OpenedForOperation(org, operationId, severity, now)];
      }
    }
  }

  lemma {:induction false} RefusalStays(
    incidents: seq<Incident>, signals: Signals, org: string, ids: seq<SignalId>, n: nat)
    requires n <= |ids| && Batch(incidents, signals, org, ids[..n]).refused
    ensures Batch(incidents, signals, org, ids) == Batch(incidents, signals, org, ids[..n])
    decreases |ids|
  {
    if n == |ids| {
      assert ids[..n] == ids;
    } else {
      var m := |ids| - 1;
      assert ids[..m][..n] == ids[..n];
      RefusalStays(incidents, signals, org, ids[..m], n);
    }
  }
}
