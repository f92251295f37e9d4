/** Deployments: triggered by the API, run by workers that may get a job more than once
    (apps/api/src/modules/deployments/deployment.service.ts, apps/worker/src/queues/deployments.queue.ts,
    apps/worker/src/executors/simulation.executor.ts). */
module Deployments {
  import opened Wrappers
  import opened Runs

  type DepId = nat
  type CallId = nat
  type WorkerId = nat

  datatype Status = QUEUED | RUNNING | SUCCEEDED | FAILED

  /** Simulated(0) is the simulation's start, 1 to 5 are its phases, 6 is its completion. */
  datatype Event = Queued | Enqueued | EnqueueFailed | Skipped | Started | Simulated(n: nat) | Succeeded | Failed

  /** `progress` is what the job reported; the last two are history. */
  datatype Dep = Dep(
    env: string, status: Status, log: seq<Event>, progress: seq<nat>, claims: nat, crashed: bool)

  /** An API call past its check, or past its create. */
  datatype Call = Cleared(env: string) | Created(dep: DepId)

  datatype Worker =
    | Received(dep: DepId)
    | Claiming(dep: DepId)
    | Claimed(dep: DepId)
    | Simulating(dep: DepId, done: nat)
    | Failing(dep: DepId, done: nat)
    | Announcing(dep: DepId, done: nat, ok: bool)

  /** A job that was added once may be delivered any number of times. */
  datatype State = State(deps: seq<Dep>, calls: map<CallId, Call>, jobs: set<DepId>, workers: map<WorkerId, Worker>)

  datatype Step =
    | CheckEnvironment(call: CallId, env: string)
    | Create(call: CallId)
    | Enqueue(call: CallId)
    | EnqueueFails(call: CallId, added: bool)
    | EndCall(call: CallId)
    | Deliver(worker: WorkerId, dep: DepId)
    | Read(worker: WorkerId)
    | Claim(worker: WorkerId)
    | Start(worker: WorkerId)
    | Phase(worker: WorkerId)
    | PhaseFails(worker: WorkerId)
    | Complete(worker: WorkerId)
    | Announce(worker: WorkerId)
    | Crash(worker: WorkerId)

  const EMPTY := State([], map[], {}, map[])

  const PROGRESS: seq<nat> := [10, 20, 40, 60, 80, 95, 100]

  predicate Active(d: Dep) {
    d.status == QUEUED || d.status == RUNNING
  }

  predicate HasActive(deps: seq<Dep>, env: string) {
    exists i :: 0 <= i < |deps| && deps[i].env == env && Active(deps[i])
  }

  function NewDep(env: string): Dep {
    Dep(env, QUEUED, [Queued], [], 0, false)
  }

  function Logged(d: Dep, e: Event): Dep {
    d.(log := d.log + [e])
  }

  function AfterPhase(d: Dep, done: nat): Dep
    requires done < 7
  {
    Logged(d, Simulated(done)).(progress := d.progress + [PROGRESS[done]])
  }

  predicate InRange(s: State, w: WorkerId) {
    w in s.workers && s.workers[w].dep < |s.deps|
  }

  predicate Possible(s: State, e: Step) {
    match e
    case CheckEnvironment(c, _) => c !in s.calls
    case Create(c) => c in s.calls && s.calls[c].Cleared?
    case Enqueue(c) => c in s.calls && s.calls[c].Created? && s.calls[c].dep < |s.deps|
    case EnqueueFails(c, _) => c in s.calls && s.calls[c].Created? && s.calls[c].dep < |s.deps|
    case EndCall(c) => c in s.calls
    case Deliver(w, d) => w !in s.workers && d in s.jobs
    case Read(w) => InRange(s, w) && s.workers[w].Received?
    case Claim(w) => InRange(s, w) && s.workers[w].Claiming?
    case Start(w) => InRange(s, w) && s.workers[w].Claimed?
    case Phase(w) => InRange(s, w) && s.workers[w].Simulating? && s.workers[w].done < 7
    case PhaseFails(w) => InRange(s, w) && s.workers[w].Simulating? && s.workers[w].done < 7
    case Complete(w) =>
      InRange(s, w) && (s.workers[w].Failing? || (s.workers[w].Simulating? && s.workers[w].done == 7))
    case Announce(w) => InRange(s, w) && s.workers[w].Announcing?
    case Crash(w) => InRange(s, w)
  }

  /** Past the claim. */
  predicate Holding(w: Worker) {
    !w.Received? && !w.Claiming?
  }

  /** A worker writes its deployment and goes on, or ends. */
  function Wrote(s: State, w: WorkerId, d: Dep, next: Option<Worker>): State
    requires InRange(s, w)
  {
    s.(deps := s.deps[s.workers[w].dep := d],
       workers := if next.None? then s.workers - {w} else s.workers[w := next.value])
  }

  function Apply(s: State, e: Step): State
    requires Possible(s, e)
  {
    match e
    case CheckEnvironment(c, env) => if HasActive(s.deps, env) then s else s.(calls := s.calls[c := Cleared(env)])
    case Create(c) =>
      s.(deps := s.deps + [NewDep(s.calls[c].env)], calls := s.calls[c := Created(|s.deps|)])
    case Enqueue(c) =>
      var d := s.calls[c].dep;
      s.(deps := s.deps[d := Logged(s.deps[d], Enqueued)], calls := s.calls - {c}, jobs := s.jobs + {d})
    case EnqueueFails(c, added) =>
      var d := s.calls[c].dep;
      s.(deps := s.deps[d := Logged(s.deps[d], EnqueueFailed).(status := FAILED)], calls := s.calls - {c},
         jobs := if added then s.jobs + {d} else s.jobs)
    case EndCall(c) => s.(calls := s.calls - {c})
    case Deliver(w, d) => s.(workers := s.workers[w := Received(d)])
    case Read(w) =>
      var d := s.deps[s.workers[w].dep];
      if d.status == QUEUED then s.(workers := s.workers[w := Claiming(s.workers[w].dep)])
      else Wrote(s, w, Logged(d, Skipped), None)
    case Claim(w) =>
      var d := s.deps[s.workers[w].dep];
      if d.status == QUEUED
      then Wrote(s, w, d.(status := RUNNING, claims := d.claims + 1), Some(Claimed(s.workers[w].dep)))
      else Wrote(s, w, Logged(d, Skipped), None)
    case Start(w) =>
      var d := s.deps[s.workers[w].dep];
      Wrote(s, w, Logged(d, Started), Some(Simulating(s.workers[w].dep, 0)))
    case Phase(w) =>
      var Simulating(dep, done) := s.workers[w];
      Wrote(s, w, AfterPhase(s.deps[dep], done), Some(Simulating(dep, done + 1)))
    case PhaseFails(w) =>
      var Simulating(dep, done) := s.workers[w];
      s.(workers := s.workers[w := Failing(dep, done)])
    case Complete(w) =>
      var worker := s.workers[w];
      var d := s.deps[worker.dep];
      Wrote(s, w, d.(status := if worker.Failing? then FAILED else SUCCEEDED),
            Some(Announcing(worker.dep, worker.done, worker.Simulating?)))
    case Announce(w) =>
      var worker := s.workers[w];
      Wrote(s, w, Logged(s.deps[worker.dep], if worker.ok then Succeeded else Failed), None)
    case Crash(w) =>
      var d := s.deps[s.workers[w].dep];
      Wrote(s, w, if Holding(s.workers[w]) then d.(crashed := true) else d, None)
  }

  ghost function Next(s: State, e: Step): Option<State> {
    if Possible(s, e) then Some(Apply(s, e)) else None
  }

  /** A call can end and a worker can crash between any two of its statements, and an
      added job can be delivered to another worker at any time. */
  lemma CutShortAnywhere(s: State)
    ensures forall c :: c in s.calls ==>
      Possible(s, EndCall(c)) && Apply(s, EndCall(c)) == s.(calls := s.calls - {c})
    ensures forall w :: w in s.workers && s.workers[w].dep < |s.deps| ==>
      Possible(s, Crash(w)) && Apply(s, Crash(w)).workers == s.workers - {w}
    ensures forall w, d :: w !in s.workers && d in s.jobs ==>
      Possible(s, Deliver(w, d)) && Apply(s, Deliver(w, d)) == s.(workers := s.workers[w := Received(d)])
  {
  }

  // ----- What a deployment's own run writes -----------------------------------

  predicate OfRun(e: Event) {
    e.Started? || e.Simulated? || e.Succeeded? || e.Failed?
  }

  /** The events of the claimed run, in order: without queueing and skipped duplicates. */
  function Trace(log: seq<Event>): seq<Event> {
    if log == [] then []
    else Trace(log[..|log| - 1]) + if OfRun(log[|log| - 1]) then [log[|log| - 1]] else []
  }

  lemma TraceOfLogged(d: Dep, e: Event)
    ensures Trace(Logged(d, e).log) == Trace(d.log) + if OfRun(e) then [e] else []
  {
    assert (d.log + [e])[..|d.log|] == d.log;
  }

  /** Started, and this many of the simulation's steps. */
  function Ran(done: nat): seq<Event> {
    if done == 0 then [Started] else Ran(done - 1) + [Simulated(done - 1)]
  }

  function StageTrace(w: Worker): seq<Event>
    requires Holding(w)
  {
    if w.Claimed? then [] else Ran(w.done)
  }

  function StageDone(w: Worker): nat
    requires Holding(w)
  {
    if w.Claimed? then 0 else w.done
  }

  ghost predicate Succeeds(d: Dep) {
    Trace(d.log) == Ran(7) + [Succeeded] && d.progress == PROGRESS
  }

  ghost predicate Fails(d: Dep) {
    exists done :: 0 <= done <= 7 && Trace(d.log) == Ran(done) + [Failed] && d.progress == PROGRESS[..done]
  }

  ghost predicate CutShort(d: Dep) {
    d.crashed && ((Trace(d.log) == [] && d.progress == []) ||
                  exists done :: 0 <= done <= 7 && Trace(d.log) == Ran(done) && d.progress == PROGRESS[..done])
  }

  /** A deployment that no worker holds: never claimed, or with a run that ended. */
  ghost predicate Free(d: Dep) {
    if d.claims == 0 then Trace(d.log) == [] && d.progress == [] && !d.crashed
      && (d.status == QUEUED || d.status == FAILED)
    else d.claims == 1 && d.status != QUEUED
         && (Succeeds(d) || (Fails(d) && d.status == FAILED) || CutShort(d))
  }

  /** A deployment in the hands of a worker. */
  ghost predicate Held(d: Dep, w: Worker)
    requires Holding(w)
  {
    && d.claims == 1 && d.status != QUEUED && !d.crashed
    && StageDone(w) <= 7 && Trace(d.log) == StageTrace(w) && d.progress == PROGRESS[..StageDone(w)]
    && (w.Announcing? && w.ok ==> w.done == 7)
    && (if w.Announcing? && w.ok then true else if w.Announcing? then d.status == FAILED else d.status != SUCCEEDED)
  }

  ghost predicate Holds(s: State, w: WorkerId, d: DepId) {
    w in s.workers && s.workers[w].dep == d && Holding(s.workers[w])
  }

  ghost predicate Consistent(s: State) {
    && (forall d :: d in s.jobs ==> d < |s.deps|)
    && (forall w :: w in s.workers ==> s.workers[w].dep < |s.deps|)
    && (forall c :: c in s.calls && s.calls[c].Created? ==> s.calls[c].dep < |s.deps|)
    && (forall v, w, d: DepId :: Holds(s, v, d) && Holds(s, w, d) ==> v == w)
    && (forall w, d: DepId :: Holds(s, w, d) ==> Held(s.deps[d], s.workers[w]))
    && (forall d: DepId :: d < |s.deps| && (forall w :: !Holds(s, w, d)) ==> Free(s.deps[d]))
  }

  // ----- Every interleaving ---------------------------------------------------

  /** An event that is not of the run, and perhaps FAILED written over the status. */
  ghost predicate Aside(d: Dep, after: Dep) {
    && (after.log == d.log || exists e :: !OfRun(e) && after.log == d.log + [e])
    && after == d.(log := after.log, status := after.status)
    && (after.status == d.status || after.status == FAILED)
  }

  lemma AsideKeeps(d: Dep, after: Dep)
    requires Aside(d, after)
    ensures Trace(after.log) == Trace(d.log)
    ensures Free(d) ==> Free(after)
    ensures forall w :: Holding(w) && Held(d, w) ==> Held(after, w)
  {
    if after.log != d.log {
      var e :| !OfRun(e) && after.log == d.log + [e];
      assert after.log[..|d.log|] == d.log;
    }
  }

  /** Deployments are touched aside, and threads that hold none come and go. */
  lemma AsideStep(s: State, t: State)
    requires Consistent(s) && |t.deps| == |s.deps|
    requires forall d :: 0 <= d < |s.deps| ==> Aside(s.deps[d], t.deps[d])
    requires forall w, d: DepId :: Holds(t, w, d) ==> Holds(s, w, d) && t.workers[w] == s.workers[w]
    requires forall w, d: DepId :: Holds(s, w, d) ==> Holds(t, w, d)
    requires forall d :: d in t.jobs ==> d < |t.deps|
    requires forall w :: w in t.workers ==> t.workers[w].dep < |t.deps|
    requires forall c :: c in t.calls && t.calls[c].Created? ==> t.calls[c].dep < |t.deps|
    ensures Consistent(t)
  {
    forall d: DepId | d < |t.deps|
      ensures (Free(s.deps[d]) ==> Free(t.deps[d]))
        && (forall w :: Holding(w) && Held(s.deps[d], w) ==> Held(t.deps[d], w))
    {
      AsideKeeps(s.deps[d], t.deps[d]);
    }
  }

  /** Who holds what after the holder's write. */
  lemma HoldersAfter(s: State, w: WorkerId, d: Dep, next: Option<Worker>)
    requires Consistent(s) && InRange(s, w) && Holding(s.workers[w])
    requires next.Some? ==> next.value.dep == s.workers[w].dep && Holding(next.value)
    ensures var t := Wrote(s, w, d, next);
      forall v, o: DepId :: Holds(t, v, o) <==>
        (if o == s.workers[w].dep then v == w && next.Some? else Holds(s, v, o))
  {
    var t := Wrote(s, w, d, next);
    assert Holds(s, w, s.workers[w].dep);
    forall v, o: DepId
      ensures Holds(t, v, o) <==> (if o == s.workers[w].dep then v == w && next.Some? else Holds(s, v, o))
    {
      if v != w {
        assert Holds(t, v, o) <==> Holds(s, v, o);
      }
    }
  }

  /** The holder of a deployment writes it, and holds it on or lets it go. */
  lemma HolderStep(s: State, w: WorkerId, d: Dep, next: Option<Worker>)
    requires Consistent(s) && InRange(s, w) && Holding(s.workers[w])
    requires next.Some? ==> next.value.dep == s.workers[w].dep && Holding(next.value) && Held(d, next.value)
    requires next.None? ==> Free(d)
    ensures Consistent(Wrote(s, w, d, next))
  {
    var t := Wrote(s, w, d, next);
    var dep := s.workers[w].dep;
    HoldersAfter(s, w, d, next);
    forall o: DepId | o < |t.deps| && (forall v :: !Holds(t, v, o)) ensures Free(t.deps[o]) {
      assert o == dep ==> next.None? || Holds(t, w, dep);
      assert o != dep ==> forall v :: Holds(s, v, o) <==> Holds(t, v, o);
    }
  }

  /** A worker takes a deployment that nobody held. */
  lemma TakeStep(s: State, w: WorkerId)
    requires Consistent(s) && Possible(s, Claim(w)) && s.deps[s.workers[w].dep].status == QUEUED
    ensures Consistent(Apply(s, Claim(w)))
  {
    var t := Apply(s, Claim(w));
    var dep := s.workers[w].dep;
    forall v ensures !Holds(s, v, dep) {
      assert Holds(s, v, dep) ==> Held(s.deps[dep], s.workers[v]);
    }
    assert Free(s.deps[dep]);
    assert t == Wrote(s, w, s.deps[dep].(status := RUNNING, claims := s.deps[dep].claims + 1), Some(Claimed(dep)));
    assert t.workers[w] == Claimed(dep) && Holds(t, w, dep);
    assert PROGRESS[..0] == [] && Held(t.deps[dep], t.workers[w]);
    forall v, o: DepId | Holds(t, v, o) ensures (v == w && o == dep) || (Holds(s, v, o) && o != dep) {
      if v != w {
        assert Holds(s, v, o);
      }
    }
    forall o: DepId | o < |t.deps| && (forall v :: !Holds(t, v, o)) ensures Free(t.deps[o]) {
      forall v ensures !Holds(s, v, o) {
        assert !Holds(t, v, o);
      }
    }
  }

  lemma CreateStep(s: State, c: CallId)
    requires Consistent(s) && Possible(s, Create(c))
    ensures Consistent(Apply(s, Create(c)))
  {
    var t := Apply(s, Create(c));
    var d := NewDep(s.calls[c].env);
    assert Trace(d.log) == [] by {
      assert d.log[..0] == [];
    }
    forall v, o: DepId ensures Holds(t, v, o) <==> Holds(s, v, o) {
    }
  }

  lemma PhaseHeld(d: Dep, dep: DepId, done: nat)
    requires done < 7 && Held(d, Simulating(dep, done))
    ensures Held(AfterPhase(d, done), Simulating(dep, done + 1))
  {
    TraceOfLogged(d, Simulated(done));
    assert PROGRESS[..done] + [PROGRESS[done]] == PROGRESS[..done + 1];
  }

  lemma PhaseStep(s: State, w: WorkerId)
    requires Consistent(s) && Possible(s, Phase(w))
    ensures Consistent(Apply(s, Phase(w)))
  {
    var Simulating(dep, done) := s.workers[w];
    assert Holds(s, w, dep);
    PhaseHeld(s.deps[dep], dep, done);
    HolderStep(s, w, AfterPhase(s.deps[dep], done), Some(Simulating(dep, done + 1)));
  }

  lemma PhaseFailsStep(s: State, w: WorkerId)
    requires Consistent(s) && Possible(s, PhaseFails(w))
    ensures Consistent(Apply(s, PhaseFails(w)))
  {
    var Simulating(dep, done) := s.workers[w];
    assert Holds(s, w, dep);
    assert s.deps[dep := s.deps[dep]] == s.deps;
    HolderStep(s, w, s.deps[dep], Some(Failing(dep, done)));
  }

  lemma StartStep(s: State, w: WorkerId)
    requires Consistent(s) && Possible(s, Start(w))
    ensures Consistent(Apply(s, Start(w)))
  {
    var dep := s.workers[w].dep;
    assert Holds(s, w, dep);
    TraceOfLogged(s.deps[dep], Started);
    HolderStep(s, w, Logged(s.deps[dep], Started), Some(Simulating(dep, 0)));
  }

  lemma CompleteStep(s: State, w: WorkerId)
    requires Consistent(s) && Possible(s, Complete(w))
    ensures Consistent(Apply(s, Complete(w)))
  {
    var worker := s.workers[w];
    assert Holds(s, w, worker.dep);
    HolderStep(s, w, s.deps[worker.dep].(status := if worker.Failing? then FAILED else SUCCEEDED),
      Some(Announcing(worker.dep, worker.done, worker.Simulating?)));
  }

  lemma AnnounceStep(s: State, w: WorkerId)
    requires Consistent(s) && Possible(s, Announce(w))
    ensures Consistent(Apply(s, Announce(w)))
  {
    var worker := s.workers[w];
    var e := if worker.ok then Succeeded else Failed;
    assert Holds(s, w, worker.dep);
    TraceOfLogged(s.deps[worker.dep], e);
    assert PROGRESS[..7] == PROGRESS;
    assert !worker.ok ==> Fails(Logged(s.deps[worker.dep], e));
    HolderStep(s, w, Logged(s.deps[worker.dep], e), None);
  }

  lemma CrashStep(s: State, w: WorkerId)
    requires Consistent(s) && Possible(s, Crash(w))
    ensures Consistent(Apply(s, Crash(w)))
  {
    var worker := s.workers[w];
    var d := s.deps[worker.dep];
    if Holding(worker) {
      assert Holds(s, w, worker.dep);
      assert worker.Claimed? ==> d.progress == [];
      HolderStep(s, w, d.(crashed := true), None);
    } else {
      OtherStep(s, Crash(w));
    }
  }

  /** Every other step touches deployments aside. */
  lemma OtherStep(s: State, e: Step)
    requires Consistent(s) && Possible(s, e)
    requires e.CheckEnvironment? || e.Enqueue? || e.EnqueueFails? || e.EndCall? || e.Deliver? || e.Read?
             || (e.Claim? && s.deps[s.workers[e.worker].dep].status != QUEUED)
             || (e.Crash? && !Holding(s.workers[e.worker]))
    ensures Consistent(Apply(s, e))
  {
    var t := Apply(s, e);
    forall d | 0 <= d < |s.deps| ensures Aside(s.deps[d], t.deps[d]) {
      assert !OfRun(Enqueued) && !OfRun(EnqueueFailed) && !OfRun(Skipped);
      assert t.deps[d].log == s.deps[d].log || exists e :: !OfRun(e) && t.deps[d].log == s.deps[d].log + [e];
    }
    AsideStep(s, t);
  }

  lemma StepKeeps(s: State, e: Step)
    requires Consistent(s) && Possible(s, e)
    ensures Consistent(Apply(s, e))
  {
    match e
    case Create(c) => CreateStep(s, c);
    case Claim(w) =>
      if s.deps[s.workers[w].dep].status == QUEUED {
        TakeStep(s, w);
      } else {
        OtherStep(s, e);
      }
    case Start(w) => StartStep(s, w);
    case Phase(w) => PhaseStep(s, w);
    case PhaseFails(w) => PhaseFailsStep(s, w);
    case Complete(w) => CompleteStep(s, w);
    case Announce(w) => AnnounceStep(s, w);
    case Crash(w) => CrashStep(s, w);
    case _ => OtherStep(s, e);
  }

  lemma {:induction false} EveryRunIsConsistent(steps: seq<Step>)
    ensures Final(Next, EMPTY, steps).Some? ==> Consistent(Final(Next, EMPTY, steps).value)
  {
    forall s, e | Consistent(s) && Next(s, e).Some? ensures Consistent(Next(s, e).value) {
      StepKeeps(s, e);
    }
    Invariant(Next, Consistent, EMPTY, steps);
  }

  // ----- What follows ---------------------------------------------------------

  /** How many events of a kind a log holds. */
  function Count(log: seq<Event>, p: Event -> bool): nat {
    if log == [] then 0 else Count(log[..|log| - 1], p) + if p(log[|log| - 1]) then 1 else 0
  }

  lemma CountOfAppend(log: seq<Event>, e: Event, p: Event -> bool)
    ensures Count(log + [e], p) == Count(log, p) + if p(e) then 1 else 0
  {
    assert (log + [e])[..|log|] == log;
  }

  lemma {:induction false} CountInTrace(log: seq<Event>, p: Event -> bool)
    requires forall e :: p(e) ==> OfRun(e)
    ensures Count(log, p) == Count(Trace(log), p)
  {
    if log != [] {
      var n := |log| - 1;
      CountInTrace(log[..n], p);
      CountOfAppend(Trace(log[..n]), log[n], p);
      assert Trace(log[..n]) + [] == Trace(log[..n]);
    }
  }

  predicate IsStart(e: Event) {
    e.Started?
  }

  predicate IsFinal(e: Event) {
    e.Succeeded? || e.Failed?
  }

  lemma {:induction false} CountsInRan(done: nat)
    ensures Count(Ran(done), IsStart) == 1 && Count(Ran(done), IsFinal) == 0
  {
    if done == 0 {
      assert [] + [Started] == [Started];
      CountOfAppend([], Started, IsStart);
      CountOfAppend([], Started, IsFinal);
    } else {
      CountsInRan(done - 1);
      CountOfAppend(Ran(done - 1), Simulated(done - 1), IsStart);
      CountOfAppend(Ran(done - 1), Simulated(done - 1), IsFinal);
    }
  }

  lemma CountsInEnded(done: nat, e: Event)
    requires IsFinal(e)
    ensures Count(Ran(done) + [e], IsStart) == 1 && Count(Ran(done) + [e], IsFinal) == 1
  {
    CountsInRan(done);
    CountOfAppend(Ran(done), e, IsStart);
    CountOfAppend(Ran(done), e, IsFinal);
  }

  /** What a trace can be: nothing, a run cut somewhere, a failed one, a whole one. */
  ghost predicate IsTrace(trace: seq<Event>) {
    || trace == []
    || exists done :: 0 <= done <= 7
         && (trace == Ran(done) || trace == Ran(done) + [Failed] || (done == 7 && trace == Ran(done) + [Succeeded]))
  }

  lemma TraceCounts(trace: seq<Event>)
    requires IsTrace(trace)
    ensures Count(trace, IsStart) <= 1 && Count(trace, IsFinal) <= 1
  {
    if trace != [] {
      var done :| 0 <= done <= 7
        && (trace == Ran(done) || trace == Ran(done) + [Failed] || (done == 7 && trace == Ran(done) + [Succeeded]));
      CountsInRan(done);
      CountsInEnded(done, Failed);
      CountsInEnded(done, Succeeded);
    }
  }

  lemma ConsistentTrace(s: State, d: DepId)
    requires Consistent(s) && d < |s.deps|
    ensures s.deps[d].claims <= 1 && IsTrace(Trace(s.deps[d].log))
    ensures exists done :: 0 <= done <= 7 && s.deps[d].progress == PROGRESS[..done]
  {
    var dep := s.deps[d];
    assert PROGRESS[..0] == [] && PROGRESS[..7] == PROGRESS;
    if w :| Holds(s, w, d) {
      var worker := s.workers[w];
      assert Held(dep, worker);
      assert dep.progress == PROGRESS[..StageDone(worker)];
      assert !worker.Claimed? ==> Trace(dep.log) == Ran(worker.done);
    } else {
      assert Free(dep);
      if dep.claims == 1 && Succeeds(dep) {
        assert Trace(dep.log) == Ran(7) + [Succeeded];
      }
    }
  }

  lemma LogCounts(s: State, d: DepId)
    requires Consistent(s) && d < |s.deps|
    ensures s.deps[d].claims <= 1 && Count(s.deps[d].log, IsStart) <= 1 && Count(s.deps[d].log, IsFinal) <= 1
  {
    ConsistentTrace(s, d);
    TraceCounts(Trace(s.deps[d].log));
    CountInTrace(s.deps[d].log, IsStart);
    CountInTrace(s.deps[d].log, IsFinal);
  }

  lemma ProgressRises(s: State, d: DepId)
    requires Consistent(s) && d < |s.deps|
    ensures var progress := s.deps[d].progress;
      progress <= PROGRESS && forall i, j :: 0 <= i < j < |progress| ==> progress[i] < progress[j]
  {
    ConsistentTrace(s, d);
    var done :| 0 <= done <= 7 && s.deps[d].progress == PROGRESS[..done];
  }

  /** In every interleaving, with duplicate deliveries, crashes and any number of workers, a deployment is claimed at
      most once, its log holds at most one started event and one final event, and its progress is a prefix of the
      rising series. */
  lemma {:induction false} ClaimedAtMostOnce(steps: seq<Step>, d: DepId)
    requires Final(Next, EMPTY, steps).Some? && d < |Final(Next, EMPTY, steps).value.deps|
    ensures var dep := Final(Next, EMPTY, steps).value.deps[d];
      && dep.claims <= 1
      && Count(dep.log, IsStart) <= 1 && Count(dep.log, IsFinal) <= 1
      && dep.progress <= PROGRESS && forall i, j :: 0 <= i < j < |dep.progress| ==> dep.progress[i] < dep.progress[j]
  {
    EveryRunIsConsistent(steps);
    LogCounts(Final(Next, EMPTY, steps).value, d);
    ProgressRises(Final(Next, EMPTY, steps).value, d);
  }

  /** A deployment that ended SUCCEEDED, without a crash of its worker, logs in order its start, every step of the
      simulation and its success, and reported the whole progress. */
  lemma {:induction false} SucceededRanInFull(steps: seq<Step>, d: DepId)
    requires Final(Next, EMPTY, steps).Some? && d < |Final(Next, EMPTY, steps).value.deps|
    requires var s := Final(Next, EMPTY, steps).value;
      s.deps[d].status == SUCCEEDED && !s.deps[d].crashed && forall w :: !Holds(s, w, d)
    ensures var dep := Final(Next, EMPTY, steps).value.deps[d];
      && Trace(dep.log) ==
         [Started, Simulated(0), Simulated(1), Simulated(2), Simulated(3),
          Simulated(4), Simulated(5), Simulated(6), Succeeded]
      && dep.progress == [10, 20, 40, 60, 80, 95, 100]
  {
    EveryRunIsConsistent(steps);
    var dep := Final(Next, EMPTY, steps).value.deps[d];
    assert Free(dep) && Succeeds(dep);
    RanInFull();
  }

  lemma RanInFull()
    ensures Ran(7) ==
      [Started, Simulated(0), Simulated(1), Simulated(2), Simulated(3), Simulated(4), Simulated(5), Simulated(6)]
  {
    assert Ran(2) == [Started, Simulated(0), Simulated(1)];
    assert Ran(4) == [Started, Simulated(0), Simulated(1), Simulated(2), Simulated(3)];
    assert Ran(6) == Ran(4) + [Simulated(4)] + [Simulated(5)];
  }

  // ----- One active deployment per environment --------------------------------

  /** Checking for an active deployment and creating one are atomic: none became active in between. */
  ghost function AtomicNext(s: State, e: Step): Option<State> {
    if e.Create? && Possible(s, e) && HasActive(s.deps, s.calls[e.call].env) then None else Next(s, e)
  }

  ghost predicate OneActive(s: State) {
    forall i, j :: 0 <= i < j < |s.deps| && s.deps[i].env == s.deps[j].env ==> !Active(s.deps[i]) || !Active(s.deps[j])
  }

  /** No step but a create makes a deployment active. */
  lemma NothingReactivates(s: State, e: Step)
    requires Possible(s, e) && !e.Create? && Consistent(s)
    ensures var t := Apply(s, e);
      |t.deps| == |s.deps| &&
      forall i :: 0 <= i < |s.deps| ==> t.deps[i].env == s.deps[i].env && (Active(t.deps[i]) ==> Active(s.deps[i]))
  {
  }

  lemma OneActiveStep(s: State, e: Step)
    requires Consistent(s) && OneActive(s) && AtomicNext(s, e).Some?
    ensures Consistent(AtomicNext(s, e).value) && OneActive(AtomicNext(s, e).value)
  {
    StepKeeps(s, e);
    if !e.Create? {
      NothingReactivates(s, e);
    }
  }

  /** With the trigger's check and create atomic, every environment has at most one active deployment. */
  lemma {:induction false} OneActivePerEnvironment(steps: seq<Step>)
    requires Final(AtomicNext, EMPTY, steps).Some?
    ensures var deps := Final(AtomicNext, EMPTY, steps).value.deps;
      forall i, j :: 0 <= i < |deps| && 0 <= j < |deps| && i != j && deps[i].env == deps[j].env ==>
        deps[i].status in {QUEUED, RUNNING} ==> deps[j].status in {SUCCEEDED, FAILED}
  {
    var inv := (s: State) => Consistent(s) && OneActive(s);
    forall s, e | inv(s) && AtomicNext(s, e).Some? ensures inv(AtomicNext(s, e).value) {
      OneActiveStep(s, e);
    }
    Invariant(AtomicNext, inv, EMPTY, steps);
  }

  /** A create keeps that exactly when no deployment of the environment is active when it writes. */
  lemma CreateKeepsOneActiveExactly(s: State, c: CallId)
    requires OneActive(s) && Possible(s, Create(c))
    ensures OneActive(Apply(s, Create(c))) <==>
      forall i :: 0 <= i < |s.deps| && s.deps[i].env == s.calls[c].env ==> s.deps[i].status !in {QUEUED, RUNNING}
  {
    var t := Apply(s, Create(c));
    if HasActive(s.deps, s.calls[c].env) {
      var i :| 0 <= i < |s.deps| && s.deps[i].env == s.calls[c].env && Active(s.deps[i]);
      assert t.deps[i] == s.deps[i] && t.deps[|s.deps|].env == s.calls[c].env && Active(t.deps[|s.deps|]);
    }
  }

  /** Two triggers that both checked before either created leave two active deployments. */
  lemma {:induction false} OverlappingTriggers(env: string)
    ensures
      var steps := [CheckEnvironment(1, env), CheckEnvironment(2, env), Create(1), Create(2)];
      Final(Next, EMPTY, steps).Some? && !OneActive(Final(Next, EMPTY, steps).value)
      && Final(Next, EMPTY, steps).value.deps == [NewDep(env), NewDep(env)] && NewDep(env).status == QUEUED
  {
    var s1 := State([], map[1 := Cleared(env)], {}, map[]);
    var s2 := State([], map[1 := Cleared(env), 2 := Cleared(env)], {}, map[]);
    var s3 := State([NewDep(env)], s2.calls[1 := Created(0)], {}, map[]);
    var s4 := State([NewDep(env), NewDep(env)], s3.calls[2 := Created(1)], {}, map[]);
    assert s1.calls == EMPTY.calls[1 := Cleared(env)] && s2.calls == s1.calls[2 := Cleared(env)];
    assert s2.deps + [NewDep(env)] == s3.deps && s3.deps + [NewDep(env)] == s4.deps;
    Prepend(Next, s3, Create(2), []);
    Prepend(Next, s2, Create(1), [Create(2)]);
    Prepend(Next, s1, CheckEnvironment(2, env), [Create(1), Create(2)]);
    Prepend(Next, EMPTY, CheckEnvironment(1, env), [CheckEnvironment(2, env), Create(1), Create(2)]);
    assert [Create(2)] + [] == [Create(2)];
    assert s4.deps[0].env == s4.deps[1].env && Active(s4.deps[0]) && Active(s4.deps[1]);
  }
}
