/** The deployment calls themselves, undisturbed: each is a run of the interleaved machine
    (apps/api/src/modules/deployments/deployment.service.ts, apps/worker/src/queues/deployments.queue.ts,
    apps/worker/src/executors/simulation.executor.ts). */
module DeploymentServices {
  import opened Wrappers
  import opened Runs
  import opened Deployments

  datatype TriggerError = EnvironmentNotFound | ActiveDeploymentExists | EnqueueError

  /** How adding the job ends; a failed call may still have added it. */
  datatype EnqueueOutcome = Added | Refused | AddedButFailed

  // ----- What the calls do ----------------------------------------------------
  // Other calls and workers may be anywhere in between: they are in the state, and stay as they are.

  function TriggerSteps(s: State, c: CallId, env: string, outcome: EnqueueOutcome): seq<Step> {
    [CheckEnvironment(c, env)]
    + if HasActive(s.deps, env) then []
      else [Create(c)] + [if outcome == Added then Enqueue(c) else EnqueueFails(c, outcome == AddedButFailed)]
  }

  function Triggered(s: State, env: string, outcome: EnqueueOutcome): State {
    if HasActive(s.deps, env) then s
    else
      var d := if outcome == Added then Logged(NewDep(env), Enqueued)
               else Logged(NewDep(env), EnqueueFailed).(status := FAILED);
      s.(deps := s.deps + [d], jobs := if outcome == Refused then s.jobs else s.jobs + {|s.deps|})
  }

  /** Some of the simulation's steps. */
  function Simulations(done: nat): seq<Event> {
    if done == 0 then [] else Simulations(done - 1) + [Simulated(done - 1)]
  }

  function AfterSimulation(d: Dep, done: nat): Dep
    requires done <= 7
  {
    d.(log := d.log + Simulations(done), progress := d.progress + PROGRESS[..done])
  }

  function Over(d: Dep, ok: bool): Dep {
    if ok then Logged(d.(status := SUCCEEDED), Succeeded) else Logged(d.(status := FAILED), Failed)
  }

  /** A delivered job: skipped, or claimed and run up to the progress report that fails, if one does. */
  function Processed(d: Dep, done: nat): Dep
    requires done <= 7
  {
    if d.status != QUEUED then Logged(d, Skipped)
    else Over(AfterSimulation(Logged(d.(status := RUNNING, claims := d.claims + 1), Started), done), done == 7)
  }

  function Phases(w: WorkerId, n: nat): seq<Step> {
    if n == 0 then [] else Phases(w, n - 1) + [Phase(w)]
  }

  function EndSteps(w: WorkerId, done: nat): seq<Step> {
    (if done < 7 then [PhaseFails(w)] else []) + [Complete(w), Announce(w)]
  }

  function ProcessSteps(s: State, w: WorkerId, dep: DepId, done: nat): seq<Step>
    requires dep < |s.deps|
  {
    [Deliver(w, dep), Read(w)]
    + if s.deps[dep].status != QUEUED then []
      else [Claim(w), Start(w)] + (Phases(w, done) + EndSteps(w, done))
  }

  lemma {:induction false} TriggerRun(s: State, c: CallId, env: string, outcome: EnqueueOutcome)
    requires c !in s.calls
    ensures Final(Next, s, TriggerSteps(s, c, env, outcome)) == Some(Triggered(s, env, outcome))
  {
    if HasActive(s.deps, env) {
      assert [CheckEnvironment(c, env)] + [] == [CheckEnvironment(c, env)];
      One(Next, s, CheckEnvironment(c, env), s);
    } else {
      var t := s.(calls := s.calls[c := Cleared(env)]);
      var u := s.(deps := s.deps + [NewDep(env)], calls := t.calls[c := Created(|s.deps|)]);
      var end := Triggered(s, env, outcome);
      var last := if outcome == Added then Enqueue(c) else EnqueueFails(c, outcome == AddedButFailed);
      assert u.calls - {c} == s.calls && u.deps[|s.deps| := end.deps[|s.deps|]] == end.deps;
      One(Next, u, last, end);
      Then(Next, t, Create(c), u, [last], end);
      Then(Next, s, CheckEnvironment(c, env), t, [Create(c)] + [last], end);
    }
  }

  /** The worker is at `at`, and the others are these. */
  ghost predicate Stands(s: State, w: WorkerId, at: Worker, others: map<WorkerId, Worker>) {
    w !in others && s.workers == others[w := at]
  }

  /** The deployment and the worker's place, rewritten. */
  function Moved(s: State, dep: DepId, d: Dep, workers: map<WorkerId, Worker>): State
    requires dep < |s.deps|
  {
    s.(deps := s.deps[dep := d], workers := workers)
  }

  lemma MovedTwice(s: State, dep: DepId, d: Dep, e: Dep, v: map<WorkerId, Worker>, w: map<WorkerId, Worker>)
    requires dep < |s.deps|
    ensures Moved(Moved(s, dep, d, v), dep, e, w) == Moved(s, dep, e, w)
    ensures Moved(s, dep, s.deps[dep], w) == s.(workers := w)
  {
    assert s.deps[dep := d][dep := e] == s.deps[dep := e];
    assert s.deps[dep := s.deps[dep]] == s.deps;
  }

  lemma Places(others: map<WorkerId, Worker>, w: WorkerId, a: Worker, b: Worker)
    requires w !in others
    ensures others[w := a][w := b] == others[w := b] && others[w := a] - {w} == others
  {
  }

  /** A worker that has simulated nothing yet does this many steps. */
  lemma {:induction false} PhasesRun(s: State, w: WorkerId, dep: DepId, done: nat, others: map<WorkerId, Worker>)
    requires Stands(s, w, Simulating(dep, 0), others) && dep < |s.deps| && done <= 7
    ensures Final(Next, s, Phases(w, done)) ==
      Some(Moved(s, dep, AfterSimulation(s.deps[dep], done), others[w := Simulating(dep, done)]))
  {
    var d := s.deps[dep];
    if done == 0 {
      SimulatedNothing(d);
      MovedTwice(s, dep, d, d, s.workers, s.workers);
    } else {
      var m := Moved(s, dep, AfterSimulation(d, done - 1), others[w := Simulating(dep, done - 1)]);
      var end := Moved(s, dep, AfterSimulation(d, done), others[w := Simulating(dep, done)]);
      PhasesRun(s, w, dep, done - 1, others);
      SimulatedOneMore(d, done);
      Places(others, w, Simulating(dep, done - 1), Simulating(dep, done));
      MovedTwice(s, dep, m.deps[dep], end.deps[dep], m.workers, end.workers);
      One(Next, m, Phase(w), end);
      Concatenate(Next, s, Phases(w, done - 1), [Phase(w)]);
    }
  }

  lemma SimulatedNothing(d: Dep)
    ensures AfterSimulation(d, 0) == d
  {
    assert d.log + [] == d.log && PROGRESS[..0] == [] && d.progress + [] == d.progress;
  }

  lemma SimulatedOneMore(d: Dep, done: nat)
    requires 0 < done <= 7
    ensures AfterPhase(AfterSimulation(d, done - 1), done - 1) == AfterSimulation(d, done)
  {
    assert d.log + Simulations(done) == (d.log + Simulations(done - 1)) + [Simulated(done - 1)];
    assert PROGRESS[..done] == PROGRESS[..done - 1] + [PROGRESS[done - 1]];
    assert d.progress + PROGRESS[..done] == (d.progress + PROGRESS[..done - 1]) + [PROGRESS[done - 1]];
  }

  /** The last status and the last event. */
  lemma {:induction false} LastSteps(
    s: State, w: WorkerId, dep: DepId, done: nat, ok: bool, others: map<WorkerId, Worker>)
    requires Stands(s, w, if ok then Simulating(dep, done) else Failing(dep, done), others)
    requires dep < |s.deps| && (ok ==> done == 7)
    ensures Final(Next, s, [Complete(w), Announce(w)]) == Some(Moved(s, dep, Over(s.deps[dep], ok), others))
  {
    var written := s.deps[dep].(status := if ok then SUCCEEDED else FAILED);
    var u := Moved(s, dep, written, others[w := Announcing(dep, done, ok)]);
    var end := Moved(s, dep, Over(s.deps[dep], ok), others);
    Places(others, w, s.workers[w], Announcing(dep, done, ok));
    Places(others, w, Announcing(dep, done, ok), s.workers[w]);
    MovedTwice(s, dep, written, end.deps[dep], u.workers, others);
    One(Next, u, Announce(w), end);
    Then(Next, s, Complete(w), u, [Announce(w)], end);
    assert [Complete(w)] + [Announce(w)] == [Complete(w), Announce(w)];
  }

  /** The end of a run: the failure that is caught, the last status and the last event. */
  lemma {:induction false} EndRun(s: State, w: WorkerId, dep: DepId, done: nat, others: map<WorkerId, Worker>)
    requires Stands(s, w, Simulating(dep, done), others) && dep < |s.deps| && done <= 7
    ensures Final(Next, s, EndSteps(w, done)) == Some(Moved(s, dep, Over(s.deps[dep], done == 7), others))
  {
    var last := [Complete(w), Announce(w)];
    if done == 7 {
      LastSteps(s, w, dep, done, true, others);
      assert [] + last == last;
    } else {
      var t := s.(workers := others[w := Failing(dep, done)]);
      Places(others, w, Simulating(dep, done), Failing(dep, done));
      LastSteps(t, w, dep, done, false, others);
      Then(Next, s, PhaseFails(w), t, last, Moved(t, dep, Over(t.deps[dep], false), others));
    }
  }

  lemma {:induction false} ClaimRun(s: State, w: WorkerId, dep: DepId, others: map<WorkerId, Worker>)
    requires Stands(s, w, Claiming(dep), others) && dep < |s.deps| && s.deps[dep].status == QUEUED
    ensures
      var d := Logged(s.deps[dep].(status := RUNNING, claims := s.deps[dep].claims + 1), Started);
      Final(Next, s, [Claim(w), Start(w)]) == Some(Moved(s, dep, d, others[w := Simulating(dep, 0)]))
  {
    var d := s.deps[dep].(status := RUNNING, claims := s.deps[dep].claims + 1);
    var t := Moved(s, dep, d, others[w := Claimed(dep)]);
    var end := Moved(s, dep, Logged(d, Started), others[w := Simulating(dep, 0)]);
    Places(others, w, Claiming(dep), Claimed(dep));
    Places(others, w, Claimed(dep), Simulating(dep, 0));
    MovedTwice(s, dep, d, Logged(d, Started), t.workers, end.workers);
    One(Next, t, Start(w), end);
    Then(Next, s, Claim(w), t, [Start(w)], end);
  }

  lemma {:induction false} ReadRun(s: State, w: WorkerId, dep: DepId)
    requires w !in s.workers && dep < |s.deps| && dep in s.jobs
    ensures Final(Next, s, [Deliver(w, dep), Read(w)]) ==
      Some(if s.deps[dep].status == QUEUED then s.(workers := s.workers[w := Claiming(dep)])
           else Moved(s, dep, Logged(s.deps[dep], Skipped), s.workers))
  {
    var t := s.(workers := s.workers[w := Received(dep)]);
    var end := if s.deps[dep].status == QUEUED then s.(workers := s.workers[w := Claiming(dep)])
               else Moved(s, dep, Logged(s.deps[dep], Skipped), s.workers);
    Places(s.workers, w, Received(dep), Claiming(dep));
    One(Next, t, Read(w), end);
    Then(Next, s, Deliver(w, dep), t, [Read(w)], end);
  }

  lemma {:induction false} SimulateRun(s: State, w: WorkerId, dep: DepId, done: nat, others: map<WorkerId, Worker>)
    requires Stands(s, w, Simulating(dep, 0), others) && dep < |s.deps| && done <= 7
    ensures Final(Next, s, Phases(w, done) + EndSteps(w, done)) ==
      Some(Moved(s, dep, Over(AfterSimulation(s.deps[dep], done), done == 7), others))
  {
    var t := Moved(s, dep, AfterSimulation(s.deps[dep], done), others[w := Simulating(dep, done)]);
    PhasesRun(s, w, dep, done, others);
    EndRun(t, w, dep, done, others);
    Concatenate(Next, s, Phases(w, done), EndSteps(w, done));
    MovedTwice(s, dep, t.deps[dep], Over(t.deps[dep], done == 7), t.workers, others);
  }

  lemma {:induction false} ClaimedRun(s: State, w: WorkerId, dep: DepId, done: nat, others: map<WorkerId, Worker>)
    requires Stands(s, w, Claiming(dep), others) && dep < |s.deps| && s.deps[dep].status == QUEUED && done <= 7
    ensures Final(Next, s, [Claim(w), Start(w)] + (Phases(w, done) + EndSteps(w, done))) ==
      Some(Moved(s, dep, Processed(s.deps[dep], done), others))
  {
    var d := Logged(s.deps[dep].(status := RUNNING, claims := s.deps[dep].claims + 1), Started);
    var t := Moved(s, dep, d, others[w := Simulating(dep, 0)]);
    ClaimRun(s, w, dep, others);
    SimulateRun(t, w, dep, done, others);
    Concatenate(Next, s, [Claim(w), Start(w)], Phases(w, done) + EndSteps(w, done));
    MovedTwice(s, dep, d, Processed(s.deps[dep], done), t.workers, others);
  }

  /** A delivery that nobody disturbs, whoever else is under way: the deployment is processed, and nothing else is
      touched. */
  lemma {:induction false} ProcessRun(s: State, w: WorkerId, dep: DepId, done: nat)
    requires w !in s.workers && dep < |s.deps| && dep in s.jobs && done <= 7
    ensures Final(Next, s, ProcessSteps(s, w, dep, done)) ==
      Some(s.(deps := s.deps[dep := Processed(s.deps[dep], done)]))
  {
    ReadRun(s, w, dep);
    var read := [Deliver(w, dep), Read(w)];
    if s.deps[dep].status != QUEUED {
      assert read + [] == read;
    } else {
      var rest := [Claim(w), Start(w)] + (Phases(w, done) + EndSteps(w, done));
      ClaimedRun(s.(workers := s.workers[w := Claiming(dep)]), w, dep, done, s.workers);
      Concatenate(Next, s, read, rest);
    }
  }

  // ----- The service ----------------------------------------------------------

  /** The deployments and their queue. The ghost fields are the calls and workers of other processes. */
  class DeploymentService {
    var deps: seq<Dep>
    var jobs: set<DepId>
    ghost var calls: map<CallId, Call>
    ghost var workers: map<WorkerId, Worker>

    constructor ()
      ensures View() == EMPTY
    {
      deps := [];
      jobs := {};
      calls := map[];
      workers := map[];
    }

    ghost function View(): State
      reads this
    {
      State(deps, calls, jobs, workers)
    }

    method TriggerDeployment(ghost call: CallId, env: string, found: bool, outcome: EnqueueOutcome)
      returns (r: Result<DepId, TriggerError>)
      requires call !in calls
      modifies this`deps, this`jobs
      ensures !found ==> r == Err(EnvironmentNotFound) && View() == old(View())
      ensures found && HasActive(old(deps), env) ==> r == Err(ActiveDeploymentExists)
      ensures found && !HasActive(old(deps), env) ==>
        r == if outcome == Added then Ok(|old(deps)|) else Err(EnqueueError)
      ensures r == Err(ActiveDeploymentExists) <==>
        found && exists i :: 0 <= i < |old(deps)| && old(deps)[i].env == env && old(deps)[i].status in {QUEUED, RUNNING}
      ensures r in {Err(EnvironmentNotFound), Err(ActiveDeploymentExists)} ==> View() == old(View())
      ensures r !in {Err(EnvironmentNotFound), Err(ActiveDeploymentExists)} ==>
        && |deps| == |old(deps)| + 1 && deps[..|old(deps)|] == old(deps) && deps[|old(deps)|].env == env
        && deps[|old(deps)|].status == (if outcome == Added then QUEUED else FAILED)
        && deps[|old(deps)|].log == [Queued, if outcome == Added then Enqueued else EnqueueFailed]
        && jobs == old(jobs) + (if outcome == Refused then {} else {|old(deps)|})
      ensures found ==> Final(Next, old(View()), TriggerSteps(old(View()), call, env, outcome)) == Some(View())
    {
      ghost var s := View();
      TriggerRun(s, call, env, outcome);
      if !found {
        return Err(EnvironmentNotFound);
      }
      if HasActive(deps, env) {
        return Err(ActiveDeploymentExists);
      }
      var dep := |deps|;
      deps := deps + [NewDep(env)];
      if outcome != Refused {
        jobs := jobs + {dep};
      }
      if outcome == Added {
        deps := deps[dep := Logged(deps[dep], Enqueued)];
        assert deps == Triggered(s, env, outcome).deps;
        return Ok(dep);
      }
      deps := deps[dep := Logged(deps[dep], EnqueueFailed).(status := FAILED)];
      assert deps == Triggered(s, env, outcome).deps;
      r := Err(EnqueueError);
    }

    /** The job's progress report number `at`, which throws when it is the one that fails. */
    method UpdateProgress(dep: DepId, at: nat, failAt: nat) returns (threw: bool)
      requires dep < |deps| && at < 7
      modifies this`deps
      ensures threw == (at == failAt)
      ensures deps == if threw then old(deps)
                      else old(deps)[dep := old(deps)[dep].(progress := old(deps)[dep].progress + [PROGRESS[at]])]
    {
      threw := at == failAt;
      if !threw {
        deps := deps[dep := deps[dep].(progress := deps[dep].progress + [PROGRESS[at]])];
      }
    }

    method CreateEvent(dep: DepId, e: Event)
      requires dep < |deps|
      modifies this`deps
      ensures deps == old(deps)[dep := Logged(old(deps)[dep], e)]
    {
      deps := deps[dep := Logged(deps[dep], e)];
    }

    /** The simulation: a start, five phases and a completion, each reported and then logged. */
    method RunSimulationDeployment(dep: DepId, failAt: nat) returns (threw: bool)
      requires dep < |deps| && failAt <= 7
      modifies this`deps
      ensures threw == (failAt < 7)
      ensures deps == old(deps)[dep := AfterSimulation(old(deps)[dep], failAt)]
    {
      ghost var d := deps[dep];
      SimulatedNothing(d);
      threw := UpdateProgress(dep, 0, failAt);
      if threw {
        return;
      }
      CreateEvent(dep, Simulated(0));
      SimulatedOneMore(d, 1);
      for phase := 1 to 6
        invariant phase <= failAt && |deps| == |old(deps)|
        invariant deps == old(deps)[dep := AfterSimulation(d, phase)]
      {
        threw := UpdateProgress(dep, phase, failAt);
        if threw {
          return;
        }
        CreateEvent(dep, Simulated(phase));
        SimulatedOneMore(d, phase + 1);
      }
      threw := UpdateProgress(dep, 6, failAt);
      if threw {
        return;
      }
      CreateEvent(dep, Simulated(6));
      SimulatedOneMore(d, 7);
    }

    /** One delivery of a job; the progress report `failAt` throws, and none when that is 7. */
    method ProcessDeployment(ghost worker: WorkerId, dep: DepId, failAt: nat) returns (threw: bool)
      requires worker !in workers && dep < |deps| && dep in jobs && failAt <= 7
      modifies this`deps
      ensures threw == (old(deps)[dep].status == QUEUED && failAt < 7)
      ensures deps == old(deps)[dep := Processed(old(deps)[dep], failAt)]
      ensures Final(Next, old(View()), ProcessSteps(old(View()), worker, dep, failAt)) == Some(View())
    {
      ProcessRun(View(), worker, dep, failAt);
      if deps[dep].status != QUEUED {
        CreateEvent(dep, Skipped);
        return false;
      }
      var d := deps[dep];
      deps := deps[dep := d.(status := RUNNING, claims := d.claims + 1)];
      CreateEvent(dep, Started);
      threw := RunSimulationDeployment(dep, failAt);
      d := deps[dep];
      if !threw {
        deps := deps[dep := d.(status := SUCCEEDED)];
        CreateEvent(dep, Succeeded);
      } else {
        deps := deps[dep := d.(status := FAILED)];
        CreateEvent(dep, Failed);
      }
    }
  }
}
