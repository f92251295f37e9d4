/** Runs of a step machine: every interleaved model of this project is one of these. */
module Runs {
  import opened Wrappers

  /** The state after `steps`, or None when one of them is not possible. */
  ghost function Final<S, E>(next: (S, E) -> Option<S>, s: S, steps: seq<E>): Option<S>
    decreases |steps|
  {
    if steps == [] then Some(s)
    else
      match next(s, steps[0])
      case None => None
      case Some(s') => Final(next, s', steps[1..])
  }

  /** What every possible step keeps holds at the end of every run. */
  lemma {:induction false} Invariant<S(!new), E(!new)>(next: (S, E) -> Option<S>, inv: S -> bool, s: S, steps: seq<E>)
    requires inv(s)
    requires forall x, e :: inv(x) && next(x, e).Some? ==> inv(next(x, e).value)
    ensures Final(next, s, steps).Some? ==> inv(Final(next, s, steps).value)
    decreases |steps|
  {
    if steps != [] && next(s, steps[0]).Some? {
      Invariant(next, inv, next(s, steps[0]).value, steps[1..]);
    }
  }

  lemma {:induction false} Prepend<S, E>(next: (S, E) -> Option<S>, s: S, e: E, steps: seq<E>)
    requires next(s, e).Some?
    ensures Final(next, s, [e] + steps) == Final(next, next(s, e).value, steps)
  {
    assert ([e] + steps)[1..] == steps;
  }

  /** A possible step, and a run that goes on from where it leads. */
  lemma {:induction false} Then<S, E>(next: (S, E) -> Option<S>, s: S, e: E, t: S, rest: seq<E>, end: S)
    requires next(s, e) == Some(t) && Final(next, t, rest) == Some(end)
    ensures Final(next, s, [e] + rest) == Some(end)
  {
    Prepend(next, s, e, rest);
  }

  lemma {:induction false} One<S, E>(next: (S, E) -> Option<S>, s: S, e: E, end: S)
    requires next(s, e) == Some(end)
    ensures Final(next, s, [e]) == Some(end)
  {
    assert [e] + [] == [e];
    Then(next, s, e, end, [], end);
  }

  /** A run cut anywhere is a run followed by a run. */
  lemma {:induction false} Concatenate<S, E>(next: (S, E) -> Option<S>, s: S, first: seq<E>, second: seq<E>)
    ensures Final(next, s, first + second) ==
      match Final(next, s, first)
      case None => None
      case Some(m) => Final(next, m, second)
    decreases |first|
  {
    if first == [] {
      assert first + second == second;
    } else {
      assert (first + second)[1..] == first[1..] + second;
      if next(s, first[0]).Some? {
        Concatenate(next, next(s, first[0]).value, first[1..], second);
      }
    }
  }

  /** A machine with a stronger guard has fewer runs, and they end in the same states. */
  lemma {:induction false} GuardedRun<S(!new), E(!new)>(
    guarded: (S, E) -> Option<S>, next: (S, E) -> Option<S>, s: S, steps: seq<E>)
    requires forall x, e :: guarded(x, e).Some? ==> guarded(x, e) == next(x, e)
    ensures Final(guarded, s, steps).Some? ==> Final(guarded, s, steps) == Final(next, s, steps)
    decreases |steps|
  {
    if steps != [] && guarded(s, steps[0]).Some? {
      GuardedRun(guarded, next, guarded(s, steps[0]).value, steps[1..]);
    }
  }

  // ----- Actions cut at the first that throws ---------------------------------

  /** The state when the actions end or one of them throws; what was done before it stays. */
  function Perform<S, A, E>(act: (S, A) -> Result<S, E>, s: S, actions: seq<A>): (S, Option<E>) {
    if actions == [] then (s, None)
    else
      match act(s, actions[0])
      case Err(e) => (s, Some(e))
      case Ok(s') => Perform(act, s', actions[1..])
  }

  lemma {:induction false} PerformConcat<S, A, E>(
    act: (S, A) -> Result<S, E>, s: S, first: seq<A>, second: seq<A>)
    ensures Perform(act, s, first + second) ==
      var r := Perform(act, s, first);
      if r.1.Some? then r else Perform(act, r.0, second)
    decreases |first|
  {
    if first == [] {
      assert first + second == second;
    } else {
      assert (first + second)[1..] == first[1..] + second;
      if act(s, first[0]).Ok? {
        PerformConcat(act, act(s, first[0]).value, first[1..], second);
      }
    }
  }

  lemma {:induction false} PerformOne<S, A, E>(act: (S, A) -> Result<S, E>, s: S, a: A)
    ensures Perform(act, s, [a]) ==
      match act(s, a)
      case Err(e) => (s, Some(e))
      case Ok(s') => (s', None)
  {
    assert [a][1..] == [];
  }
}
