// Runs of a state machine whose step is a partial function: `next` is None for
// a step that can't be taken.
module Runs {
  import opened Wrappers

  ghost predicate IsRun<S(!new), E(!new)>(next: (S, E) -> Option<S>, s: S, steps: seq<E>, s': S)
    decreases |steps|
  {
    if steps == [] then s' == s
    else next(s, steps[0]).Some? && IsRun(next, next(s, steps[0]).value, steps[1..], s')
  }

  ghost predicate Reachable<S(!new), E(!new)>(next: (S, E) -> Option<S>, init: S, s: S) {
    exists steps :: IsRun(next, init, steps, s)
  }

  /** What every step keeps, every run keeps. */
  lemma {:induction false} RunKeeps<S(!new), E(!new)>(next: (S, E) -> Option<S>, inv: S -> bool, s: S, steps: seq<E>, s': S)
    requires forall a, e | inv(a) && next(a, e).Some? :: inv(next(a, e).value)
    requires inv(s) && IsRun(next, s, steps, s')
    ensures inv(s')
    decreases |steps|
  {
    if steps != [] {
      RunKeeps(next, inv, next(s, steps[0]).value, steps[1..], s');
    }
  }

  lemma {:induction false} RunExtends<S(!new), E(!new)>(next: (S, E) -> Option<S>, s: S, steps: seq<E>, s': S, step: E)
    requires IsRun(next, s, steps, s') && next(s', step).Some?
    ensures IsRun(next, s, steps + [step], next(s', step).value)
    decreases |steps|
  {
    if steps != [] {
      RunExtends(next, next(s, steps[0]).value, steps[1..], s', step);
      assert (steps + [step])[1..] == steps[1..] + [step];
    } else {
      assert IsRun(next, next(s, step).value, [], next(s', step).value);
      assert (steps + [step])[1..] == [];
    }
  }

  /** A run's last step starts where the rest of it ends. */
  lemma {:induction false} RunSplits<S(!new), E(!new)>(next: (S, E) -> Option<S>, s: S, steps: seq<E>, s': S) returns (mid: S)
    requires steps != [] && IsRun(next, s, steps, s')
    ensures IsRun(next, s, steps[..|steps| - 1], mid) && next(mid, steps[|steps| - 1]) == Some(s')
    decreases |steps|
  {
    if |steps| == 1 {
      mid := s;
    } else {
      mid := RunSplits(next, next(s, steps[0]).value, steps[1..], s');
      assert steps[..|steps| - 1][1..] == steps[1..][..|steps| - 2];
    }
  }

  lemma {:induction false} RunJoins<S(!new), E(!new)>(next: (S, E) -> Option<S>, s: S, steps: seq<E>, mid: S, more: seq<E>, s': S)
    requires IsRun(next, s, steps, mid) && IsRun(next, mid, more, s')
    ensures IsRun(next, s, steps + more, s')
    decreases |steps|
  {
    if steps == [] {
      assert steps + more == more;
    } else {
      RunJoins(next, next(s, steps[0]).value, steps[1..], mid, more, s');
      assert (steps + more)[1..] == steps[1..] + more;
    }
  }

  /** The run and one step more. */
  lemma OneMore<S(!new), E(!new)>(next: (S, E) -> Option<S>, s: S, steps: seq<E>, s': S, step: E) returns (steps': seq<E>, s'': S)
    requires IsRun(next, s, steps, s') && next(s', step).Some?
    ensures steps' == steps + [step] && next(s', step) == Some(s'') && IsRun(next, s, steps', s'')
  {
    RunExtends(next, s, steps, s', step);
    steps', s'' := steps + [step], next(s', step).value;
  }

  /** A step from a reachable state leads to one. */
  lemma Reaches<S(!new), E(!new)>(next: (S, E) -> Option<S>, init: S, s: S, step: E) returns (s': S)
    requires Reachable(next, init, s) && next(s, step).Some?
    ensures s' == next(s, step).value && Reachable(next, init, s')
  {
    var steps :| IsRun(next, init, steps, s);
    RunExtends(next, init, steps, s, step);
    s' := next(s, step).value;
  }

  lemma StartIsReachable<S(!new), E(!new)>(next: (S, E) -> Option<S>, init: S)
    ensures Reachable(next, init, init)
  {
    assert IsRun(next, init, [], init);
  }
}
