/** Runs of a machine that is given by the function from a state and a step to the state after it. */
module Machines {
  import opened Options

  /** The state after all steps, None when one of them was not possible. */
  function Run<S, T>(next: (S, T) -> Option<S>, s: S, steps: seq<T>): Option<S>
    decreases |steps|
  {
    if steps == [] then Some(s)
    else
      var t := next(s, steps[0]);
      if t.None? then None else Run(next, t.value, steps[1..])
  }

  /** A run that goes one step further. */
  lemma {:induction false} Extend<S, T>(next: (S, T) -> Option<S>, s: S, steps: seq<T>, step: T)
    requires Run(next, s, steps).Some?
    ensures Run(next, s, steps + [step]) == next(Run(next, s, steps).value, step)
    decreases |steps|
  {
    if steps == [] {
      assert steps + [step] == [step] && [step][1..] == [];
    } else {
      assert (steps + [step])[1..] == steps[1..] + [step];
      Extend(next, next(s, steps[0]).value, steps[1..], step);
    }
  }

  /** The same with the state it reaches. */
  lemma Go<S, T>(next: (S, T) -> Option<S>, init: S, steps: seq<T>, s: S, step: T) returns (longer: seq<T>, s': S)
    requires Run(next, init, steps) == Some(s) && next(s, step).Some?
    ensures Some(s') == next(s, step) && Run(next, init, longer) == Some(s') && longer == steps + [step]
  {
    Extend(next, init, steps, step);
    longer, s' := steps + [step], next(s, step).value;
  }

  lemma First<S, T>(next: (S, T) -> Option<S>, s: S, step: T, rest: seq<T>)
    requires next(s, step).Some?
    ensures Run(next, s, [step] + rest) == Run(next, next(s, step).value, rest)
  {
    assert ([step] + rest)[1..] == rest;
  }

  /** How many steps of a run are of some kind. */
  function Count<S, T>(next: (S, T) -> Option<S>, kind: (S, T) -> bool, s: S, steps: seq<T>): nat
    requires Run(next, s, steps).Some?
    decreases |steps|
  {
    if steps == [] then 0
    else (if kind(s, steps[0]) then 1 else 0) + Count(next, kind, next(s, steps[0]).value, steps[1..])
  }

  lemma {:induction false} CountOneMore<S, T>(
    next: (S, T) -> Option<S>, kind: (S, T) -> bool, s: S, steps: seq<T>, step: T)
    requires Run(next, s, steps).Some? && next(Run(next, s, steps).value, step).Some?
    ensures Run(next, s, steps + [step]).Some?
    ensures Count(next, kind, s, steps + [step]) ==
            Count(next, kind, s, steps) + if kind(Run(next, s, steps).value, step) then 1 else 0
    decreases |steps|
  {
    Extend(next, s, steps, step);
    if steps == [] {
      assert steps + [step] == [step] && [step][1..] == [];
    } else {
      assert (steps + [step])[1..] == steps[1..] + [step];
      CountOneMore(next, kind, next(s, steps[0]).value, steps[1..], step);
    }
  }
}
