/**
 Runs of a transition system: which steps a state allows, and what they do to it. What `apply`
 does where a step is not enabled does not matter.
 */
module Runs {

  datatype System<!S(!new), !A(!new)> = System(enabled: (S, A) -> bool, apply: (S, A) -> S)

  /** The steps can be taken one after the other. */
  predicate CanRun<S(!new), A(!new)>(sys: System<S, A>, s: S, steps: seq<A>)
    decreases |steps|
  {
    steps == [] || (sys.enabled(s, steps[0]) && CanRun(sys, sys.apply(s, steps[0]), steps[1..]))
  }

  function After<S(!new), A(!new)>(sys: System<S, A>, s: S, steps: seq<A>): S
    requires CanRun(sys, s, steps)
    decreases |steps|
  {
    if steps == [] then s else After(sys, sys.apply(s, steps[0]), steps[1..])
  }

  /** A step in front of a run. */
  lemma RunsTo<S(!new), A(!new)>(sys: System<S, A>, s: S, step: A, rest: seq<A>, t: S)
    requires sys.enabled(s, step) && CanRun(sys, sys.apply(s, step), rest)
    requires After(sys, sys.apply(s, step), rest) == t
    ensures CanRun(sys, s, [step] + rest) && After(sys, s, [step] + rest) == t
  {
    assert ([step] + rest)[1..] == rest;
  }

  /** The same, for a run that is there already. */
  lemma RunsOn<S(!new), A(!new)>(sys: System<S, A>, s: S, steps: seq<A>, t: S)
    requires steps != [] && sys.enabled(s, steps[0]) && CanRun(sys, sys.apply(s, steps[0]), steps[1..])
    requires After(sys, sys.apply(s, steps[0]), steps[1..]) == t
    ensures CanRun(sys, s, steps) && After(sys, s, steps) == t
  {}

  /** A run behind a run. */
  lemma {:induction false} RunsConcat<S(!new), A(!new)>(sys: System<S, A>, s: S, xs: seq<A>, ys: seq<A>)
    requires CanRun(sys, s, xs) && CanRun(sys, After(sys, s, xs), ys)
    ensures CanRun(sys, s, xs + ys) && After(sys, s, xs + ys) == After(sys, After(sys, s, xs), ys)
    decreases |xs|
  {
    if xs == [] {
      assert xs + ys == ys;
    } else {
      assert (xs + ys)[0] == xs[0] && (xs + ys)[1..] == xs[1..] + ys;
      RunsConcat(sys, sys.apply(s, xs[0]), xs[1..], ys);
    }
  }
}
