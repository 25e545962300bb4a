/** Runs of a step machine: states and the actions between them. */
module Traces {
  /** Every action leads from its state to the next one. */
  ghost predicate Chain<S(!new), A(!new)>(step: (S, A, S) -> bool, states: seq<S>, acts: seq<A>) {
    && |states| == |acts| + 1
    && forall i {:trigger step(states[i], acts[i], states[i + 1])} | 0 <= i < |acts| :: step(states[i], acts[i], states[i + 1])
  }

  lemma At<S(!new), A(!new)>(step: (S, A, S) -> bool, states: seq<S>, acts: seq<A>, i: nat)
    requires Chain(step, states, acts) && i < |acts|
    ensures step(states[i], acts[i], states[i + 1])
  {
  }

  function Last<S>(states: seq<S>): S
    requires |states| > 0
  {
    states[|states| - 1]
  }

  lemma Extend<S(!new), A(!new)>(step: (S, A, S) -> bool, states: seq<S>, acts: seq<A>, a: A, t: S)
    returns (ss: seq<S>, bs: seq<A>)
    requires Chain(step, states, acts) && step(Last(states), a, t)
    ensures Chain(step, ss, bs) && ss == states + [t] && bs == acts + [a]
    ensures ss[0] == states[0] && ss[|acts|] == Last(states) && Last(ss) == t && ss[|bs|] == t
  {
    ss, bs := states + [t], acts + [a];
    forall i | 0 <= i < |bs| ensures step(ss[i], bs[i], ss[i + 1]) {
      if i < |acts| {
        assert ss[i] == states[i] && ss[i + 1] == states[i + 1] && bs[i] == acts[i];
      }
    }
  }
}
