/** Runs of any step relation, as a sequence of states and the sequence of actions between them. */
module Traces {

  ghost predicate Steps<S(!new), A(!new)>(states: seq<S>, acts: seq<A>, step: (S, A, S) -> bool) {
    && |states| == |acts| + 1
    && forall k {:trigger acts[k]} :: 0 <= k < |acts| ==> step(states[k], acts[k], states[k + 1])
  }

  /** One more step makes a longer run. */
  lemma OneMore<S(!new), A(!new)>(states: seq<S>, acts: seq<A>, act: A, next: S, step: (S, A, S) -> bool)
    requires Steps(states, acts, step) && step(states[|acts|], act, next)
    ensures Steps(states + [next], acts + [act], step)
  {
    var more, done := states + [next], acts + [act];
    forall k | 0 <= k < |done| ensures step(more[k], done[k], more[k + 1]) {
      if k < |acts| { assert more[k] == states[k] && more[k + 1] == states[k + 1] && done[k] == acts[k]; }
    }
  }
}
