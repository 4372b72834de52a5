/** Histories: states, what was done in each, and what came of it. */
module Chains {
  ghost predicate Chained<T, A>(step: (T, A, T) -> bool, trace: seq<T>, acts: seq<A>) {
    |trace| == |acts| + 1 && forall k | 0 <= k < |acts| :: step(trace[k], acts[k], trace[k + 1])
  }

  lemma ChainedMore<T, A>(step: (T, A, T) -> bool, trace: seq<T>, acts: seq<A>, a: A, next: T)
    requires Chained(step, trace, acts) && step(trace[|acts|], a, next)
    ensures Chained(step, trace + [next], acts + [a])
  {
    forall k | 0 <= k < |acts + [a]| ensures step((trace + [next])[k], (acts + [a])[k], (trace + [next])[k + 1]) {
      if k < |acts| {
        assert step(trace[k], acts[k], trace[k + 1]);
      }
    }
  }

  ghost predicate Reaches<T(!new), A(!new)>(step: (T, A, T) -> bool, start: T, end: T) {
    exists trace, acts :: Chained<T, A>(step, trace, acts) && trace[0] == start && trace[|acts|] == end
  }

  lemma ReachesOn<T(!new), A(!new)>(step: (T, A, T) -> bool, start: T, end: T, a: A, next: T)
    requires Reaches(step, start, end) && step(end, a, next)
    ensures Reaches(step, start, next)
  {
    var trace, acts :| Chained(step, trace, acts) && trace[0] == start && trace[|acts|] == end;
    ChainedMore(step, trace, acts, a, next);
    assert (trace + [next])[|acts + [a]|] == next;
  }
}
