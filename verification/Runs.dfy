/** Runs of a step relation given by a partial function: one step for each action, in order. */
module Runs {
  import opened Wrappers
  import opened Sequences

  /** The state after a run; `None` when some step was not enabled. */
  function Exec<S, A>(next: (S, A) -> Option<S>, start: S, acts: seq<A>): Option<S> {
    if acts == [] then Some(start)
    else match Exec(next, start, acts[..|acts| - 1])
      case None => None
      case Some(before) => next(before, acts[|acts| - 1])
  }

  /** A run extended by one step. */
  lemma Then<S, A>(next: (S, A) -> Option<S>, start: S, acts: seq<A>, a: A) returns (more: seq<A>)
    requires Exec(next, start, acts).Some?
    ensures more == acts + [a] && Exec(next, start, more) == next(Exec(next, start, acts).value, a)
  {
    more := acts + [a];
    assert more[..|more| - 1] == acts;
  }

  /** The beginning of a run is a run. */
  lemma {:induction false} Beginning<S, A>(next: (S, A) -> Option<S>, start: S, acts: seq<A>, more: seq<A>)
    requires Exec(next, start, acts + more).Some?
    ensures Exec(next, start, acts).Some?
    decreases |more|
  {
    if more == [] {
      assert acts + more == acts;
    } else {
      FrontOfConcat(acts, more);
      Beginning(next, start, acts, more[..|more| - 1]);
    }
  }
}
