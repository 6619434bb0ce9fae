/** The optional value used throughout the model, and a fact about draining a set. */
module Wrappers {
  datatype Option<+T> = None | Some(value: T)

  /** Taking `x` out of the part still to visit adds it to the part visited. */
  lemma Drain<T>(all: set<T>, todo: set<T>, x: T)
    requires x in todo && todo <= all
    ensures all - (todo - {x}) == (all - todo) + {x}
  {
  }
}
