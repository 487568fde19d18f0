/** A fact about sequences that the trace proofs use at every step. */
module Sequences {

  /**
   * Concatenation is associative. Calling this at a step keeps the solver
   * from re-deriving it element by element over long traces.
   */
  lemma AppendAssoc<T>(a: seq<T>, b: seq<T>, c: seq<T>)
    ensures a + (b + c) == (a + b) + c
  {
  }
}
