/** Facts about sequences shared by the proofs about traces. */
module Sequences {

  /** Concatenation is associative; stating it once keeps proofs about growing traces short. */
  lemma AppendAssociates<T>(a: seq<T>, b: seq<T>, c: seq<T>)
    ensures (a + b) + c == a + (b + c)
  {
  }
}
