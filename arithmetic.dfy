/** Facts about natural-number arithmetic that the timing and conversion proofs share. */
module Arithmetic {

  /** Multiplying by the same factor keeps the order. */
  lemma MulMonotone(p: nat, a: nat, b: nat)
    requires a <= b
    ensures p * a <= p * b
  {
  }
}
