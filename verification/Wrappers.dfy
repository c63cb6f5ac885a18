/** The optional value used for nullable columns and undefined fields, and a fact
    about products that several modules compare fractions with. */
module Wrappers {
  datatype Option<+T> = None | Some(value: T)

  lemma MulMono(x: int, y: int, k: nat)
    requires x <= y
    ensures x * k <= y * k && k * x <= k * y
  {}
}
