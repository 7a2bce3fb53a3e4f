/** Small facts about real multiplication that the formula proofs lean on. */
module RealArith {

  lemma MulNonNegative(a: real, b: real)
    requires a >= 0.0 && b >= 0.0
    ensures a * b >= 0.0
  {
  }

  /** A product with a non-zero factor is zero only if the other factor is. */
  lemma ZeroProduct(p: real, q: real)
    requires q != 0.0 && p * q == 0.0
    ensures p == 0.0
  {
  }
}
