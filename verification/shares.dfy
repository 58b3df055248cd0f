/**
 Facts about dividing by a positive count, shared by the two type draws.
 Each is kept as a lemma so the division reasoning stays out of the larger
 proofs that use it.
 */
module Shares {
  /** Dividing by a positive number keeps the order. */
  lemma DivMonotone(a: real, b: real, c: real)
    requires a <= b && c > 0.0
    ensures a / c <= b / c
  {
  }

  /** Shares over the same positive total add up. */
  lemma AddDiv(a: real, b: real, c: real)
    requires c > 0.0
    ensures a / c + b / c == (a + b) / c
  {
  }

  /** The uniform bucket edge `(1 / n) * (i + 1)` is `(i + 1) / n`, and the
      last edge is 1. */
  lemma UniformEdge(n: nat, i: nat)
    requires 0 < n && i < n
    ensures (1.0 / n as real) * (i + 1) as real == (i + 1) as real / n as real
    ensures i + 1 == n ==> (i + 1) as real / n as real == 1.0
  {
  }
}
