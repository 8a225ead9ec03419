/**
 * Small value types shared by the network and the two optimizers:
 * an Option for decode failures, the extended reals used for a
 * particle's best error (Java starts it at Double.POSITIVE_INFINITY),
 * and Java's truncating double-to-int cast.
 */
module Basics {

  datatype Option<+T> = None | Some(value: T)

  /** A real number or +infinity; only the order matters to the model. */
  datatype ExtReal = PosInf | Finite(value: real)

  /** Strict order on extended reals: +infinity is above every real and not below itself. */
  predicate Less(a: ExtReal, b: ExtReal)
  {
    match (a, b)
    case (Finite(x), Finite(y)) => x < y
    case (Finite(_), PosInf) => true
    case (PosInf, _) => false
  }

  predicate LessEq(a: ExtReal, b: ExtReal)
  {
    Less(a, b) || a == b
  }

  /** `a` is a finite value strictly below the real `bound`. */
  predicate Below(a: ExtReal, bound: real)
  {
    Less(a, Finite(bound))
  }

  predicate NonNegative(a: ExtReal)
  {
    a.PosInf? || a.value >= 0.0
  }

  lemma LessEqTransitive(a: ExtReal, b: ExtReal, c: ExtReal)
    requires LessEq(a, b) && LessEq(b, c)
    ensures LessEq(a, c)
  {
  }

  lemma LessEqTotal(a: ExtReal, b: ExtReal)
    ensures LessEq(a, b) || Less(b, a)
  {
  }

  /** Java's `(int) x` on a double: rounds toward zero. */
  function TruncateToInt(x: real): (r: int)
    ensures 0.0 <= x ==> 0 <= r && r as real <= x < r as real + 1.0
    ensures x < 0.0 ==> r <= 0 && r as real - 1.0 < x <= r as real
  {
    if x >= 0.0 then x.Floor else -((-x).Floor)
  }

  /** A fresh Java `double[n]`: every entry 0.0. */
  function Zeros(n: nat): (z: seq<real>)
    ensures |z| == n && forall i :: 0 <= i < n ==> z[i] == 0.0
  {
    seq(n, _ => 0.0)
  }
}
