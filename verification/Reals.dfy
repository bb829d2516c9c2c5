/** Facts about real numbers that more than one proof needs. */
module Reals {

  function Abs(x: real): real { if x < 0.0 then -x else x }

  lemma NonNegative(x: real, y: real)
    requires x >= 0.0 && y >= 0.0
    ensures x * y >= 0.0
  {
  }

  /** Multiplying a quotient by its divisor gives back what was divided. */
  lemma Cancel(x: real, y: real)
    requires y != 0.0
    ensures y * (x / y) == x
  {
  }
}
