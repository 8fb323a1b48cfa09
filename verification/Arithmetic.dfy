/** Products and absolute values under names of their own, so that proofs about larger expressions can treat
    them as units. */
module Arithmetic {
  function Prod(a: real, b: real): real { a * b }

  function Abs(x: real): real { if x < 0.0 then -x else x }

  function Power(x: real, n: nat): real {
    if n == 0 then 1.0 else x * Power(x, n - 1)
  }

  lemma PowerZero(x: real)
    ensures Power(x, 0) == 1.0
  {
  }

  lemma PowerStep(x: real, n: nat, e: real)
    ensures x * (Power(x, n) * e) == Power(x, n + 1) * e
  {
  }
}
