/** Exact-real helpers. */
module Reals {
  /** The product, as a function so that equal factors give equal products without arithmetic. */
  function Mul(a: real, b: real): real {
    a * b
  }

  function Max(a: real, b: real): real {
    if a >= b then a else b
  }

  function Min(a: real, b: real): real {
    if a <= b then a else b
  }

  /** Python's float of a count. */
  function Real(n: nat): real {
    n as real
  }

  lemma MulSign(a: real, b: real)
    ensures a >= 0.0 && b >= 0.0 ==> Mul(a, b) >= 0.0
    ensures a > 0.0 && b > 0.0 ==> Mul(a, b) > 0.0
  {
  }

  /** A product grows with its second factor. */
  lemma MulMonotone(a: real, b: real, c: real)
    requires a >= 0.0 && b <= c
    ensures Mul(a, b) <= Mul(a, c) && Mul(b, a) <= Mul(c, a)
  {
  }

  lemma MulSucc(n: nat, x: real)
    ensures Mul(Real(n + 1), x) == Mul(Real(n), x) + x && Mul(Real(0), x) == 0.0 && Mul(Real(1), x) == x
  {
  }
}
