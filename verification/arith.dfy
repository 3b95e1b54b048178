/** Integer helpers for the sorter's capacity and run-count arithmetic.

    The reference computes quotients through `std::ceil` on `double` and through C++
    integer division; here both are exact operations on unbounded integers. */
module Arith {

  function Min(a: int, b: int): int {
    if a <= b then a else b
  }

  /** `ceil(a / d)` for a non-negative `a`: the least `q` with `q * d >= a`. */
  function CeilDiv(a: nat, d: int): (q: nat)
    requires d > 0
    ensures q * d >= a
    ensures (q - 1) * d < a
  {
    (a + d - 1) / d
  }

  /** C++ `/` on integers: the quotient truncated toward zero (Dafny's own `/` is Euclidean). */
  function TruncDiv(a: int, d: int): (q: int)
    requires d > 0
    ensures a >= 0 ==> q >= 0 && q * d <= a < q * d + d
    ensures a < 0 ==> q <= 0 && q * d - d < a <= q * d
  {
    if a >= 0 then a / d else -((-a) / d)
  }

  lemma MulMonotone(x: int, y: int, d: int)
    requires x <= y && d >= 0
    ensures x * d <= y * d
  {
    assert y * d - x * d == (y - x) * d;
  }

  lemma MulSucc(q: int, c: int)
    ensures (q + 1) * c == q * c + c
  {
  }

  /** A `q` that is the least multiple count covering `a` is `CeilDiv(a, d)`. */
  lemma CeilDivUnique(a: nat, d: int, q: int)
    requires d > 0
    requires q * d >= a && (q - 1) * d < a
    ensures CeilDiv(a, d) == q
  {
    var c := CeilDiv(a, d);
    if c < q {
      MulMonotone(c, q - 1, d);
    } else if c > q {
      MulMonotone(q, c - 1, d);
    }
  }

  lemma CeilDivZero(d: int)
    requires d > 0
    ensures CeilDiv(0, d) == 0
  {
    CeilDivUnique(0, d, 0);
  }

  lemma CeilDivSmall(a: nat, d: int)
    requires 0 < a <= d
    ensures CeilDiv(a, d) == 1
  {
    CeilDivUnique(a, d, 1);
  }

  /** Removing one full divisor from `a` removes exactly one from its ceiling quotient. */
  lemma CeilDivStep(a: nat, d: int)
    requires 0 < d <= a
    ensures CeilDiv(a, d) == CeilDiv(a - d, d) + 1
  {
    var c := CeilDiv(a - d, d);
    assert (c + 1) * d == c * d + d;
    assert c * d == (c - 1) * d + d;
    CeilDivUnique(a, d, c + 1);
  }

  /** A larger count never needs fewer groups. */
  lemma CeilDivMonotone(a: nat, b: nat, d: int)
    requires d > 0 && a <= b
    ensures CeilDiv(a, d) <= CeilDiv(b, d)
  {
    var q, p := CeilDiv(a, d), CeilDiv(b, d);
    if q > p {
      MulMonotone(p, q - 1, d);
    }
  }

  /** Euclidean quotient and remainder are determined by `a == q * d + r, 0 <= r < d`. */
  lemma DivModUnique(a: int, d: int, q: int, r: int)
    requires d > 0 && 0 <= r < d && a == q * d + r
    ensures a / d == q && a % d == r
  {
    var q0, r0 := a / d, a % d;
    assert a == q0 * d + r0;
    if q0 < q {
      MulMonotone(q0, q - 1, d);
    } else if q0 > q {
      MulMonotone(q, q0 - 1, d);
    }
  }

  /** Removing one full divisor from `a >= d` lowers the quotient by one and keeps the remainder. */
  lemma DivStep(a: int, d: int)
    requires 0 < d <= a
    ensures a / d == (a - d) / d + 1 && a % d == (a - d) % d
  {
    var q, r := (a - d) / d, (a - d) % d;
    assert a - d == q * d + r;
    assert a == (q + 1) * d + r;
    DivModUnique(a, d, q + 1, r);
  }

  /** Below the divisor the quotient is zero and the remainder is the value itself. */
  lemma DivSmall(a: int, d: int)
    requires 0 <= a < d
    ensures a / d == 0 && a % d == a
  {
    DivModUnique(a, d, 0, a);
  }
}
