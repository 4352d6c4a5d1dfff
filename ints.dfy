/**
 * The fixed-width integers of the C++ code, written out over Dafny's unbounded
 * integers. Wrap-around is modelled explicitly where the source converts.
 */
module Ints {
  const TWO_32: int := 0x1_0000_0000

  /** uint32_t and UINT */
  type U32 = x: int | 0 <= x < TWO_32

  /** int32_t */
  type I32 = x: int | -0x8000_0000 <= x < 0x8000_0000

  /** int8_t */
  type I8 = x: int | -128 <= x < 128

  /** Conversion of any integer to uint32_t: reduction modulo 2^32. */
  function ToU32(x: int): (r: U32)
    ensures 0 <= x < TWO_32 ==> r == x
    ensures (r - x) % TWO_32 == 0
  {
    x % TWO_32
  }

  /** Conversion of any integer to int8_t: two's complement reduction (C++20 rule). */
  function ToI8(x: int): (r: I8)
    ensures -128 <= x < 128 ==> r == x
    ensures (r - x) % 256 == 0
  {
    var m := x % 256;
    if m < 128 then m else m - 256
  }

  lemma {:induction false} MulAtLeast(a: nat, d: nat)
    requires a >= 1
    ensures a * d >= d
    decreases a
  {
    if a > 1 {
      MulAtLeast(a - 1, d);
      assert a * d == (a - 1) * d + d;
    }
  }

  /** Euclidean division of a natural number: the quotient's multiple lies within one divisor below a, and the quotient is at most a. */
  lemma DivBounds(a: nat, d: nat)
    requires d > 0
    ensures (a / d) * d <= a < (a / d + 1) * d
    ensures 0 <= a / d <= a
  {
    var q := a / d;
    var r := a % d;
    assert a == q * d + r;
    assert (q + 1) * d == q * d + d;
    MulAtLeast(d, q);
    assert d * q == q * d;
  }

  /** Dividing a multiple of d by d gives back the multiplier. */
  lemma MulDiv(n: nat, d: nat)
    requires d > 0
    ensures (d * n) / d == n
  {
    var q := (d * n) / d;
    var r := (d * n) % d;
    assert d * n == d * q + r;
    if n > q {
      assert (n - q) * d == d * n - d * q;
      MulAtLeast(n - q, d);
    } else if n < q {
      assert (q - n) * d == d * q - d * n;
      MulAtLeast(q - n, d);
    }
  }
}
