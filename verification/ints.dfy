/** Fixed-width integer ranges of the C++ code, written as subsets of the
    unbounded integers, and the conversions between them. */
module Ints {
  type byte = b: int | 0 <= b < 0x100
  type uint16 = x: int | 0 <= x < 0x1_0000
  type uint32 = x: int | 0 <= x < 0x1_0000_0000
  type int16 = x: int | -0x8000 <= x < 0x8000

  const UINT32_MAX: uint32 := 0xFFFF_FFFF
  /** `unsigned long` is 64 bits wide on the LP64 targets the program is built for. */
  const ULONG_MAX: nat := 0xFFFF_FFFF_FFFF_FFFF

  /** Conversion of a non-negative value to `uint32_t`: reduction modulo 2^32. */
  function Wrap32(x: nat): (r: uint32)
    ensures x <= UINT32_MAX ==> r == x
    ensures (x - r) % 0x1_0000_0000 == 0
  {
    x % 0x1_0000_0000
  }

  /** 256 to the power n: the number of values n bytes can hold. */
  function Pow256(n: nat): (r: nat)
    ensures r > 0
  {
    if n == 0 then 1 else 256 * Pow256(n - 1)
  }

  /** The C++ conversion of a floating-point value to an integer type:
      the fractional part is discarded, rounding toward zero. */
  function Trunc(x: real): (r: int)
    ensures 0.0 <= x ==> 0 <= r && r as real <= x < r as real + 1.0
    ensures x <= 0.0 ==> r <= 0 && r as real - 1.0 < x <= r as real
  {
    if x >= 0.0 then x.Floor else -((-x).Floor)
  }

  /** Truncation of a value in [-m, m] stays in [-m, m]. */
  lemma TruncBounded(x: real, m: nat)
    requires -(m as real) <= x <= m as real
    ensures -(m as int) <= Trunc(x) <= m
  {
  }

  /** Multiplying both sides of an inequality by a positive real keeps it. */
  lemma ScaleLess(x: real, y: real, b: real)
    requires x < y && b > 0.0
    ensures x * b < y * b
  {
    assert y * b - x * b == (y - x) * b;
  }

  lemma ScaleAtMost(x: real, y: real, b: real)
    requires x <= y && b > 0.0
    ensures x * b <= y * b
  {
    assert y * b - x * b == (y - x) * b;
  }

  /** Division by a non-zero real distributes over a sum. */
  lemma DivideSum(a: real, b: real, c: real)
    requires c != 0.0
    ensures (a + b) / c == a / c + b / c
  {
    assert (a / c + b / c) * c == a + b;
  }

  /** Multiplication distributes over a sum. */
  lemma Distribute(f: real, x: real, y: real)
    ensures f * (x + y) == f * x + f * y
  {
  }

  /** A non-zero real divided by itself is one. */
  lemma SelfQuotient(x: real)
    requires x != 0.0
    ensures x / x == 1.0
  {
  }

  /** A factor can move across a division. */
  lemma MultiplyQuotient(x: real, y: real, c: real)
    requires c != 0.0
    ensures x * (y / c) == (y * x) / c
  {
    assert x * (y / c) * c == y * x;
  }
}
