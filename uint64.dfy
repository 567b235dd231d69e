/** Go's `uint64` arithmetic: every operation wraps modulo 2^64, and division by zero panics. */
module Uint64 {

  const MOD: int := 0x1_0000_0000_0000_0000

  type u64 = x: int | 0 <= x < MOD

  /** 2^63: the first uint64 whose int64 reading is negative. */
  const HALF: int := 0x8000_0000_0000_0000

  /**
   * Go's conversion of a uint64 to int64 (as in `time.Duration(x)`): the same 64 bits read in
   * two's complement, so values from 2^63 up stand for negative numbers. Reducing the result
   * modulo 2^64 gives `x` back.
   */
  function ToInt64(x: u64): (r: int)
    ensures -HALF <= r < HALF
    ensures r % MOD == x
  {
    if x < HALF then x else x - MOD
  }

  /** `a - b` in uint64: wraps below zero. */
  function Sub(a: u64, b: u64): (r: u64)
    ensures a >= b ==> r == a - b
    ensures a < b ==> r == a - b + MOD
  {
    (a - b) % MOD
  }

  /** `a + b` in uint64: wraps past 2^64 - 1. */
  function Add(a: u64, b: u64): (r: u64)
    ensures a + b < MOD ==> r == a + b
    ensures a + b >= MOD ==> r == a + b - MOD
  {
    (a + b) % MOD
  }

  /** `a * b` in uint64: keeps the low 64 bits of the product. */
  function Mul(a: u64, b: u64): (r: u64)
    ensures a * b < MOD ==> r == a * b
    ensures (a * b - r) % MOD == 0
  {
    (a * b) % MOD
  }

  /** `a / b` in uint64: truncating division, defined only for a non-zero divisor. */
  function Div(a: u64, b: u64): (r: u64)
    requires b != 0
    ensures r * b <= a < r * b + b
  {
    DivBounds(a, b);
    a / b
  }

  lemma DivBounds(a: nat, b: nat)
    requires b != 0
    ensures a / b * b <= a < a / b * b + b
    ensures a / b <= a
  {
    var q, m := a / b, a % b;
    assert a == q * b + m && 0 <= m < b;
    assert q >= 0;
    MulAtLeast(q, b);
  }

  lemma MulAtLeast(q: nat, b: nat)
    requires b >= 1
    ensures q <= q * b
  {
    assert q * b == q + q * (b - 1);
  }

  /** Reducing a factor modulo 2^64 before a multiplication does not change the product modulo 2^64. */
  lemma ModMulLeft(x: int, y: int)
    ensures (x % MOD * y) % MOD == (x * y) % MOD
  {
    var q := x / MOD;
    assert x == q * MOD + x % MOD;
    assert x * y == (q * y) * MOD + x % MOD * y by {
      assert x * y == (q * MOD + x % MOD) * y;
    }
    ModAddMultiple(x % MOD * y, q * y);
  }

  lemma ModAddMultiple(a: int, k: int)
    ensures (a + k * MOD) % MOD == a % MOD
  {
  }
}
