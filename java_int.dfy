/** Java's 32-bit two's-complement `int`, and the operations on it that `Ordinal` relies on. */
module JavaInt {

  const MIN_VALUE: int := -0x8000_0000
  const MAX_VALUE: int := 0x7fff_ffff
  /** The number of distinct `int` values; arithmetic on `int` is modulo this. */
  const MODULUS: int := 0x1_0000_0000

  type Int32 = x: int | -0x8000_0000 <= x <= 0x7fff_ffff

  /** The `int` that the mathematical value `x` wraps to (JLS 15.18.2: overflowing
      integer addition keeps the low-order 32 bits). */
  function Wrap(x: int): (r: Int32)
    ensures (x - r) % MODULUS == 0
    ensures MIN_VALUE <= x <= MAX_VALUE ==> r == x
  {
    (x - MIN_VALUE) % MODULUS + MIN_VALUE
  }

  /** Java `a + b` on `int`. */
  function Add(a: Int32, b: Int32): (r: Int32)
    ensures MIN_VALUE <= a + b <= MAX_VALUE ==> r == a + b
    ensures a + b > MAX_VALUE ==> r == a + b - MODULUS
    ensures a + b < MIN_VALUE ==> r == a + b + MODULUS
  {
    Wrap(a + b)
  }

  /** Java `a - b` on `int`. */
  function Sub(a: Int32, b: Int32): (r: Int32)
    ensures MIN_VALUE <= a - b <= MAX_VALUE ==> r == a - b
    ensures a - b > MAX_VALUE ==> r == a - b - MODULUS
    ensures a - b < MIN_VALUE ==> r == a - b + MODULUS
  {
    Wrap(a - b)
  }

  /** `Integer.compare(x, y)`: -1, 0 or 1 as `x` is below, equal to or above `y`. */
  function Compare(x: Int32, y: Int32): (c: int)
    ensures -1 <= c <= 1
    ensures c < 0 <==> x < y
    ensures c == 0 <==> x == y
    ensures c > 0 <==> x > y
  {
    if x < y then -1 else if x == y then 0 else 1
  }

  /** The only overflow of `n + 1`: `Integer.MAX_VALUE + 1` is `Integer.MIN_VALUE`. */
  lemma IncrementOverflow(n: Int32)
    ensures Add(n, 1) < n <==> n == MAX_VALUE
    ensures n == MAX_VALUE ==> Add(n, 1) == MIN_VALUE
  {
  }
}
