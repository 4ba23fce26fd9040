/**
 * Go's `int` on a 64-bit platform: two's-complement wrap-around on overflow and
 * division that truncates toward zero (the Go specification, "Arithmetic operators").
 */
module GoInt {

  const MIN_INT64: int := -0x8000_0000_0000_0000
  const MAX_INT64: int := 0x7fff_ffff_ffff_ffff
  const MAX_UINT64: int := 0xffff_ffff_ffff_ffff
  const TWO_64: int := 0x1_0000_0000_0000_0000

  predicate InInt64(x: int) {
    MIN_INT64 <= x <= MAX_INT64
  }

  /** The int64 value congruent to x modulo 2^64. */
  function Wrap(x: int): (r: int)
    ensures InInt64(r)
    ensures (r - x) % TWO_64 == 0
    ensures InInt64(x) ==> r == x
  {
    (x - MIN_INT64) % TWO_64 + MIN_INT64
  }

  function Add(a: int, b: int): int { Wrap(a + b) }

  function Sub(a: int, b: int): int { Wrap(a - b) }

  function Mul(a: int, b: int): int { Wrap(a * b) }

  function Abs(x: int): nat { if x < 0 then -x else x }

  /** Go's `/`: the quotient truncated toward zero, wrapped (MIN_INT64 / -1 == MIN_INT64). */
  function Quo(a: int, b: int): int
    requires b != 0
  {
    Wrap(TruncQuo(a, b))
  }

  /** Go's `%`: the remainder that goes with the truncated quotient. */
  function Rem(a: int, b: int): (r: int)
    requires b != 0
    ensures Abs(r) < Abs(b)
    ensures r != 0 ==> (r < 0 <==> a < 0)
    ensures a == TruncQuo(a, b) * b + r
  {
    a - TruncQuo(a, b) * b
  }

  /** The mathematical quotient rounded toward zero. */
  function TruncQuo(a: int, b: int): int
    requires b != 0
  {
    var q := Abs(a) / Abs(b);
    if (a < 0) == (b < 0) then q else -q
  }
}
