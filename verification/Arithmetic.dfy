/** Larger and smaller of two numbers, and products of bounded ones. */
module Arithmetic {
  function Max(a: int, b: int): int { if a < b then b else a }

  function Min(a: int, b: int): int { if a < b then a else b }

  function MaxReal(a: real, b: real): (m: real)
    ensures m >= a && m >= b && (m == a || m == b)
  {
    if a < b then b else a
  }

  function MinReal(a: real, b: real): real { if a < b then a else b }

  function AtLeastOne(n: int): nat { if n < 1 then 1 else n }

  lemma Scaled(a: int, b: int, c: int)
    requires a <= b && c >= 0
    ensures a * c <= b * c
  {}
}
