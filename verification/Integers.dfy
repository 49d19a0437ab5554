/** Integers of the modelled platform. */
module Integers {

  const MAX_INT := 0x7FFF_FFFF_FFFF_FFFF

  /** A Go int, or a time.Duration in nanoseconds, on a 64-bit platform. */
  type Int64 = x: int | -MAX_INT - 1 <= x <= MAX_INT

  function Max(a: int, b: int): int {
    if a > b then a else b
  }

  function Min(a: int, b: int): int {
    if a < b then a else b
  }

  /** A guard by division decides exactly whether a product stays within a limit, without forming the product. */
  lemma GuardByDivision(a: nat, b: nat, limit: nat)
    requires b > 0
    ensures a > limit / b <==> a * b > limit
  {
    var q := limit / b;
    assert q * b <= limit < (q + 1) * b;
    if a > q {
      ProductGrows(q + 1, a, b);
    } else {
      ProductGrows(a, q, b);
    }
  }

  lemma ProductGrows(a: nat, b: nat, c: nat)
    requires a <= b
    ensures a * c <= b * c
  {
  }
}
