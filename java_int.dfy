/** Java's 32-bit `int` and the one arithmetic operation the system performs on it. */
module JavaInt {

  /** A Java `int`: a two's-complement 32-bit integer. */
  newtype int32 = x: int | -0x8000_0000 <= x < 0x8000_0000

  /** Java's `p / 2`: integer division that truncates toward zero (so -5 / 2 is -2),
      unlike Dafny's Euclidean `/`. The quotient always fits in an `int`. */
  function Half(p: int32): (r: int32)
    ensures p >= 0 ==> 0 <= 2 * (r as int) <= p as int < 2 * (r as int) + 2
    ensures p < 0 ==> 2 * (r as int) - 2 < p as int <= 2 * (r as int) <= 0
  {
    var q: int := if p >= 0 then (p as int) / 2 else -((-(p as int)) / 2);
    q as int32
  }
}
