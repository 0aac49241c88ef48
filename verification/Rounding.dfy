/** Rounding to the nearest integer, a tie to the even one: Python's `round`. */
module Rounding {

  function RoundHalfEven(x: real): int {
    var below := x.Floor;
    if x - below as real < 0.5 || (x - below as real == 0.5 && below % 2 == 0) then below else below + 1
  }

  /** The rounded value is at most a half away, and on a tie it is even. */
  lemma Nearest(x: real)
    ensures var error := x - RoundHalfEven(x) as real;
      && -0.5 <= error <= 0.5
      && ((error == 0.5 || error == -0.5) ==> RoundHalfEven(x) % 2 == 0)
  {
  }
}
