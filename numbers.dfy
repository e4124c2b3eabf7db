/** JavaScript numbers as the calculator receives them, and the two
    `Math` functions it uses on them. Finite numbers are modelled exactly
    as reals: IEEE-754 rounding and overflow are not modelled. */
module Numbers {

  /** What `parseFloat` can hand back: not-a-number, one of the two
      infinities, or a finite value (negative zero is the finite 0). */
  datatype Num = NaN | PosInf | NegInf | Finite(value: real)

  /** `Math.max` on two finite numbers. */
  function Max(a: real, b: real): (r: real)
    ensures r >= a && r >= b
    ensures r == a || r == b
  {
    if a >= b then a else b
  }

  /** `Math.min` on two finite numbers. */
  function Min(a: real, b: real): (r: real)
    ensures r <= a && r <= b
    ensures r == a || r == b
  {
    if a <= b then a else b
  }
}
