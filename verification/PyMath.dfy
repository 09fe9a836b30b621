/**
 * The two rounding operations the pricing engine applies to its (here exact,
 * rational) money and factor values: `math.ceil` and `int(x)` on a float,
 * which truncates toward zero.
 */
module PyMath {

  /** `math.ceil(x)`: the least integer not below `x`. */
  function Ceil(x: real): (r: int)
    ensures r as real >= x
    ensures (r - 1) as real < x
  {
    -((-x).Floor)
  }

  /** `int(x)` for a float `x`: drops the fractional part, rounding toward zero. */
  function Trunc(x: real): (r: int)
    ensures x >= 0.0 ==> 0 <= r && r as real <= x < (r + 1) as real
    ensures x < 0.0 ==> r <= 0 && (r - 1) as real < x <= r as real
  {
    if x >= 0.0 then x.Floor else -((-x).Floor)
  }
}
