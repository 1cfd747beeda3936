/** The two `Math` helpers the simulation calls, on finite numbers. */
module JsMath {

  /** `Math.sign(x)`: -1, 0 or +1 with the sign of `x`. */
  function Sign(x: real): (s: int)
    ensures s == -1 || s == 0 || s == 1
    ensures s > 0 <==> x > 0.0
    ensures s < 0 <==> x < 0.0
  {
    if x > 0.0 then 1 else if x < 0.0 then -1 else 0
  }

  /** `Math.abs(x)`. */
  function Abs(x: real): (r: real)
    ensures r >= 0.0
    ensures r == x || r == -x
  {
    if x < 0.0 then -x else x
  }
}
