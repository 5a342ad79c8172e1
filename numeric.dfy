/** Arithmetic shared by the component rules. */
module Numeric {

  /** The absolute value of a double, as the C++ abs overload for double computes it. */
  function Abs(x: real): (r: real)
    ensures r >= 0.0 && (r == x || r == -x)
  {
    if x < 0.0 then -x else x
  }
}
