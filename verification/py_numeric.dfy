/** Python's numeric conversions, written out over Dafny's unbounded reals. */
module PyNumeric {

  /** Python `int(x)` on a float (and numpy `astype(int)`): truncation toward
      zero, not rounding and not flooring. */
  function Truncate(x: real): (r: int)
    ensures x >= 0.0 ==> 0 <= r && r as real <= x < r as real + 1.0
    ensures x < 0.0 ==> r <= 0 && x <= r as real < x + 1.0
  {
    if x >= 0.0 then x.Floor else -((-x).Floor)
  }
}
