/** Small building blocks shared by the indicator and signal modules. */
module Common {

  /** Python's `None` or a value. */
  datatype Option<T> = None | Some(value: T)

  /** Signal strength label attached to every entry or exit signal. */
  datatype Strength = Strong | Medium

  /** The one-element list of `x` when `fires`, else the empty list: what a
      rule that appends on a condition contributes. */
  function When<T>(fires: bool, x: T): seq<T>
  {
    if fires then [x] else []
  }

  function Abs(x: real): (r: real)
    ensures r >= 0.0
    ensures r == x || r == -x
  {
    if x < 0.0 then -x else x
  }

  /** The price lies within 1% of a level: |price - level| / level < 0.01.
      The source divides by the level, so a zero level is a division by zero
      that every caller handles on its own error path. A negative level makes
      the quotient negative, so every price is "near" it. */
  predicate Near(price: real, level: real)
    requires level != 0.0
  {
    Abs(price - level) / level < 0.01
  }
}
