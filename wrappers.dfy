/** An optional value: the engine receives a month field as an empty string when the
    form leaves it blank, and every such field is modelled as `None`. */
module Wrappers {

  datatype Option<+T> = None | Some(value: T)

  /** The larger of two reals (`Math.max`). */
  function Max(a: real, b: real): real
  {
    if a < b then b else a
  }

  /** The smaller of two reals (`Math.min`). */
  function Min(a: real, b: real): real
  {
    if a < b then a else b
  }

  /** `Math.max(lo, Math.min(hi, x))`. */
  function Clamp(x: real, lo: real, hi: real): real
  {
    Max(lo, Min(hi, x))
  }
}
