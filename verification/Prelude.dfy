/** Small datatypes and helpers shared by the models of the four back ends. */
module Prelude {

  datatype Option<+T> = None | Some(value: T)

  /** A C++ double as far as the bridge cares: a real number, or NaN/infinity. */
  datatype Double = Finite(value: real) | NonFinite

  function Max(a: int, b: int): int { if a < b then b else a }

  function Min(a: int, b: int): int { if a < b then a else b }

  /** std::clamp for a nonempty interval. */
  function Clamp(v: real, lo: real, hi: real): real {
    if v < lo then lo else if hi < v then hi else v
  }
}
