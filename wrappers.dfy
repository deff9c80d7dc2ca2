/** Option and Result, the two shapes in which the emote codec reports its outcome. */
module Wrappers {

  /** The `out Emote result` of a Try-method: `None` stands for `null` with a `false` return. */
  datatype Option<+T> = None | Some(value: T)

  /** The outcome of a throwing entry point: the value, or the exception it raises. */
  datatype Result<+R, +E> = Success(value: R) | Failure(error: E)
}
