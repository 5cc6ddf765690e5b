/** Optional values and results with an error case, shared by every module. */
module Wrappers {

  /** A value that may be absent: a Many2one left empty, a Char field that is False. */
  datatype Option<+T> = None | Some(value: T)

  /** The outcome of an operation that can raise. */
  datatype Result<+R, +E> = Success(value: R) | Failure(error: E)
}
