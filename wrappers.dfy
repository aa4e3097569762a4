/** Optional values and the outcome of a call that may throw. */
module Wrappers {

  /** A value that may be absent (`null`/`undefined` in the source). */
  datatype Option<+T> = None | Some(value: T)

  /** The result of calling a browser API that may throw instead of returning. */
  datatype Outcome<+T> = Returned(value: T) | Threw
}
