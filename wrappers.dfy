/** Optional values and results shared by every visual of the model. */
module Wrappers {

  /** A JavaScript value that may be `null` or `undefined`. */
  datatype Option<+T> = None | Some(value: T)

  /** What made a JavaScript call throw instead of returning. */
  datatype Failure =
    | TypeError(what: string)   // a property read on `undefined` or `null`

  /** The outcome of a call that either returns a value or throws. */
  datatype Result<+T> = Ok(value: T) | Err(error: Failure)
}
