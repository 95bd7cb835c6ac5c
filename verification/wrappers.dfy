/** Failure-compatible result types shared by every module of the model. */
module Wrappers {

  /** A value that may be absent: JavaScript's `null`/`undefined` results. */
  datatype Option<+T> = None | Some(value: T)

  /** The result of an operation that can throw: `Err` carries the reason. */
  datatype Result<+T> = Ok(value: T) | Err(error: string)
}
