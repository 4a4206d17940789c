/** Failure-carrying datatypes shared by the benchmark model. */
module Wrappers {

  /** An optional value: TypeScript's `T | undefined` for an optional field. */
  datatype Option<+T> = None | Some(value: T)

  /** Either a value or the reason it could not be produced. */
  datatype Result<+R, +E> = Success(value: R) | Failure(error: E)
}
