/** Option and Result: the absent values (`null`, `undefined`) and the thrown
    errors of the application, made explicit. */
module Outcomes {

  /** A value that may be absent (`T | null` or an optional property). */
  datatype Option<+T> = None | Some(value: T)

  /** The value of an asynchronous call: it resolves with a value or rejects
      with an error. */
  datatype Result<+T, +E> = Success(value: T) | Failure(error: E)
}
