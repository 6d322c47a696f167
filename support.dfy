/** Failure-carrying results shared by every module of the ledger model.
    The JavaScript code signals failure by throwing an Error or by returning
    null/undefined; both become explicit values here. */
module Support {

  /** A value that may be absent (`find` returning undefined, a null result). */
  datatype Option<+T> = None | Some(value: T)

  /** Either the value an operation returns or the error it would throw. */
  datatype Result<+T, +E> = Ok(value: T) | Err(error: E)
}
