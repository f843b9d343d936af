/** Success/failure values for the Go `error` results of the linux command and its collaborators. */
module Results {

  /** An optional value. */
  datatype Option<T> = None | Some(value: T)

  /** A Go `error` return: nil, or an error whose text is `msg`. */
  datatype Outcome = Ok | Err(msg: string)

  /** A Go `(T, error)` return: a value, or an error whose text is `msg`. */
  datatype Result<T> = Success(value: T) | Failure(msg: string)
}
