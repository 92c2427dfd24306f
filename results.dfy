/** Error-carrying wrappers shared by the whole model.
    The library reports usage errors by throwing `ArgumentNullException` or
    `ArgumentOutOfRangeException`; the model returns them as values instead. */
module Results {

  /** A usage error, carrying the name of the offending parameter. */
  datatype ArgumentError =
    | ArgumentNull(paramName: string)
    | ArgumentOutOfRange(paramName: string)

  /** An optional value; `None` stands for a C# `null`. */
  datatype Option<T> = None | Some(value: T)

  /** The outcome of an operation that returns a value or throws a usage error. */
  datatype Result<T> = Ok(value: T) | Err(error: ArgumentError)

  /** The outcome of an operation that returns nothing or throws a usage error. */
  datatype Outcome = Done | Failed(error: ArgumentError)
}
