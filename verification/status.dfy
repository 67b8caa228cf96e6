/**
  Outcomes shared by the Laplace potential's operations.

  The C++ class signals a bad parameter by throwing `InvalidParameterException`
  and a numerical failure of the moment computation by returning `false`. Here
  the first becomes an `Error` value inside a `Result` or `Outcome`, and the
  second stays a plain boolean, so the two classes of failure stay apart.
 */
module Status {

  /** The only exception the potential throws. */
  datatype Error = InvalidParameter

  /** A value, or the exception thrown instead of producing it. */
  datatype Result<+T> = Ok(value: T) | Err(error: Error)

  /** Whether a mutator returned normally or threw. */
  datatype Outcome = Pass | Fail(error: Error)

  /** An optional output: a `double*` argument that may be null. */
  datatype Option<+T> = None | Some(value: T)
}
