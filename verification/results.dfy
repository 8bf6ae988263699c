/** Failure-carrying return values, standing in for Go's `(value, error)` pairs. */
module Results {

  /** A value or an error: Go's `(T, error)` return. */
  datatype Result<+T, +E> = Ok(value: T) | Err(error: E) {

    /** Whether it succeeded, and with which error if not, forgetting the value. */
    function ToOutcome(): (o: Outcome<E>)
      ensures o.Pass? <==> Ok?
      ensures o.Fail? ==> o.error == error
    {
      match this
      case Ok(_) => Pass
      case Err(e) => Fail(e)
    }
  }

  /** Success or an error without a value: Go's lone `error` return. */
  datatype Outcome<+E> = Pass | Fail(error: E)
}
