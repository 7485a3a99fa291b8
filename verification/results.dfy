/** Optional values and fallible results, standing in for Go's nil pointers and
    (value, error) pairs. */
module Results {

  /** A value that may be absent (a nil pointer in the program). */
  datatype Option<+T> = None | Some(value: T)

  /** The outcome of a call that returns a value or an error. */
  datatype Result<+T, +E> = Ok(value: T) | Err(error: E) {

    /** Drops the error, keeping only whether a value is present. */
    function ToOption(): (o: Option<T>)
      ensures o.Some? <==> Ok?
      ensures o.Some? ==> o.value == value
    {
      match this
      case Ok(v) => Some(v)
      case Err(_) => None
    }
  }
}
