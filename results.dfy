/** Rust's `Result` and `Option`, usable with Dafny's `:-`. */
module Results {

  datatype Option<+T> = None | Some(value: T)

  /** What an expression that may panic does: return a value, or panic (an
      out-of-bounds index, an overflow in a debug build). */
  datatype Outcome<+T> = Returns(value: T) | Panics

  datatype Result<+T, +E> = Ok(value: T) | Err(error: E) {

    predicate IsFailure() {
      Err?
    }

    function PropagateFailure<U>(): Result<U, E>
      requires Err?
    {
      Err(error)
    }

    function Extract(): T
      requires Ok?
    {
      value
    }

    /** `Result::map`: transforms a success, passes an error through unchanged. */
    function Map<U>(f: T -> U): (r: Result<U, E>)
      ensures r.Ok? <==> Ok?
      ensures Ok? ==> r.value == f(value)
      ensures Err? ==> r.error == error
    {
      match this
      case Ok(v) => Ok(f(v))
      case Err(e) => Err(e)
    }
  }
}
