/** Option and Result, the shapes Rust's `Option<T>` and `Result<T, E>` take in this model. */
module Wrappers {

  datatype Option<+T> = None | Some(value: T)

  datatype Result<+T, +E> = Ok(value: T) | Err(error: E)

  /** Rust's `Result::ok`: forget the error. */
  function ResultOk<T, E>(r: Result<T, E>): (o: Option<T>)
    ensures o.Some? <==> r.Ok?
    ensures o.Some? ==> o.value == r.value
  {
    match r
    case Ok(v) => Some(v)
    case Err(_) => None
  }
}
