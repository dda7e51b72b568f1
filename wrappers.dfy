/** Option and Result, the two shapes the conversions and the registry return. */
module Wrappers {

  /** Rust's `Option<T>`; `None` is also its `Default`. */
  datatype Option<+T> = None | Some(value: T)

  /** Rust's `Result<T, E>`. */
  datatype Result<+T, +E> = Ok(value: T) | Err(error: E)

  /** `Result<Option<T>, E>::unwrap_or_default()`: the success payload, or the
      default of `Option<T>` (which is `None`) when the result is an error. */
  function UnwrapOrDefault<T, E>(r: Result<Option<T>, E>): (o: Option<T>)
    ensures r.Ok? ==> o == r.value
    ensures r.Err? ==> o == None
  {
    match r
    case Ok(v) => v
    case Err(_) => None
  }
}
