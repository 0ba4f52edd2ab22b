/** Failure-carrying values shared by every part of the model. */
module Outcomes {

  /** Rust's `Option`: an optional value. */
  datatype Option<+T> = None | Some(value: T)

  /** Rust's `Result`: the outcome of a fallible conversion or query. */
  datatype Result<+T, +E> = Ok(value: T) | Err(error: E) {

    predicate IsFailure() {
      Err?
    }

    function PropagateFailure<U>(): Result<U, E>
      requires Err?
    {
      Err(error)
    }

    function Extract(): T
      requires Ok?
    {
      value
    }

    /** Rust's `map_err`. */
    function MapError<F>(f: E -> F): Result<T, F> {
      match this
      case Ok(v) => Ok(v)
      case Err(e) => Err(f(e))
    }
  }
}
