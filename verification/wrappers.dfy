/** Option and Result, the shapes the ray tracer uses for "no value" and for errors. */
module Wrappers {
  datatype Option<T> = None | Some(value: T)

  /** A value or an error; `:-` propagates the error, as Rust's `?` does. */
  datatype Result<T, E> = Ok(value: T) | Err(error: E)
  {
    predicate IsFailure() { Err? }

    function PropagateFailure<U>(): Result<U, E>
      requires Err?
    {
      Err(error)
    }

    function Extract(): T
      requires Ok?
    {
      value
    }
  }
}
