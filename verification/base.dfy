/**
 * Failure-compatible wrappers shared by every module of the model.
 *
 * Go functions of the form `(T, error)` become `Result<T, E>`, where `E` is a
 * module-specific datatype naming the error case; an optional pointer or a
 * nil-able value becomes `Option<T>`.
 */
module Base {

  datatype Option<+T> = None | Some(value: T) {

    function GetOr(default: T): T {
      match this
      case Some(v) => v
      case None => default
    }
  }

  datatype Result<+T, +E> = Ok(value: T) | Err(error: E) {

    predicate IsFailure() {
      Err?
    }

    function PropagateFailure<U>(): Result<U, E>
      requires Err?
    {
      Err(error)
    }

    function Extract(): T
      requires Ok?
    {
      value
    }

    function MapError<E2>(wrap: E -> E2): Result<T, E2> {
      match this
      case Ok(v) => Ok(v)
      case Err(e) => Err(wrap(e))
    }
  }
}
