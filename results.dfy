/** Failure-carrying values shared by the other modules: Go's `(T, error)`
    pairs become a `Result`, a possibly-missing value an `Option`. A
    `Result` works with `:-`, which returns early on an error the way Go's
    `if err != nil { return ..., err }` does. */
module Results {

  datatype Option<+T> = None | Some(value: T) {
    function GetOr(default: T): T {
      match this
      case Some(v) => v
      case None => default
    }
  }

  datatype Result<+T, +E> = Ok(value: T) | Err(error: E) {
    predicate IsFailure() {
      Err?
    }

    function PropagateFailure<U>(): Result<U, E>
      requires Err?
    {
      Err(error)
    }

    function Extract(): T
      requires Ok?
    {
      value
    }
  }
}
