/** Option and Result, and the Python truthiness test the helper applies to its
    optional command-line strings. */
module Wrappers {

  datatype Option<+T> = None | Some(value: T) {
    function GetOr(default: T): T {
      match this
      case Some(v) => v
      case None => default
    }
  }

  /** The outcome of a step that may end the run with a fatal error. */
  datatype Result<+T, +E> = Ok(value: T) | Err(error: E) {
    predicate IsFailure() {
      Err?
    }

    function PropagateFailure<U>(): Result<U, E>
      requires Err?
    {
      Err(error)
    }

    function Extract(): T
      requires Ok?
    {
      value
    }
  }

  /** `if args.x:` in Python: an option that is absent or the empty string is false. */
  predicate Given(o: Option<string>) {
    o.Some? && o.value != ""
  }
}
