/** Option and error values shared by the whole model: a Python `None` and a
    raised exception are represented explicitly instead of being excluded by
    preconditions. */
module Wrappers {

  datatype Option<+T> = None | Some(value: T) {
    function GetOr(default: T): T {
      match this
      case Some(v) => v
      case None => default
    }
  }

  /** A Python exception: its class name and its message. */
  datatype PyError = PyError(kind: string, message: string)

  /** The outcome of a Python call that either returns a value or raises. */
  datatype Outcome<+T> = Returns(value: T) | Raises(error: PyError) {
    predicate IsFailure() { Raises? }

    function PropagateFailure<U>(): Outcome<U>
      requires Raises?
    {
      Raises(error)
    }

    function Extract(): T
      requires Returns?
    {
      value
    }
  }
}
