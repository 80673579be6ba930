/**
 * Option and Result, the two shapes the model uses for Python's `None`
 * and for Python's raised exceptions.
 */
module Wrappers {
  datatype Option<+T> = None | Some(value: T) {
    predicate IsSome() { Some? }

    function GetOr(default: T): (r: T)
      ensures Some? ==> r == value
      ensures None? ==> r == default
    {
      match this
      case None => default
      case Some(v) => v
    }
  }

  /** A Python call that either returns `value` or raises `error`. */
  datatype Result<+T, +E> = Ok(value: T) | Err(error: E) {
    predicate IsFailure() { Err? }

    function PropagateFailure<U>(): Result<U, E>
      requires Err?
    {
      Err(error)
    }

    function Extract(): T
      requires Ok?
    {
      value
    }
  }
}
