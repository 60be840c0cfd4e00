/** Failure-compatible result types shared by the whole model.

    The binding signals every failure with a C++ exception; `Result` is the
    value a computation produces when it either returns or throws. */
module Outcomes {

  /** The conventional optional value (a pointer that may be NULL). */
  datatype Option<+T> = None | Some(value: T)

  /** A C++ exception as `wrap_X` tells them apart: a `std::exception`
      carrying its `what()` text, or anything else thrown. */
  datatype Exc = StdException(what: string) | UnknownException

  /** Either the value a computation returned or the exception it threw. */
  datatype Result<+T> = Ok(value: T) | Throw(x: Exc) {

    predicate IsFailure() {
      Throw?
    }

    function PropagateFailure<U>(): Result<U>
      requires Throw?
    {
      Throw(x)
    }

    function Extract(): T
      requires Ok?
    {
      value
    }
  }

  /** The message `wrap_X` hands to the RuntimeError it raises. */
  function Message(x: Exc): string {
    match x
    case StdException(w) => w
    case UnknownException => "Unknown exception"
  }

  /** `throw std::logic_error(msg)`, the only exception the binding throws itself. */
  function LogicError(msg: string): Exc {
    StdException(msg)
  }
}
