/**
 * Outcomes shared by every module: an operation either produces its value
 * or fails the way the C++ code does, by throwing an exception object
 * (SeisppError, MetadataGetError, a boost archive exception, ...), by
 * ending the program with exit(status), or by doing something whose
 * behaviour C++ leaves undefined (an integer division by zero).
 */
module Failures {
  datatype Failure =
    | Thrown(message: string)
    | Exited(status: int)
    | Undefined(operation: string)

  datatype Result<+T> = Ok(value: T) | Err(failure: Failure)
  {
    predicate IsFailure() { Err? }

    function PropagateFailure<U>(): Result<U>
      requires Err?
    {
      Err(failure)
    }

    function Extract(): T
      requires Ok?
    {
      value
    }
  }

  datatype Option<+T> = None | Some(value: T)

  /** A C++ exception carrying a message. */
  function Throw<T>(message: string): (r: Result<T>)
    ensures r.Err? && r.failure.Thrown?
  {
    Err(Thrown(message))
  }

  /** A call to exit(status). */
  function Exit<T>(status: int): (r: Result<T>)
    ensures r.Err? && r.failure == Exited(status)
  {
    Err(Exited(status))
  }
}
