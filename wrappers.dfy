// Shared value wrappers: Java's nullable references become Option, and the
// backend's BusinessException becomes the Err arm of Result.
module Wrappers {

  datatype Option<T> = None | Some(value: T)
  {
    predicate IsFailure() { None? }

    function PropagateFailure<U>(): Option<U>
      requires None?
    {
      None
    }

    function Extract(): T
      requires Some?
    {
      value
    }

    function GetOr(default: T): T
    {
      if Some? then value else default
    }
  }

  /** A business failure: a result code and the message shown to the caller. */
  datatype Fault = Fault(code: int, message: string)

  datatype Result<T> = Ok(value: T) | Err(fault: Fault)
  {
    predicate IsFailure() { Err? }

    function PropagateFailure<U>(): Result<U>
      requires Err?
    {
      Err(fault)
    }

    function Extract(): T
      requires Ok?
    {
      value
    }
  }

  /** `new BusinessException(message)` carries BUSINESS_ERROR (1000). */
  function BusinessFault(message: string): Fault
  {
    Fault(1000, message)
  }
}
