/** The exceptions the banking core throws, and the values that stand for a
    Java call that either returns normally or throws. */
module Exceptions {

  /** The two unchecked exception classes the core throws, with their message. */
  datatype Exception =
    | IllegalArgumentException(message: string)
    | IllegalStateException(message: string)

  /** A call that returns a value of type `T` or throws. */
  datatype Result<+T> = Returned(value: T) | Threw(error: Exception) {

    predicate IsFailure() {
      Threw?
    }

    function PropagateFailure<U>(): Result<U>
      requires Threw?
    {
      Threw(error)
    }

    function Extract(): T
      requires Returned?
    {
      value
    }
  }

  /** A `void` call (or one whose result is only `this`) that completes or throws. */
  datatype Completion = Completed | Raised(error: Exception) {

    /** The exception raised, if any. */
    function Raising(): Option<Exception> {
      if Raised? then Some(error) else None
    }
  }

  datatype Option<+T> = None | Some(value: T)
}
