/** MySecondCheckedException: a second checked kind (it extends Exception).
    It has three constructors only: there is no (message, cause) form. */
module MySecondCheckedException {
  import opened Failures

  /** `new MySecondCheckedException()`. */
  function New(): (f: Failure)
    ensures f.kind == SecondChecked && IsChecked(f.kind)
    ensures f.message == NoDetail && f.cause == None
  {
    Failure(SecondChecked, NoDetail, None)
  }

  /** `new MySecondCheckedException(message)`. */
  function WithMessage(message: string): (f: Failure)
    ensures f.kind == SecondChecked && IsChecked(f.kind)
    ensures f.message == Text(message) && f.cause == None
  {
    Failure(SecondChecked, Text(message), None)
  }

  /** `new MySecondCheckedException(cause)`: the message is the one the runtime
      derives from the cause, which this model leaves unspecified. */
  function WithCause(cause: Failure): (f: Failure)
    ensures f.kind == SecondChecked && IsChecked(f.kind)
    ensures f.cause == Some(cause)
  {
    Failure(SecondChecked, RuntimeDetail, Some(cause))
  }
}
