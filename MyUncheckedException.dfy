/** MyUncheckedException: the program's unchecked kind. Its class is not part
    of this model; only the three constructors the program calls are given. */
module MyUncheckedException {
  import opened Failures

  /** `new MyUncheckedException(message)`. */
  function WithMessage(message: string): (f: Failure)
    ensures f.kind == MyUnchecked && !IsChecked(f.kind)
    ensures f.message == Text(message) && f.cause == None
  {
    Failure(MyUnchecked, Text(message), None)
  }

  /** `new MyUncheckedException(cause)`: the message is the one the runtime
      derives from the cause, which this model leaves unspecified. */
  function WithCause(cause: Failure): (f: Failure)
    ensures f.kind == MyUnchecked && !IsChecked(f.kind)
    ensures f.cause == Some(cause)
  {
    Failure(MyUnchecked, RuntimeDetail, Some(cause))
  }

  /** `new MyUncheckedException(message, cause)`. */
  function WithMessageAndCause(message: string, cause: Failure): (f: Failure)
    ensures f.kind == MyUnchecked && !IsChecked(f.kind)
    ensures f.message == Text(message) && f.cause == Some(cause)
  {
    Failure(MyUnchecked, Text(message), Some(cause))
  }
}
