/** MyFirstCheckedException: a checked kind (it extends Exception, not
    RuntimeException) with the four usual constructors. Each constructor is a
    function building the immutable failure; reading back getMessage() and
    getCause() gives what was passed in. */
module MyFirstCheckedException {
  import opened Failures

  /** `new MyFirstCheckedException()`. */
  function New(): (f: Failure)
    ensures f.kind == FirstChecked && IsChecked(f.kind)
    ensures f.message == NoDetail && f.cause == None
  {
    Failure(FirstChecked, NoDetail, None)
  }

  /** `new MyFirstCheckedException(message)`. */
  function WithMessage(message: string): (f: Failure)
    ensures f.kind == FirstChecked && IsChecked(f.kind)
    ensures f.message == Text(message) && f.cause == None
  {
    Failure(FirstChecked, Text(message), None)
  }

  /** `new MyFirstCheckedException(cause)`: the message is the one the runtime
      derives from the cause, which this model leaves unspecified. */
  function WithCause(cause: Failure): (f: Failure)
    ensures f.kind == FirstChecked && IsChecked(f.kind)
    ensures f.cause == Some(cause)
  {
    Failure(FirstChecked, RuntimeDetail, Some(cause))
  }

  /** `new MyFirstCheckedException(message, cause)`. */
  function WithMessageAndCause(message: string, cause: Failure): (f: Failure)
    ensures f.kind == FirstChecked && IsChecked(f.kind)
    ensures f.message == Text(message) && f.cause == Some(cause)
  {
    Failure(FirstChecked, Text(message), Some(cause))
  }

  /** Whichever constructor built it, a MyFirstCheckedException that is thrown
      travels in the declared (checked) channel, never in the abort channel. */
  lemma ThrownInDeclaredChannel(message: string, cause: Failure)
    ensures forall f | f in {New(), WithMessage(message), WithCause(cause), WithMessageAndCause(message, cause)} ::
              Raise<()>(f).Checked? && Raise<()>(f).Declares({FirstChecked})
  {
  }
}
