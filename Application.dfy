/** The program's entry point: a guarded array lookup whose failures are
    classified into MyFirstCheckedException, then converted at the boundary
    into MyUncheckedException, which ends the program if it is not caught.
    A `String[]` reference is an `Option<seq<string>>` (`None` is null). */
module Application {
  import opened Failures
  import JavaRuntime
  import MyFirstCheckedException
  import MyUncheckedException

  const NullArrayMessage: string := "array is null"
  const BadIndexMessage: string := "bad value for index"

  /** The array and index `main` uses. */
  const MainValues: seq<string> := ["Bon", " ", "weekend!"]
  const MainIndex: int := 2

  /** `handleExceptions(values, index) throws MyFirstCheckedException`: reads
      `values[index]`, catching NullPointerException and then
      ArrayIndexOutOfBoundsException and rethrowing each as a
      MyFirstCheckedException with its own message and the caught exception
      as cause. */
  function HandleExceptions(values: Option<seq<string>>, index: int): (r: Outcome<string>)
    ensures r.WellFormed() && r.Declares({FirstChecked}) && !r.Unchecked?
    ensures r.Normal? <==> values.Some? && 0 <= index < |values.value|
    ensures r.Normal? ==> r.value == values.value[index]
    ensures values.None? ==>
              r.Checked? && r.failure.message == Text(NullArrayMessage) &&
              r.failure.cause.Some? && r.failure.cause.value.kind == NullPointer
    ensures values.Some? && (index < 0 || index >= |values.value|) ==>
              r.Checked? && r.failure.message == Text(BadIndexMessage) &&
              r.failure.cause.Some? && r.failure.cause.value.kind == ArrayIndexOutOfBounds
  {
    var access := JavaRuntime.ArrayAccess(values, index);
    match access
    case Normal(result) => Normal(result)
    case Checked(_) => access
    case Unchecked(ex) =>
      match SelectHandler([{NullPointer}, {ArrayIndexOutOfBounds}], ex.kind)
      case Some(0) => Raise(MyFirstCheckedException.WithMessageAndCause(NullArrayMessage, ex))
      case Some(1) => Raise(MyFirstCheckedException.WithMessageAndCause(BadIndexMessage, ex))
      case _ => access
  }

  /** `getValueAt(values, index)`: calls `handleExceptions` and converts a
      MyFirstCheckedException into a MyUncheckedException whose cause is that
      very exception, so no checked failure leaves it. */
  function GetValueAt(values: Option<seq<string>>, index: int): (r: Outcome<string>)
    ensures r.WellFormed() && !r.Checked?
    ensures r.Normal? <==> HandleExceptions(values, index).Normal?
    ensures r.Normal? ==> r.value == HandleExceptions(values, index).value
    ensures HandleExceptions(values, index).Checked? ==>
              r.Unchecked? && r.failure.kind == MyUnchecked &&
              r.failure.cause == Some(HandleExceptions(values, index).failure)
  {
    var attempt := HandleExceptions(values, index);
    match attempt
    case Normal(result) => Normal(result)
    case Checked(ex) =>
      (match SelectHandler([{FirstChecked}], ex.kind)
       case Some(_) => Raise(MyUncheckedException.WithCause(ex))
       case None => attempt)
    case Unchecked(_) => attempt
  }

  /** The body of `main` for a given array and index: print "result=" followed
      by the looked-up value, or end with the unchecked failure before
      printing anything. */
  function MainWith(values: Option<seq<string>>, index: int): (r: Run<()>)
    ensures r.outcome.WellFormed() && !r.outcome.Checked?
    ensures r.outcome.Normal? <==> GetValueAt(values, index).Normal?
    ensures r.outcome.Normal? ==> r.printed == ["result=" + GetValueAt(values, index).value]
    ensures r.outcome.Unchecked? ==> r.outcome.failure == GetValueAt(values, index).failure && r.printed == []
  {
    match GetValueAt(values, index)
    case Normal(value) => Run(Normal(()), ["result=" + value])
    case Checked(ex) => Run(Checked(ex), [])
    case Unchecked(ex) => Run(Unchecked(ex), [])
  }

  /** `main`, with its fixed array and index: it ends normally after printing
      exactly one line, "result=" followed by the element at that index. */
  function EntryPoint(): (r: Run<()>)
    ensures r.outcome == Normal(())
    ensures r.printed == ["result=" + MainValues[MainIndex]]
  {
    LookupInBounds(MainValues, MainIndex);
    MainWith(Some(MainValues), MainIndex)
  }

  /** A valid lookup returns exactly the element and raises nothing, through
      both layers. */
  lemma LookupInBounds(values: seq<string>, index: int)
    requires 0 <= index < |values|
    ensures HandleExceptions(Some(values), index) == Normal(values[index])
    ensures GetValueAt(Some(values), index) == Normal(values[index])
  {
  }

  /** At the boundary every failure of the lookup is a MyUncheckedException
      wrapping the MyFirstCheckedException that classified it, which in turn
      wraps the exception the virtual machine raised: the cause chain has
      exactly these three links, and the null check wins over the bounds
      check whatever the index. */
  lemma BoundaryCauseChain(values: Option<seq<string>>, index: int)
    requires values.None? || index < 0 || index >= |values.value|
    ensures GetValueAt(values, index).Unchecked?
    ensures var f := GetValueAt(values, index).failure;
            |Chain(f)| == 3 &&
            Chain(f)[0].kind == MyUnchecked &&
            Chain(f)[1] == HandleExceptions(values, index).failure &&
            Chain(f)[1].kind == FirstChecked &&
            Chain(f)[1].message == Text(if values.None? then NullArrayMessage else BadIndexMessage) &&
            RootCause(f).kind == (if values.None? then NullPointer else ArrayIndexOutOfBounds)
  {
  }

  /** `main` as written prints the single line "result=weekend!" and ends normally. */
  lemma MainPrintsResult()
    ensures EntryPoint().outcome == Normal(())
    ensures EntryPoint().printed == ["result=weekend!"]
  {
    LookupInBounds(MainValues, MainIndex);
    assert MainValues[MainIndex] == "weekend!";
    assert "result=" + "weekend!" == "result=weekend!";
  }

  /** With index 5 instead, `main` prints nothing and ends with a
      MyUncheckedException whose cause carries "bad value for index". */
  lemma MainWithIndexFive()
    ensures MainWith(Some(MainValues), 5).printed == []
    ensures MainWith(Some(MainValues), 5).outcome.Unchecked?
    ensures var f := MainWith(Some(MainValues), 5).outcome.failure;
            f.kind == MyUnchecked && f.cause.Some? &&
            f.cause.value.kind == FirstChecked && f.cause.value.message == Text(BadIndexMessage)
  {
  }
}
