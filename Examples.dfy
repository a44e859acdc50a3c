/** The error-handling scenarios of the Examples class. A `String` argument is
    an `Option<string>` (`None` is null). Calls that only throw or print are
    functions returning a `Run` (outcome and printed lines), and so is
    rethrowException, whose catch clause only throws; the other scenarios
    built around a try statement are methods that append each printed line to
    `printed` as the statement runs and return how it ended. */
module Examples {
  import opened Failures
  import JavaRuntime
  import MyFirstCheckedException
  import MySecondCheckedException
  import MyUncheckedException

  const ValueIsNull: string := "value is null"
  const ContextualMessage: string := "contextual message"
  const CalledFirstOk: string := "called throwExplicitChecked without error :)"
  const CalledSecondOk: string := "called throwSecondExplicitChecked without error :)"

  function ValueLine(value: string): string {
    "value=" + value
  }

  /** The line of the MyFirstCheckedException clause of handleChecked and tryMultipleCatch. */
  function FirstErrorLine(message: string): string {
    "error calling throwExplicitChecked, message=" + message
  }

  /** The line of the MySecondCheckedException clause of tryMultipleCatch. */
  function SecondErrorLine(message: string): string {
    "error calling throwSecondExplicitChecked, message=" + message
  }

  /** The line of the combined clause of tryMultipleSingleCatch. */
  function SingleCatchLine(message: string): string {
    "error in tryMultipleSingleCatch, message=" + message
  }

  function CatchLine(success: bool): string {
    "catch bloc, success=" + JavaRuntime.BoolText(success)
  }

  function FinallyLine(success: bool): string {
    "finally bloc, success=" + JavaRuntime.BoolText(success)
  }

  /** `throwImplicitUnchecked(value)`: `value.length()` fails on null before
      anything is printed; otherwise the length is printed in decimal. */
  function ThrowImplicitUnchecked(value: Option<string>): (r: Run<()>)
    ensures r.outcome.WellFormed() && !r.outcome.Checked?
    ensures value.None? ==> r.outcome.Unchecked? && r.outcome.failure.kind == NullPointer && r.printed == []
    ensures value.Some? ==>
              r.outcome == Normal(()) && r.printed == [JavaRuntime.Decimal(|value.value|)] &&
              JavaRuntime.DigitsValue(r.printed[0]) == |value.value|
  {
    match JavaRuntime.Length(value)
    case Normal(length) =>
      JavaRuntime.DecimalRoundTrip(length);
      Run(Normal(()), [JavaRuntime.Decimal(length)])
    case Checked(ex) => Run(Checked(ex), [])
    case Unchecked(ex) => Run(Unchecked(ex), [])
  }

  /** `throwExplicitUnchecked()`: always throws an IllegalArgumentException
      without message, never returns normally. */
  function ThrowExplicitUnchecked(): (r: Run<()>)
    ensures r.outcome.Unchecked? && r.outcome.WellFormed()
    ensures r.outcome.failure.kind == IllegalArgument
    ensures r.outcome.failure.message == NoDetail && r.outcome.failure.cause == None
    ensures r.printed == []
  {
    Run(Raise(JavaRuntime.NewIllegalArgument()), [])
  }

  /** `throwExplicitCustomUnchecked(value)`: a MyUncheckedException "value is
      null" for null, without printing; otherwise prints "value=" + value. */
  function ThrowExplicitCustomUnchecked(value: Option<string>): (r: Run<()>)
    ensures r.outcome.WellFormed() && !r.outcome.Checked?
    ensures r.outcome.Normal? <==> value.Some?
    ensures value.None? ==>
              r.outcome.failure.kind == MyUnchecked && r.outcome.failure.message == Text(ValueIsNull) &&
              r.outcome.failure.cause == None && r.printed == []
    ensures value.Some? ==> r.printed == [ValueLine(value.value)]
  {
    match value
    case None => Run(Raise(MyUncheckedException.WithMessage(ValueIsNull)), [])
    case Some(v) => Run(Normal(()), [ValueLine(v)])
  }

  /** `throwExplicitChecked(value) throws MyFirstCheckedException`: a
      MyFirstCheckedException "value is null" for null, without printing;
      otherwise prints "value=" + value. */
  function ThrowExplicitChecked(value: Option<string>): (r: Run<()>)
    ensures r.outcome.WellFormed() && r.outcome.Declares({FirstChecked}) && !r.outcome.Unchecked?
    ensures r.outcome.Checked? <==> value.None?
    ensures value.None? ==>
              r.outcome.failure.kind == FirstChecked && r.outcome.failure.message == Text(ValueIsNull) &&
              r.outcome.failure.cause == None && r.printed == []
    ensures value.Some? ==> r.printed == [ValueLine(value.value)]
  {
    match value
    case None => Run(Raise(MyFirstCheckedException.WithMessage(ValueIsNull)), [])
    case Some(v) => Run(Normal(()), [ValueLine(v)])
  }

  /** `propagateChecked(value) throws MyFirstCheckedException`: calls
      throwExplicitChecked without catching; the failure passes through
      unchanged, so the call layer cannot be told apart from the callee. */
  function PropagateChecked(value: Option<string>): (r: Run<()>)
    ensures r.outcome.Declares({FirstChecked})
    ensures r == ThrowExplicitChecked(value)
  {
    var call := ThrowExplicitChecked(value);
    match call.outcome
    case Normal(_) => Run(Normal(()), call.printed)
    case Checked(ex) => Run(Checked(ex), call.printed)
    case Unchecked(ex) => Run(Unchecked(ex), call.printed)
  }

  /** `throwSecondExplicitChecked(value) throws MySecondCheckedException`: as
      throwExplicitChecked, with MySecondCheckedException. */
  function ThrowSecondExplicitChecked(value: Option<string>): (r: Run<()>)
    ensures r.outcome.WellFormed() && r.outcome.Declares({SecondChecked}) && !r.outcome.Unchecked?
    ensures r.outcome.Checked? <==> value.None?
    ensures value.None? ==>
              r.outcome.failure.kind == SecondChecked && r.outcome.failure.message == Text(ValueIsNull) &&
              r.outcome.failure.cause == None && r.printed == []
    ensures value.Some? ==> r.printed == [ValueLine(value.value)]
  {
    match value
    case None => Run(Raise(MySecondCheckedException.WithMessage(ValueIsNull)), [])
    case Some(v) => Run(Normal(()), [ValueLine(v)])
  }

  /** `rethrowException(value)`: catches the MyFirstCheckedException of
      throwExplicitChecked and throws a MyUncheckedException "contextual
      message" whose cause is the caught exception itself. */
  function RethrowException(value: Option<string>): (r: Run<()>)
    ensures r.outcome.WellFormed() && !r.outcome.Checked?
    ensures r.outcome.Normal? <==> value.Some?
    ensures value.Some? ==> r.printed == [ValueLine(value.value), CalledFirstOk]
    ensures value.None? ==>
              r.printed == [] &&
              r.outcome.failure.kind == MyUnchecked &&
              r.outcome.failure.message == Text(ContextualMessage) &&
              r.outcome.failure.cause == Some(ThrowExplicitChecked(value).outcome.failure) &&
              r.outcome.failure.cause.value.kind == FirstChecked &&
              r.outcome.failure.cause.value.message == Text(ValueIsNull) &&
              |Chain(r.outcome.failure)| == 2
  {
    var call := ThrowExplicitChecked(value);
    match call.outcome
    case Normal(_) => Run(Normal(()), call.printed + [CalledFirstOk])
    case Checked(ex) =>
      (match SelectHandler([{FirstChecked}], ex.kind)
       case Some(_) => Run(Raise(MyUncheckedException.WithMessageAndCause(ContextualMessage, ex)), call.printed)
       case None => Run(Checked(ex), call.printed))
    case Unchecked(ex) => Run(Unchecked(ex), call.printed)
  }

  /** Strings that differ at some position differ. */
  lemma HeadsDiffer(a: string, b: string, k: nat)
    requires k < |a| && k < |b| && a[k] != b[k]
    ensures a != b
  {
  }

  /** The lines handleChecked prints differ from one another. */
  lemma HandleCheckedLinesDiffer(v: string)
    ensures ValueLine(v) != CalledFirstOk && FirstErrorLine(ValueIsNull) != CalledFirstOk
  {
    assert "value="[0] == 'v';
    assert "error calling throwExplicitChecked, message="[0] == 'e';
    HeadsDiffer(ValueLine(v), CalledFirstOk, 0);
    HeadsDiffer(FirstErrorLine(ValueIsNull), CalledFirstOk, 0);
  }

  /** The lines tryWithFinally prints differ from one another. */
  lemma FinallyLinesDiffer(v: string)
    ensures FinallyLine(true) != FinallyLine(false) && CatchLine(true) != CatchLine(false)
    ensures forall b: bool, c: bool :: CatchLine(b) != FinallyLine(c)
    ensures forall b: bool :: ValueLine(v) != FinallyLine(b) && ValueLine(v) != CatchLine(b)
  {
    assert "value="[0] == 'v';
    assert "catch bloc, success="[0] == 'c';
    assert "finally bloc, success="[0] == 'f';
    assert FinallyLine(true)[22] == 't' && FinallyLine(false)[22] == 'f';
    assert CatchLine(true)[20] == 't' && CatchLine(false)[20] == 'f';
    forall b: bool, c: bool ensures CatchLine(b) != FinallyLine(c) {
      HeadsDiffer(CatchLine(b), FinallyLine(c), 0);
    }
    forall b: bool ensures ValueLine(v) != FinallyLine(b) && ValueLine(v) != CatchLine(b) {
      HeadsDiffer(ValueLine(v), FinallyLine(b), 0);
      HeadsDiffer(ValueLine(v), CatchLine(b), 0);
    }
  }

  /** No line tryMultipleCatch prints on the way is one of its clause lines,
      and the two clause lines differ. */
  lemma MultiCatchLinesDiffer(v: string)
    ensures FirstErrorLine(ValueIsNull) != SecondErrorLine(ValueIsNull)
    ensures forall line | line in [ValueLine(v), CalledFirstOk, CalledSecondOk] ::
              line != FirstErrorLine(ValueIsNull) && line != SecondErrorLine(ValueIsNull)
  {
    assert "value="[0] == 'v';
    assert "error calling throwExplicitChecked, message="[0] == 'e';
    assert "error calling throwExplicitChecked, message="[19] == 'E';
    assert "error calling throwSecondExplicitChecked, message="[0] == 'e';
    assert "error calling throwSecondExplicitChecked, message="[19] == 'S';
    HeadsDiffer(FirstErrorLine(ValueIsNull), SecondErrorLine(ValueIsNull), 19);
    assert CalledFirstOk[0] == 'c' && CalledSecondOk[0] == 'c';
    forall line | line in [ValueLine(v), CalledFirstOk, CalledSecondOk]
      ensures line != FirstErrorLine(ValueIsNull) && line != SecondErrorLine(ValueIsNull)
    {
      assert line[0] in "vc";
      HeadsDiffer(line, FirstErrorLine(ValueIsNull), 0);
      HeadsDiffer(line, SecondErrorLine(ValueIsNull), 0);
    }
  }

  /** No line tryMultipleSingleCatch prints on the way is its clause line. */
  lemma SingleCatchLinesDiffer(v: string)
    ensures forall line | line in [ValueLine(v), CalledFirstOk, CalledSecondOk] ::
              line != SingleCatchLine(ValueIsNull)
  {
    assert "value="[0] == 'v';
    assert "error in tryMultipleSingleCatch, message="[0] == 'e';
    assert CalledFirstOk[0] == 'c' && CalledSecondOk[0] == 'c';
    forall line | line in [ValueLine(v), CalledFirstOk, CalledSecondOk]
      ensures line != SingleCatchLine(ValueIsNull)
    {
      assert line[0] in "vc";
      HeadsDiffer(line, SingleCatchLine(ValueIsNull), 0);
    }
  }

  /** `handleChecked(value)`: catches the MyFirstCheckedException and reports
      its message; nothing escapes, and the success line is printed only when
      the call did not fail. */
  method HandleChecked(value: Option<string>) returns (o: Outcome<()>, printed: seq<string>)
    ensures o == Normal(())
    ensures value.None? ==> printed == [FirstErrorLine(ValueIsNull)]
    ensures value.Some? ==> printed == [ValueLine(value.value), CalledFirstOk]
    ensures CalledFirstOk in printed <==> value.Some?
  {
    printed := [];
    var call := ThrowExplicitChecked(value);
    printed := printed + call.printed;
    match call.outcome {
      case Normal(_) =>
        printed := printed + [CalledFirstOk];
        o := Normal(());
      case Checked(ex) =>
        match SelectHandler([{FirstChecked}], ex.kind) {
          case Some(_) =>
            printed := printed + [FirstErrorLine(ex.message.text)];
            o := Normal(());
          case None =>
            o := Checked(ex);
        }
      case Unchecked(ex) =>
        o := Unchecked(ex);
    }
    HandleCheckedLinesDiffer(if value.Some? then value.value else "");
  }

  /** `swallowException(value)`: catches the MyFirstCheckedException and does
      nothing with it (a practice the source itself warns against): nothing
      escapes and nothing reports the failure. */
  method SwallowException(value: Option<string>) returns (o: Outcome<()>, printed: seq<string>)
    ensures o == Normal(())
    ensures value.None? ==> printed == []
    ensures value.Some? ==> printed == [ValueLine(value.value), CalledFirstOk]
  {
    printed := [];
    var call := ThrowExplicitChecked(value);
    printed := printed + call.printed;
    match call.outcome {
      case Normal(_) =>
        printed := printed + [CalledFirstOk];
        o := Normal(());
      case Checked(ex) =>
        match SelectHandler([{FirstChecked}], ex.kind) {
          case Some(_) =>
            o := Normal(());
          case None =>
            o := Checked(ex);
        }
      case Unchecked(ex) =>
        o := Unchecked(ex);
    }
  }

  /** `tryWithFinally(value)`: the flag `success` is set only after the call
      returned; the catch clause reports it, and the finally clause runs
      exactly once, last, and reports the flag's latest value. */
  method TryWithFinally(value: Option<string>) returns (o: Outcome<()>, printed: seq<string>)
    ensures o == Normal(())
    ensures |printed| >= 1 && printed[|printed| - 1] == FinallyLine(value.Some?)
    ensures forall i :: 0 <= i < |printed| - 1 ==> printed[i] != FinallyLine(true) && printed[i] != FinallyLine(false)
    ensures CatchLine(false) in printed <==> value.None?
    ensures CatchLine(true) !in printed
    ensures value.None? ==> printed == [CatchLine(false), FinallyLine(false)]
    ensures value.Some? ==> printed == [ValueLine(value.value), FinallyLine(true)]
  {
    var success := false;
    printed := [];
    var call := ThrowExplicitChecked(value);
    printed := printed + call.printed;
    match call.outcome {
      case Normal(_) =>
        success := true;
        o := Normal(());
      case Checked(ex) =>
        match SelectHandler([{FirstChecked}], ex.kind) {
          case Some(_) =>
            printed := printed + [CatchLine(success)];
            o := Normal(());
          case None =>
            o := Checked(ex);
        }
      case Unchecked(ex) =>
        o := Unchecked(ex);
    }
    printed := printed + [FinallyLine(success)];
    FinallyLinesDiffer(if value.Some? then value.value else "");
  }

  /** `tryMultipleCatch(first, second)`: two calls in one try block with one
      catch clause per kind. A failure of the first call skips the rest of
      the block, so only its clause fires; the second clause fires only when
      the first call returned and the second failed; at most one clause line
      is printed and nothing escapes. */
  method TryMultipleCatch(first: Option<string>, second: Option<string>) returns (o: Outcome<()>, printed: seq<string>)
    ensures o == Normal(())
    ensures first.None? ==> printed == [FirstErrorLine(ValueIsNull)]
    ensures first.Some? && second.None? ==>
              printed == [ValueLine(first.value), CalledFirstOk, SecondErrorLine(ValueIsNull)]
    ensures first.Some? && second.Some? ==>
              printed == [ValueLine(first.value), CalledFirstOk, ValueLine(second.value), CalledSecondOk]
    ensures printed[|printed| - 1] == FirstErrorLine(ValueIsNull) <==> first.None?
    ensures printed[|printed| - 1] == SecondErrorLine(ValueIsNull) <==> first.Some? && second.None?
    ensures forall i :: 0 <= i < |printed| - 1 ==>
              printed[i] != FirstErrorLine(ValueIsNull) && printed[i] != SecondErrorLine(ValueIsNull)
  {
    printed := [];
    var call := ThrowExplicitChecked(first);
    printed := printed + call.printed;
    if call.outcome.Normal? {
      printed := printed + [CalledFirstOk];
      call := ThrowSecondExplicitChecked(second);
      printed := printed + call.printed;
      if call.outcome.Normal? {
        printed := printed + [CalledSecondOk];
      }
    }
    o := call.outcome;
    if o.Checked? {
      match SelectHandler([{FirstChecked}, {SecondChecked}], o.failure.kind) {
        case Some(0) =>
          printed := printed + [FirstErrorLine(o.failure.message.text)];
          o := Normal(());
        case Some(1) =>
          printed := printed + [SecondErrorLine(o.failure.message.text)];
          o := Normal(());
        case _ =>
      }
    }
    ghost var firstText, secondText := if first.Some? then first.value else "", if second.Some? then second.value else "";
    MultiCatchLinesDiffer(firstText);
    MultiCatchLinesDiffer(secondText);
    forall i | 0 <= i < |printed| - 1
      ensures printed[i] != FirstErrorLine(ValueIsNull) && printed[i] != SecondErrorLine(ValueIsNull)
    {
      assert printed[i] in [ValueLine(firstText), CalledFirstOk, CalledSecondOk] ||
             printed[i] in [ValueLine(secondText), CalledFirstOk, CalledSecondOk];
    }
  }

  /** `tryMultipleSingleCatch(first, second)`: the same try block with one
      clause catching both kinds; its line is printed once exactly when one
      of the calls failed, and nothing escapes. */
  method TryMultipleSingleCatch(first: Option<string>, second: Option<string>) returns (o: Outcome<()>, printed: seq<string>)
    ensures o == Normal(())
    ensures first.None? ==> printed == [SingleCatchLine(ValueIsNull)]
    ensures first.Some? && second.None? ==>
              printed == [ValueLine(first.value), CalledFirstOk, SingleCatchLine(ValueIsNull)]
    ensures first.Some? && second.Some? ==>
              printed == [ValueLine(first.value), CalledFirstOk, ValueLine(second.value), CalledSecondOk]
    ensures printed[|printed| - 1] == SingleCatchLine(ValueIsNull) <==> first.None? || second.None?
    ensures forall i :: 0 <= i < |printed| - 1 ==> printed[i] != SingleCatchLine(ValueIsNull)
  {
    printed := [];
    var call := ThrowExplicitChecked(first);
    printed := printed + call.printed;
    if call.outcome.Normal? {
      printed := printed + [CalledFirstOk];
      call := ThrowSecondExplicitChecked(second);
      printed := printed + call.printed;
      if call.outcome.Normal? {
        printed := printed + [CalledSecondOk];
      }
    }
    o := call.outcome;
    if o.Checked? {
      match SelectHandler([{FirstChecked, SecondChecked}], o.failure.kind) {
        case Some(_) =>
          printed := printed + [SingleCatchLine(o.failure.message.text)];
          o := Normal(());
        case None =>
      }
    }
    ghost var firstText, secondText := if first.Some? then first.value else "", if second.Some? then second.value else "";
    SingleCatchLinesDiffer(firstText);
    SingleCatchLinesDiffer(secondText);
    forall i | 0 <= i < |printed| - 1
      ensures printed[i] != SingleCatchLine(ValueIsNull)
    {
      assert printed[i] in [ValueLine(firstText), CalledFirstOk, CalledSecondOk] ||
             printed[i] in [ValueLine(secondText), CalledFirstOk, CalledSecondOk];
    }
  }
}
