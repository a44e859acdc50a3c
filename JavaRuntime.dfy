/** The parts of the Java runtime the program relies on: the exceptions the
    virtual machine raises by itself, array access, String.length(), and the
    conversion of int and boolean values to text when they are printed or
    concatenated to a string. */
module JavaRuntime {
  import opened Failures

  /** The NullPointerException the virtual machine raises on a null dereference. */
  function NullPointerRaised(): (f: Failure)
    ensures f.kind == NullPointer && !IsChecked(f.kind) && f.cause == None
  {
    Failure(NullPointer, RuntimeDetail, None)
  }

  /** The ArrayIndexOutOfBoundsException the virtual machine raises on a bad index. */
  function IndexOutOfBoundsRaised(): (f: Failure)
    ensures f.kind == ArrayIndexOutOfBounds && !IsChecked(f.kind) && f.cause == None
  {
    Failure(ArrayIndexOutOfBounds, RuntimeDetail, None)
  }

  /** `new IllegalArgumentException()`: no message, no cause. */
  function NewIllegalArgument(): (f: Failure)
    ensures f.kind == IllegalArgument && !IsChecked(f.kind)
    ensures f.message == NoDetail && f.cause == None
  {
    Failure(IllegalArgument, NoDetail, None)
  }

  /** The array access `a[index]`, evaluated as section 15.10.4 of the Java
      Language Specification orders it: a null array reference fails with
      NullPointerException whatever the index, and only then is the index
      checked against the bounds. A null array is `None`. */
  function ArrayAccess<T>(a: Option<seq<T>>, index: int): (r: Outcome<T>)
    ensures r.WellFormed() && !r.Checked?
    ensures a.None? ==> r.Unchecked? && r.failure.kind == NullPointer
    ensures a.Some? && !(0 <= index < |a.value|) ==>
              r.Unchecked? && r.failure.kind == ArrayIndexOutOfBounds
    ensures r.Normal? <==> a.Some? && 0 <= index < |a.value|
    ensures r.Normal? ==> r.value == a.value[index]
    ensures r.Unchecked? ==> r.failure.cause == None
  {
    match a
    case None => Raise(NullPointerRaised())
    case Some(values) =>
      if 0 <= index < |values| then Normal(values[index]) else Raise(IndexOutOfBoundsRaised())
  }

  /** `s.length()` on a possibly null string reference. */
  function Length(s: Option<string>): (r: Outcome<nat>)
    ensures r.WellFormed() && !r.Checked?
    ensures r.Normal? <==> s.Some?
    ensures r.Normal? ==> r.value == |s.value|
    ensures r.Unchecked? ==> r.failure.kind == NullPointer
  {
    match s
    case None => Raise(NullPointerRaised())
    case Some(text) => Normal(|text|)
  }

  predicate IsDigit(c: char) {
    '0' <= c <= '9'
  }

  function DigitChar(d: nat): (c: char)
    requires d < 10
    ensures IsDigit(c) && (c - '0') as nat == d
  {
    ['0', '1', '2', '3', '4', '5', '6', '7', '8', '9'][d]
  }

  /** String.valueOf(int) for a non-negative value: its decimal digits, without
      a leading zero unless the value is zero. */
  function Decimal(n: nat): (s: string)
    ensures |s| >= 1 && forall i :: 0 <= i < |s| ==> IsDigit(s[i])
    ensures s[0] == '0' ==> n == 0
    ensures |s| > 1 ==> s[0] != '0'
    ensures n == 0 ==> s == "0"
    decreases n
  {
    if n < 10 then [DigitChar(n)] else Decimal(n / 10) + [DigitChar(n % 10)]
  }

  /** The number a string of decimal digits denotes. */
  function DigitsValue(s: string): nat
    requires forall i :: 0 <= i < |s| ==> IsDigit(s[i])
  {
    if s == [] then 0
    else
      var last := s[|s| - 1];
      assert IsDigit(last);
      DigitsValue(s[..|s| - 1]) * 10 + (last - '0') as nat
  }

  /** Reading back the printed digits gives the number that was printed. */
  lemma {:induction false} DecimalRoundTrip(n: nat)
    ensures DigitsValue(Decimal(n)) == n
    decreases n
  {
    if n >= 10 {
      var s := Decimal(n);
      assert s[..|s| - 1] == Decimal(n / 10);
      DecimalRoundTrip(n / 10);
    }
  }

  /** String.valueOf(boolean). */
  function BoolText(b: bool): (s: string)
    ensures s == "true" || s == "false"
    ensures b <==> s == "true"
  {
    if b then "true" else "false"
  }
}
