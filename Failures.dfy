/** Java's Throwable hierarchy, as far as this program uses it, as one closed
    datatype: every failure has a kind, a detail message and an optional cause.
    Checked kinds (subclasses of Exception that are not RuntimeException) travel
    in a declared error channel; unchecked kinds abort. */
module Failures {

  datatype Option<+T> = None | Some(value: T)

  /** The exception classes the program throws or catches. */
  datatype Kind =
    | FirstChecked           // MyFirstCheckedException extends Exception
    | SecondChecked          // MySecondCheckedException extends Exception
    | MyUnchecked            // MyUncheckedException extends RuntimeException
    | IllegalArgument        // java.lang.IllegalArgumentException
    | NullPointer            // java.lang.NullPointerException
    | ArrayIndexOutOfBounds  // java.lang.ArrayIndexOutOfBoundsException

  /** A kind is checked when its class extends Exception but not RuntimeException. */
  predicate IsChecked(k: Kind) {
    k == FirstChecked || k == SecondChecked
  }

  /** What getMessage() reports: no message, a text given to the constructor,
      or a text the Java runtime computes (from the cause, or for an exception
      the virtual machine raises itself), whose contents are not modelled. */
  datatype Detail = NoDetail | Text(text: string) | RuntimeDetail

  /** An immutable failure; `cause` is the failure it wraps, if any. */
  datatype Failure = Failure(kind: Kind, message: Detail, cause: Option<Failure>)

  /** How a call ends: it returns a value, it fails with a failure its
      signature must declare (checked), or it aborts (unchecked). */
  datatype Outcome<+T> = Normal(value: T) | Checked(failure: Failure) | Unchecked(failure: Failure)
  {
    /** Checked failures travel only in the declared channel, unchecked ones only in the abort channel. */
    predicate WellFormed() {
      (Checked? ==> IsChecked(failure.kind)) && (Unchecked? ==> !IsChecked(failure.kind))
    }

    /** The `throws` clause: every checked failure that can escape is of one of `kinds`. */
    predicate Declares(kinds: set<Kind>) {
      Checked? ==> failure.kind in kinds
    }
  }

  /** A call's outcome together with the lines it printed on standard output, in order. */
  datatype Run<+T> = Run(outcome: Outcome<T>, printed: seq<string>)

  /** `throw f`: the channel is decided by the class of `f` alone. */
  function Raise<T>(f: Failure): (o: Outcome<T>)
    ensures o.WellFormed() && !o.Normal? && o.failure == f
    ensures o.Checked? <==> IsChecked(f.kind)
  {
    if IsChecked(f.kind) then Checked(f) else Unchecked(f)
  }

  /** Selection of the catch clause of a try statement: each clause lists the
      kinds it catches (a multi-catch lists several); the first clause, in
      declaration order, that lists the failure's kind handles it, and if none
      does the failure propagates. */
  function SelectHandler(clauses: seq<set<Kind>>, k: Kind): (r: Option<nat>)
    ensures r.Some? ==> r.value < |clauses| && k in clauses[r.value]
    ensures r.Some? ==> forall j :: 0 <= j < r.value ==> k !in clauses[j]
    ensures r.None? <==> forall j :: 0 <= j < |clauses| ==> k !in clauses[j]
    decreases |clauses|
  {
    if clauses == [] then None
    else if k in clauses[0] then Some(0)
    else
      match SelectHandler(clauses[1..], k)
      case None => None
      case Some(i) => Some(i + 1)
  }

  /** The cause chain of `f`, outermost first: `f`, its cause, the cause's cause, ... */
  function Chain(f: Failure): (c: seq<Failure>)
    ensures |c| >= 1 && c[0] == f && c[|c| - 1].cause == None
    ensures forall i :: 0 <= i < |c| - 1 ==> c[i].cause == Some(c[i + 1])
    decreases f
  {
    match f.cause
    case None => [f]
    case Some(g) => [f] + Chain(g)
  }

  /** The innermost failure of the chain: the one that started it. */
  function RootCause(f: Failure): (root: Failure)
    ensures root.cause == None
    ensures root in Chain(f)
  {
    var c := Chain(f);
    c[|c| - 1]
  }

  /** Every suffix of a chain is the chain of the failure it starts with. */
  lemma {:induction false} ChainSuffix(f: Failure, i: nat)
    requires i < |Chain(f)|
    ensures Chain(Chain(f)[i]) == Chain(f)[i..]
    decreases f
  {
    if i > 0 {
      var g := f.cause.value;
      assert Chain(f) == [f] + Chain(g);
      ChainSuffix(g, i - 1);
      assert Chain(f)[i] == Chain(g)[i - 1];
      assert Chain(f)[i..] == Chain(g)[i - 1..];
    }
  }

  /** A cause chain never comes back to a failure it already passed: it is
      acyclic and ends in a failure with no cause. */
  lemma ChainAcyclic(f: Failure)
    ensures forall i, j :: 0 <= i < j < |Chain(f)| ==> Chain(f)[i] != Chain(f)[j]
  {
    var c := Chain(f);
    forall i, j | 0 <= i < j < |c|
      ensures c[i] != c[j]
    {
      ChainSuffix(f, i);
      ChainSuffix(f, j);
      assert |Chain(c[i])| == |c| - i;
      assert |Chain(c[j])| == |c| - j;
    }
  }

  /** Wrapping a failure as the cause of a new one keeps the root of its chain. */
  lemma WrapKeepsRootCause(outer: Failure, inner: Failure)
    requires outer.cause == Some(inner)
    ensures Chain(outer) == [outer] + Chain(inner)
    ensures RootCause(outer) == RootCause(inner)
  {
    var c, d := Chain(outer), Chain(inner);
    assert c == [outer] + d;
    assert c[|c| - 1] == d[|d| - 1];
  }
}
