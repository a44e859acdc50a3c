# Exceptions demo — a verified model of failure classification and propagation

The repository is a small Java teaching program about exceptions. Its
`Application` class looks up an element of a `String[]` and turns the two
runtime failures of the access (null array, bad index) into a checked
`MyFirstCheckedException`, which `getValueAt` then converts into an unchecked
`MyUncheckedException` at the boundary. Its `Examples` class holds one small
method per exception idiom: implicit and explicit unchecked throws, checked
throws and their propagation, handling, swallowing, `finally`, a try block
with two catch clauses or one multi-catch clause, and wrap-and-rethrow.

The model, in Dafny:

- `Failures.dfy` — every exception is an immutable value
  `Failure(kind, message, cause)` of one closed datatype. `Kind` names the six
  classes involved. `IsChecked` holds for the two classes that extend
  `Exception` and not `RuntimeException`. A call ends in an `Outcome`:
  `Normal(value)`, `Checked(failure)` (the error channel a `throws` clause
  declares) or `Unchecked(failure)` (the abort path). `Raise` is `throw`: the
  class alone decides the channel. `SelectHandler` is Java's choice of catch
  clause. `Chain` and `RootCause` describe the cause chain.
- `JavaRuntime.dfy` — what the Java runtime contributes: the exceptions the
  virtual machine raises by itself, array access in the order of section
  15.10.4 of the Java Language Specification (null reference first, then the
  bounds), `String.length()`, and the text of an `int` or `boolean` that is
  printed or concatenated.
- `MyFirstCheckedException.dfy`, `MySecondCheckedException.dfy`,
  `MyUncheckedException.dfy` — the constructors of the three custom classes,
  each a function that builds the failure.
- `Application.dfy` — `handleExceptions`, `getValueAt` and `main`.
- `Examples.dfy` — the `Examples` scenarios.

A `String` or `String[]` reference is an `Option` (`None` is `null`).
`System.out.println` is modelled as appending a line to the sequence of
printed lines. The methods of `Examples` that contain a try statement are
Dafny methods, except `rethrowException`, whose catch clause only throws,
which is a function. The methods append to a local `printed` sequence in
source order and return it with the outcome. The calls they make, which only
throw or print, are functions returning a `Run` (outcome and printed lines). Since failures are immutable
values, "the cause is that very exception" is stated as equality of values.

- `MySecondCheckedException` has no (message, cause) constructor, so the
  model offers none.
- `MyUncheckedException` is given only the three constructors the program
  calls.
- `main` prints `"result=" + value` only when the lookup succeeds. When it
  fails, nothing is printed and the unchecked failure ends the program.

## Model

| member | source | states |
|---|---|---|
| `Failures.Raise` | exceptions/src/fr/formation/exceptions/Examples.java:12-28 | a thrown failure goes to the declared (checked) channel exactly when its class is checked, and to the abort channel otherwise |
| `Failures.SelectHandler` | exceptions/src/fr/formation/exceptions/Examples.java:116-131 | the clause that handles a failure is the first one, in declaration order, listing its kind; no earlier clause lists it; none is chosen exactly when no clause lists it |
| `Failures.Chain` | exceptions/src/fr/formation/exceptions/MyFirstCheckedException.java:14-20 | the cause chain starts at the failure, each link's cause is the next link, and it ends with a failure that has no cause |
| `Failures.RootCause` | exceptions/src/fr/formation/exceptions/MyFirstCheckedException.java:14-20 | the root cause lies on the chain and has no cause itself |
| `Failures.ChainSuffix` | exceptions/src/fr/formation/exceptions/MyFirstCheckedException.java:14-20 | the chain of any link is the rest of the chain from that link |
| `Failures.ChainAcyclic` | exceptions/src/fr/formation/exceptions/MyFirstCheckedException.java:14-20 | no failure occurs twice on a cause chain (chains are acyclic) |
| `Failures.WrapKeepsRootCause` | exceptions/src/fr/formation/exceptions/Examples.java:161 | wrapping a failure as the cause of a new one extends its chain by one link in front and keeps its root cause |
| `JavaRuntime.NullPointerRaised` | exceptions/src/fr/formation/exceptions/Examples.java:44 | the NullPointerException the virtual machine raises on a null dereference is unchecked and has no cause |
| `JavaRuntime.IndexOutOfBoundsRaised` | exceptions/src/fr/formation/exceptions/Application.java:23 | the ArrayIndexOutOfBoundsException the virtual machine raises on a bad index is unchecked and has no cause |
| `JavaRuntime.NewIllegalArgument` | exceptions/src/fr/formation/exceptions/Examples.java:49 | `new IllegalArgumentException()` is unchecked, with no message and no cause |
| `JavaRuntime.ArrayAccess` | exceptions/src/fr/formation/exceptions/Application.java:23 | `values[index]` yields the element for a non-null array and an index in range, NullPointerException for a null array whatever the index, and ArrayIndexOutOfBoundsException for any other index, negative ones included; it never fails with a checked kind |
| `JavaRuntime.Length` | exceptions/src/fr/formation/exceptions/Examples.java:44 | `value.length()` is the string's length, or a NullPointerException for null |
| `JavaRuntime.Decimal` | exceptions/src/fr/formation/exceptions/Examples.java:45 | the printed length is a non-empty string of digits with no leading zero; zero is printed as exactly "0" |
| `JavaRuntime.DecimalRoundTrip` | exceptions/src/fr/formation/exceptions/Examples.java:45 | reading the printed digits back gives the length that was printed |
| `JavaRuntime.BoolText` | exceptions/src/fr/formation/exceptions/Examples.java:110-112 | `success` is printed as "true" exactly when it is true, and as "false" otherwise |
| `MyFirstCheckedException.New` | exceptions/src/fr/formation/exceptions/MyFirstCheckedException.java:6-8 | the no-argument form has no message and no cause, and is checked |
| `MyFirstCheckedException.WithMessage` | exceptions/src/fr/formation/exceptions/MyFirstCheckedException.java:10-12 | the message form reads back the same message and has no cause |
| `MyFirstCheckedException.WithCause` | exceptions/src/fr/formation/exceptions/MyFirstCheckedException.java:14-16 | the cause form reads back the same cause; its message is left unspecified |
| `MyFirstCheckedException.WithMessageAndCause` | exceptions/src/fr/formation/exceptions/MyFirstCheckedException.java:18-20 | the message-and-cause form reads back both the message and the same cause |
| `MyFirstCheckedException.ThrownInDeclaredChannel` | exceptions/src/fr/formation/exceptions/MyFirstCheckedException.java:4 | whatever constructor built it, the exception extends `Exception`, so when thrown it travels in the declared channel |
| `MySecondCheckedException.New` | exceptions/src/fr/formation/exceptions/MySecondCheckedException.java:6-8 | the no-argument form has no message and no cause, and is checked |
| `MySecondCheckedException.WithMessage` | exceptions/src/fr/formation/exceptions/MySecondCheckedException.java:10-12 | the message form reads back the same message and has no cause |
| `MySecondCheckedException.WithCause` | exceptions/src/fr/formation/exceptions/MySecondCheckedException.java:14-16 | the cause form reads back the same cause; there is no message-and-cause form |
| `MyUncheckedException.WithMessage` | exceptions/src/fr/formation/exceptions/Examples.java:56 | an unchecked failure carrying the given message and no cause |
| `MyUncheckedException.WithCause` | exceptions/src/fr/formation/exceptions/Application.java:15 | an unchecked failure whose cause is the given failure |
| `MyUncheckedException.WithMessageAndCause` | exceptions/src/fr/formation/exceptions/Examples.java:161 | an unchecked failure carrying the given message and the given failure as cause |
| `Application.HandleExceptions` | exceptions/src/fr/formation/exceptions/Application.java:19-30 | returns `values[index]` when the array is non-null and the index is in range. A null array fails with MyFirstCheckedException "array is null", caused by a NullPointerException, whatever the index. Any other index, negative included, fails with "bad value for index", caused by an ArrayIndexOutOfBoundsException. Only MyFirstCheckedException can escape, and never an unchecked failure |
| `Application.GetValueAt` | exceptions/src/fr/formation/exceptions/Application.java:11-17 | succeeds exactly when `handleExceptions` does, with the same value. A MyFirstCheckedException becomes a MyUncheckedException whose cause is that same exception. No checked failure escapes |
| `Application.MainWith` | exceptions/src/fr/formation/exceptions/Application.java:5-9 | on success prints the single line "result=" followed by the looked-up value; on failure prints nothing and ends with the unchecked failure of `getValueAt` |
| `Application.LookupInBounds` | exceptions/src/fr/formation/exceptions/Application.java:21-29 | for a non-null array and an index in range, both layers return exactly the element and raise nothing |
| `Application.BoundaryCauseChain` | exceptions/src/fr/formation/exceptions/Application.java:11-30 | every failed lookup reaches the boundary as a three-link chain: MyUncheckedException, then the classifying MyFirstCheckedException with its message, then the exception the virtual machine raised, which is the root cause. The null check wins over the bounds check |
| `Application.EntryPoint` | exceptions/src/fr/formation/exceptions/Application.java:5-8 | `main` with its fixed array and index 2 ends normally after printing exactly one line, "result=" followed by the element at index 2 |
| `Application.MainPrintsResult` | exceptions/src/fr/formation/exceptions/Application.java:5-8 | with {"Bon", " ", "weekend!"} and index 2, `main` ends normally after printing exactly "result=weekend!" |
| `Application.MainWithIndexFive` | exceptions/src/fr/formation/exceptions/Application.java:6-8 | with index 5, nothing is printed and the program ends in a MyUncheckedException whose cause is a MyFirstCheckedException "bad value for index" |
| `Examples.ThrowImplicitUnchecked` | exceptions/src/fr/formation/exceptions/Examples.java:43-46 | null fails with NullPointerException before anything is printed; otherwise the only line printed is the decimal text of the length |
| `Examples.ThrowExplicitUnchecked` | exceptions/src/fr/formation/exceptions/Examples.java:48-52 | never returns normally: always an IllegalArgumentException with no message and no cause, and nothing printed |
| `Examples.ThrowExplicitCustomUnchecked` | exceptions/src/fr/formation/exceptions/Examples.java:54-61 | null fails with MyUncheckedException "value is null" and prints nothing; otherwise it returns after printing exactly "value=" + value |
| `Examples.ThrowExplicitChecked` | exceptions/src/fr/formation/exceptions/Examples.java:66-73 | fails (only with MyFirstCheckedException "value is null", printing nothing) exactly when value is null; otherwise prints exactly "value=" + value |
| `Examples.PropagateChecked` | exceptions/src/fr/formation/exceptions/Examples.java:75-78 | the same outcome and the same printed lines as `throwExplicitChecked` for every input; its only checked failure is MyFirstCheckedException |
| `Examples.ThrowSecondExplicitChecked` | exceptions/src/fr/formation/exceptions/Examples.java:133-140 | fails (only with MySecondCheckedException "value is null", printing nothing) exactly when value is null; otherwise prints exactly "value=" + value |
| `Examples.RethrowException` | exceptions/src/fr/formation/exceptions/Examples.java:156-163 | returns normally exactly when value is non-null. For null it prints nothing and fails with MyUncheckedException "contextual message", whose cause is the caught MyFirstCheckedException "value is null" itself. No checked failure escapes |
| `Examples.HandleChecked` | exceptions/src/fr/formation/exceptions/Examples.java:84-93 | nothing escapes. For null the only line is "error calling throwExplicitChecked, message=value is null". The success line appears exactly when value is non-null |
| `Examples.SwallowException` | exceptions/src/fr/formation/exceptions/Examples.java:95-102 | nothing escapes; for null nothing at all is printed |
| `Examples.TryWithFinally` | exceptions/src/fr/formation/exceptions/Examples.java:104-114 | nothing escapes. The finally line is printed exactly once, as the last line, and reports success=true exactly when value is non-null. The catch line appears exactly when value is null and reports success=false |
| `Examples.TryMultipleCatch` | exceptions/src/fr/formation/exceptions/Examples.java:116-131 | nothing escapes. A null `first` skips the second call and fires only the first clause. A non-null `first` with a null `second` fires only the second clause. A clause line can only be the last line, so at most one is printed |
| `Examples.TryMultipleSingleCatch` | exceptions/src/fr/formation/exceptions/Examples.java:142-154 | nothing escapes. The combined clause line is printed exactly when one of the calls failed, and only as the last line. A null `first` skips the second call |

## Left out

- The text of messages the Java runtime computes is not modelled. This covers the cause-only constructors, which take `cause.toString()`, and the messages of the NullPointerException and ArrayIndexOutOfBoundsException the virtual machine raises. They are marked `RuntimeDetail` and no contract states their text.
- The model does not show what happens when `null` is passed as a constructor's message or cause. The program never does this.
- The elements of the `String[]` are non-null strings. The program's arrays hold no null element.
- The index is an unbounded integer rather than a 32-bit `int`. Only comparisons with 0 and the array length are made, so this changes nothing.
- `String.length()` is the number of `char`s of a `seq<char>`. UTF-16 surrogate details are not modelled.
- Console output is a returned sequence of lines. No real I/O takes place.
- What the JVM does with an uncaught exception is not modelled: the stack trace on standard error and the exit status belong to the runtime, not to the program.
- The `Error` category, which only a comment mentions, is not modelled.
- `Examples.main`, whose body is empty, is not modelled.
- Compile-time checking of `throws` clauses is not modelled as such. It appears structurally: `Declares` and the `Checked` channel carry checked kinds only.
- `MyUncheckedException`'s own class is not part of this model. Only the three constructors the program calls are given.
