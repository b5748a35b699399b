# Logging decorator: a Dafny model

This project models the core of a small Java library that adds logging to a
single-input, single-output operation. `LoggingDecorator.withLogging(operation,
methodName)` returns an operation that does four things on each call:

1. It prints an ENTRY line.
2. It calls the wrapped operation once.
3. On a normal return it prints EXIT, RESULT and PERFORMANCE lines and returns
   the result. On an `Exception` it prints ERROR and PERFORMANCE lines and
   rethrows the same exception.
4. Any other `Throwable` (an `Error`) goes straight through, and nothing is
   printed after ENTRY.

The project also models the two string functions of `StringProcessor` that the
demo wraps: `reverseString` and `getStringLength`.

Files:

- `java_lang.dfy` (module `JavaLang`): the Java runtime pieces the core relies on.
  - nullable references (`Option`);
  - throwables, and how a call completes (`Outcome`: `Ok`, `Threw` for an
    `Exception`, `ThrewOther` for any other `Throwable`);
  - `long` subtraction, which wraps around at 64 bits;
  - the decimal text of a `long` (`LongToString`), with a parser that reads it back.
- `utf16.dfy` (module `Utf16`): a Java `String` as a sequence of UTF-16 code units,
  and `new StringBuilder(s).reverse()`. That reversal has two steps: a plain
  reversal, then a pass that scans left to right and swaps every low
  surrogate immediately followed by a high surrogate with it. That pass puts
  back in order each surrogate pair the first step turned round, and it also
  joins two lone surrogates that the reversal brought together.
- `string_processor.dfy` (module `StringProcessor`): `reverseString` and
  `getStringLength`, with their properties.
- `logging_decorator.dfy` (module `LoggingDecorator`): the wrapper.
  - The pure function `Invocation` specifies one call: the lines it prints and
    how it completes.
  - `WithLoggingAt` turns `Invocation` back into an operation, so that wrappers
    can be nested.
  - The class `Console` stands for `System.out`; its `lines` field is what has
    been printed so far.
  - The class `LoggedOperation` is the object `withLogging` returns. Its
    method `Execute` prints line by line and calls the wrapped operation
    through the console. Its contract says that it completes exactly as the
    wrapped operation does. It also says that it appends exactly the lines of
    `Invocation`.
- `demo.dfy` (module `Demo`): the demo's use of the wrapper on `reverseString`.

How the model stands for the source:

- **Operations.** An `Operation<T, R>` is a function from the input to a `Run`.
  A `Run` holds the lines the operation prints itself and how it completes.
  So the trace lemmas cover operations that print, wrapped operations among
  them. In every trace, the operation's own output appears exactly once, right
  after the ENTRY line. That is how the model shows the single call made after
  ENTRY.
- **Clock.** The clock readings of one call are a parameter, `Clock`. It holds
  the formatted timestamp and the two `currentTimeMillis()` readings.
- **Rendering values.** `"" + input` and `"" + result` are rendering functions
  that the caller supplies.
- **Null.** A null method name or a null exception message prints as `null`,
  as Java's string concatenation does.

The log strings follow the code in
`src/com/example/decorator/LoggingDecorator.java` exactly:

- There is no space between the method name and `called with parameter:`
  (line 16), nor before `returned:` (line 23).
- On a normal return, the elapsed time follows the name directly, then ` ms`
  (line 24).
- After an exception, the PERFORMANCE line reads `<name> execution time:
  <n>ms` (line 31).
- The elapsed time is the difference of two wall-clock readings
  (`System.currentTimeMillis()`, lines 13, 20 and 29). The model does not
  claim it is non-negative: it is the exact difference whenever that fits in
  a `long`, and it can be negative if the clock is set back between the two
  readings.
- Every line of one call carries the single timestamp read at the start
  (line 14), not the time each line was printed.

## Model

| member | source | states |
|---|---|---|
| `LoggingDecorator.LoggedOperation.WithLogging` | src/com/example/decorator/LoggingDecorator.java:11-12 | the returned operation keeps the wrapped operation and its name, unchanged |
| `LoggingDecorator.LoggedOperation.Execute` | src/com/example/decorator/LoggingDecorator.java:12-34 | one call completes exactly as the wrapped operation does (same value, same exception, same error), and appends to standard output exactly the lines `Invocation` gives, in order |
| `LoggingDecorator.Console.Call` | src/com/example/decorator/LoggingDecorator.java:19 | the wrapped operation runs once: its own output is appended once and its outcome is returned as is |
| `LoggingDecorator.Invocation` | src/com/example/decorator/LoggingDecorator.java:12-34 | one call returns the same value, rethrows the same exception and lets the same error through as the wrapped operation, for every operation and input; it prints, in all, the operation's own lines plus 4 (normal return), 3 (an `Exception`) or 1 (any other `Throwable`); where each line stands is stated by `SuccessTrace`, `ExceptionTrace` and `ErrorEscapes` |
| `LoggingDecorator.WithLoggingAt` | src/com/example/decorator/LoggingDecorator.java:11-12 | the returned lambda, for a call that reads the given clock, completes exactly as the wrapped operation on every input and always prints more lines than the operation alone |
| `LoggingDecorator.Console.Println` | src/com/example/decorator/LoggingDecorator.java:16 | `System.out.println` appends exactly the given line to what has been printed, and nothing else |
| `LoggingDecorator.SuccessTrace` | src/com/example/decorator/LoggingDecorator.java:16-26 | on a normal return, the lines are exactly ENTRY, then the operation's own output, then EXIT, RESULT and PERFORMANCE, with the code's literal text |
| `LoggingDecorator.ExceptionTrace` | src/com/example/decorator/LoggingDecorator.java:16-32 | on an `Exception`, the lines are exactly ENTRY, then the operation's own output, then ERROR (with the message, or `null`) and the `execution time:` PERFORMANCE line; there is no EXIT or RESULT line |
| `LoggingDecorator.ErrorEscapes` | src/com/example/decorator/LoggingDecorator.java:16-28 | a non-`Exception` throwable escapes the `catch`: only ENTRY and the operation's own output are printed |
| `LoggingDecorator.OwnLineTags` | src/com/example/decorator/LoggingDecorator.java:14-31 | every line the wrapper prints starts with the timestamp read once at the start; the tags are ENTRY, EXIT, RESULT, PERFORMANCE on a normal return, ENTRY, ERROR, PERFORMANCE on an exception, and ENTRY alone when an error escapes |
| `LoggingDecorator.PerformanceFigure` | src/com/example/decorator/LoggingDecorator.java:13-31 | on both paths, the number in the PERFORMANCE line reads back as the end reading minus the start reading modulo 2^64, and it is exactly that difference, possibly negative, whenever it fits in a `long` |
| `LoggingDecorator.Nested` | src/com/example/decorator/LoggingDecorator.java:11-35 | wrapping a wrapped operation nests the traces: outer ENTRY, inner ENTRY, the operation's output, the inner closing lines, then the outer ones; the outcome is unchanged |
| `JavaLang.LongToString` | src/com/example/decorator/LoggingDecorator.java:24 | the text `"" + executionTime` is non-empty, starts with a minus sign exactly when the number is negative, and is decimal digits after that sign with no leading zero |
| `JavaLang.LongSub` | src/com/example/decorator/LoggingDecorator.java:20 | `long` subtraction agrees with the exact difference modulo 2^64 and equals it when it fits |
| `JavaLang.LongToStringRoundTrip` | src/com/example/decorator/LoggingDecorator.java:24 | the decimal text concatenation gives a `long` parses back to the same number |
| `JavaLang.LongToStringInjective` | src/com/example/decorator/LoggingDecorator.java:31 | two elapsed times print the same only if they are equal |
| `Utf16.RestorePairs` | src/com/example/business/StringProcessor.java:8 | the builder's pair-restoring pass keeps the length and the multiset of code units |
| `Utf16.BuilderReverse` | src/com/example/business/StringProcessor.java:8 | `StringBuilder.reverse` keeps the length and the multiset of code units of every string |
| `Utf16.BuilderReverseIsReverse` | src/com/example/business/StringProcessor.java:8 | without surrogates, the builder's reversal is the plain reversal |
| `Utf16.BuilderReverseEncode` | src/com/example/business/StringProcessor.java:8 | for well-formed UTF-16 text, the builder's reversal reverses the characters and keeps each surrogate pair in order |
| `StringProcessor.ReverseString` | src/com/example/business/StringProcessor.java:4-9 | it throws exactly for null, and then exactly an `IllegalArgumentException` whose message is "Input cannot be null"; otherwise it returns a string of the same length and the same multiset of characters; it never throws anything else |
| `StringProcessor.ReverseStringMirrors` | src/com/example/business/StringProcessor.java:8 | for a non-null string without surrogates, character `i` of the result is character `n-1-i` of the input |
| `StringProcessor.ReverseStringTwice` | src/com/example/business/StringProcessor.java:8 | for a non-null string without surrogates, reversing twice gives the original |
| `StringProcessor.ReverseStringText` | src/com/example/business/StringProcessor.java:8 | for any well-formed text, the result is the text with its characters reversed, and reversing that gives the text back |
| `StringProcessor.ReverseStringTwiceUnpaired` | src/com/example/business/StringProcessor.java:8 | a lone low surrogate followed by a lone high surrogate is not restored by a second reversal, which is why the mirror and involution properties exclude surrogates |
| `StringProcessor.GetStringLength` | src/com/example/business/StringProcessor.java:15-17 | the length is the number of code units of a non-null string, and it is 0 exactly for null and for the empty string |
| `StringProcessor.LengthOfReverse` | src/com/example/business/StringProcessor.java:4-17 | for a non-null string, `getStringLength(reverseString(s)) == getStringLength(s)` |
| `Demo.ReverseLogged` | src/com/example/demo/LoggingDecoratorDemo.java:21-26 | whenever `reverseString` returns, the wrapped reversal returns the same string and prints the four success lines, with the name run into the text as the code writes it |
| `Demo.HelloWorldReversed` | src/com/example/demo/LoggingDecoratorDemo.java:26 | `reverseString("Hello World")` returns `"dlroW olleH"` |
| `Demo.ReverseHelloWorld` | src/com/example/demo/LoggingDecoratorDemo.java:21-26 | the demo's wrapped call on `"Hello World"` returns `"dlroW olleH"` |
| `Demo.ReverseNull` | src/com/example/demo/LoggingDecoratorDemo.java:21-24 | the wrapped reversal called on null prints ENTRY, an ERROR line ending in "Input cannot be null", and the failure PERFORMANCE line, then rethrows the same `IllegalArgumentException` |

## Left out

- Real I/O and clocks. `System.out.println` is an append to `Console.lines`.
  `LocalDateTime.now().format(...)` and the two `System.currentTimeMillis()`
  calls are given as a `Clock`. The `yyyy-MM-dd HH:mm:ss` formatter is not
  modelled: the timestamp is taken as an already formatted string.
- Value rendering (`"" + input`, `"" + result`, i.e. `toString()`). It is a
  function the caller supplies, and it is assumed not to throw. In the source,
  a `toString()` of the result that throws an `Exception` would run inside
  the `try`. The wrapper would then print EXIT, ERROR and PERFORMANCE and
  throw that exception instead of returning the result. The model does not
  cover that case.
- An overridden `getMessage()` that throws, for the same reason.
- `LoggingDecorator.WithLoggingAt`: one `Clock` is fixed for the operation it
  returns, so it describes a single call. Successive calls with fresh clock
  readings are described call by call by `Invocation` and
  `LoggedOperation.Execute`. Its "for every input" clauses also need an
  input type that holds no object references (`T(!new)`), so it and `Nested`
  do not cover inputs that are objects, which the source accepts; `Invocation`
  and `Execute` take any input type.
- The commented-out `SimpleOperation` and `Function` overloads of
  `withLogging`. They are not compiled code. `SimpleOperation` is only used
  from them.
- `StringProcessor.toUpperCase`. It is locale- and Unicode-dependent library
  case mapping.
- `StringProcessor.GetStringLength` returns an unbounded `nat`. A Java string
  never has more than 2^31 - 1 code units, so the `int` result cannot
  overflow.
- The demo's calculator examples (integer addition on `{15, 25}`, division of
  `Double`s by zero). `Calculator` is not part of this model, and the
  division is floating point.
- `src/LoggerDecorator.java` and `src/Main.java`. They form a separate
  wrapper that only prints, and they depend on `Task` and `BusinessService`,
  which are not part of this model.
- Concurrency. The wrapper keeps no shared state between calls. How lines
  from concurrent calls interleave on standard output is not modelled.
