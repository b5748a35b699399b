/**
 * `LoggingDecorator.withLogging`: wraps an operation so that every call
 * prints an ENTRY line, runs the operation once, and then prints EXIT,
 * RESULT and PERFORMANCE lines (normal return) or ERROR and PERFORMANCE
 * lines (an `Exception`, which is rethrown), leaving the result or the
 * exception unchanged.
 *
 * The standard output stream is a `Console` object whose `lines` the
 * wrapper appends to. An operation is a function from its input to a
 * `Run`: the lines it prints itself and how it completes, so that a
 * wrapped operation is again an operation and wrappers can be nested.
 * The clock is not read here: the readings one call makes are passed in
 * as a `Clock`, and rendering a value as text (`"" + value`) is a function
 * supplied by the caller.
 */
module LoggingDecorator {
  import opened JavaLang

  /** What one call of an operation does: the lines it prints, and how it completes. */
  datatype Run<+R> = Run(output: seq<string>, outcome: Outcome<R>)

  /** `Operation<T, R>`: a single-input, single-output computation. */
  type Operation<!T, R> = T -> Run<R>

  /**
   * The clock readings of one call: the formatted timestamp
   * (`yyyy-MM-dd HH:mm:ss`, read once at the start) and the two
   * `System.currentTimeMillis()` readings, before and after the
   * wrapped call.
   */
  datatype Clock = Clock(timeStamp: string, startMillis: long, endMillis: long)

  /** `System.currentTimeMillis() - startTime`, in `long` arithmetic. */
  function ExecutionTime(clock: Clock): long {
    LongSub(clock.endMillis, clock.startMillis)
  }

  // The six lines the wrapper prints, each the concatenation the source
  // writes, spacing included.

  function EntryLine(timeStamp: string, name: string, input: string): string {
    "[" + timeStamp + "] [ENTRY] " + name + "called with parameter: " + input
  }

  function ExitLine(timeStamp: string, name: string): string {
    "[" + timeStamp + "] [EXIT] " + name + " executed successfully"
  }

  function ResultLine(timeStamp: string, name: string, result: string): string {
    "[" + timeStamp + "] [RESULT] " + name + "returned: " + result
  }

  function PerformanceLine(timeStamp: string, name: string, millis: long): string {
    "[" + timeStamp + "] [PERFORMANCE] " + name + LongToString(millis) + " ms"
  }

  function ErrorLine(timeStamp: string, name: string, message: Option<string>): string {
    "[" + timeStamp + "] [ERROR] " + name + " failed with exception: " + StringValueOf(message)
  }

  function FailurePerformanceLine(timeStamp: string, name: string, millis: long): string {
    "[" + timeStamp + "] [PERFORMANCE] " + name + " execution time: " + LongToString(millis) + "ms"
  }

  /** The lines the wrapper prints after the wrapped call has completed as `outcome`. */
  function Closing<R>(clock: Clock, name: string, renderResult: R -> string, outcome: Outcome<R>): seq<string> {
    match outcome
    case Ok(result) =>
      [ ExitLine(clock.timeStamp, name),
        ResultLine(clock.timeStamp, name, renderResult(result)),
        PerformanceLine(clock.timeStamp, name, ExecutionTime(clock)) ]
    case Threw(e) =>
      [ ErrorLine(clock.timeStamp, name, e.message),
        FailurePerformanceLine(clock.timeStamp, name, ExecutionTime(clock)) ]
    case ThrewOther(_) =>
      []
  }

  /**
   * One call of `withLogging(operation, methodName)` on `input`: what it
   * prints and how it completes. It completes exactly as the operation
   * does, and prints one line before the operation's own output and three
   * (normal return), two (an `Exception`) or none (any other `Throwable`)
   * after it.
   */
  function Invocation<T, R>(operation: Operation<T, R>, methodName: Option<string>,
                            renderInput: T -> string, renderResult: R -> string,
                            clock: Clock, input: T): (r: Run<R>)
    ensures r.outcome == operation(input).outcome
    ensures |r.output| == 1 + |operation(input).output|
                          + (match operation(input).outcome
                             case Ok(_) => 3
                             case Threw(_) => 2
                             case ThrewOther(_) => 0)
  {
    var name := StringValueOf(methodName);
    var inner := operation(input);
    Run([EntryLine(clock.timeStamp, name, renderInput(input))]
        + inner.output
        + Closing(clock, name, renderResult, inner.outcome),
        inner.outcome)
  }

  /** `withLogging(operation, methodName)` as an operation, for a call that reads `clock`. */
  function WithLoggingAt<T(!new), R>(operation: Operation<T, R>, methodName: Option<string>,
                               renderInput: T -> string, renderResult: R -> string,
                               clock: Clock): (wrapped: Operation<T, R>)
    ensures forall input :: wrapped(input).outcome == operation(input).outcome
    ensures forall input :: |wrapped(input).output| > |operation(input).output|
  {
    input => Invocation(operation, methodName, renderInput, renderResult, clock, input)
  }

  /** The standard output stream: the lines printed so far. */
  class Console {
    var lines: seq<string>

    constructor ()
      ensures lines == []
    {
      lines := [];
    }

    /** `System.out.println(line)`. */
    method Println(line: string)
      modifies this
      ensures lines == old(lines) + [line]
    {
      lines := lines + [line];
    }

    /** Calls `operation` once on `input`; whatever it prints goes to this console. */
    method Call<T, R>(operation: Operation<T, R>, input: T) returns (outcome: Outcome<R>)
      modifies this
      ensures lines == old(lines) + operation(input).output
      ensures outcome == operation(input).outcome
    {
      var run := operation(input);
      lines := lines + run.output;
      outcome := run.outcome;
    }
  }

  /** The operation `withLogging` returns: it captures the wrapped operation and its name. */
  class LoggedOperation<T, R> {
    const operation: Operation<T, R>
    const methodName: Option<string>
    const renderInput: T -> string
    const renderResult: R -> string

    /** `withLogging(operation, methodName)`. */
    constructor WithLogging(operation: Operation<T, R>, methodName: Option<string>,
                            renderInput: T -> string, renderResult: R -> string)
      ensures this.operation == operation && this.methodName == methodName
      ensures this.renderInput == renderInput && this.renderResult == renderResult
    {
      this.operation := operation;
      this.methodName := methodName;
      this.renderInput := renderInput;
      this.renderResult := renderResult;
    }

    /**
     * `execute(input)`: prints ENTRY, calls the wrapped operation once,
     * prints the closing lines for how it completed, and completes the
     * same way.
     */
    method Execute(input: T, out: Console, clock: Clock) returns (outcome: Outcome<R>)
      modifies out
      ensures outcome == operation(input).outcome
      ensures out.lines == old(out.lines)
                           + Invocation(operation, methodName, renderInput, renderResult, clock, input).output
    {
      var timeStamp := clock.timeStamp;
      var name := StringValueOf(methodName);
      out.Println(EntryLine(timeStamp, name, renderInput(input)));
      outcome := out.Call(operation, input);
      match outcome {
        case Ok(result) =>
          var executionTime := ExecutionTime(clock);
          out.Println(ExitLine(timeStamp, name));
          out.Println(ResultLine(timeStamp, name, renderResult(result)));
          out.Println(PerformanceLine(timeStamp, name, executionTime));
        case Threw(e) =>
          var executionTime := ExecutionTime(clock);
          out.Println(ErrorLine(timeStamp, name, e.message));
          out.Println(FailurePerformanceLine(timeStamp, name, executionTime));
        case ThrewOther(_) =>
      }
    }
  }

  /** On a normal return: ENTRY, the operation's own output, then EXIT, RESULT and PERFORMANCE. */
  lemma SuccessTrace<T, R>(operation: Operation<T, R>, methodName: Option<string>,
                           renderInput: T -> string, renderResult: R -> string,
                           clock: Clock, input: T)
    requires operation(input).outcome.Ok?
    ensures var ts, name := clock.timeStamp, StringValueOf(methodName);
            var elapsed := LongToString(ExecutionTime(clock));
            Invocation(operation, methodName, renderInput, renderResult, clock, input).output
            == ["[" + ts + "] [ENTRY] " + name + "called with parameter: " + renderInput(input)]
               + operation(input).output
               + [ "[" + ts + "] [EXIT] " + name + " executed successfully",
                   "[" + ts + "] [RESULT] " + name + "returned: " + renderResult(operation(input).outcome.value),
                   "[" + ts + "] [PERFORMANCE] " + name + elapsed + " ms" ]
  {
  }

  /** On an `Exception`: ENTRY, the operation's own output, then ERROR and PERFORMANCE. */
  lemma ExceptionTrace<T, R>(operation: Operation<T, R>, methodName: Option<string>,
                             renderInput: T -> string, renderResult: R -> string,
                             clock: Clock, input: T)
    requires operation(input).outcome.Threw?
    ensures var ts, name := clock.timeStamp, StringValueOf(methodName);
            var elapsed := LongToString(ExecutionTime(clock));
            var message := StringValueOf(operation(input).outcome.exception.message);
            Invocation(operation, methodName, renderInput, renderResult, clock, input).output
            == ["[" + ts + "] [ENTRY] " + name + "called with parameter: " + renderInput(input)]
               + operation(input).output
               + [ "[" + ts + "] [ERROR] " + name + " failed with exception: " + message,
                   "[" + ts + "] [PERFORMANCE] " + name + " execution time: " + elapsed + "ms" ]
  {
  }

  /** Any other `Throwable` escapes the `catch`: only ENTRY and the operation's own output. */
  lemma ErrorEscapes<T, R>(operation: Operation<T, R>, methodName: Option<string>,
                           renderInput: T -> string, renderResult: R -> string,
                           clock: Clock, input: T)
    requires operation(input).outcome.ThrewOther?
    ensures var ts, name := clock.timeStamp, StringValueOf(methodName);
            Invocation(operation, methodName, renderInput, renderResult, clock, input).output
            == ["[" + ts + "] [ENTRY] " + name + "called with parameter: " + renderInput(input)]
               + operation(input).output
  {
  }

  /** The text between the bracketed timestamp's "] [" and the next ']'. */
  function TakeTag(s: string): string {
    if s == [] || s[0] == ']' then [] else [s[0]] + TakeTag(s[1..])
  }

  /** The tag of a line printed with timestamp `timeStamp`, or None if it does not start with it. */
  function TagOf(timeStamp: string, line: string): Option<string> {
    var prefix := "[" + timeStamp + "] [";
    if |prefix| <= |line| && line[..|prefix|] == prefix then Some(TakeTag(line[|prefix|..])) else None
  }

  /** The tag of each line, in order. */
  function Tags(timeStamp: string, lines: seq<string>): seq<Option<string>> {
    seq(|lines|, i requires 0 <= i < |lines| => TagOf(timeStamp, lines[i]))
  }

  lemma {:induction false} TakeTagOf(tag: string, rest: string)
    requires forall i :: 0 <= i < |tag| ==> tag[i] != ']'
    ensures TakeTag(tag + "] " + rest) == tag
  {
    if tag != [] {
      assert (tag + "] " + rest)[1..] == tag[1..] + "] " + rest;
      TakeTagOf(tag[1..], rest);
    }
  }

  /** A line that starts with the bracketed timestamp and a bracketed tag has that tag. */
  lemma LineTag(timeStamp: string, tag: string, line: string)
    requires forall i :: 0 <= i < |tag| ==> tag[i] != ']'
    requires var head := "[" + timeStamp + "] [" + tag + "] ";
             |head| <= |line| && line[..|head|] == head
    ensures TagOf(timeStamp, line) == Some(tag)
  {
    var prefix := "[" + timeStamp + "] [";
    var head := prefix + tag + "] ";
    assert line[..|prefix|] == head[..|prefix|] == prefix;
    assert line[|prefix|..] == tag + "] " + line[|head|..];
    TakeTagOf(tag, line[|head|..]);
  }

  lemma EntryTag(ts: string, name: string, input: string)
    ensures TagOf(ts, EntryLine(ts, name, input)) == Some("ENTRY")
  {
    assert "] [ENTRY] " == "] [" + "ENTRY" + "] ";
    LineTag(ts, "ENTRY", EntryLine(ts, name, input));
  }

  lemma ExitTag(ts: string, name: string)
    ensures TagOf(ts, ExitLine(ts, name)) == Some("EXIT")
  {
    assert "] [EXIT] " == "] [" + "EXIT" + "] ";
    LineTag(ts, "EXIT", ExitLine(ts, name));
  }

  lemma ResultTag(ts: string, name: string, result: string)
    ensures TagOf(ts, ResultLine(ts, name, result)) == Some("RESULT")
  {
    assert "] [RESULT] " == "] [" + "RESULT" + "] ";
    LineTag(ts, "RESULT", ResultLine(ts, name, result));
  }

  lemma PerformanceTag(ts: string, name: string, millis: long)
    ensures TagOf(ts, PerformanceLine(ts, name, millis)) == Some("PERFORMANCE")
    ensures TagOf(ts, FailurePerformanceLine(ts, name, millis)) == Some("PERFORMANCE")
  {
    assert "] [PERFORMANCE] " == "] [" + "PERFORMANCE" + "] ";
    LineTag(ts, "PERFORMANCE", PerformanceLine(ts, name, millis));
    LineTag(ts, "PERFORMANCE", FailurePerformanceLine(ts, name, millis));
  }

  lemma ErrorTag(ts: string, name: string, message: Option<string>)
    ensures TagOf(ts, ErrorLine(ts, name, message)) == Some("ERROR")
  {
    assert "] [ERROR] " == "] [" + "ERROR" + "] ";
    LineTag(ts, "ERROR", ErrorLine(ts, name, message));
  }

  /**
   * The wrapper's own lines all carry the timestamp read at the start of
   * the call; their tags are ENTRY, EXIT, RESULT, PERFORMANCE on a normal
   * return, ENTRY, ERROR, PERFORMANCE on an `Exception`, and ENTRY alone
   * when another `Throwable` escapes.
   */
  lemma OwnLineTags<T, R>(methodName: Option<string>, renderInput: T -> string, renderResult: R -> string,
                          clock: Clock, input: T, outcome: Outcome<R>)
    ensures var ts, name := clock.timeStamp, StringValueOf(methodName);
            var own := [EntryLine(ts, name, renderInput(input))] + Closing(clock, name, renderResult, outcome);
            Tags(ts, own) == match outcome
              case Ok(_) => [Some("ENTRY"), Some("EXIT"), Some("RESULT"), Some("PERFORMANCE")]
              case Threw(_) => [Some("ENTRY"), Some("ERROR"), Some("PERFORMANCE")]
              case ThrewOther(_) => [Some("ENTRY")]
  {
    var ts, name := clock.timeStamp, StringValueOf(methodName);
    var elapsed := ExecutionTime(clock);
    EntryTag(ts, name, renderInput(input));
    match outcome {
      case Ok(result) =>
        ExitTag(ts, name);
        ResultTag(ts, name, renderResult(result));
        PerformanceTag(ts, name, elapsed);
      case Threw(e) =>
        ErrorTag(ts, name, e.message);
        PerformanceTag(ts, name, elapsed);
      case ThrewOther(_) =>
    }
  }

  /** The number between `prefix` and `suffix` in `line`, if the line has that shape. */
  function Figure(prefix: string, suffix: string, line: string): Option<int> {
    if |prefix| + |suffix| <= |line| && line[..|prefix|] == prefix && line[|line| - |suffix|..] == suffix
    then ParseInteger(line[|prefix|..|line| - |suffix|])
    else None
  }

  lemma FigureOf(prefix: string, suffix: string, millis: long)
    ensures Figure(prefix, suffix, prefix + LongToString(millis) + suffix) == Some(millis as int)
  {
    var line := prefix + LongToString(millis) + suffix;
    assert line[..|prefix|] == prefix;
    assert line[|line| - |suffix|..] == suffix;
    assert line[|prefix|..|line| - |suffix|] == LongToString(millis);
    LongToStringRoundTrip(millis);
  }

  /**
   * The PERFORMANCE line reports the end reading minus the start reading,
   * in `long` arithmetic, on both paths; it is the exact difference
   * (possibly negative) whenever that fits in a `long`.
   */
  lemma PerformanceFigure<R>(clock: Clock, name: string, renderResult: R -> string, outcome: Outcome<R>)
    requires !outcome.ThrewOther?
    ensures var closing := Closing(clock, name, renderResult, outcome);
            var ts := clock.timeStamp;
            var figure := if outcome.Ok?
              then Figure("[" + ts + "] [PERFORMANCE] " + name, " ms", closing[|closing| - 1])
              else Figure("[" + ts + "] [PERFORMANCE] " + name + " execution time: ", "ms", closing[|closing| - 1]);
            figure.Some?
            && (figure.value - (clock.endMillis as int - clock.startMillis as int)) % TWO_TO_THE_64 == 0
            && (InLongRange(clock.endMillis as int - clock.startMillis as int) ==>
                  figure.value == clock.endMillis as int - clock.startMillis as int)
  {
    var ts := clock.timeStamp;
    var elapsed := ExecutionTime(clock);
    if outcome.Ok? {
      FigureOf("[" + ts + "] [PERFORMANCE] " + name, " ms", elapsed);
    } else {
      FigureOf("[" + ts + "] [PERFORMANCE] " + name + " execution time: ", "ms", elapsed);
    }
  }

  /**
   * Wrapping a wrapped operation nests the traces: both ENTRY lines, the
   * operation's own output, the inner closing lines, then the outer ones;
   * the outcome is still the operation's.
   */
  lemma Nested<T(!new), R>(operation: Operation<T, R>, inner: Option<string>, outer: Option<string>,
                     renderInput: T -> string, renderResult: R -> string,
                     innerClock: Clock, outerClock: Clock, input: T)
    ensures var wrapped := WithLoggingAt(operation, inner, renderInput, renderResult, innerClock);
            var run := Invocation(wrapped, outer, renderInput, renderResult, outerClock, input);
            var innerLabel, outerLabel := StringValueOf(inner), StringValueOf(outer);
            run.outcome == operation(input).outcome
            && run.output
               == [ EntryLine(outerClock.timeStamp, outerLabel, renderInput(input)),
                    EntryLine(innerClock.timeStamp, innerLabel, renderInput(input)) ]
                  + operation(input).output
                  + Closing(innerClock, innerLabel, renderResult, operation(input).outcome)
                  + Closing(outerClock, outerLabel, renderResult, operation(input).outcome)
  {
  }
}
