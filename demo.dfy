/**
 * The demo's first use of the wrapper: `reverseString` wrapped under the
 * name "reverseString". What the wrapped call prints and returns follows
 * from the two components' models alone.
 */
module Demo {
  import opened JavaLang
  import opened Utf16
  import opened StringProcessor
  import opened LoggingDecorator

  /** `input -> processor.reverseString(input)`: it prints nothing of its own. */
  function ReverseOperation(): Operation<Option<JString>, JString> {
    input => Run([], ReverseString(input))
  }

  /** The characters of "Hello World", last first. */
  lemma HelloWorldBackwards()
    ensures Reverse("Hello World") == "dlroW olleH"
  {
    var s := "Hello World";
    assert Reverse(s[10..]) == "d";
    assert Reverse(s[9..]) == "dl";
    assert Reverse(s[8..]) == "dlr";
    assert Reverse(s[7..]) == "dlro";
    assert Reverse(s[6..]) == "dlroW";
    assert Reverse(s[5..]) == "dlroW ";
    assert Reverse(s[4..]) == "dlroW o";
    assert Reverse(s[3..]) == "dlroW ol";
    assert Reverse(s[2..]) == "dlroW oll";
    assert Reverse(s[1..]) == "dlroW olle";
  }

  lemma HelloWorldReversed()
    ensures ReverseString(Some(Encode("Hello World"))) == Ok(Encode("dlroW olleH"))
  {
    ReverseStringText("Hello World");
    HelloWorldBackwards();
  }

  /**
   * Whenever `reverseString` returns, the wrapped reversal returns the
   * same string and prints ENTRY, EXIT, RESULT and PERFORMANCE, in that
   * order, each with the name run into the text that follows it as the
   * source writes it.
   */
  lemma ReverseLogged(input: Option<JString>, result: JString, renderInput: Option<JString> -> string,
                      renderResult: JString -> string, clock: Clock)
    requires ReverseString(input) == Ok(result)
    ensures var ts, name := clock.timeStamp, "reverseString";
            var elapsed := LongToString(ExecutionTime(clock));
            var run := Invocation(ReverseOperation(), Some(name), renderInput, renderResult, clock, input);
            run.outcome == Ok(result)
            && run.output == [ "[" + ts + "] [ENTRY] " + name + "called with parameter: " + renderInput(input),
                               "[" + ts + "] [EXIT] " + name + " executed successfully",
                               "[" + ts + "] [RESULT] " + name + "returned: " + renderResult(result),
                               "[" + ts + "] [PERFORMANCE] " + name + elapsed + " ms" ]
  {
    assert ReverseOperation()(input) == Run([], Ok(result));
    SuccessTrace(ReverseOperation(), Some("reverseString"), renderInput, renderResult, clock, input);
  }

  /** The demo's call: the wrapped reversal of "Hello World" returns "dlroW olleH". */
  lemma ReverseHelloWorld(renderInput: Option<JString> -> string, renderResult: JString -> string, clock: Clock)
    ensures Invocation(ReverseOperation(), Some("reverseString"), renderInput, renderResult, clock,
                       Some(Encode("Hello World"))).outcome
            == Ok(Encode("dlroW olleH"))
  {
    HelloWorldReversed();
    ReverseLogged(Some(Encode("Hello World")), Encode("dlroW olleH"), renderInput, renderResult, clock);
  }

  /**
   * Calling the wrapped reversal on null rethrows the
   * `IllegalArgumentException` unchanged and prints ENTRY, ERROR (with the
   * exception's message) and PERFORMANCE.
   */
  lemma ReverseNull(renderInput: Option<JString> -> string, renderResult: JString -> string, clock: Clock)
    ensures var ts, name := clock.timeStamp, "reverseString";
            var elapsed := LongToString(ExecutionTime(clock));
            Invocation(ReverseOperation(), Some(name), renderInput, renderResult, clock, None)
            == Run([ "[" + ts + "] [ENTRY] " + name + "called with parameter: " + renderInput(None),
                     "[" + ts + "] [ERROR] " + name + " failed with exception: " + "Input cannot be null",
                     "[" + ts + "] [PERFORMANCE] " + name + " execution time: " + elapsed + "ms" ],
                   Threw(Throwable("java.lang.IllegalArgumentException", Some("Input cannot be null"))))
  {
    ExceptionTrace(ReverseOperation(), Some("reverseString"), renderInput, renderResult, clock, None);
  }
}
