/**
 * The base class of the single-request handlers: run the subclass's processing
 * step, then stamp the context's request ID on its output when there is a context.
 */
module AbstractLambdaHandler {
  import opened Wrappers
  import opened JavaLang
  import opened Records
  import opened LambdaRuntime

  /** The abstract `processInput` step a subclass supplies. */
  type ProcessStep = InputRef -> Result<Output, Exception>

  /**
   * `handleRequest(input, context)`: the step runs once; its exception escapes
   * unchanged; on success the request ID is set from a non-null context and
   * nothing else about the step's output changes.
   */
  function HandleRequest(processInput: ProcessStep, input: InputRef, context: Context): (r: Result<Output, Exception>)
    ensures processInput(input).Failure? ==> r == processInput(input)
    ensures r.Success? <==> processInput(input).Success?
    ensures r.Success? ==> r.value.result == processInput(input).value.result
    ensures r.Success? && context.Some? ==> r.value.requestId == Some(context.value)
    ensures context.None? ==> r == processInput(input)
  {
    match processInput(input)
    case Failure(e) => Failure(e)
    case Success(result) =>
      if context.Some? then Success(result.WithRequestId(Some(context.value))) else Success(result)
  }
}

/**
 * The greeting handler: the service's greeting with the request ID stamped on,
 * the context being dereferenced without a `null` check.
 */
module TestLambda {
  import opened Wrappers
  import opened JavaLang
  import opened Records
  import opened LambdaRuntime
  import opened ProcessingService
  import AbstractLambdaHandler

  /**
   * `handleRequest(input, context)`: `process` runs first, so its exception wins
   * (a `null` input's `NullPointerException`, the "Stuart" rejection); only then
   * is the context dereferenced, so a `null` context throws after a successful
   * greeting.
   */
  function HandleRequest(input: InputRef, context: Context): (r: Result<Output, Exception>)
    ensures Process(input).Failure? ==> r == Process(input)
    ensures Process(input).Success? && context.None? ==> r == Failure(NullPointerException)
    ensures input.Some? && input.value.name.Some? && input.value.name.value != RejectedName && context.Some? ==>
              r == Success(Output(Some(Show(input.value.greeting) + " " + input.value.name.value), Some(context.value)))
  {
    match Process(input)
    case Failure(e) => Failure(e)
    case Success(out) =>
      match context
      case None => Failure(NullPointerException)
      case Some(id) => Success(out.WithRequestId(Some(id)))
  }

  /** With a context present, the greeting handler behaves as the base class running `process`. */
  lemma AgreesWithBaseGivenContext(input: InputRef, context: Context)
    requires context.Some?
    ensures HandleRequest(input, context) == AbstractLambdaHandler.HandleRequest(Process, input, context)
  {
  }

  /**
   * Without a context the two differ exactly when `process` succeeds: the base
   * class returns the unstamped greeting, the greeting handler throws.
   */
  lemma DiffersFromBaseWithoutContext(input: InputRef)
    ensures HandleRequest(input, None) != AbstractLambdaHandler.HandleRequest(Process, input, None)
            <==> Process(input).Success?
    ensures Process(input).Success? ==>
              && AbstractLambdaHandler.HandleRequest(Process, input, None) == Process(input)
              && HandleRequest(input, None) == Failure(NullPointerException)
  {
  }

  /** A worked example: "Hello" and "World" with request ID "ctx-id". */
  lemma HelloWorld()
    ensures HandleRequest(Some(Input(Some("World"), Some("Hello"))), Some("ctx-id"))
            == Success(Output(Some("Hello World"), Some("ctx-id")))
  {
    assert "World" != RejectedName by { assert "World"[0] != RejectedName[0]; }
    assert "Hello" + " " + "World" == "Hello World";
  }
}

/** A placeholder handler that refuses every invocation. */
module UnusedLambda {
  import opened Wrappers
  import opened JavaLang
  import opened Records
  import opened LambdaRuntime

  const ShouldBeUnused: string := "Should be unused"

  /** `handleRequest(input, context)`: always throws, reading neither argument. */
  function HandleRequest(input: InputRef, context: Context): (r: Result<Output, Exception>)
    ensures r.Failure?
    ensures r.error == RuntimeException(ShouldBeUnused)
  {
    Failure(RuntimeException(ShouldBeUnused))
  }

  /** The outcome depends on neither the input (even `null`, or with `null` fields) nor the context (even `null`). */
  lemma IgnoresArguments(a: InputRef, b: InputRef, c: Context, d: Context)
    ensures HandleRequest(a, c) == HandleRequest(b, d)
    ensures HandleRequest(None, None) == HandleRequest(Some(NewInput), None) == HandleRequest(a, c)
  {
  }
}
