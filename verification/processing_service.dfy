/** The greeting service shared by the single-request handlers. */
module ProcessingService {
  import opened Wrappers
  import opened JavaLang
  import opened Records

  /** The message of the exception thrown for the one rejected name. */
  const CanOnlyGreetNicknames: string := "Can only greet nicknames"

  /** The one name the service refuses to greet. */
  const RejectedName: string := "Stuart"

  /**
   * `process(input)`: greets the name with the greeting, separated by one space,
   * in a fresh output whose request ID is left unset. The input and then its
   * name are dereferenced first, so a `null` input or name throws; the name
   * "Stuart" is refused.
   */
  function Process(input: InputRef): (r: Result<Output, Exception>)
    ensures input.None? || input.value.name.None? ==> r == Failure(NullPointerException)
    ensures input.Some? && input.value.name == Some(RejectedName) ==>
              r == Failure(IllegalArgumentException(CanOnlyGreetNicknames))
    ensures r.Success? <==> input.Some? && input.value.name.Some? && input.value.name.value != RejectedName
    ensures r.Success? ==> r.value.requestId.None? && r.value.result.Some?
    ensures r.Success? ==> |r.value.result.value| == |Show(input.value.greeting)| + 1 + |input.value.name.value|
  {
    match input
    case None => Failure(NullPointerException)
    case Some(obj) =>
      match obj.name
      case None => Failure(NullPointerException)
      case Some(name) =>
        if name == RejectedName then Failure(IllegalArgumentException(CanOnlyGreetNicknames))
        else Success(NewOutput.WithResult(Some(Show(obj.greeting) + " " + name)))
  }

  /**
   * A successful greeting is exactly the greeting text, one space and the name:
   * cutting the result after the greeting gives both inputs back.
   */
  lemma GreetingSplits(input: InputRef)
    requires Process(input).Success?
    ensures var text := Process(input).value.result.value;
            var g := |Show(input.value.greeting)|;
            && text[..g] == Show(input.value.greeting)
            && text[g] == ' '
            && text[g + 1..] == input.value.name.value
  {
    var text := Process(input).value.result.value;
    var g := Show(input.value.greeting);
    assert text == g + " " + input.value.name.value;
    assert text[..|g|] == g;
    assert text[|g| + 1..] == input.value.name.value;
  }

  /** Two successful greetings with the same greeting word are equal only when the names are. */
  lemma GreetingInjectiveInName(a: InputRef, b: InputRef)
    requires Process(a).Success? && Process(b).Success?
    requires a.value.greeting == b.value.greeting
    requires Process(a).value.result == Process(b).value.result
    ensures a.value.name == b.value.name
  {
    GreetingSplits(a);
    GreetingSplits(b);
  }

  /** The rejection compares the whole name exactly: case, spacing and prefixes all get through. */
  lemma OnlyExactNameRejected(greeting: JString)
    ensures Process(Some(Input(Some("stuart"), greeting))).Success?
    ensures Process(Some(Input(Some("Stuart "), greeting))).Success?
    ensures Process(Some(Input(Some("Stu"), greeting))).Success?
    ensures Process(Some(Input(Some("Stuart"), greeting))).Failure?
  {
    assert "stuart" != RejectedName by { assert "stuart"[0] != RejectedName[0]; }
    assert "Stuart " != RejectedName by { assert |"Stuart "| != |RejectedName|; }
    assert "Stu" != RejectedName by { assert |"Stu"| != |RejectedName|; }
  }

  /** A `null` greeting is rendered as the text "null". */
  lemma NullGreetingRendered(name: string)
    requires name != RejectedName
    ensures Process(Some(Input(Some(name), None))) == Success(Output(Some("null " + name), None))
  {
    assert "null" + " " + name == "null " + name;
  }
}
