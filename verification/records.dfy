/**
 * The request and response records of the greeting handlers.
 *
 * `Input` and `Output` are the records as values; `InputObject` and
 * `OutputObject` are the mutable Java objects, whose setters update one field
 * and return the receiver so that calls can be chained.
 */
module Records {
  import opened Wrappers
  import opened JavaLang

  /** The contents of an `InputObject`: the name to greet and the greeting word. */
  datatype Input = Input(name: JString, greeting: JString) {

    /** `setName(v)`: the name becomes `v`, the greeting is kept. */
    function WithName(v: JString): (r: Input)
      ensures r.name == v
      ensures r.greeting == greeting
    {
      this.(name := v)
    }

    /** `setGreeting(v)`: the greeting becomes `v`, the name is kept. */
    function WithGreeting(v: JString): (r: Input)
      ensures r.greeting == v
      ensures r.name == name
    {
      this.(greeting := v)
    }
  }

  /** The contents of an `OutputObject`: the greeting produced and the request ID. */
  datatype Output = Output(result: JString, requestId: JString) {

    /** `setResult(v)`: the result becomes `v`, the request ID is kept. */
    function WithResult(v: JString): (r: Output)
      ensures r.result == v
      ensures r.requestId == requestId
    {
      this.(result := v)
    }

    /** `setRequestId(v)`: the request ID becomes `v`, the result is kept. */
    function WithRequestId(v: JString): (r: Output)
      ensures r.requestId == v
      ensures r.result == result
    {
      this.(requestId := v)
    }
  }

  /** A reference to an `InputObject` as a handler receives it: `None` is `null`. */
  type InputRef = Option<Input>

  /** A freshly constructed `InputObject`: both fields are `null`. */
  const NewInput: Input := Input(None, None)

  /** A freshly constructed `OutputObject`: both fields are `null`. */
  const NewOutput: Output := Output(None, None)

  /** Setting a field and reading it back gives the value set, whatever the record held. */
  lemma SetThenGet(i: Input, o: Output, a: JString, b: JString)
    ensures i.WithName(a).WithGreeting(b) == Input(a, b)
    ensures i.WithGreeting(b).WithName(a) == Input(a, b)
    ensures o.WithResult(a).WithRequestId(b) == Output(a, b)
    ensures o.WithRequestId(b).WithResult(a) == Output(a, b)
  {
  }

  /** Setting a field twice keeps only the second value. */
  lemma SetTwice(i: Input, o: Output, a: JString, b: JString)
    ensures i.WithName(a).WithName(b) == i.WithName(b)
    ensures i.WithGreeting(a).WithGreeting(b) == i.WithGreeting(b)
    ensures o.WithResult(a).WithResult(b) == o.WithResult(b)
    ensures o.WithRequestId(a).WithRequestId(b) == o.WithRequestId(b)
  {
  }

  /** The mutable Java request object. */
  class InputObject {
    var name: JString
    var greeting: JString

    constructor()
      ensures Value() == NewInput
    {
      name := None;
      greeting := None;
    }

    /** The record this object currently holds. */
    function Value(): Input
      reads this
    {
      Input(name, greeting)
    }

    function GetName(): JString
      reads this
    {
      name
    }

    function GetGreeting(): JString
      reads this
    {
      greeting
    }

    /** Sets the name and returns this same object. */
    method SetName(v: JString) returns (self: InputObject)
      modifies this
      ensures self == this
      ensures GetName() == v
      ensures Value() == old(Value()).WithName(v)
    {
      name := v;
      self := this;
    }

    /** Sets the greeting and returns this same object. */
    method SetGreeting(v: JString) returns (self: InputObject)
      modifies this
      ensures self == this
      ensures GetGreeting() == v
      ensures Value() == old(Value()).WithGreeting(v)
    {
      greeting := v;
      self := this;
    }
  }

  /** The mutable Java response object. */
  class OutputObject {
    var result: JString
    var requestId: JString

    constructor()
      ensures Value() == NewOutput
    {
      result := None;
      requestId := None;
    }

    /** The record this object currently holds. */
    function Value(): Output
      reads this
    {
      Output(result, requestId)
    }

    function GetResult(): JString
      reads this
    {
      result
    }

    function GetRequestId(): JString
      reads this
    {
      requestId
    }

    /** Sets the result and returns this same object. */
    method SetResult(v: JString) returns (self: OutputObject)
      modifies this
      ensures self == this
      ensures GetResult() == v
      ensures Value() == old(Value()).WithResult(v)
    {
      result := v;
      self := this;
    }

    /** Sets the request ID and returns this same object. */
    method SetRequestId(v: JString) returns (self: OutputObject)
      modifies this
      ensures self == this
      ensures GetRequestId() == v
      ensures Value() == old(Value()).WithRequestId(v)
    {
      requestId := v;
      self := this;
    }
  }

  /** Chained setters on one object: `new InputObject().setName(n).setGreeting(g)`. */
  method BuildInput(n: JString, g: JString) returns (o: InputObject)
    ensures o.Value() == Input(n, g)
  {
    var obj := new InputObject();
    var self := obj.SetName(n);
    o := self.SetGreeting(g);
  }
}
