# Quarkus Lambda handlers — a Dafny model

This project models the handler logic of a small collection of AWS Lambda
functions written in Java for Quarkus:

- the greeting service `ProcessingService.process`, which refuses the name
  "Stuart" and otherwise joins greeting and name with one space;
- the single-request handlers: the base class `AbstractLambdaHandler`, which
  runs a processing step and stamps the context's request ID on the result;
  `TestLambda`, which does the same inline but never checks the context for
  `null`; and `UnusedLambda`, which always throws;
- the request and response records `InputObject` and `OutputObject`, with
  getters and chaining setters;
- the SQS batch handlers: the base class `AbstractSqsEventHandler`, which logs
  the batch size and hands each record in order to a per-message step, stopping
  at the first exception; and `SqsEventProcessor`, which prints every message
  as a block of lines;
- `StreamLambda`, which upper-cases a byte stream one byte at a time.

How Java is represented:

- A nullable `String` is `Option<string>` (`JavaLang.JString`). String
  concatenation renders `null` as "null" (`JavaLang.Show`) and an `int` as its
  decimal digits (`JavaLang.DecimalString`). A Java `String` is a sequence of
  UTF-16 code units; a Dafny `string` is a sequence of Unicode scalar values.
  The lengths stated here (in `ProcessingService.Process`, say) count scalar
  values, which is the same count as Java's only for text without
  supplementary characters.
- A thrown exception is a `Failure` (or `Fail`) carrying a `JavaLang.Exception`.
  Dereferencing `null` is a `NullPointerException`, not a precondition: this
  covers a `null` input object (`Records.InputRef`), a `null` name, a `null`
  SQS event or record list (`LambdaRuntime.SqsEventRef`) and a `null` context
  in `TestLambda`.
- A Lambda `Context` is `Option<string>`. `None` is a `null` context;
  `Some(id)` carries the AWS request ID.
- Standard output is the sequence of `println` calls, one element per call. An abstract
  `processMessage` step is a function value returning the lines it prints and
  whether it returned or threw (`AbstractSqsEventHandler.Effect`).
- A batch run also records the arguments of every step call, in call order.
  This states "once per record, in order, same context" directly.
- Streams are sequences of bytes (`StreamLambda.byte`, 0..255). The records
  are values (`Records.Input`, `Records.Output`). The mutable Java objects are
  the classes `Records.InputObject` and `Records.OutputObject`, whose setters
  return the receiver.

Behaviour worth knowing, as the code has it:

- `StreamLambda`'s class comment says it converts all incoming text to upper
  case. The code calls `Character.toUpperCase(int)` on each byte and writes the
  low 8 bits of the result. So byte 0xFF (ÿ) is written as 0x78, a lower-case
  `x`, and 0xB5 (µ) as 0x9C, while 0xDF (ß) is left as it is.
  `StreamLambda.ToUpperCase` follows the Unicode simple upper-case mapping on
  0..255, which is what that JDK call returns there.
- A `null` greeting is concatenated as the text "null", giving "null <name>".
  A `null` name throws `NullPointerException`, because `getName().equals(...)`
  is called before any check.

## Model

| member | source | states |
|---|---|---|
| JavaLang.DecimalString | src/main/java/com/steverhoton/poc/AbstractSqsEventHandler.java:40 | the count in the log line is written as non-empty decimal digits with no leading zero, and "0" only for zero |
| JavaLang.ParseDecimalString | src/main/java/com/steverhoton/poc/AbstractSqsEventHandler.java:40 | reading the decimal rendering back gives the count, so the rendering loses nothing |
| Records.Input.WithName | src/main/java/com/steverhoton/poc/InputObject.java:37-40 | after `setName(v)` the name reads back as `v` and the greeting is unchanged |
| Records.Input.WithGreeting | src/main/java/com/steverhoton/poc/InputObject.java:57-60 | after `setGreeting(v)` the greeting reads back as `v` and the name is unchanged |
| Records.Output.WithResult | src/main/java/com/steverhoton/poc/OutputObject.java:46-49 | after `setResult(v)` the result reads back as `v` and the request ID is unchanged |
| Records.Output.WithRequestId | src/main/java/com/steverhoton/poc/OutputObject.java:57-60 | after `setRequestId(v)` the request ID reads back as `v` and the result is unchanged |
| Records.SetThenGet | src/main/java/com/steverhoton/poc/InputObject.java:27-60 | setting both fields, in either order, leaves exactly the two values set, whatever the record held |
| Records.SetTwice | src/main/java/com/steverhoton/poc/OutputObject.java:46-60 | a second set of the same field overwrites the first |
| Records.InputObject.SetName | src/main/java/com/steverhoton/poc/InputObject.java:37-40 | the setter returns the receiver itself, `getName()` then returns `v`, and the greeting is untouched |
| Records.InputObject.SetGreeting | src/main/java/com/steverhoton/poc/InputObject.java:57-60 | the setter returns the receiver itself, `getGreeting()` then returns `v`, and the name is untouched |
| Records.OutputObject.SetResult | src/main/java/com/steverhoton/poc/OutputObject.java:46-49 | the setter returns the receiver itself, `getResult()` then returns `v`, and the request ID is untouched |
| Records.OutputObject.SetRequestId | src/main/java/com/steverhoton/poc/OutputObject.java:57-60 | the setter returns the receiver itself, `getRequestId()` then returns `v`, and the result is untouched |
| Records.BuildInput | src/main/java/com/steverhoton/poc/InputObject.java:15-60 | constructing an object and chaining `setName(n)` and then `setGreeting(g)` on it yields an object whose value is exactly `Input(n, g)` |
| ProcessingService.Process | src/main/java/com/steverhoton/poc/ProcessingService.java:16-33 | a `null` input or `null` name throws NullPointerException; exactly the name "Stuart" throws IllegalArgumentException("Can only greet nicknames"); otherwise it succeeds with the request ID unset and a result of length \|greeting text\| + 1 + \|name\| |
| ProcessingService.GreetingSplits | src/main/java/com/steverhoton/poc/ProcessingService.java:29-31 | a successful result is the greeting text (or "null"), then one space, then the name: cutting it after the greeting gives both back |
| ProcessingService.GreetingInjectiveInName | src/main/java/com/steverhoton/poc/ProcessingService.java:29 | with the same greeting, equal results mean equal names |
| ProcessingService.OnlyExactNameRejected | src/main/java/com/steverhoton/poc/ProcessingService.java:26 | the rejection is exact equality: "stuart", "Stuart " and "Stu" are greeted, "Stuart" is refused |
| ProcessingService.NullGreetingRendered | src/main/java/com/steverhoton/poc/ProcessingService.java:29-32 | a `null` greeting gives the result "null <name>" with no request ID |
| AbstractLambdaHandler.HandleRequest | src/main/java/com/steverhoton/poc/AbstractLambdaHandler.java:33-39 | the step's exception escapes unchanged; on success the result is the step's, and the request ID is the context's when there is a context and the step's own when the context is `null` |
| TestLambda.HandleRequest | src/main/java/com/steverhoton/poc/TestLambda.java:36-38 | a `null` input, a `null` name and "Stuart" fail as in `process`, before the context is read; otherwise a `null` context throws NullPointerException, and a present one gives result "greeting name" with the context's request ID |
| TestLambda.AgreesWithBaseGivenContext | src/main/java/com/steverhoton/poc/TestLambda.java:36-38 | with a context present, the greeting handler equals the base class running `process` |
| TestLambda.DiffersFromBaseWithoutContext | src/main/java/com/steverhoton/poc/TestLambda.java:37 | with a `null` context the two differ exactly when `process` succeeds: the base class returns the unstamped output, the greeting handler throws |
| TestLambda.HelloWorld | src/main/java/com/steverhoton/poc/TestLambda.java:37 | name "World", greeting "Hello", request ID "ctx-id" give result "Hello World" with request ID "ctx-id" |
| UnusedLambda.HandleRequest | src/main/java/com/steverhoton/poc/UnusedLambda.java:37-39 | every invocation fails with RuntimeException("Should be unused") |
| UnusedLambda.IgnoresArguments | src/main/java/com/steverhoton/poc/UnusedLambda.java:37-38 | the outcome is the same for every input (including a `null` input and one with `null` fields) and every context (including `null`) |
| LambdaRuntime.RecordsOf | src/main/java/com/steverhoton/poc/AbstractSqsEventHandler.java:40 | the record list is reachable exactly when neither the event nor its list is `null`; the handlers throw NullPointerException otherwise |
| AbstractSqsEventHandler.Header | src/main/java/com/steverhoton/poc/AbstractSqsEventHandler.java:39-41 | the log line is "SQS Event received with ", then the decimal count, then " records" |
| AbstractSqsEventHandler.HeaderInjective | src/main/java/com/steverhoton/poc/AbstractSqsEventHandler.java:40 | the log line determines the record count |
| AbstractSqsEventHandler.ProcessAll | src/main/java/com/steverhoton/poc/AbstractSqsEventHandler.java:27-29 | call i passes record i and the one context; every call but the last returned; a normal end means every record was processed; an exception is the last call's, and no record after it was processed; the output is what the calls printed, in call order |
| AbstractSqsEventHandler.HandleRequest | src/main/java/com/steverhoton/poc/AbstractSqsEventHandler.java:24-32 | a `null` event or record list throws NullPointerException before any output; otherwise the header with the record count comes first, the handler returns `null` exactly when every step returns, and an empty batch prints only the header and calls nothing |
| AbstractSqsEventHandler.StopsAtFirstFailure | src/main/java/com/steverhoton/poc/AbstractSqsEventHandler.java:27-29 | if record k is the first whose step throws, there are exactly k + 1 calls and that exception escapes |
| SqsEventProcessor.AttributeLines | src/main/java/com/steverhoton/poc/SqsEventProcessor.java:42-51 | no attribute lines for a `null` or empty map; otherwise "Message Attributes:" and then one "  key: value" line per entry |
| SqsEventProcessor.Block | src/main/java/com/steverhoton/poc/SqsEventProcessor.java:35-53 | a message's block has 6 lines, or 7 + \|attributes\| when the attribute map is non-empty |
| SqsEventProcessor.BlockLayout | src/main/java/com/steverhoton/poc/SqsEventProcessor.java:35-53 | a block starts with the opening separator and ends with the closing one; between them come, in order, "Message ID: id", "Receipt Handle: h", "Queue Source: src - arn", "Message Body: body" (a `null` field printed as "null"), then the attribute section |
| SqsEventProcessor.HandleRequest | src/main/java/com/steverhoton/poc/SqsEventProcessor.java:31-57 | a `null` event or record list throws NullPointerException before printing; otherwise the first line is the header with the record count, the rest are the blocks, and the handler returns |
| SqsEventProcessor.BlocksLength | src/main/java/com/steverhoton/poc/SqsEventProcessor.java:34-54 | the blocks take the sum of the per-message line counts (6, or 7 + \|attributes\|) |
| SqsEventProcessor.BlocksAround | src/main/java/com/steverhoton/poc/SqsEventProcessor.java:34-54 | the printed blocks split around record k into those of earlier records, record k's block, and those of later records |
| SqsEventProcessor.BlockAt | src/main/java/com/steverhoton/poc/SqsEventProcessor.java:34-54 | record k's block appears whole right after the blocks of records 0..k-1, so blocks follow record order |
| SqsEventProcessor.OneOpenSeparatorPerBlock | src/main/java/com/steverhoton/poc/SqsEventProcessor.java:35-53 | no line of a block other than its first equals the opening separator |
| SqsEventProcessor.OneBlockPerRecord | src/main/java/com/steverhoton/poc/SqsEventProcessor.java:34-54 | the opening separator appears exactly once per record |
| SqsEventProcessor.AgreesWithBase | src/main/java/com/steverhoton/poc/SqsEventProcessor.java:31-57 | the message-dump handler prints and returns exactly what the base-class loop does with `DumpMessage` as its step, and that loop processes every record |
| SqsEventProcessor.SingleMessageBatch | src/main/java/com/steverhoton/poc/SqsEventProcessor.java:32-54 | a one-message batch prints the header for 1 record and then that message's block |
| SqsEventProcessor.HeaderOfOne | src/test/java/com/steverhoton/poc/SqsEventProcessorTest.java:53 | the header for one record is "SQS Event received with 1 records" |
| SqsEventProcessor.UnitTestExample | src/test/java/com/steverhoton/poc/SqsEventProcessorTest.java:36-57 | the unit test's message prints the header, ID, receipt handle and body lines the test looks for |
| StreamLambda.Read | src/main/java/com/steverhoton/poc/StreamLambda.java:33 | `read()` gives the next byte as 0..255, and -1 exactly at the end of the input |
| StreamLambda.ToUpperCase | src/main/java/com/steverhoton/poc/StreamLambda.java:34 | ASCII `a`–`z` move to `A`–`Z` and every other ASCII code point is unchanged |
| StreamLambda.HandleRequest | src/main/java/com/steverhoton/poc/StreamLambda.java:31-37 | the read/convert/write loop writes one byte per byte read, in order, and so produces exactly `Uppercased(input)`; empty input gives empty output |
| StreamLambda.UpperByteOnAscii | src/main/java/com/steverhoton/poc/StreamLambda.java:34-35 | on ASCII bytes the handler applies exactly the ASCII case map, and its output is ASCII |
| StreamLambda.AsciiIdempotent | src/main/java/com/steverhoton/poc/StreamLambda.java:16-17 | on ASCII input the output has no lower-case letter, and a second pass changes nothing |
| StreamLambda.EmptyStream | src/main/java/com/steverhoton/poc/StreamLambda.java:33 | empty input gives empty output |
| StreamLambda.LatinSmallYDiaeresis | src/main/java/com/steverhoton/poc/StreamLambda.java:34-35 | outside ASCII the truncation shows: 0xFF is written as lower-case `x`, which a second pass makes `X`, and 0xB5 is written as 0x9C |

## Left out

- The AWS Lambda runtime types (`Context`, `RequestHandler`, `RequestStreamHandler`, `SQSEvent`, `SQSMessage`). They are reduced to the values the handlers read. A context's request ID is taken to be a non-null string, the elements of a record list non-null messages, and attribute keys non-null strings. A `processInput` step that returns `null` (which the base class would dereference when a context is present) is not modelled: a step returns an output or throws.
- TestLambda.HandleRequest: does not state that the returned object is the very object `process` built, with the request ID set on it in place (`setRequestId` returns the same instance). Outputs are values here, so that object identity is not modelled.
- AbstractSqsEventHandler.ProcessAll: the per-message step is a function of the message and the context only. A subclass whose `processMessage` keeps state between calls (a counter, say) or changes the `SQSMessage` objects it is given is not modelled. So the statements that the output is the step's lines for each call in turn, and that the batch returns exactly when every record's step returns, are about such state-free steps. `AbstractSqsEventHandler.HandleRequest` inherits the same restriction.
- AbstractLambdaHandler.HandleRequest: does not state that the returned object is the very object `processInput` returned, stamped in place. Outputs are values here, so object identity, and a step that keeps a reference to its `OutputObject` and later sees the request ID, are not modelled.
- Unpaired UTF-16 surrogates. A Java `String` may hold one; a Dafny `string` cannot, so names and greetings containing one are not modelled, and text with supplementary characters has a different length here than `String.length()` gives.
- The CDI/Quarkus wiring (`@Inject`, `@Named`, `@ApplicationScoped`). The greeting service is called directly, and an abstract step is a function parameter.
- `System.out` and the stream objects. These are I/O: printing is the returned sequence of lines, and a stream is a sequence of bytes. `IOException` from a read or write is not modelled.
- Line breaks inside printed values. An element of the output is the argument of one `println` call. A message field that itself contains line breaks (a multi-line body, say) would print as several lines of standard output, and those are not split apart. So the counts of `SqsEventProcessor.Block`, `SqsEventProcessor.BlocksLength` and `SqsEventProcessor.OneBlockPerRecord` are counts of `println` calls.
- The order of message attributes. `HashMap` iteration order is unspecified, so the map is given as its entries in whatever order it iterates them. The properties stated are only about counts and line positions. An attribute value is the text its `toString()` produces.
- StreamLambda.ToUpperCase: gives the Unicode simple upper-case mapping only for code points 0..255, the only values `read()` returns. No general `Character` table is modelled.
- AbstractLambdaHandler.HandleRequest: "called exactly once" for the single-request step is not stated separately. The step is a pure function here, so calling it once and calling it twice cannot be told apart.
- Concurrency, retries and scaling belong to the host runtime; none of the code here implements them.
