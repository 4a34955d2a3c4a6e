/**
 * The parts of the AWS Lambda runtime the handlers touch, reduced to values:
 * the execution context (only its request ID is read) and an SQS event batch.
 */
module LambdaRuntime {
  import opened Wrappers
  import opened JavaLang

  /** A Lambda `Context` reference: `None` is a `null` context, `Some(id)` carries the AWS request ID. */
  type Context = Option<string>

  /**
   * One SQS message attribute as the message-dump handler prints it: its key and
   * the text its value object renders as.
   */
  datatype Attribute = Attribute(key: string, rendered: string)

  /**
   * One `SQSMessage`. The attribute map is `None` when `null`; otherwise it is
   * given as the entries in the (unspecified) order the map iterates them.
   */
  datatype Message = Message(
    messageId: JString,
    receiptHandle: JString,
    body: JString,
    eventSource: JString,
    eventSourceArn: JString,
    attributes: Option<seq<Attribute>>)

  /** An `SQSEvent`: its record list, `None` when `null`. */
  datatype SqsEvent = SqsEvent(records: Option<seq<Message>>)

  /** A reference to an `SQSEvent` as a handler receives it: `None` is `null`. */
  type SqsEventRef = Option<SqsEvent>

  /** The record list of an event, or `None` when the event or its list is `null`. */
  function RecordsOf(event: SqsEventRef): (records: Option<seq<Message>>)
    ensures records.Some? <==> event.Some? && event.value.records.Some?
    ensures records.Some? ==> records.value == event.value.records.value
  {
    match event
    case None => None
    case Some(e) => e.records
  }
}
