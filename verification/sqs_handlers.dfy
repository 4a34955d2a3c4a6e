/**
 * The base class of the SQS batch handlers: log the batch size, then hand each
 * record, in delivery order, to the subclass's per-message step; the first
 * exception ends the batch.
 */
module AbstractSqsEventHandler {
  import opened Wrappers
  import opened JavaLang
  import opened LambdaRuntime

  /** What one call prints (its standard-output lines) and how it ends: returns, or throws. */
  datatype Effect = Effect(lines: seq<string>, outcome: Outcome<Exception>)

  /** The abstract `processMessage(message, context)` step a subclass supplies. */
  type MessageStep = (Message, Context) -> Effect

  /**
   * One batch invocation: the lines printed, the arguments of every call of the
   * step in call order, and whether the handler returned (`null`) or threw.
   */
  datatype Run = Run(out: seq<string>, calls: seq<(Message, Context)>, outcome: Outcome<Exception>)

  const HeaderPrefix: string := "SQS Event received with "
  const HeaderSuffix: string := " records"

  /** The line `logEventReceived` prints for a batch of `count` records. */
  function Header(count: nat): (line: string)
    ensures |line| == |HeaderPrefix| + |DecimalString(count)| + |HeaderSuffix|
    ensures line[..|HeaderPrefix|] == HeaderPrefix
    ensures line[|HeaderPrefix|..|line| - |HeaderSuffix|] == DecimalString(count)
    ensures line[|line| - |HeaderSuffix|..] == HeaderSuffix
  {
    HeaderPrefix + DecimalString(count) + HeaderSuffix
  }

  /** The header line names the record count: different counts give different lines. */
  lemma HeaderInjective(m: nat, n: nat)
    requires Header(m) == Header(n)
    ensures m == n
  {
    DecimalStringInjective(m, n);
  }

  /** The lines a sequence of step calls prints, in call order. */
  function LinesOf(step: MessageStep, calls: seq<(Message, Context)>): seq<string>
    decreases |calls|
  {
    if |calls| == 0 then [] else step(calls[0].0, calls[0].1).lines + LinesOf(step, calls[1..])
  }

  /**
   * The `for` loop over the records: each record goes to the step once, in
   * order, with the same context; a throwing call ends the loop and its
   * exception escapes.
   */
  function ProcessAll(step: MessageStep, records: seq<Message>, context: Context): (r: Run)
    ensures |r.calls| <= |records|
    ensures forall i :: 0 <= i < |r.calls| ==> r.calls[i] == (records[i], context)
    ensures r.out == LinesOf(step, r.calls)
    ensures forall i :: 0 <= i < |r.calls| - 1 ==> step(records[i], context).outcome.Pass?
    ensures 0 < |r.calls| ==> step(records[|r.calls| - 1], context).outcome == r.outcome
    ensures r.outcome.Pass? ==> |r.calls| == |records|
    ensures r.calls == [] ==> r.outcome.Pass?
    decreases |records|
  {
    if |records| == 0 then Run([], [], Pass)
    else
      var first := step(records[0], context);
      if first.outcome.Fail? then Run(first.lines, [(records[0], context)], first.outcome)
      else
        var rest := ProcessAll(step, records[1..], context);
        var calls := [(records[0], context)] + rest.calls;
        assert calls[1..] == rest.calls;
        Run(first.lines + rest.out, calls, rest.outcome)
  }

  /**
   * `handleRequest(event, context)`: a `null` event or record list throws before
   * anything is printed; otherwise the header comes first, then what the step calls print.
   */
  function HandleRequest(processMessage: MessageStep, event: SqsEventRef, context: Context): (r: Run)
    ensures RecordsOf(event).None? ==> r == Run([], [], Fail(NullPointerException))
    ensures RecordsOf(event).Some? ==>
              var records := RecordsOf(event).value;
              && 0 < |r.out|
              && r.out[0] == Header(|records|)
              && r.out[1..] == LinesOf(processMessage, r.calls)
              && |r.calls| <= |records|
              && (forall i :: 0 <= i < |r.calls| ==> r.calls[i] == (records[i], context))
              && (r.outcome.Pass? <==> forall i :: 0 <= i < |records| ==> processMessage(records[i], context).outcome.Pass?)
              && (r.outcome.Pass? ==> |r.calls| == |records|)
    ensures RecordsOf(event) == Some([]) ==> r == Run([Header(0)], [], Pass)
  {
    match RecordsOf(event)
    case None => Run([], [], Fail(NullPointerException))
    case Some(records) =>
      var loop := ProcessAll(processMessage, records, context);
      Run([Header(|records|)] + loop.out, loop.calls, loop.outcome)
  }

  /**
   * When the step first throws on record `k`, the handler throws that exception
   * after exactly `k + 1` calls: no later record is ever processed.
   */
  lemma StopsAtFirstFailure(processMessage: MessageStep, records: seq<Message>, context: Context, k: nat)
    requires k < |records|
    requires processMessage(records[k], context).outcome.Fail?
    requires forall i :: 0 <= i < k ==> processMessage(records[i], context).outcome.Pass?
    ensures var r := HandleRequest(processMessage, Some(SqsEvent(Some(records))), context);
            && |r.calls| == k + 1
            && r.outcome == processMessage(records[k], context).outcome
            && r.out == [Header(|records|)] + LinesOf(processMessage, r.calls)
  {
  }
}

/**
 * The message-dump handler: prints the batch size, then one block of lines per
 * message with its fields and attributes.
 */
module SqsEventProcessor {
  import opened Wrappers
  import opened JavaLang
  import opened LambdaRuntime
  import opened AbstractSqsEventHandler

  const OpenSeparator: string := "-------- SQS Message --------"
  const CloseSeparator: string := "----------------------------"
  const AttributesHeader: string := "Message Attributes:"

  /** The line printed for one attribute entry. */
  function AttributeLine(a: Attribute): string {
    "  " + a.key + ": " + a.rendered
  }

  /** The attribute section: nothing for a `null` or empty map, else a header and one line per entry. */
  function AttributeLines(attrs: Option<seq<Attribute>>): (r: seq<string>)
    ensures attrs.None? || attrs.value == [] ==> r == []
    ensures attrs.Some? && attrs.value != [] ==>
              && |r| == 1 + |attrs.value|
              && r[0] == AttributesHeader
              && forall i :: 0 <= i < |attrs.value| ==> r[i + 1] == AttributeLine(attrs.value[i])
  {
    match attrs
    case None => []
    case Some(entries) =>
      if entries == [] then []
      else [AttributesHeader] + seq(|entries|, i requires 0 <= i < |entries| => AttributeLine(entries[i]))
  }

  /** The number of lines printed for a message, counted independently of the lines themselves. */
  function BlockSize(m: Message): nat {
    if m.attributes.None? || m.attributes.value == [] then 6 else 7 + |m.attributes.value|
  }

  /** The block printed for one message, from separator to separator. */
  function Block(m: Message): (b: seq<string>)
    ensures |b| == BlockSize(m)
  {
    [ OpenSeparator,
      "Message ID: " + Show(m.messageId),
      "Receipt Handle: " + Show(m.receiptHandle),
      "Queue Source: " + Show(m.eventSource) + " - " + Show(m.eventSourceArn),
      "Message Body: " + Show(m.body) ]
    + AttributeLines(m.attributes)
    + [CloseSeparator]
  }

  /**
   * Between the separators a block holds, in order, the ID, the receipt handle,
   * "source - arn", the body, and the attribute section.
   */
  lemma BlockLayout(m: Message)
    ensures var b := Block(m);
            && b[0] == OpenSeparator
            && b[|b| - 1] == CloseSeparator
            && b[1] == "Message ID: " + Show(m.messageId)
            && b[2] == "Receipt Handle: " + Show(m.receiptHandle)
            && b[3] == "Queue Source: " + Show(m.eventSource) + " - " + Show(m.eventSourceArn)
            && b[4] == "Message Body: " + Show(m.body)
            && b[5..|b| - 1] == AttributeLines(m.attributes)
  {
  }

  /** The blocks of a sequence of messages, in message order. */
  function Blocks(ms: seq<Message>): seq<string>
    decreases |ms|
  {
    if |ms| == 0 then [] else Block(ms[0]) + Blocks(ms[1..])
  }

  /** The total line count of the blocks of `ms`. */
  function TotalSize(ms: seq<Message>): nat
    decreases |ms|
  {
    if |ms| == 0 then 0 else BlockSize(ms[0]) + TotalSize(ms[1..])
  }

  /** As a message step: print the block, never throw. */
  function DumpMessage(m: Message, context: Context): Effect {
    Effect(Block(m), Pass)
  }

  /**
   * `handleRequest(event, context)`: a `null` event or record list throws before printing;
   * otherwise the header line, then every message's block, and it returns `null`.
   */
  function HandleRequest(event: SqsEventRef, context: Context): (r: Effect)
    ensures RecordsOf(event).None? <==> r.outcome.Fail?
    ensures RecordsOf(event).None? ==> r == Effect([], Fail(NullPointerException))
    ensures RecordsOf(event).Some? ==>
              && 0 < |r.lines|
              && r.lines[0] == Header(|RecordsOf(event).value|)
              && r.lines[1..] == Blocks(RecordsOf(event).value)
  {
    match RecordsOf(event)
    case None => Effect([], Fail(NullPointerException))
    case Some(records) => Effect([Header(|records|)] + Blocks(records), Pass)
  }

  /** Blocks of a concatenation are the concatenation of the blocks. */
  lemma {:induction false} BlocksAppend(a: seq<Message>, b: seq<Message>)
    ensures Blocks(a + b) == Blocks(a) + Blocks(b)
    decreases |a|
  {
    if |a| == 0 {
      assert a + b == b;
    } else {
      assert (a + b)[1..] == a[1..] + b;
      BlocksAppend(a[1..], b);
    }
  }

  /** The blocks of `ms` hold `TotalSize(ms)` lines: 6 or `7 + |attributes|` per message. */
  lemma {:induction false} BlocksLength(ms: seq<Message>)
    ensures |Blocks(ms)| == TotalSize(ms)
    decreases |ms|
  {
    if |ms| > 0 {
      BlocksLength(ms[1..]);
    }
  }

  /** The blocks of a batch split around record `k`: those before it, its own, those after it. */
  lemma BlocksAround(ms: seq<Message>, k: nat)
    requires k < |ms|
    ensures Blocks(ms) == Blocks(ms[..k]) + (Block(ms[k]) + Blocks(ms[k + 1..]))
  {
    TakeDrop(ms, k);
    BlocksAppend(ms[..k], ms[k..]);
    BlocksFrom(ms, k);
  }

  /** The blocks from record `k` on start with record `k`'s block. */
  lemma BlocksFrom(ms: seq<Message>, k: nat)
    requires k < |ms|
    ensures Blocks(ms[k..]) == Block(ms[k]) + Blocks(ms[k + 1..])
  {
    assert ms[k..][0] == ms[k] && ms[k..][1..] == ms[k + 1..];
  }

  /** Cutting a sequence at `k` and gluing the halves back gives it again. */
  lemma TakeDrop<T>(s: seq<T>, k: nat)
    requires k <= |s|
    ensures s[..k] + s[k..] == s
  {
  }

  /**
   * Record `k`'s block sits, whole and unchanged, right after the blocks of the
   * records before it: exactly one block per record, in record order.
   */
  lemma BlockAt(ms: seq<Message>, k: nat)
    requires k < |ms|
    ensures |Blocks(ms[..k])| + BlockSize(ms[k]) <= |Blocks(ms)|
    ensures Blocks(ms)[|Blocks(ms[..k])|..|Blocks(ms[..k])| + BlockSize(ms[k])] == Block(ms[k])
  {
    BlocksAround(ms, k);
    SliceOfMiddle(Blocks(ms[..k]), Block(ms[k]), Blocks(ms[k + 1..]), Blocks(ms), BlockSize(ms[k]));
  }

  /** In `all == a + (b + c)`, the `n == |b|` elements after `a` are `b`. */
  lemma SliceOfMiddle<T>(a: seq<T>, b: seq<T>, c: seq<T>, all: seq<T>, n: nat)
    requires all == a + (b + c) && n == |b|
    ensures |a| + n <= |all|
    ensures all[|a|..|a| + n] == b
  {
  }

  /** The number of times `line` occurs in `lines`. */
  function Occurrences(lines: seq<string>, line: string): nat
    decreases |lines|
  {
    if |lines| == 0 then 0 else (if lines[0] == line then 1 else 0) + Occurrences(lines[1..], line)
  }

  lemma {:induction false} OccurrencesAppend(a: seq<string>, b: seq<string>, line: string)
    ensures Occurrences(a + b, line) == Occurrences(a, line) + Occurrences(b, line)
    decreases |a|
  {
    if |a| == 0 {
      assert a + b == b;
    } else {
      assert (a + b)[1..] == a[1..] + b;
      OccurrencesAppend(a[1..], b, line);
    }
  }

  /** No attribute line is the opening separator: each starts with 'M' or a space. */
  lemma AttributeLinesNotOpen(attrs: Option<seq<Attribute>>)
    ensures Occurrences(AttributeLines(attrs), OpenSeparator) == 0
  {
    var lines := AttributeLines(attrs);
    forall i | 0 <= i < |lines|
      ensures lines[i] != OpenSeparator
    {
      assert lines[i][0] != OpenSeparator[0];
    }
    NoOccurrences(lines, OpenSeparator);
  }

  /** A block opens with the separator and no other of its lines is that separator. */
  lemma OneOpenSeparatorPerBlock(m: Message)
    ensures Occurrences(Block(m), OpenSeparator) == 1
  {
    var b := Block(m);
    BlockLayout(m);
    var fields := b[1..5];
    var attrs := AttributeLines(m.attributes);
    assert b == [OpenSeparator] + fields + attrs + [CloseSeparator];
    forall i | 0 <= i < 4
      ensures fields[i] != OpenSeparator
    {
      assert fields[i][0] != OpenSeparator[0];
    }
    NoOccurrences(fields, OpenSeparator);
    AttributeLinesNotOpen(m.attributes);
    assert Occurrences([CloseSeparator], OpenSeparator) == 0 by {
      assert |CloseSeparator| != |OpenSeparator|;
    }
    OccurrencesAppend([OpenSeparator], fields, OpenSeparator);
    OccurrencesAppend([OpenSeparator] + fields, attrs, OpenSeparator);
    OccurrencesAppend([OpenSeparator] + fields + attrs, [CloseSeparator], OpenSeparator);
  }

  lemma {:induction false} NoOccurrences(lines: seq<string>, line: string)
    requires forall i :: 0 <= i < |lines| ==> lines[i] != line
    ensures Occurrences(lines, line) == 0
    decreases |lines|
  {
    if |lines| > 0 {
      NoOccurrences(lines[1..], line);
    }
  }

  /** The output of a batch opens exactly one block per record. */
  lemma {:induction false} OneBlockPerRecord(ms: seq<Message>)
    ensures Occurrences(Blocks(ms), OpenSeparator) == |ms|
    decreases |ms|
  {
    if |ms| > 0 {
      OneOpenSeparatorPerBlock(ms[0]);
      OccurrencesAppend(Block(ms[0]), Blocks(ms[1..]), OpenSeparator);
      OneBlockPerRecord(ms[1..]);
    }
  }

  /**
   * The message-dump handler is the base class's loop with `DumpMessage` as the
   * step: same lines, every record processed once in order, and a normal return.
   */
  lemma {:induction false} DumpLoopIsBlocks(ms: seq<Message>, context: Context)
    ensures ProcessAll(DumpMessage, ms, context).out == Blocks(ms)
    ensures ProcessAll(DumpMessage, ms, context).outcome == Pass
    decreases |ms|
  {
    if |ms| > 0 {
      DumpLoopIsBlocks(ms[1..], context);
    }
  }

  lemma AgreesWithBase(event: SqsEventRef, context: Context)
    ensures var base := AbstractSqsEventHandler.HandleRequest(DumpMessage, event, context);
            && HandleRequest(event, context) == Effect(base.out, base.outcome)
            && (RecordsOf(event).Some? ==> |base.calls| == |RecordsOf(event).value|)
  {
    if RecordsOf(event).Some? {
      DumpLoopIsBlocks(RecordsOf(event).value, context);
    }
  }

  /** The header of a one-record batch, as the handler's unit test expects it. */
  lemma HeaderOfOne()
    ensures Header(1) == "SQS Event received with 1 records"
  {
    assert DecimalString(1) == "1";
  }

  /** A batch of one message prints the header for one record, then that message's block. */
  lemma {:induction false} SingleMessageBatch(m: Message, context: Context)
    ensures HandleRequest(Some(SqsEvent(Some([m]))), context) == Effect([Header(1)] + Block(m), Pass)
  {
    assert Blocks([m]) == Block(m) by {
      assert [m][1..] == [];
    }
  }

  /** The one-message batch of the handler's unit test prints the lines the test looks for. */
  lemma UnitTestExample(m: Message, context: Context)
    requires m.messageId == Some("test-message-id")
    requires m.receiptHandle == Some("test-receipt-handle")
    requires m.body == Some("This is a test message body")
    ensures var r := HandleRequest(Some(SqsEvent(Some([m]))), context);
            && r.outcome == Pass
            && r.lines[0] == "SQS Event received with 1 records"
            && r.lines[2] == "Message ID: " + "test-message-id"
            && r.lines[3] == "Receipt Handle: " + "test-receipt-handle"
            && r.lines[5] == "Message Body: " + "This is a test message body"
  {
    SingleMessageBatch(m, context);
    HeaderOfOne();
    BlockLayout(m);
  }
}
