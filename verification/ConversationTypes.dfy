/** What the host shows of a conversation, what Pi reports, and what the client is sent. */
module ConversationTypes {
  import opened Options
  import opened Numerals

  // ----- item ids -----

  datatype ItemId =
    | MessageId(index: nat)
    | TextId(index: nat, content: nat)
    | ReasoningId(index: nat, content: nat)
    | UsageId(index: nat)
    | ToolId(call: string)

  function Format(id: ItemId): string {
    match id
    case MessageId(i) => "message-" + Decimal(i)
    case TextId(i, c) => "message-" + (Decimal(i) + ("-text-" + Decimal(c)))
    case ReasoningId(i, c) => "message-" + (Decimal(i) + ("-reasoning-" + Decimal(c)))
    case UsageId(i) => "message-" + (Decimal(i) + "-usage")
    case ToolId(call) => "tool-" + call
  }

  /** The number in a usage id, as the host reads it back; 0 when there is none. */
  function UsageIndex(id: string): nat {
    if "message-" <= id && |id| >= 14 && id[|id| - 6..] == "-usage" then
      match ParseDecimal(id[8..|id| - 6]) case Some(n) => n case None => 0
    else 0
  }

  lemma UsageIndexRoundTrip(i: nat)
    ensures UsageIndex(Format(UsageId(i))) == i
  {
    DecimalRoundTrip(i);
    var id := Format(UsageId(i));
    assert id[8..|id| - 6] == Decimal(i);
  }

  function ParseTail(i: nat, rest: string): Option<ItemId> {
    if rest == "" then Some(MessageId(i))
    else if rest == "-usage" then Some(UsageId(i))
    else if "-text-" <= rest then
      match ParseDecimal(rest[6..]) case Some(c) => Some(TextId(i, c)) case None => None
    else if "-reasoning-" <= rest then
      match ParseDecimal(rest[11..]) case Some(c) => Some(ReasoningId(i, c)) case None => None
    else None
  }

  function Parse(s: string): Option<ItemId> {
    if "tool-" <= s then Some(ToolId(s[5..]))
    else if "message-" <= s then
      var tail := s[8..];
      match ParseDecimal(tail[..DigitRun(tail)])
      case None => None
      case Some(i) => ParseTail(i, tail[DigitRun(tail)..])
    else None
  }

  function Tail(id: ItemId): string {
    match id
    case TextId(_, c) => "-text-" + Decimal(c)
    case ReasoningId(_, c) => "-reasoning-" + Decimal(c)
    case UsageId(_) => "-usage"
    case _ => ""
  }

  lemma ParseTailOf(id: ItemId)
    requires !id.ToolId?
    ensures ParseTail(id.index, Tail(id)) == Some(id)
  {
    match id
    case TextId(_, c) => DecimalRoundTrip(c); assert Tail(id)[6..] == Decimal(c);
    case ReasoningId(_, c) =>
      DecimalRoundTrip(c);
      assert Tail(id)[11..] == Decimal(c);
      assert Tail(id)[1] != "-text-"[1];
    case _ =>
  }

  lemma ParseFormat(id: ItemId)
    ensures Parse(Format(id)) == Some(id)
  {
    hide ParseTail, ParseDecimal, Decimal;
    if id.ToolId? {
      assert Format(id)[5..] == id.call;
    } else {
      DecimalRoundTrip(id.index);
      NumeralThen(id.index, Tail(id));
      ParseTailOf(id);
      assert Format(id)[0] != "tool-"[0];
      assert Format(id) == "message-" + (Decimal(id.index) + Tail(id));
      assert Format(id)[8..] == Decimal(id.index) + Tail(id);
    }
  }

  /** Comparing ids as strings, as the source does, is comparing them as ids. */
  lemma FormatInjective(a: ItemId, b: ItemId)
    ensures Format(a) == Format(b) <==> a == b
  {
    ParseFormat(a);
    ParseFormat(b);
  }

  // ----- what the host shows -----

  datatype Phase = Idle | Running | Stopped | Failed | Interrupted

  datatype Role = User | Assistant

  datatype ToolStatus = ToolRunning | ToolSucceeded | ToolFailed | ToolInterrupted

  datatype Tokens = Tokens(input: nat, output: nat, cacheRead: Option<nat>)

  datatype Item =
    | Message(id: ItemId, queued: bool, role: Role, text: string)
    | Reasoning(id: ItemId, text: string)
    | Tool(id: ItemId, name: string, detail: string, status: ToolStatus)
    | Usage(id: ItemId, tokens: Tokens)

  datatype InputKind = Select | Confirm | Input | Editor

  datatype InputRequest = InputRequest(id: string, kind: InputKind, title: string, message: Option<string>,
                                       options: seq<string>, placeholder: Option<string>, prefill: Option<string>)

  datatype Pending = Pending(id: ItemId, text: string)

  /** A projection at one moment, without its revision. */
  datatype State = State(items: seq<Item>, phase: Phase, failure: Option<string>, input: Option<InputRequest>,
                         next: nat, active: Option<nat>, tools: map<nat, ItemId>, steering: nat, pending: seq<Pending>)

  // ----- what Pi reports -----

  datatype Part =
    | TextPart(text: string)
    | ThinkingPart(thinking: string)
    | CallPart(call: string, name: string, detail: string)
    | OtherPart

  datatype PiMessage =
    | UserMessage(text: Option<string>)
    | AssistantMessage(content: seq<Part>, usage: Option<Tokens>)
    | ToolResult(call: Option<string>, detail: string, isError: bool)
    | OtherMessage

  /** Updates whose fields are missing or of the wrong type are `OtherUpdate`. */
  datatype Update =
    | TextStart(content: nat)
    | TextGrew(content: nat, delta: string)
    | ThinkingStart(content: nat)
    | ThinkingGrew(content: nat, delta: string)
    | CallStart(content: nat, call: string, name: string)
    | CallGrew(content: nat, delta: string)
    | CallEnd(at: Option<nat>, call: string, name: string, arguments: Option<string>)
    | Finished
    | OtherUpdate

  /** How a turn ended: the stop reason and error message of its last assistant message. */
  datatype Ending = Ending(stopReason: Option<string>, errorMessage: Option<string>)

  datatype PiEvent =
    | AgentStart
    | UiRequest(request: Option<InputRequest>)
    | MessageStart(message: PiMessage)
    | MessageUpdate(update: Update, usage: Option<Tokens>)
    | ToolStart(call: string, name: string, arguments: Option<string>)
    | ToolProgress(call: string, name: string, detail: string)
    | ToolEnd(call: string, name: string, detail: string, isError: bool)
    | QueueUpdate(steering: nat)
    | MessageEnd(message: PiMessage)
    | AutoRetryStart(cause: Option<string>)
    | AgentEnd(willRetry: bool, last: Option<Ending>)
    | OtherEvent

  // ----- what the client is sent -----

  datatype Delta =
    | ItemAdded(before: Option<ItemId>, item: Item)
    | ItemRemoved(itemId: ItemId)
    | MessageQueueChanged(itemId: ItemId, queued: bool)
    | TextDelta(itemId: ItemId, delta: string)
    | ReasoningDelta(itemId: ItemId, delta: string)
    | ToolUpdate(itemId: ItemId, detail: string, status: ToolStatus)
    | UsageUpdate(itemId: ItemId, tokens: Tokens)
    | InputRequested(request: InputRequest)
    | InputResolved(requestId: string)
    | TurnStarted
    | TurnCompleted
    | TurnFailed(message: string)
    | TurnInterrupted(message: string)
    | TurnStopped

  /** A projection together with the deltas collected so far. */
  datatype Projected = Projected(state: State, emitted: seq<Delta>)
}
