/** What each event does to a projection and which deltas it sends, as functions: the
    specification the projection class is proved against. */
module ProjectionSteps {
  import opened Options
  import opened ConversationTypes

  /** A conversation as it is opened: nothing is streaming and nothing is pending. */
  function Opened(items: seq<Item>, phase: Phase, failure: Option<string>, next: nat): State {
    State(items, phase, failure, None, next, None, map[], 0, [])
  }

  // ----- finding items -----

  /** The index of the first item with that id, or the number of items. */
  function FindItem(items: seq<Item>, id: ItemId): (i: nat)
    ensures i <= |items|
    ensures i < |items| ==> items[i].id == id
    ensures forall j :: 0 <= j < i ==> items[j].id != id
  {
    if items == [] || items[0].id == id then 0 else 1 + FindItem(items[1..], id)
  }

  predicate QueuedByUser(item: Item) {
    item.Message? && item.queued && item.role.User?
  }

  function FirstQueued(items: seq<Item>): (i: nat)
    ensures i <= |items|
    ensures i < |items| ==> QueuedByUser(items[i])
    ensures forall j :: 0 <= j < i ==> !QueuedByUser(items[j])
  {
    if items == [] || QueuedByUser(items[0]) then 0 else 1 + FirstQueued(items[1..])
  }

  /** The item a new item goes in front of. */
  function BeforeItem(items: seq<Item>): Option<ItemId> {
    if FirstQueued(items) < |items| then Some(items[FirstQueued(items)].id) else None
  }

  function Slot(items: seq<Item>): (at: nat)
    ensures at <= |items|
  {
    match BeforeItem(items) case Some(id) => FindItem(items, id) case None => |items|
  }

  // ----- one change and its delta -----

  function With(p: Projected, items: seq<Item>, delta: Delta): Projected {
    Projected(p.state.(items := items), p.emitted + [delta])
  }

  function AddItem(p: Projected, item: Item): Projected {
    var items := p.state.items;
    if FindItem(items, item.id) < |items| then p
    else With(p, items[..Slot(items)] + [item] + items[Slot(items)..], ItemAdded(BeforeItem(items), item))
  }

  function SetQueued(p: Projected, id: ItemId, queued: bool): Projected {
    var items := p.state.items;
    var i := FindItem(items, id);
    if i < |items| && items[i].Message? && items[i].queued != queued
    then With(p, items[i := items[i].(queued := queued)], MessageQueueChanged(id, queued))
    else p
  }

  function AppendText(p: Projected, id: ItemId, delta: string, reasoning: bool): Projected {
    var items := p.state.items;
    var i := FindItem(items, id);
    if i < |items| && items[i].Message? && !reasoning
    then With(p, items[i := items[i].(text := items[i].text + delta)], TextDelta(id, delta))
    else if i < |items| && items[i].Reasoning? && reasoning
    then With(p, items[i := items[i].(text := items[i].text + delta)], ReasoningDelta(id, delta))
    else p
  }

  function OrElse<T>(o: Option<T>, default: T): T {
    match o case Some(value) => value case None => default
  }

  function UpdateTool(p: Projected, id: ItemId, name: Option<string>, detail: Option<string>,
      status: ToolStatus): Projected {
    var items := p.state.items;
    var i := FindItem(items, id);
    if i < |items| && items[i].Tool? then
      var tool := Tool(items[i].id, OrElse(name, items[i].name), OrElse(detail, items[i].detail), status);
      With(p, items[i := tool], ToolUpdate(id, tool.detail, status))
    else AddItem(p, Tool(id, OrElse(name, "tool"), OrElse(detail, ""), status))
  }

  function ReconcileUsage(p: Projected, index: nat, tokens: Tokens): Projected {
    var items := p.state.items;
    var i := FindItem(items, UsageId(index));
    if i < |items| && items[i].Usage?
    then With(p, items[i := items[i].(tokens := tokens)], UsageUpdate(UsageId(index), tokens))
    else AddItem(p, Usage(UsageId(index), tokens))
  }

  /** Brings a streamed item up to what the finished message says. */
  function ReconcileItem(p: Projected, item: Item): Projected {
    var items := p.state.items;
    var i := FindItem(items, item.id);
    if i == |items| then AddItem(p, item)
    else match (items[i], item)
      case (Message(_, _, _, current), Message(_, _, _, final)) =>
        if current <= final then AppendText(p, item.id, final[|current|..], false) else p
      case (Reasoning(_, current), Reasoning(_, final)) =>
        if current <= final then AppendText(p, item.id, final[|current|..], true) else p
      case (Usage(_, _), Usage(_, tokens)) => ReconcileUsage(p, UsageIndex(Format(item.id)), tokens)
      case _ => p
  }

  // ----- several changes -----

  ghost function AddAll(p: Projected, added: seq<Item>): Projected {
    if added == [] then p else AddItem(AddAll(p, added[..|added| - 1]), added[|added| - 1])
  }

  ghost function ReconcileAll(p: Projected, final: seq<Item>): Projected {
    if final == [] then p else ReconcileItem(ReconcileAll(p, final[..|final| - 1]), final[|final| - 1])
  }

  function Requeued(item: Item, wanted: set<ItemId>): Item {
    if item.Message? && item.role.User? then item.(queued := item.id in wanted) else item
  }

  ghost function QueueDeltas(items: seq<Item>, wanted: set<ItemId>): seq<Delta> {
    if items == [] then []
    else
      var last := items[|items| - 1];
      QueueDeltas(items[..|items| - 1], wanted)
      + if Requeued(last, wanted) != last then [MessageQueueChanged(last.id, last.id in wanted)] else []
  }

  /** The ids Pi still holds back: the last `steering` of the pending ones. */
  ghost function Waiting(pending: seq<Pending>, steering: nat): set<ItemId> {
    set j | 0 <= j < |pending| && |pending| - steering <= j :: pending[j].id
  }

  lemma WaitingFrom(pending: seq<Pending>, steering: nat, from: nat, ids: set<ItemId>)
    requires from == if |pending| >= steering then |pending| - steering else 0
    requires ids == set j | from <= j < |pending| :: pending[j].id
    ensures ids == Waiting(pending, steering)
  {
  }

  ghost function ReconcileQueue(p: Projected): Projected {
    var wanted := Waiting(p.state.pending, p.state.steering);
    Projected(p.state.(items := seq(|p.state.items|,
        i requires 0 <= i < |p.state.items| => Requeued(p.state.items[i], wanted))),
              p.emitted + QueueDeltas(p.state.items, wanted))
  }

  function Halted(item: Item): Item {
    if item.Tool? && item.status.ToolRunning? then item.(status := ToolInterrupted) else item
  }

  ghost function HaltDeltas(items: seq<Item>): seq<Delta> {
    if items == [] then []
    else
      var last := items[|items| - 1];
      HaltDeltas(items[..|items| - 1])
      + if Halted(last) != last then [ToolUpdate(last.id, last.detail, ToolInterrupted)] else []
  }

  ghost function InterruptTools(p: Projected): Projected {
    Projected(p.state.(items := seq(|p.state.items|, i requires 0 <= i < |p.state.items| => Halted(p.state.items[i]))),
              p.emitted + HaltDeltas(p.state.items))
  }

  function ClearInput(p: Projected): Projected {
    match p.state.input
    case None => p
    case Some(request) => Projected(p.state.(input := None), p.emitted + [InputResolved(request.id)])
  }

  // ----- the items of an assistant message -----

  function PartItem(part: Part, index: nat, content: nat): Option<Item> {
    match part
    case TextPart(text) => Some(Message(TextId(index, content), false, Assistant, text))
    case ThinkingPart(text) => Some(Reasoning(ReasoningId(index, content), text))
    case CallPart(call, name, detail) => Some(Tool(ToolId(call), name, detail, ToolRunning))
    case OtherPart => None
  }

  function ToSeq<T>(o: Option<T>): seq<T> {
    match o case Some(value) => [value] case None => []
  }

  ghost function PartItems(content: seq<Part>, index: nat): seq<Item> {
    if content == [] then []
    else PartItems(content[..|content| - 1], index) + ToSeq(PartItem(content[|content| - 1], index, |content| - 1))
  }

  ghost function AssistantItems(content: seq<Part>, usage: Option<Tokens>, index: nat, includeUsage: bool): seq<Item> {
    PartItems(content, index)
    + if includeUsage && usage.Some? then [Usage(UsageId(index), usage.value)] else []
  }

  // ----- events -----

  const INTERRUPTED_TURN := "The agent turn was interrupted."
  const FAILED_TURN := "The agent turn failed."
  const FAILED_REQUEST := "The model request failed."
  const REJECTED_PROMPT := "Pi couldn\U{2019}t accept that message. The conversation is still available."
  const RUNTIME_INTERRUPTED_TURN :=
    "The agent runtime stopped before the turn finished. Send another message to continue."

  function RetryMessage(cause: Option<string>): string {
    "Pi attempted an automatic retry after this turn failed: " + OrElse(cause, FAILED_REQUEST)
    + " Pi\U{F9} stopped the retry; no message was replayed."
  }

  function Settle(p: Projected, phase: Phase, failure: Option<string>): Projected {
    p.(state := p.state.(phase := phase, failure := failure))
  }

  function Say(p: Projected, delta: Delta): Projected {
    p.(emitted := p.emitted + [delta])
  }

  function EndStream(p: Projected): Projected {
    p.(state := p.state.(active := None, tools := map[]))
  }

  function UserStarts(p: Projected, text: string): Projected {
    var s := p.state;
    if s.pending != [] && s.pending[0].text == text
    then SetQueued(p.(state := s.(pending := s.pending[1..])), s.pending[0].id, false)
    else AddItem(p.(state := s.(pending := [], next := s.next + 1)), Message(MessageId(s.next), false, User, text))
  }

  ghost function AssistantStarts(p: Projected, content: seq<Part>): Projected {
    var s := p.state;
    AddAll(p.(state := s.(next := s.next + 1, active := Some(s.next), tools := map[])),
           AssistantItems(content, None, s.next, false))
  }

  function NoteCall(p: Projected, at: Option<nat>, call: string): Projected {
    match at
    case Some(content) => p.(state := p.state.(tools := p.state.tools[content := ToolId(call)]))
    case None => p
  }

  function Streamed(p: Projected, index: nat, update: Update, usage: Option<Tokens>): Projected {
    match update
    case TextStart(c) => AddItem(p, Message(TextId(index, c), false, Assistant, ""))
    case TextGrew(c, delta) => AppendText(p, TextId(index, c), delta, false)
    case ThinkingStart(c) => AddItem(p, Reasoning(ReasoningId(index, c), ""))
    case ThinkingGrew(c, delta) => AppendText(p, ReasoningId(index, c), delta, true)
    case CallStart(c, call, name) => AddItem(NoteCall(p, Some(c), call), Tool(ToolId(call), name, "", ToolRunning))
    case CallGrew(c, delta) =>
      if c in p.state.tools then UpdateTool(p, p.state.tools[c], None, Some(delta), ToolRunning) else p
    case CallEnd(at, call, name, arguments) =>
      UpdateTool(NoteCall(p, at, call), ToolId(call), Some(name), arguments, ToolRunning)
    case Finished => if usage.Some? then ReconcileUsage(p, index, usage.value) else p
    case OtherUpdate => p
  }

  ghost function AgentEnds(p: Projected, last: Option<Ending>): Projected {
    var cleared := ClearInput(p);
    var reason := if last.Some? then last.value.stopReason else None;
    EndStream(
      if reason == Some("aborted") then
        Say(Settle(InterruptTools(cleared), Interrupted, Some(INTERRUPTED_TURN)), TurnInterrupted(INTERRUPTED_TURN))
      else if reason == Some("error") then
        var message := OrElse(last.value.errorMessage, FAILED_TURN);
        Say(InterruptTools(Settle(cleared, Failed, Some(message))), TurnFailed(message))
      else
        Say(Settle(cleared, Idle, None), TurnCompleted))
  }

  ghost function RetryStarts(p: Projected, cause: Option<string>): Projected {
    var message := RetryMessage(cause);
    Say(EndStream(Settle(InterruptTools(p), Failed, Some(message))), TurnFailed(message))
  }

  ghost function Project(s: State, event: PiEvent): Projected {
    var p := Projected(s, []);
    match event
    case AgentStart => Say(Settle(p, Running, None), TurnStarted)
    case UiRequest(Some(request)) => Say(p.(state := s.(input := Some(request))), InputRequested(request))
    case MessageStart(UserMessage(Some(text))) => UserStarts(p, text)
    case MessageStart(AssistantMessage(content, _)) => AssistantStarts(p, content)
    case MessageUpdate(update, usage) => if s.active.Some? then Streamed(p, s.active.value, update, usage) else p
    case ToolStart(call, name, arguments) => UpdateTool(p, ToolId(call), Some(name), arguments, ToolRunning)
    case ToolProgress(call, name, detail) => UpdateTool(p, ToolId(call), Some(name), Some(detail), ToolRunning)
    case ToolEnd(call, name, detail, isError) =>
      UpdateTool(p, ToolId(call), Some(name), Some(detail), if isError then ToolFailed else ToolSucceeded)
    case QueueUpdate(steering) => ReconcileQueue(p.(state := s.(steering := steering)))
    case MessageEnd(AssistantMessage(content, usage)) =>
      if s.active.Some? then ReconcileAll(p, AssistantItems(content, usage, s.active.value, true)) else p
    case AutoRetryStart(cause) => RetryStarts(p, cause)
    case AgentEnd(false, last) => AgentEnds(p, last)
    case _ => p
  }

  // ----- commands -----

  /** A message is sent: it is shown before Pi has seen it. */
  function Send(s: State, text: string): Projected {
    var id := MessageId(s.next);
    var queued := s.phase.Running?;
    var p := Settle(Projected(s, if queued then [] else [TurnStarted]), Running, None);
    if FindItem(s.items, id) < |s.items| then p
    else
      var item := Message(id, queued, User, text);
      Projected(p.state.(items := s.items + [item], next := s.next + 1, pending := s.pending + [Pending(id, text)]),
                p.emitted + [ItemAdded(None, item)] + if queued then [MessageQueueChanged(id, true)] else [])
  }

  function FindPending(pending: seq<Pending>, id: ItemId): (i: nat)
    ensures i <= |pending|
    ensures i < |pending| ==> pending[i].id == id
    ensures forall j :: 0 <= j < i ==> pending[j].id != id
  {
    if pending == [] || pending[0].id == id then 0 else 1 + FindPending(pending[1..], id)
  }

  /** Takes back a message Pi has not started on. */
  function Withdraw(s: State, id: ItemId): Projected {
    var k := FindPending(s.pending, id);
    var i := FindItem(s.items, id);
    if k == |s.pending| then Projected(s, [])
    else
      var left := s.(pending := s.pending[..k] + s.pending[k + 1..]);
      if i == |s.items| then Projected(left, [])
      else Projected(left.(items := s.items[..i] + s.items[i + 1..]), [ItemRemoved(id)])
  }

  /** Pi refused the message; `wasRunning` is the phase it was sent in. */
  function Reject(s: State, id: ItemId, wasRunning: bool): Projected {
    var p := Withdraw(s, id);
    if wasRunning then p else Say(Settle(p, Failed, Some(REJECTED_PROMPT)), TurnFailed(REJECTED_PROMPT))
  }

  ghost function Stop(s: State): Projected {
    var p := Settle(InterruptTools(Projected(s, [])), Stopped, None);
    var q := p.(state := p.state.(input := None));
    if s.phase.Stopped? then q else Say(q, TurnStopped)
  }

  function Answer(s: State, requestId: string): Projected {
    if s.input.Some? && s.input.value.id == requestId
    then Projected(s.(input := None), [InputResolved(requestId)])
    else Projected(s, [])
  }

  /** The runtime stopped under a turn. */
  ghost function RuntimeLost(s: State): Projected {
    var p := ClearInput(InterruptTools(Projected(s, [])));
    Say(Settle(p, Interrupted, Some(RUNTIME_INTERRUPTED_TURN)), TurnInterrupted(RUNTIME_INTERRUPTED_TURN))
  }

  datatype Action =
    | Reported(event: PiEvent)
    | Sent(text: string)
    | Rejected(id: ItemId, wasRunning: bool)
    | Stopping
    | Answered(requestId: string)
    | Lost

  ghost function Do(s: State, action: Action): Projected {
    match action
    case Reported(event) => Project(s, event)
    case Sent(text) => Send(s, text)
    case Rejected(id, wasRunning) => Reject(s, id, wasRunning)
    case Stopping => Stop(s)
    case Answered(requestId) => Answer(s, requestId)
    case Lost => RuntimeLost(s)
  }
}
