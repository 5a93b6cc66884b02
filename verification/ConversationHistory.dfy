/** The items rebuilt from a session's history when a conversation is opened. */
module ConversationHistory {
  import opened Options
  import opened ConversationTypes
  import opened ProjectionSteps
  import opened ConversationInvariants
  import Host = ConversationProjection

  /** User and assistant messages are numbered; the others are not. */
  ghost function Count(messages: seq<PiMessage>): nat {
    if messages == [] then 0
    else
      var last := messages[|messages| - 1];
      Count(messages[..|messages| - 1]) + if last.UserMessage? || last.AssistantMessage? then 1 else 0
  }

  function SettleTool(items: seq<Item>, call: string, detail: string, isError: bool): seq<Item> {
    var i := FindItem(items, ToolId(call));
    if i < |items| && items[i].Tool?
    then items[i := items[i].(detail := detail, status := if isError then ToolFailed else ToolSucceeded)]
    else items
  }

  ghost function Batch(messages: seq<PiMessage>): seq<Item> {
    if messages == [] then []
    else
      var init := messages[..|messages| - 1];
      match messages[|messages| - 1]
      case UserMessage(Some(text)) => Batch(init) + [Message(MessageId(Count(init)), false, User, text)]
      case AssistantMessage(content, usage) => Batch(init) + AssistantItems(content, usage, Count(init), true)
      case ToolResult(Some(call), detail, isError) => SettleTool(Batch(init), call, detail, isError)
      case _ => Batch(init)
  }

  method ConversationItems(messages: seq<PiMessage>) returns (items: seq<Item>)
    ensures items == Batch(messages)
  {
    hide AssistantItems;
    items := [];
    var index := 0;
    for k := 0 to |messages|
      invariant index == Count(messages[..k])
      invariant items == Batch(messages[..k])
    {
      assert messages[..k + 1][..k] == messages[..k];
      match messages[k] {
        case UserMessage(text) =>
          if text.Some? {
            items := items + [Message(MessageId(index), false, User, text.value)];
          }
          index := index + 1;
        case AssistantMessage(content, usage) =>
          var more := Host.AssistantItems(content, usage, index, true);
          items := items + more;
          index := index + 1;
        case ToolResult(call, detail, isError) =>
          if call.Some? {
            items := ReconcileToolResult(items, call.value, detail, isError);
          }
        case OtherMessage =>
      }
    }
    assert messages[..|messages|] == messages;
  }

  method ReconcileToolResult(items: seq<Item>, call: string, detail: string, isError: bool) returns (out: seq<Item>)
    ensures out == SettleTool(items, call, detail, isError)
  {
    out := items;
    for i := 0 to |items|
      invariant out == items && i <= FindItem(items, ToolId(call))
    {
      if items[i].id == ToolId(call) {
        if items[i].Tool? {
          out := items[i := items[i].(detail := detail, status := if isError then ToolFailed else ToolSucceeded)];
        }
        return;
      }
    }
  }

  // ----- distinct ids -----

  ghost function CallsIn(content: seq<Part>): seq<string> {
    if content == [] then []
    else
      var last := content[|content| - 1];
      CallsIn(content[..|content| - 1]) + if last.CallPart? then [last.call] else []
  }

  /** The tool calls of a history, in order. */
  ghost function Calls(messages: seq<PiMessage>): seq<string> {
    if messages == [] then []
    else
      var last := messages[|messages| - 1];
      Calls(messages[..|messages| - 1]) + if last.AssistantMessage? then CallsIn(last.content) else []
  }

  ghost predicate NoRepeats(calls: seq<string>) {
    forall i, j :: 0 <= i < j < |calls| ==> calls[i] != calls[j]
  }

  ghost function ToolCalls(items: seq<Item>): seq<string> {
    if items == [] then []
    else
      var last := items[|items| - 1];
      ToolCalls(items[..|items| - 1]) + if last.id.ToolId? then [last.id.call] else []
  }

  lemma {:induction false} ToolCallsJoin(a: seq<Item>, b: seq<Item>)
    ensures ToolCalls(a + b) == ToolCalls(a) + ToolCalls(b)
  {
    if b == [] {
      assert a + b == a;
    } else {
      ToolCallsJoin(a, b[..|b| - 1]);
      assert (a + b)[..|a + b| - 1] == a + b[..|b| - 1];
    }
  }

  /** Items that share no id but a tool's differ when the tool calls do. */
  lemma {:induction false} DistinctByCalls(items: seq<Item>)
    requires forall i, j :: 0 <= i < j < |items| && !items[i].id.ToolId? ==> items[i].id != items[j].id
    ensures Distinct(items) <==> NoRepeats(ToolCalls(items))
  {
    if items != [] {
      var init, last := items[..|items| - 1], items[|items| - 1];
      DistinctByCalls(init);
      var calls := ToolCalls(init);
      if last.id.ToolId? {
        if k :| 0 <= k < |calls| && calls[k] == last.id.call {
          assert calls[k] in ToolCalls(init);
          var i := CallAt(init, last.id.call);
          assert init[i] == items[i];
          assert ToolCalls(items)[k] == ToolCalls(items)[|calls|];
        } else {
          forall i | 0 <= i < |init|
            ensures items[i].id != last.id
          {
            if init[i].id == last.id { CallListed(init, i); }
          }
          assert NoRepeats(calls) ==> NoRepeats(ToolCalls(items));
          assert NoRepeats(ToolCalls(items)) ==> NoRepeats(calls) by { assert calls == ToolCalls(items)[..|calls|]; }
        }
      } else {
        assert ToolCalls(items) == calls;
      }
      assert Distinct(items) ==> Distinct(init);
    }
  }

  lemma {:induction false} CallAt(items: seq<Item>, call: string) returns (i: nat)
    requires call in ToolCalls(items)
    ensures i < |items| && items[i].id == ToolId(call)
  {
    var init, last := items[..|items| - 1], items[|items| - 1];
    if last.id == ToolId(call) {
      i := |init|;
    } else {
      i := CallAt(init, call);
    }
  }

  lemma {:induction false} CallListed(items: seq<Item>, i: nat)
    requires i < |items| && items[i].id.ToolId?
    ensures items[i].id.call in ToolCalls(items)
  {
    if i < |items| - 1 {
      CallListed(items[..|items| - 1], i);
    }
  }

  predicate PartFits(item: Item, index: nat, parts: nat) {
    && Shaped(item) && !QueuedByUser(item)
    && (item.id.ToolId? || ((item.id.TextId? || item.id.ReasoningId?) && item.id.index == index
          && item.id.content < parts))
  }

  /** Items of the first `parts` parts of a message: numbered by it, in the order of the parts. */
  ghost predicate PartsInOrder(items: seq<Item>, index: nat, parts: nat) {
    && (forall i :: 0 <= i < |items| ==> PartFits(items[i], index, parts))
    && (forall i, j :: 0 <= i < j < |items| && !items[i].id.ToolId? && !items[j].id.ToolId? ==>
          items[i].id.content < items[j].id.content)
  }

  lemma {:induction false} NextPart(items: seq<Item>, index: nat, parts: nat, part: Part)
    requires PartsInOrder(items, index, parts)
    ensures PartsInOrder(items + ToSeq(PartItem(part, index, parts)), index, parts + 1)
    ensures ToolCalls(items + ToSeq(PartItem(part, index, parts))) == ToolCalls(items) + if part.CallPart?
        then [part.call] else []
  {
    hide ToolCalls;
    var more := ToSeq(PartItem(part, index, parts));
    ToolCallsJoin(items, more);
    OneCall(more);
    assert forall i :: 0 <= i < |items| ==> PartFits(items[i], index, parts + 1) by {
      assert forall i :: 0 <= i < |items| ==> PartFits(items[i], index, parts);
    }
  }

  lemma {:induction false} OneCall(items: seq<Item>)
    requires |items| <= 1
    ensures ToolCalls(items) == if items != [] && items[0].id.ToolId? then [items[0].id.call] else []
  {
    if items != [] {
      assert items[..0] == [];
    }
  }

  lemma {:induction false} PartItemsOrdered(content: seq<Part>, index: nat)
    ensures PartsInOrder(PartItems(content, index), index, |content|)
    ensures ToolCalls(PartItems(content, index)) == CallsIn(content)
  {
    hide PartsInOrder, ToolCalls, PartItem;
    if content == [] {
      PartsNone(index);
    } else {
      PartItemsOrdered(content[..|content| - 1], index);
      NextPart(PartItems(content[..|content| - 1], index), index, |content| - 1, content[|content| - 1]);
    }
  }

  lemma {:induction false} PartsNone(index: nat)
    ensures PartsInOrder([], index, 0) && ToolCalls([]) == []
  {
  }

  predicate NumberedBy(item: Item, next: nat) {
    Fits(item, next) && !QueuedByUser(item)
  }

  /** Ids below `next`, and none but a tool's shared. */
  ghost predicate Numbered(items: seq<Item>, next: nat) {
    && (forall i :: 0 <= i < |items| ==> NumberedBy(items[i], next))
    && (forall i, j :: 0 <= i < j < |items| && !items[i].id.ToolId? ==> items[i].id != items[j].id)
  }

  predicate OwnedBy(item: Item, index: nat) {
    NumberedBy(item, index + 1) && (item.id.ToolId? || item.id.index == index)
  }

  lemma {:induction false} AssistantItemsOrdered(content: seq<Part>, usage: Option<Tokens>, index: nat,
      includeUsage: bool)
    ensures var items := AssistantItems(content, usage, index, includeUsage);
            && ToolCalls(items) == CallsIn(content)
            && Numbered(items, index + 1)
            && (forall i :: 0 <= i < |items| ==> OwnedBy(items[i], index))
  {
    hide ToolCalls, PartItems;
    PartItemsOrdered(content, index);
    var parts := PartItems(content, index);
    assert forall i :: 0 <= i < |parts| ==> PartFits(parts[i], index, |content|);
    var more := if includeUsage && usage.Some? then [Usage(UsageId(index), usage.value)] else [];
    ToolCallsJoin(parts, more);
    OneCall(more);
  }

  lemma {:induction false} NumberedJoin(a: seq<Item>, b: seq<Item>, index: nat)
    requires Numbered(a, index) && Numbered(b, index + 1)
    requires forall i :: 0 <= i < |b| ==> OwnedBy(b[i], index)
    ensures Numbered(a + b, index + 1)
  {
    forall i | 0 <= i < |a|
      ensures NumberedBy(a[i], index + 1) && (a[i].id.ToolId? || a[i].id.index < index)
    {
      assert NumberedBy(a[i], index);
    }
    forall i, j | 0 <= i < j < |a + b| && !(a + b)[i].id.ToolId?
      ensures (a + b)[i].id != (a + b)[j].id
    {
      if i < |a| <= j { assert OwnedBy(b[j - |a|], index); }
    }
  }

  lemma {:induction false} BatchShape(messages: seq<PiMessage>)
    ensures ToolCalls(Batch(messages)) == Calls(messages)
    ensures Numbered(Batch(messages), Count(messages))
  {
    hide ToolCalls, Numbered, AssistantItems, SettleTool, OwnedBy;
    if messages == [] {
      NumberedNone();
    } else {
      var init := messages[..|messages| - 1];
      BatchShape(init);
      NumberedMore(Batch(init), Count(init));
      match messages[|messages| - 1] {
        case UserMessage(Some(text)) =>
          var more := [Message(MessageId(Count(init)), false, User, text)];
          ToolCallsJoin(Batch(init), more);
          OneCall(more);
          NumberedOne(more[0], Count(init));
          NumberedJoin(Batch(init), more, Count(init));
        case AssistantMessage(content, usage) =>
          AssistantItemsOrdered(content, usage, Count(init), true);
          ToolCallsJoin(Batch(init), AssistantItems(content, usage, Count(init), true));
          NumberedJoin(Batch(init), AssistantItems(content, usage, Count(init), true), Count(init));
        case ToolResult(Some(call), detail, isError) =>
          SettleShape(Batch(init), call, detail, isError, Count(init));
        case _ =>
      }
    }
  }

  lemma {:induction false} NumberedNone()
    ensures Numbered([], 0) && ToolCalls([]) == []
  {
  }

  lemma {:induction false} NumberedOne(item: Item, index: nat)
    requires OwnedBy(item, index)
    ensures Numbered([item], index + 1) && forall i :: 0 <= i < |[item]| ==> OwnedBy([item][i], index)
  {
  }

  lemma {:induction false} NumberedMore(items: seq<Item>, next: nat)
    requires Numbered(items, next)
    ensures Numbered(items, next + 1)
  {
    assert forall i :: 0 <= i < |items| ==> NumberedBy(items[i], next);
  }

  lemma {:induction false} SettleShape(items: seq<Item>, call: string, detail: string, isError: bool, next: nat)
    requires Numbered(items, next)
    ensures Numbered(SettleTool(items, call, detail, isError), next)
    ensures ToolCalls(SettleTool(items, call, detail, isError)) == ToolCalls(items)
  {
    hide ToolCalls;
    var i := FindItem(items, ToolId(call));
    var after := SettleTool(items, call, detail, isError);
    if i < |items| { assert NumberedBy(items[i], next); }
    assert forall k :: 0 <= k < |items| ==> after[k].id == items[k].id;
    SameIdsSameCalls(items, after);
  }

  lemma {:induction false} SameIdsSameCalls(a: seq<Item>, b: seq<Item>)
    requires |a| == |b| && forall i :: 0 <= i < |a| ==> a[i].id == b[i].id
    ensures ToolCalls(a) == ToolCalls(b)
  {
    if a != [] {
      SameIdsSameCalls(a[..|a| - 1], b[..|b| - 1]);
    }
  }

  /** A rebuilt conversation has distinct ids exactly when no tool call id repeats. */
  lemma BatchDistinctIff(messages: seq<PiMessage>)
    ensures Distinct(Batch(messages)) <==> NoRepeats(Calls(messages))
  {
    hide ToolCalls, Calls, Batch;
    BatchShape(messages);
    DistinctByCalls(Batch(messages));
  }

  // ----- opening -----

  const RESTORED_INTERRUPTED_TURN := "The agent turn was interrupted before Pi\U{F9} reopened this chat."

  /** `stored` says the chat had a session already, `completed` that its last turn ended. */
  ghost function OpenSession(messages: seq<PiMessage>, initialText: string, stored: bool, completed: bool): State {
    var items := Batch(messages);
    var halted := seq(|items|, i requires 0 <= i < |items| => Halted(items[i]));
    var shouldStart := !stored && messages == [];
    var phase := if halted != items then Interrupted else if shouldStart then Running
                 else if stored && !completed then Stopped else Idle;
    var s := Opened(if messages == [] then [Message(MessageId(0), false, User, initialText)] else halted,
                    phase, if halted != items then Some(RESTORED_INTERRUPTED_TURN) else None,
                    Count(messages) + if messages == [] then 1 else 0);
    if shouldStart then s.(pending := [Pending(MessageId(0), initialText)]) else s
  }

  predicate AnyRunning(items: seq<Item>) {
    exists i :: 0 <= i < |items| && items[i].Tool? && items[i].status == ToolRunning
  }

  /** How it is opened: interrupted if a tool never ended, and then with a failure; else running
      if its first message is still to be answered; else stopped if its last turn did not end. */
  lemma {:induction false} OpenedPhase(messages: seq<PiMessage>, initialText: string, stored: bool, completed: bool)
    ensures var s := OpenSession(messages, initialText, stored, completed);
            if AnyRunning(Batch(messages)) then
              s.phase == Interrupted && s.failure == Some(RESTORED_INTERRUPTED_TURN)
            else
              && s.failure == None
              && (!stored && messages == [] ==> s.phase == Running)
              && (stored && !completed ==> s.phase == Stopped)
              && (!(!stored && messages == []) && (!stored || completed) ==> s.phase == Idle)
    ensures var s := OpenSession(messages, initialText, stored, completed);
            && (messages == [] ==> s.items == [Message(MessageId(0), false, User, initialText)])
            && s.pending == if !stored && messages == [] then [Pending(MessageId(0), initialText)] else []
  {
    hide Batch, Count;
    var items := Batch(messages);
    var halted := seq(|items|, i requires 0 <= i < |items| => Halted(items[i]));
    if AnyRunning(items) {
      var i :| 0 <= i < |items| && items[i].Tool? && items[i].status == ToolRunning;
      assert halted[i] != items[i];
    } else {
      assert halted == items;
    }
  }

  /** What every action keeps holds from the moment a conversation is opened. */
  lemma OpenedGood(messages: seq<PiMessage>, initialText: string, stored: bool, completed: bool)
    requires NoRepeats(Calls(messages))
    ensures Good(OpenSession(messages, initialText, stored, completed))
  {
    hide ToolCalls, Calls, NoRepeats;
    BatchShape(messages);
    BatchDistinctIff(messages);
    var items := Batch(messages);
    assert forall i :: 0 <= i < |items| ==> NumberedBy(items[i], Count(messages));
  }
}
