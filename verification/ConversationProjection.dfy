/** The host's projection of one conversation: Pi's events are folded into the items it
    shows and, in the same step, into the deltas its clients are sent. */
module ConversationProjection {
  import opened Options
  import opened ConversationTypes
  import Steps = ProjectionSteps

  /** A delta with the revision the client orders it by. */
  datatype Stamped = Stamped(revision: nat, delta: Delta)

  /** Consecutive revisions from the one after `revision`. */
  ghost function Stamps(deltas: seq<Delta>, revision: nat): seq<Stamped> {
    seq(|deltas|, i requires 0 <= i < |deltas| => Stamped(revision + 1 + i, deltas[i]))
  }

  function Max(a: nat, b: nat): nat {
    if a >= b then a else b
  }

  class ConversationProjection {
    var items: seq<Item>
    var phase: Phase
    var failure: Option<string>
    var inputRequest: Option<InputRequest>
    var revision: nat
    var nextMessageIndex: nat
    var activeAssistantIndex: Option<nat>
    var toolContentIds: map<nat, ItemId>
    var nativeSteeringCount: nat
    var pendingUserItems: seq<Pending>

    constructor (items: seq<Item>, phase: Phase, failure: Option<string>, nextMessageIndex: nat)
      ensures revision == 0
      ensures State() == Steps.Opened(items, phase, failure, nextMessageIndex)
    {
      this.items, this.phase, this.failure := items, phase, failure;
      inputRequest, revision := None, 0;
      this.nextMessageIndex := nextMessageIndex;
      activeAssistantIndex, toolContentIds := None, map[];
      nativeSteeringCount, pendingUserItems := 0, [];
    }

    ghost function State(): State
      reads this
    {
      ConversationTypes.State(items, phase, failure, inputRequest, nextMessageIndex, activeAssistantIndex,
                              toolContentIds, nativeSteeringCount, pendingUserItems)
    }

    ghost function Now(emitted: seq<Delta>): Projected
      reads this
    {
      Projected(State(), emitted)
    }

    method StampEvents(deltas: seq<Delta>) returns (stamped: seq<Stamped>)
      modifies `revision
      ensures stamped == Stamps(deltas, old(revision))
      ensures revision == old(revision) + |deltas|
    {
      stamped := [];
      for i := 0 to |deltas|
        invariant revision == old(revision) + i
        invariant stamped == Stamps(deltas[..i], old(revision))
      {
        revision := revision + 1;
        stamped := stamped + [Stamped(revision, deltas[i])];
      }
    }

    // ----- looking up -----

    method Position(id: ItemId) returns (i: nat)
      ensures i == Steps.FindItem(items, id)
    {
      i := 0;
      while i < |items| && items[i].id != id
        invariant i <= Steps.FindItem(items, id)
      {
        i := i + 1;
      }
    }

    method FirstQueued() returns (before: Option<ItemId>)
      ensures before == Steps.BeforeItem(items)
    {
      var i := 0;
      while i < |items| && !Steps.QueuedByUser(items[i])
        invariant i <= Steps.FirstQueued(items)
      {
        i := i + 1;
      }
      before := if i < |items| then Some(items[i].id) else None;
    }

    // ----- one change -----

    method AddItem(item: Item, emitted: seq<Delta>) returns (out: seq<Delta>)
      modifies `items
      ensures Now(out) == Steps.AddItem(old(Now(emitted)), item)
    {
      var existing := Position(item.id);
      if existing < |items| { return emitted; }
      var before := FirstQueued();
      var at := |items|;
      if before.Some? {
        at := Position(before.value);
      }
      items := items[..at] + [item] + items[at..];
      out := emitted + [ItemAdded(before, item)];
    }

    method SetMessageQueued(id: ItemId, queued: bool, emitted: seq<Delta>) returns (out: seq<Delta>)
      modifies `items
      ensures Now(out) == Steps.SetQueued(old(Now(emitted)), id, queued)
    {
      var i := Position(id);
      if i == |items| || !items[i].Message? || items[i].queued == queued { return emitted; }
      items := items[i := items[i].(queued := queued)];
      out := emitted + [MessageQueueChanged(id, queued)];
    }

    method AppendItemText(id: ItemId, delta: string, reasoning: bool, emitted: seq<Delta>) returns (out: seq<Delta>)
      modifies `items
      ensures Now(out) == Steps.AppendText(old(Now(emitted)), id, delta, reasoning)
    {
      var i := Position(id);
      if i == |items| { return emitted; }
      match items[i] {
        case Message(id, queued, role, text) =>
          if reasoning { return emitted; }
          items := items[i := Message(id, queued, role, text + delta)];
        case Reasoning(id, text) =>
          if !reasoning { return emitted; }
          items := items[i := Reasoning(id, text + delta)];
        case _ => return emitted;
      }
      out := emitted + [if reasoning then ReasoningDelta(id, delta) else TextDelta(id, delta)];
    }

    method UpdateTool(id: ItemId, name: Option<string>, detail: Option<string>, status: ToolStatus,
        emitted: seq<Delta>)
      returns (out: seq<Delta>)
      modifies `items
      ensures Now(out) == Steps.UpdateTool(old(Now(emitted)), id, name, detail, status)
    {
      var i := Position(id);
      if i < |items| && items[i].Tool? {
        var tool := items[i];
        if name.Some? { tool := tool.(name := name.value); }
        if detail.Some? { tool := tool.(detail := detail.value); }
        tool := tool.(status := status);
        items := items[i := tool];
        return emitted + [ToolUpdate(id, tool.detail, status)];
      }
      out := AddItem(Tool(id, Steps.OrElse(name, "tool"), Steps.OrElse(detail, ""), status), emitted);
    }

    method ReconcileUsage(index: nat, tokens: Tokens, emitted: seq<Delta>) returns (out: seq<Delta>)
      modifies `items
      ensures Now(out) == Steps.ReconcileUsage(old(Now(emitted)), index, tokens)
    {
      var i := Position(UsageId(index));
      if i < |items| && items[i].Usage? {
        items := items[i := items[i].(tokens := tokens)];
        out := emitted + [UsageUpdate(UsageId(index), tokens)];
      } else {
        out := AddItem(Usage(UsageId(index), tokens), emitted);
      }
    }

    method ReconcileAuthoritativeItem(item: Item, emitted: seq<Delta>) returns (out: seq<Delta>)
      modifies `items
      ensures Now(out) == Steps.ReconcileItem(old(Now(emitted)), item)
    {
      var i := Position(item.id);
      if i == |items| {
        out := AddItem(item, emitted);
        return;
      }
      match (items[i], item) {
        case (Message(_, _, _, current), Message(_, _, _, final)) =>
          if current <= final {
            out := AppendItemText(item.id, final[|current|..], false, emitted);
            return;
          }
        case (Reasoning(_, current), Reasoning(_, final)) =>
          if current <= final {
            out := AppendItemText(item.id, final[|current|..], true, emitted);
            return;
          }
        case (Usage(_, _), Usage(_, tokens)) =>
          out := ReconcileUsage(UsageIndex(Format(item.id)), tokens, emitted);
          return;
        case _ =>
      }
      out := emitted;
    }

    // ----- sweeps over the items -----

    method ReconcileNativeSteeringQueue(emitted: seq<Delta>) returns (out: seq<Delta>)
      modifies `items
      ensures Now(out) == Steps.ReconcileQueue(old(Now(emitted)))
    {
      hide Steps.Waiting;
      var queuedStart := if |pendingUserItems| >= nativeSteeringCount then |pendingUserItems| - nativeSteeringCount
                         else 0;
      var desired := set j | queuedStart <= j < |pendingUserItems| :: pendingUserItems[j].id;
      out := emitted;
      ghost var was := items;
      Steps.WaitingFrom(pendingUserItems, nativeSteeringCount, queuedStart, desired);
      for i := 0 to |items|
        invariant |items| == |was| && items[i..] == was[i..]
        invariant forall k :: 0 <= k < i ==> items[k] == Steps.Requeued(was[k], desired)
        invariant out == emitted + Steps.QueueDeltas(was[..i], desired)
      {
        assert was[..i + 1][..i] == was[..i] && items[i] == was[i];
        var item := items[i];
        if item.Message? && item.role.User? {
          var next := item.id in desired;
          if item.queued != next {
            items := items[i := item.(queued := next)];
            out := out + [MessageQueueChanged(item.id, next)];
          }
        }
      }
      assert was[..|was|] == was;
    }

    method InterruptRunningTools(emitted: seq<Delta>) returns (out: seq<Delta>)
      modifies `items
      ensures Now(out) == Steps.InterruptTools(old(Now(emitted)))
    {
      out := emitted;
      ghost var was := items;
      for i := 0 to |items|
        invariant |items| == |was| && items[i..] == was[i..]
        invariant forall k :: 0 <= k < i ==> items[k] == Steps.Halted(was[k])
        invariant out == emitted + Steps.HaltDeltas(was[..i])
      {
        assert was[..i + 1][..i] == was[..i] && items[i] == was[i];
        var item := items[i];
        if item.Tool? && item.status.ToolRunning? {
          items := items[i := item.(status := ToolInterrupted)];
          out := out + [ToolUpdate(item.id, item.detail, ToolInterrupted)];
        }
      }
      assert was[..|was|] == was;
    }

    method ClearPendingInput(emitted: seq<Delta>) returns (out: seq<Delta>)
      modifies `inputRequest
      ensures Now(out) == Steps.ClearInput(old(Now(emitted)))
    {
      out := emitted;
      if inputRequest.Some? {
        out := out + [InputResolved(inputRequest.value.id)];
        inputRequest := None;
      }
    }

    // ----- events -----

    method UserStarts(text: string, emitted: seq<Delta>) returns (out: seq<Delta>)
      modifies `items, `pendingUserItems, `nextMessageIndex
      ensures Now(out) == Steps.UserStarts(old(Now(emitted)), text)
    {
      if pendingUserItems != [] && pendingUserItems[0].text == text {
        var id := pendingUserItems[0].id;
        pendingUserItems := pendingUserItems[1..];
        out := SetMessageQueued(id, false, emitted);
        return;
      }
      pendingUserItems := [];
      var item := Message(MessageId(nextMessageIndex), false, User, text);
      nextMessageIndex := nextMessageIndex + 1;
      out := AddItem(item, emitted);
    }

    method AssistantStarts(content: seq<Part>, emitted: seq<Delta>) returns (out: seq<Delta>)
      modifies `items, `nextMessageIndex, `activeAssistantIndex, `toolContentIds
      ensures Now(out) == Steps.AssistantStarts(old(Now(emitted)), content)
    {
      hide Steps.AddItem, Steps.AssistantItems;
      var index := nextMessageIndex;
      nextMessageIndex := nextMessageIndex + 1;
      activeAssistantIndex := Some(index);
      toolContentIds := map[];
      out := emitted;
      ghost var p := Now(emitted);
      var added := AssistantItems(content, None, index, false);
      for i := 0 to |added|
        invariant Now(out) == Steps.AddAll(p, added[..i])
      {
        assert added[..i + 1][..i] == added[..i];
        out := AddItem(added[i], out);
      }
      assert added[..|added|] == added;
    }

    method Streamed(index: nat, update: Update, usage: Option<Tokens>, emitted: seq<Delta>) returns (out: seq<Delta>)
      modifies `items, `toolContentIds
      ensures Now(out) == Steps.Streamed(old(Now(emitted)), index, update, usage)
    {
      match update {
        case TextStart(c) => out := AddItem(Message(TextId(index, c), false, Assistant, ""), emitted);
        case TextGrew(c, delta) => out := AppendItemText(TextId(index, c), delta, false, emitted);
        case ThinkingStart(c) => out := AddItem(Reasoning(ReasoningId(index, c), ""), emitted);
        case ThinkingGrew(c, delta) => out := AppendItemText(ReasoningId(index, c), delta, true, emitted);
        case CallStart(c, call, name) =>
          toolContentIds := toolContentIds[c := ToolId(call)];
          out := AddItem(Tool(ToolId(call), name, "", ToolRunning), emitted);
        case CallGrew(c, delta) =>
          out := emitted;
          if c in toolContentIds {
            out := UpdateTool(toolContentIds[c], None, Some(delta), ToolRunning, out);
          }
        case CallEnd(at, call, name, arguments) =>
          if at.Some? {
            toolContentIds := toolContentIds[at.value := ToolId(call)];
          }
          out := UpdateTool(ToolId(call), Some(name), arguments, ToolRunning, emitted);
        case Finished =>
          out := emitted;
          if usage.Some? {
            out := ReconcileUsage(index, usage.value, out);
          }
        case OtherUpdate => out := emitted;
      }
    }

    method MessageEnds(index: nat, content: seq<Part>, usage: Option<Tokens>, emitted: seq<Delta>)
      returns (out: seq<Delta>)
      modifies `items
      ensures Now(out) == Steps.ReconcileAll(old(Now(emitted)), Steps.AssistantItems(content, usage, index, true))
    {
      out := emitted;
      ghost var p := Now(emitted);
      var final := AssistantItems(content, usage, index, true);
      for i := 0 to |final|
        invariant Now(out) == Steps.ReconcileAll(p, final[..i])
      {
        assert final[..i + 1][..i] == final[..i];
        out := ReconcileAuthoritativeItem(final[i], out);
      }
      assert final[..|final|] == final;
    }

    method AgentEnds(last: Option<Ending>, emitted: seq<Delta>) returns (out: seq<Delta>)
      modifies `items, `inputRequest, `failure, `phase, `activeAssistantIndex, `toolContentIds
      ensures Now(out) == Steps.AgentEnds(old(Now(emitted)), last)
    {
      out := ClearPendingInput(emitted);
      if last.Some? && last.value.stopReason == Some("aborted") {
        out := InterruptRunningTools(out);
        failure, phase := Some(Steps.INTERRUPTED_TURN), Interrupted;
        out := out + [TurnInterrupted(Steps.INTERRUPTED_TURN)];
      } else if last.Some? && last.value.stopReason == Some("error") {
        var message := Steps.OrElse(last.value.errorMessage, Steps.FAILED_TURN);
        failure, phase := Some(message), Failed;
        out := InterruptRunningTools(out);
        out := out + [TurnFailed(message)];
      } else {
        failure, phase := None, Idle;
        out := out + [TurnCompleted];
      }
      activeAssistantIndex, toolContentIds := None, map[];
    }

    method RetryStarts(cause: Option<string>, emitted: seq<Delta>) returns (out: seq<Delta>)
      modifies `items, `failure, `phase, `activeAssistantIndex, `toolContentIds
      ensures Now(out) == Steps.RetryStarts(old(Now(emitted)), cause)
    {
      var message := Steps.RetryMessage(cause);
      out := InterruptRunningTools(emitted);
      failure, phase := Some(message), Failed;
      activeAssistantIndex, toolContentIds := None, map[];
      out := out + [TurnFailed(message)];
    }

    method ProjectPiEvent(event: PiEvent) returns (emitted: seq<Delta>)
      modifies this
      ensures Now(emitted) == Steps.Project(old(State()), event)
      ensures revision == old(revision)
    {
      hide Steps.UserStarts, Steps.AssistantStarts, Steps.Streamed, Steps.UpdateTool, Steps.ReconcileQueue,
           Steps.ReconcileAll, Steps.RetryStarts, Steps.AgentEnds, Steps.AssistantItems;
      emitted := [];
      match event {
        case AgentStart =>
          failure, phase := None, Running;
          emitted := emitted + [TurnStarted];
        case UiRequest(request) =>
          if request.Some? {
            inputRequest := request;
            emitted := emitted + [InputRequested(request.value)];
          }
        case MessageStart(message) =>
          match message {
            case UserMessage(Some(text)) => emitted := UserStarts(text, emitted);
            case AssistantMessage(content, _) => emitted := AssistantStarts(content, emitted);
            case _ =>
          }
        case MessageUpdate(update, usage) =>
          if activeAssistantIndex.Some? {
            emitted := Streamed(activeAssistantIndex.value, update, usage, emitted);
          }
        case ToolStart(call, name, arguments) =>
          emitted := UpdateTool(ToolId(call), Some(name), arguments, ToolRunning, emitted);
        case ToolProgress(call, name, detail) =>
          emitted := UpdateTool(ToolId(call), Some(name), Some(detail), ToolRunning, emitted);
        case ToolEnd(call, name, detail, isError) =>
          emitted := UpdateTool(ToolId(call), Some(name), Some(detail),
              if isError then ToolFailed else ToolSucceeded, emitted);
        case QueueUpdate(steering) =>
          nativeSteeringCount := steering;
          emitted := ReconcileNativeSteeringQueue(emitted);
        case MessageEnd(message) =>
          if message.AssistantMessage? && activeAssistantIndex.Some? {
            emitted := MessageEnds(activeAssistantIndex.value, message.content, message.usage, emitted);
          }
        case AutoRetryStart(cause) => emitted := RetryStarts(cause, emitted);
        case AgentEnd(willRetry, last) =>
          if !willRetry { emitted := AgentEnds(last, emitted); }
        case OtherEvent =>
      }
    }

    // ----- commands -----

    method SendActive(text: string) returns (emitted: seq<Delta>)
      modifies this
      ensures Now(emitted) == Steps.Send(old(State()), text)
      ensures revision == old(revision)
    {
      var expectedIndex, wasRunning := nextMessageIndex, phase.Running?;
      var id := MessageId(expectedIndex);
      var turnStarted := !phase.Running?;
      failure, phase := None, Running;
      emitted := if turnStarted then [TurnStarted] else [];
      var existing := Position(id);
      if existing == |items| {
        var item := Message(id, wasRunning, User, text);
        nextMessageIndex := Max(nextMessageIndex, expectedIndex + 1);
        pendingUserItems := pendingUserItems + [Pending(id, text)];
        items := items + [item];
        emitted := emitted + [ItemAdded(None, item)];
        if wasRunning {
          emitted := emitted + [MessageQueueChanged(id, true)];
        }
      }
    }

    method WithdrawPrompt(id: ItemId) returns (emitted: seq<Delta>)
      modifies `items, `pendingUserItems
      ensures Now(emitted) == Steps.Withdraw(old(State()), id)
    {
      emitted := [];
      var k := 0;
      while k < |pendingUserItems| && pendingUserItems[k].id != id
        invariant k <= Steps.FindPending(pendingUserItems, id)
      {
        k := k + 1;
      }
      if k < |pendingUserItems| {
        pendingUserItems := pendingUserItems[..k] + pendingUserItems[k + 1..];
        var i := Position(id);
        if i < |items| {
          items := items[..i] + items[i + 1..];
          emitted := emitted + [ItemRemoved(id)];
        }
      }
    }

    method RejectPrompt(id: ItemId, wasRunning: bool) returns (emitted: seq<Delta>)
      modifies `items, `pendingUserItems, `failure, `phase
      ensures Now(emitted) == Steps.Reject(old(State()), id, wasRunning)
    {
      hide Steps.Withdraw;
      emitted := WithdrawPrompt(id);
      if !wasRunning {
        failure, phase := Some(Steps.REJECTED_PROMPT), Failed;
        emitted := emitted + [TurnFailed(Steps.REJECTED_PROMPT)];
      }
    }

    method StopRuntime() returns (emitted: seq<Delta>)
      modifies this
      ensures Now(emitted) == Steps.Stop(old(State()))
      ensures revision == old(revision)
    {
      var changed := !phase.Stopped?;
      emitted := InterruptRunningTools([]);
      failure, inputRequest, phase := None, None, Stopped;
      if changed {
        emitted := emitted + [TurnStopped];
      }
    }

    method AnswerInput(requestId: string) returns (emitted: seq<Delta>)
      modifies `inputRequest
      ensures Now(emitted) == Steps.Answer(old(State()), requestId)
    {
      emitted := [];
      if inputRequest.Some? && inputRequest.value.id == requestId {
        inputRequest := None;
        emitted := [InputResolved(requestId)];
      }
    }

    method RuntimeStopped() returns (emitted: seq<Delta>)
      modifies this
      ensures Now(emitted) == Steps.RuntimeLost(old(State()))
      ensures revision == old(revision)
    {
      emitted := InterruptRunningTools([]);
      failure := Some(Steps.RUNTIME_INTERRUPTED_TURN);
      emitted := ClearPendingInput(emitted);
      phase := Interrupted;
      emitted := emitted + [TurnInterrupted(Steps.RUNTIME_INTERRUPTED_TURN)];
    }
  }

  method AssistantItems(content: seq<Part>, usage: Option<Tokens>, index: nat, includeUsage: bool)
    returns (items: seq<Item>)
    ensures items == Steps.AssistantItems(content, usage, index, includeUsage)
  {
    items := [];
    for i := 0 to |content|
      invariant items == Steps.PartItems(content[..i], index)
    {
      assert content[..i + 1][..i] == content[..i];
      match content[i] {
        case TextPart(text) => items := items + [Message(TextId(index, i), false, Assistant, text)];
        case ThinkingPart(text) => items := items + [Reasoning(ReasoningId(index, i), text)];
        case CallPart(call, name, detail) => items := items + [Tool(ToolId(call), name, detail, ToolRunning)];
        case OtherPart =>
      }
    }
    assert content[..|content|] == content;
    if includeUsage && usage.Some? {
      items := items + [Usage(UsageId(index), usage.value)];
    }
  }
}
