/** The tools of a conversation: what the last report about a call says of it stays shown, and
    opening the longer history shows the same. */
module ConversationTools {
  import opened Options
  import opened ConversationTypes
  import opened ProjectionSteps
  import opened ConversationInvariants
  import opened ConversationHistory
  import opened ConversationTurns
  import opened ConversationEvents

  // ----- what leaves a tool alone -----

  /** A report of that call, or of the arguments Pi writes for it. */
  predicate Touches(s: State, action: Action, call: string) {
    match action
    case Reported(ToolStart(of, _, _)) => of == call
    case Reported(ToolProgress(of, _, _)) => of == call
    case Reported(ToolEnd(of, _, _, _)) => of == call
    case Reported(MessageUpdate(CallGrew(at, _), _)) => at in s.tools && s.tools[at] == ToolId(call)
    case Reported(MessageUpdate(CallEnd(_, of, _, _), _)) => of == call
    case _ => false
  }

  /** What interrupts tools that are running. */
  predicate Halts(action: Action) {
    match action
    case Reported(AgentEnd(false, Some(Ending(Some(reason), _)))) => reason == "aborted" || reason == "error"
    case Reported(AutoRetryStart(_)) => true
    case Stopping => true
    case Lost => true
    case _ => false
  }

  lemma {:induction false} AddStays(p: Projected, item: Item, tool: Item)
    requires tool in p.state.items
    ensures tool in AddItem(p, item).state.items
  {
    hide FindItem, FirstQueued, Slot;
    var items, at := p.state.items, Slot(p.state.items);
    var k :| 0 <= k < |items| && items[k] == tool;
    var after := items[..at] + [item] + items[at..];
    assert after[if k < at then k else k + 1] == tool;
  }

  lemma {:induction false} ReplaceStays(items: seq<Item>, i: nat, item: Item, tool: Item)
    requires tool in items && i < |items| && items[i] != tool
    ensures tool in items[i := item]
  {
    var k :| 0 <= k < |items| && items[k] == tool;
    assert items[i := item][k] == tool;
  }

  lemma {:induction false} ChangeStays(p: Projected, tool: Item, id: ItemId, delta: string, reasoning: bool)
    requires tool in p.state.items && tool.Tool?
    ensures tool in AppendText(p, id, delta, reasoning).state.items
    ensures tool in SetQueued(p, id, reasoning).state.items
  {
    hide FindItem;
    var items, i := p.state.items, FindItem(p.state.items, id);
    if i < |items| && !items[i].Tool? {
      if items[i].Message? || items[i].Reasoning? {
        ReplaceStays(items, i, items[i].(text := items[i].text + delta), tool);
      }
      if items[i].Message? { ReplaceStays(items, i, items[i].(queued := reasoning), tool); }
    }
  }

  lemma {:induction false} UpdateStays(p: Projected, tool: Item, id: ItemId, name: Option<string>,
      detail: Option<string>, status: ToolStatus)
    requires tool in p.state.items && id != tool.id
    ensures tool in UpdateTool(p, id, name, detail, status).state.items
  {
    hide AddItem;
    var items, i := p.state.items, FindItem(p.state.items, id);
    if i < |items| && items[i].Tool? {
      ReplaceStays(items, i, Tool(id, OrElse(name, items[i].name), OrElse(detail, items[i].detail), status), tool);
    } else {
      AddStays(p, Tool(id, OrElse(name, "tool"), OrElse(detail, ""), status), tool);
    }
  }

  lemma {:induction false} UsageStays(p: Projected, tool: Item, index: nat, tokens: Tokens)
    requires tool in p.state.items && tool.Tool?
    ensures tool in ReconcileUsage(p, index, tokens).state.items
  {
    hide AddItem;
    var items, i := p.state.items, FindItem(p.state.items, UsageId(index));
    if i < |items| && items[i].Usage? {
      ReplaceStays(items, i, items[i].(tokens := tokens), tool);
    } else {
      AddStays(p, Usage(UsageId(index), tokens), tool);
    }
  }

  lemma {:induction false} ReconcileStays(p: Projected, tool: Item, item: Item)
    requires tool in p.state.items && tool.Tool?
    ensures tool in ReconcileItem(p, item).state.items
  {
    hide AddItem, AppendText, ReconcileUsage, Format, UsageIndex, FindItem;
    var items, i := p.state.items, FindItem(p.state.items, item.id);
    AddStays(p, item, tool);
    if i < |items| {
      match (items[i], item) {
        case (Message(_, _, _, current), Message(_, _, _, final)) =>
          if current <= final { ChangeStays(p, tool, item.id, final[|current|..], false); }
        case (Reasoning(_, current), Reasoning(_, final)) =>
          if current <= final { ChangeStays(p, tool, item.id, final[|current|..], true); }
        case (Usage(_, _), Usage(_, tokens)) => UsageStays(p, tool, UsageIndex(Format(item.id)), tokens);
        case _ =>
      }
    }
  }

  lemma {:induction false} AddAllStays(p: Projected, tool: Item, added: seq<Item>)
    requires tool in p.state.items
    ensures tool in AddAll(p, added).state.items
  {
    hide AddItem;
    if added != [] {
      AddAllStays(p, tool, added[..|added| - 1]);
      AddStays(AddAll(p, added[..|added| - 1]), added[|added| - 1], tool);
    }
  }

  lemma {:induction false} ReconcileAllStays(p: Projected, tool: Item, final: seq<Item>)
    requires tool in p.state.items && tool.Tool?
    ensures tool in ReconcileAll(p, final).state.items
  {
    hide ReconcileItem;
    if final != [] {
      ReconcileAllStays(p, tool, final[..|final| - 1]);
      ReconcileStays(ReconcileAll(p, final[..|final| - 1]), tool, final[|final| - 1]);
    }
  }

  lemma {:induction false} QueueStays(p: Projected, tool: Item)
    requires tool in p.state.items && tool.Tool?
    ensures tool in ReconcileQueue(p).state.items
  {
    hide QueueDeltas, ProjectionSteps.Waiting;
    var k :| 0 <= k < |p.state.items| && p.state.items[k] == tool;
    assert ReconcileQueue(p).state.items[k] == tool;
  }

  lemma {:induction false} HaltStays(p: Projected, tool: Item)
    requires tool in p.state.items
    ensures Halted(tool) in InterruptTools(p).state.items
  {
    hide HaltDeltas;
    var k :| 0 <= k < |p.state.items| && p.state.items[k] == tool;
    assert InterruptTools(p).state.items[k] == Halted(tool);
  }

  lemma {:induction false} StreamedStays(s: State, tool: Item, index: nat, update: Update, usage: Option<Tokens>)
    requires tool in s.items && tool.Tool? && tool.id.ToolId?
    requires !Touches(s, Reported(MessageUpdate(update, usage)), tool.id.call)
    ensures tool in Streamed(Projected(s, []), index, update, usage).state.items
  {
    hide AddItem, AppendText, UpdateTool, ReconcileUsage;
    var p := Projected(s, []);
    match update {
      case TextStart(c) => AddStays(p, Message(TextId(index, c), false, Assistant, ""), tool);
      case TextGrew(c, delta) => ChangeStays(p, tool, TextId(index, c), delta, false);
      case ThinkingStart(c) => AddStays(p, Reasoning(ReasoningId(index, c), ""), tool);
      case ThinkingGrew(c, delta) => ChangeStays(p, tool, ReasoningId(index, c), delta, true);
      case CallStart(c, call, name) =>
        AddStays(NoteCall(p, Some(c), call), Tool(ToolId(call), name, "", ToolRunning), tool);
      case CallGrew(c, delta) =>
        if c in s.tools { UpdateStays(p, tool, s.tools[c], None, Some(delta), ToolRunning); }
      case CallEnd(at, call, name, arguments) =>
        UpdateStays(NoteCall(p, at, call), tool, ToolId(call), Some(name), arguments, ToolRunning);
      case Finished => if usage.Some? { UsageStays(p, tool, index, usage.value); }
      case OtherUpdate =>
    }
  }

  lemma {:induction false} EndingStays(s: State, tool: Item, last: Option<Ending>)
    requires tool in s.items
    ensures var items := AgentEnds(Projected(s, []), last).state.items;
            if Halts(Reported(AgentEnd(false, last))) then Halted(tool) in items else tool in items
  {
    hide InterruptTools;
    var cleared := ClearInput(Projected(s, []));
    HaltStays(cleared, tool);
    if last.Some? { HaltStays(Settle(cleared, Failed, Some(OrElse(last.value.errorMessage, FAILED_TURN))), tool); }
  }

  lemma {:induction false} WithdrawStays(s: State, tool: Item, id: ItemId, wasRunning: bool)
    requires Good(s) && tool in s.items && tool.id.ToolId?
    ensures tool in Reject(s, id, wasRunning).state.items
  {
    var i := FindItem(s.items, id);
    var k :| 0 <= k < |s.items| && s.items[k] == tool;
    if FindPending(s.pending, id) < |s.pending| && i < |s.items| {
      assert id.MessageId?;
      assert (s.items[..i] + s.items[i + 1..])[if k < i then k else k - 1] == tool;
    }
  }

  /** A tool no report touches stays as it is, but for being interrupted if it was running. */
  lemma {:induction false} ActionStays(s: State, action: Action, tool: Item)
    requires Good(s) && tool in s.items && tool.Tool? && tool.id.ToolId? && !Touches(s, action, tool.id.call)
    ensures var items := Do(s, action).state.items;
            if Halts(action) then Halted(tool) in items else tool in items
  {
    hide Good, AddItem, SetQueued, Streamed, UpdateTool, ReconcileQueue, AddAll, ReconcileAll, AssistantItems,
        InterruptTools, AgentEnds, Reject, FindItem, RetryMessage;
    var p := Projected(s, []);
    match action {
      case Reported(MessageStart(UserMessage(Some(text)))) =>
        if s.pending != [] {
          ChangeStays(Projected(s.(pending := s.pending[1..]), []), tool, s.pending[0].id, "", false);
        }
        AddStays(Projected(s.(pending := [], next := s.next + 1), []), Message(MessageId(s.next), false, User, text),
                 tool);
      case Reported(MessageStart(AssistantMessage(content, _))) =>
        AddAllStays(Projected(s.(next := s.next + 1, active := Some(s.next), tools := map[]), []), tool,
                    AssistantItems(content, None, s.next, false));
      case Reported(MessageUpdate(update, usage)) =>
        if s.active.Some? { StreamedStays(s, tool, s.active.value, update, usage); }
      case Reported(ToolStart(call, name, arguments)) =>
        UpdateStays(p, tool, ToolId(call), Some(name), arguments, ToolRunning);
      case Reported(ToolProgress(call, name, detail)) =>
        UpdateStays(p, tool, ToolId(call), Some(name), Some(detail), ToolRunning);
      case Reported(ToolEnd(call, name, detail, isError)) =>
        UpdateStays(p, tool, ToolId(call), Some(name), Some(detail), if isError then ToolFailed else ToolSucceeded);
      case Reported(QueueUpdate(steering)) => QueueStays(Projected(s.(steering := steering), []), tool);
      case Reported(MessageEnd(AssistantMessage(content, usage))) =>
        if s.active.Some? {
          ReconcileAllStays(p, tool, AssistantItems(content, usage, s.active.value, true));
        }
      case Reported(AutoRetryStart(_)) => HaltStays(p, tool);
      case Reported(AgentEnd(false, last)) => EndingStays(s, tool, last);
      case Rejected(id, wasRunning) => WithdrawStays(s, tool, id, wasRunning);
      case Stopping => HaltStays(p, tool);
      case Lost => HaltStays(p, tool);
      case _ =>
    }
  }

  // ----- over whole runs -----

  /** No action from the `k`-th on is about the call. */
  ghost predicate Untouched(s: State, actions: seq<Action>, k: nat, call: string) {
    forall j :: k <= j < |actions| ==> !Touches(After(s, actions[..j]), actions[j], call)
  }

  lemma {:induction false} UntouchedBefore(s: State, actions: seq<Action>, k: nat, call: string)
    requires actions != [] && Untouched(s, actions, k, call)
    ensures Untouched(s, actions[..|actions| - 1], k, call)
  {
    hide Touches, After;
    var init := actions[..|actions| - 1];
    forall j | k <= j < |init|
      ensures !Touches(After(s, init[..j]), init[j], call)
    {
      assert init[..j] == actions[..j] && !Touches(After(s, actions[..j]), actions[j], call);
    }
  }

  /** What is shown of a call after its last report: interrupted exactly if it was running and
      something interrupted it since. */
  lemma {:induction false} RunStays(s: State, actions: seq<Action>, k: nat, tool: Item)
    requires Good(s) && k <= |actions| && tool in After(s, actions[..k]).items && tool.Tool? && tool.id.ToolId?
    requires Untouched(s, actions, k, tool.id.call)
    ensures var items := After(s, actions).items;
            if exists h :: k <= h < |actions| && Halts(actions[h]) then Halted(tool) in items else tool in items
    decreases |actions|
  {
    hide Good, Do, Touches, Halts;
    if k == |actions| {
      assert actions[..k] == actions;
    } else {
      var init, last := actions[..|actions| - 1], actions[|actions| - 1];
      assert init[..k] == actions[..k];
      UntouchedBefore(s, actions, k, tool.id.call);
      RunStays(s, init, k, tool);
      RunKeeps(s, init);
      assert !Touches(After(s, actions[..|init|]), actions[|init|], tool.id.call);
      var now := if exists h :: k <= h < |init| && Halts(init[h]) then Halted(tool) else tool;
      ActionStays(After(s, init), last, now);
      assert forall h :: k <= h < |init| ==> init[h] == actions[h];
      assert Halts(last) ==> Halts(actions[|init|]);
    }
  }

  /** What a report says of its call; `None` if it leaves the arguments open or is not heard. */
  function Said(s: State, action: Action): Option<Item> {
    match action
    case Reported(ToolStart(call, name, Some(detail))) => Some(Tool(ToolId(call), name, detail, ToolRunning))
    case Reported(ToolProgress(call, name, detail)) => Some(Tool(ToolId(call), name, detail, ToolRunning))
    case Reported(ToolEnd(call, name, detail, isError)) =>
      Some(Tool(ToolId(call), name, detail, if isError then ToolFailed else ToolSucceeded))
    case Reported(MessageUpdate(CallEnd(_, call, name, Some(detail)), _)) =>
      if s.active.Some? then Some(Tool(ToolId(call), name, detail, ToolRunning)) else None
    case _ => None
  }

  lemma {:induction false} SaidShown(s: State, action: Action)
    requires Good(s) && Said(s, action).Some?
    ensures ShownOnce(Do(s, action).state.items, Said(s, action).value)
    ensures Said(s, action).value.Tool? && Said(s, action).value.id.ToolId?
  {
    hide Good, Do, Others, ShownOnce;
    match action {
      case Reported(ToolStart(call, name, Some(detail))) => ToolStarts(s, call, name, Some(detail));
      case Reported(ToolProgress(call, name, detail)) => ToolProgresses(s, call, name, detail);
      case Reported(ToolEnd(call, name, detail, isError)) => ToolEnds(s, call, name, detail, isError);
      case Reported(MessageUpdate(CallEnd(at, call, name, Some(detail)), usage)) =>
        CallEnds(s, at, call, name, detail, usage);
    }
  }

  lemma {:induction false} OneShown(s: State, item: Item)
    requires Good(s) && item in s.items
    ensures ShownOnce(s.items, item)
  {
  }

  ghost predicate HaltedSince(actions: seq<Action>, k: nat) {
    exists h :: k < h < |actions| && Halts(actions[h])
  }

  /** The `k`-th action is the last report about its call, and says that of it. */
  ghost predicate Last(s: State, actions: seq<Action>, k: nat, tool: Item) {
    && k < |actions| && tool.id.ToolId? && Said(After(s, actions[..k]), actions[k]) == Some(tool)
    && Untouched(s, actions, k + 1, tool.id.call)
  }

  /** It decides what is shown of the call. */
  lemma {:induction false} LastReport(s: State, actions: seq<Action>, k: nat, tool: Item)
    requires Good(s) && Last(s, actions, k, tool)
    ensures ShownOnce(After(s, actions).items, if HaltedSince(actions, k) then Halted(tool) else tool)
  {
    hide Good, Do, Said, Halts, Touches, Halted, ShownOnce;
    assert actions[..k + 1][..k] == actions[..k];
    RunKeeps(s, actions[..k]);
    SaidShown(After(s, actions[..k]), actions[k]);
    assert tool in After(s, actions[..k + 1]).items by { ShownIn(After(s, actions[..k + 1]).items, tool); }
    RunStays(s, actions, k + 1, tool);
    RunKeeps(s, actions);
    OneShown(After(s, actions), if HaltedSince(actions, k) then Halted(tool) else tool);
  }

  lemma {:induction false} ShownIn(items: seq<Item>, item: Item)
    requires ShownOnce(items, item)
    ensures item in items
  {
  }

  // ----- what the history says of a call -----

  /** A result settles the tool of its call, and nothing else. */
  lemma {:induction false} SettleShown(items: seq<Item>, i: nat, call: string, detail: string, isError: bool)
    requires Distinct(items)
    ensures i < |items| && items[i].Tool? && items[i].id == ToolId(call) ==>
              SettleTool(items, call, detail, isError) ==
              items[i := Tool(ToolId(call), items[i].name, detail, if isError then ToolFailed else ToolSucceeded)]
    ensures (forall k :: 0 <= k < |items| ==> items[k].id != ToolId(call)) ==>
              SettleTool(items, call, detail, isError) == items
  {
    hide FindItem;
    var k := FindItem(items, ToolId(call));
  }

  lemma {:induction false} SettleStays(items: seq<Item>, call: string, detail: string, isError: bool, item: Item)
    requires item in items && item.id != ToolId(call)
    ensures item in SettleTool(items, call, detail, isError)
  {
    var i := FindItem(items, ToolId(call));
    if i < |items| && items[i].Tool? {
      ReplaceStays(items, i, items[i].(detail := detail, status := if isError then ToolFailed else ToolSucceeded),
                   item);
    }
  }

  /** A part of an assistant message, as it is rebuilt. */
  lemma {:induction false} PartListed(content: seq<Part>, index: nat, m: nat)
    requires m < |content|
    ensures var items := PartItems(content, index);
            match content[m]
            case TextPart(text) => Message(TextId(index, m), false, Assistant, text) in items
            case ThinkingPart(text) => Reasoning(ReasoningId(index, m), text) in items
            case CallPart(call, name, detail) => Tool(ToolId(call), name, detail, ToolRunning) in items
            case OtherPart => true
  {
    if m < |content| - 1 { PartListed(content[..|content| - 1], index, m); }
  }

  predicate Answers(message: PiMessage, id: ItemId) {
    message.ToolResult? && message.call.Some? && ToolId(message.call.value) == id
  }

  lemma {:induction false} BatchStays(history: seq<PiMessage>, message: PiMessage, item: Item)
    requires item in Batch(history) && !Answers(message, item.id)
    ensures item in Batch(history + [message])
  {
    hide Batch, SettleTool, AssistantItems;
    HistoryMore(history, message);
    match message {
      case ToolResult(Some(call), detail, isError) => SettleStays(Batch(history), call, detail, isError, item);
      case _ =>
    }
  }

  /** The texts and thoughts of a message are shown in these items, by position. */
  ghost predicate SpeechIn(items: seq<Item>, content: seq<Part>, index: nat) {
    forall m :: 0 <= m < |content| ==>
      && (content[m].TextPart? ==> Message(TextId(index, m), false, Assistant, content[m].text) in items)
      && (content[m].ThinkingPart? ==> Reasoning(ReasoningId(index, m), content[m].thinking) in items)
  }

  /** Every message of the history that says something is rebuilt, under the number it has. */
  lemma {:induction false} MessageListed(history: seq<PiMessage>, k: nat)
    requires k < |history|
    ensures var index, items := Count(history[..k]), Batch(history);
            match history[k]
            case UserMessage(Some(text)) => Message(MessageId(index), false, User, text) in items
            case AssistantMessage(content, usage) =>
              (usage.Some? ==> Usage(UsageId(index), usage.value) in items) && SpeechIn(items, content, index)
            case _ => true
  {
    hide Batch, Count, PartItems, SettleTool;
    var init, last := history[..|history| - 1], history[|history| - 1];
    assert history == init + [last];
    if k < |init| {
      MessageListed(init, k);
      assert init[..k] == history[..k];
      forall item | item in Batch(init) && !item.id.ToolId?
        ensures item in Batch(history)
      {
        BatchStays(init, last, item);
      }
    } else {
      assert history[..k] == init;
      HistoryMore(init, last);
      if last.AssistantMessage? {
        forall m | 0 <= m < |last.content|
        {
          PartListed(last.content, Count(init), m);
        }
      } else if last.UserMessage? && last.text.Some? {
        assert Batch(history)[|Batch(init)|] == Message(MessageId(Count(init)), false, User, last.text.value);
      }
    }
  }

  /** The call is the `m`-th part of the `k`-th message. */
  predicate CallAt(history: seq<PiMessage>, k: nat, m: nat, call: string, name: string, detail: string) {
    && k < |history| && history[k].AssistantMessage? && m < |history[k].content|
    && history[k].content[m] == CallPart(call, name, detail)
  }

  lemma {:induction false} CallAdded(init: seq<PiMessage>, last: PiMessage, m: nat)
    requires last.AssistantMessage? && m < |last.content| && last.content[m].CallPart?
    ensures var part := last.content[m];
            Tool(ToolId(part.call), part.name, part.detail, ToolRunning) in Batch(init + [last])
  {
    hide Batch, Count, PartItems;
    HistoryMore(init, last);
    PartListed(last.content, Count(init), m);
  }

  /** A call without a result is rebuilt with its arguments, as running. */
  lemma {:induction false} Unanswered(history: seq<PiMessage>, k: nat, m: nat, call: string, name: string,
      detail: string)
    requires CallAt(history, k, m, call, name, detail)
    requires forall j :: k < j < |history| ==> !Answers(history[j], ToolId(call))
    ensures Tool(ToolId(call), name, detail, ToolRunning) in Batch(history)
  {
    hide Batch;
    var init, last := history[..|history| - 1], history[|history| - 1];
    assert history == init + [last];
    if k == |init| {
      CallAdded(init, last, m);
    } else {
      Unanswered(init, k, m, call, name, detail);
      BatchStays(init, last, Tool(ToolId(call), name, detail, ToolRunning));
    }
  }

  /** Whatever its results say, it keeps its name. */
  lemma {:induction false} Named(history: seq<PiMessage>, k: nat, m: nat, call: string, name: string, detail: string)
    returns (i: nat)
    requires CallAt(history, k, m, call, name, detail) && NoRepeats(Calls(history))
    ensures var items := Batch(history);
            i < |items| && items[i].Tool? && items[i].id == ToolId(call) && items[i].name == name
  {
    hide Batch, Calls, NoRepeats, Distinct;
    var init, last := history[..|history| - 1], history[|history| - 1];
    assert history == init + [last];
    if k == |init| {
      CallAdded(init, last, m);
      i :| 0 <= i < |Batch(history)| && Batch(history)[i] == Tool(ToolId(call), name, detail, ToolRunning);
    } else {
      FewerCalls(init, last);
      i := Named(init, k, m, call, name, detail);
      if Answers(last, ToolId(call)) {
        HistoryMore(init, last);
        BatchDistinctIff(init);
        SettleShown(Batch(init), i, call, last.detail, last.isError);
      } else {
        var item := Batch(init)[i];
        BatchStays(init, last, item);
        i :| 0 <= i < |Batch(history)| && Batch(history)[i] == item;
      }
    }
  }

  lemma {:induction false} FewerCalls(init: seq<PiMessage>, last: PiMessage)
    requires NoRepeats(Calls(init + [last]))
    ensures NoRepeats(Calls(init))
  {
    assert (init + [last])[..|init|] == init;
    var calls, more := Calls(init), Calls(init + [last]);
    assert forall i :: 0 <= i < |calls| ==> calls[i] == more[i];
  }

  /** The `r`-th message is the last result of the call. */
  predicate LastResult(history: seq<PiMessage>, r: nat, call: string, detail: string, isError: bool) {
    && r < |history| && history[r] == ToolResult(Some(call), detail, isError)
    && forall j :: r < j < |history| ==> !Answers(history[j], ToolId(call))
  }

  /** An answered call is rebuilt with its last result, as failed exactly if that is an error. */
  lemma {:induction false} Answered(history: seq<PiMessage>, k: nat, m: nat, r: nat, call: string, name: string,
      arguments: string, detail: string, isError: bool)
    requires NoRepeats(Calls(history)) && CallAt(history, k, m, call, name, arguments) && k < r
    requires LastResult(history, r, call, detail, isError)
    ensures isError ==> Tool(ToolId(call), name, detail, ToolFailed) in Batch(history)
    ensures !isError ==> Tool(ToolId(call), name, detail, ToolSucceeded) in Batch(history)
  {
    hide Batch, Calls, NoRepeats, Distinct;
    var init, last := history[..|history| - 1], history[|history| - 1];
    assert history == init + [last];
    FewerCalls(init, last);
    if r == |init| {
      var i := Named(init, k, m, call, name, arguments);
      HistoryMore(init, last);
      BatchDistinctIff(init);
      SettleShown(Batch(init), i, call, detail, isError);
      assert Batch(history)[i].id == ToolId(call);
    } else {
      Answered(init, k, m, r, call, name, arguments, detail, isError);
      BatchStays(init, last, Tool(ToolId(call), name, detail, if isError then ToolFailed else ToolSucceeded));
    }
  }

  // ----- agreement -----

  lemma {:induction false} OpenedTool(history: seq<PiMessage>, initialText: string, stored: bool, completed: bool,
      tool: Item)
    requires NoRepeats(Calls(history)) && tool in Batch(history)
    ensures ShownOnce(OpenSession(history, initialText, stored, completed).items, Halted(tool))
  {
    hide Batch, Count, Calls, NoRepeats, Good, ShownOnce;
    var s := OpenSession(history, initialText, stored, completed);
    OpenedGood(history, initialText, stored, completed);
    assert history != [] by { EmptyHistory(); }
    var i :| 0 <= i < |Batch(history)| && Batch(history)[i] == tool;
    assert s.items[i] == Halted(tool);
    OneShown(s, Halted(tool));
  }

  lemma {:induction false} EarlierCalls(history: seq<PiMessage>, later: seq<PiMessage>)
    requires NoRepeats(Calls(history + later))
    ensures NoRepeats(Calls(history))
  {
    hide Calls, NoRepeats;
    if later == [] {
      assert history + later == history;
    } else {
      var init, last := later[..|later| - 1], later[|later| - 1];
      assert history + later == history + init + [last];
      FewerCalls(history + init, last);
      EarlierCalls(history, init);
    }
  }

  /** A call that ended and was answered, whatever else happened: it is shown with what its end
      said, it is rebuilt with what its last result says, and so the two agree exactly if these
      do. */
  lemma {:induction false} ToolsAgree(history: seq<PiMessage>, later: seq<PiMessage>, initialText: string,
      stored: bool, completed: bool, actions: seq<Action>, e: nat, k: nat, m: nat, r: nat, call: string, name: string,
      detail: string, isError: bool, named: string, arguments: string, result: string, failed: bool)
    requires NoRepeats(Calls(history + later))
    requires e < |actions| && actions[e] == Reported(ToolEnd(call, name, detail, isError))
    requires Untouched(OpenSession(history, initialText, stored, completed), actions, e + 1, call)
    requires CallAt(history + later, k, m, call, named, arguments) && k < r
    requires LastResult(history + later, r, call, result, failed)
    ensures var shown := After(OpenSession(history, initialText, stored, completed), actions).items;
            var rebuilt := OpenSession(history + later, initialText, stored, completed).items;
            && ShownOnce(shown, Tool(ToolId(call), name, detail, if isError then ToolFailed else ToolSucceeded))
            && ShownOnce(rebuilt, Tool(ToolId(call), named, result, if failed then ToolFailed else ToolSucceeded))
            && ((exists tool: Item :: tool.id == ToolId(call) && tool in shown && tool in rebuilt) <==>
                name == named && detail == result && isError == failed)
  {
    hide Batch, Calls, NoRepeats, Good, OpenSession, After, Untouched, Distinct;
    var s := OpenSession(history, initialText, stored, completed);
    EarlierCalls(history, later);
    OpenedGood(history, initialText, stored, completed);
    var tool := Tool(ToolId(call), name, detail, if isError then ToolFailed else ToolSucceeded);
    LastReport(s, actions, e, tool);
    Answered(history + later, k, m, r, call, named, arguments, result, failed);
    var settled := Tool(ToolId(call), named, result, if failed then ToolFailed else ToolSucceeded);
    OpenedTool(history + later, initialText, stored, completed, settled);
  }

  /** A call that was interrupted before it ended: the last report before says what is shown,
      the arguments in the history what is rebuilt. */
  lemma {:induction false} InterruptedAgree(history: seq<PiMessage>, later: seq<PiMessage>, initialText: string,
      stored: bool, completed: bool, actions: seq<Action>, e: nat, k: nat, m: nat, call: string, name: string,
      detail: string, named: string, arguments: string)
    requires NoRepeats(Calls(history + later))
    requires Last(OpenSession(history, initialText, stored, completed), actions, e,
                  Tool(ToolId(call), name, detail, ToolRunning))
    requires CallAt(history + later, k, m, call, named, arguments)
    requires forall j :: k < j < |history + later| ==> !Answers((history + later)[j], ToolId(call))
    ensures var shown := After(OpenSession(history, initialText, stored, completed), actions).items;
            var rebuilt := OpenSession(history + later, initialText, stored, completed).items;
            && ShownOnce(shown, Tool(ToolId(call), name, detail,
                                     if HaltedSince(actions, e) then ToolInterrupted else ToolRunning))
            && ShownOnce(rebuilt, Tool(ToolId(call), named, arguments, ToolInterrupted))
            && ((exists tool: Item :: tool.id == ToolId(call) && tool in shown && tool in rebuilt) <==>
                name == named && detail == arguments && HaltedSince(actions, e))
  {
    hide Batch, Calls, NoRepeats, Good, OpenSession, After, Last, Distinct, HaltedSince;
    EarlierCalls(history, later);
    OpenedGood(history, initialText, stored, completed);
    LastReport(OpenSession(history, initialText, stored, completed), actions, e,
               Tool(ToolId(call), name, detail, ToolRunning));
    Unanswered(history + later, k, m, call, named, arguments);
    OpenedTool(history + later, initialText, stored, completed, Tool(ToolId(call), named, arguments, ToolRunning));
  }

  /** A call of the earlier history that nothing touches afterwards is shown as it was opened,
      and is rebuilt the same. */
  lemma {:induction false} EarlierAgrees(history: seq<PiMessage>, later: seq<PiMessage>, initialText: string,
      stored: bool, completed: bool, actions: seq<Action>, tool: Item)
    requires NoRepeats(Calls(history + later)) && tool in Batch(history) && tool.Tool? && tool.id.ToolId?
    requires Untouched(OpenSession(history, initialText, stored, completed), actions, 0, tool.id.call)
    requires forall j :: 0 <= j < |later| ==> !Answers(later[j], tool.id)
    ensures ShownOnce(After(OpenSession(history, initialText, stored, completed), actions).items, Halted(tool))
    ensures ShownOnce(OpenSession(history + later, initialText, stored, completed).items, Halted(tool))
  {
    hide Batch, Calls, NoRepeats, Good, OpenSession, Untouched, Distinct, ShownOnce, Do, Halts;
    var s := OpenSession(history, initialText, stored, completed);
    EarlierCalls(history, later);
    OpenedGood(history, initialText, stored, completed);
    OpenedTool(history, initialText, stored, completed, tool);
    ShownIn(s.items, Halted(tool));
    assert actions[..0] == [];
    RunStays(s, actions, 0, Halted(tool));
    RunKeeps(s, actions);
    OneShown(After(s, actions), Halted(tool));
    LaterStays(history, later, tool);
    OpenedTool(history + later, initialText, stored, completed, tool);
  }

  lemma {:induction false} LaterStays(history: seq<PiMessage>, later: seq<PiMessage>, item: Item)
    requires item in Batch(history) && forall j :: 0 <= j < |later| ==> !Answers(later[j], item.id)
    ensures item in Batch(history + later)
  {
    hide Batch;
    if later == [] {
      assert history + later == history;
    } else {
      var init, last := later[..|later| - 1], later[|later| - 1];
      assert history + later == history + init + [last];
      LaterStays(history, init, item);
      BatchStays(history + init, last, item);
    }
  }

  ghost function ActionsOf(chunks: seq<Chunk>): seq<Action> {
    if chunks == [] then [] else Actions(chunks[0]) + ActionsOf(chunks[1..])
  }

  /** Whole conversations are runs of actions, so the above holds for them. */
  lemma {:induction false} RunActions(s: State, chunks: seq<Chunk>)
    ensures Run(s, chunks) == After(s, ActionsOf(chunks))
    decreases |chunks|
  {
    hide After, Actions;
    if chunks == [] {
      AfterNone(s);
    } else {
      RunActions(After(s, Actions(chunks[0])), chunks[1..]);
      AfterJoin(s, Actions(chunks[0]), ActionsOf(chunks[1..]));
    }
  }

  lemma {:induction false} AfterNone(s: State)
    ensures After(s, []) == s
  {
  }
}
