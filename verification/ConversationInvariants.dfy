/** What every event, send, rejection and stop keeps: item ids are distinct, fit the kind of
    the item, and lie below the index the next message will get. */
module ConversationInvariants {
  import opened Options
  import opened ConversationTypes
  import opened ProjectionSteps

  predicate Shaped(item: Item) {
    match item
    case Message(id, queued, User, _) => id.MessageId?
    case Message(id, queued, Assistant, _) => id.TextId? && !queued
    case Reasoning(id, _) => id.ReasoningId?
    case Tool(id, _, _, _) => id.ToolId?
    case Usage(id, _) => id.UsageId?
  }

  predicate Below(id: ItemId, next: nat) {
    id.ToolId? || id.index < next
  }

  predicate Fits(item: Item, next: nat) {
    Shaped(item) && Below(item.id, next)
  }

  ghost predicate Distinct(items: seq<Item>) {
    forall i, j :: 0 <= i < j < |items| ==> items[i].id != items[j].id
  }

  ghost predicate ItemsOk(items: seq<Item>, next: nat) {
    Distinct(items) && forall i :: 0 <= i < |items| ==> Fits(items[i], next)
  }

  /** Pending messages are user messages, each held once, the oldest first. */
  ghost predicate PendingOk(pending: seq<Pending>, next: nat) {
    && (forall j :: 0 <= j < |pending| ==> pending[j].id.MessageId? && pending[j].id.index < next)
    && (forall j, k :: 0 <= j < k < |pending| ==> pending[j].id.index < pending[k].id.index)
  }

  /** There is a failure to show exactly in the two phases that say so. */
  predicate FailureMatchesPhase(s: State) {
    s.failure.Some? <==> s.phase.Failed? || s.phase.Interrupted?
  }

  ghost predicate Good(s: State) {
    && ItemsOk(s.items, s.next)
    && PendingOk(s.pending, s.next)
    && FailureMatchesPhase(s)
    && (s.active.Some? ==> s.active.value < s.next)
    && (forall c :: c in s.tools ==> s.tools[c].ToolId?)
  }

  // ----- one change -----

  lemma AddKeeps(p: Projected, item: Item)
    requires Good(p.state) && Fits(item, p.state.next)
    ensures Good(AddItem(p, item).state)
    ensures AddItem(p, item).state == p.state.(items := AddItem(p, item).state.items)
  {
  }

  lemma ReplaceKeeps(s: State, i: nat, item: Item)
    requires Good(s) && i < |s.items| && Shaped(item) && item.id == s.items[i].id
    ensures Good(s.(items := s.items[i := item]))
  {
  }

  lemma SetQueuedKeeps(p: Projected, id: ItemId, queued: bool)
    requires Good(p.state) && id.MessageId?
    ensures Good(SetQueued(p, id, queued).state)
  {
    hide Good;
    var items := p.state.items;
    var i := FindItem(items, id);
    if i < |items| && items[i].Message? {
      ReplaceKeepsShape(p.state, i, items[i].(queued := queued));
    }
  }

  lemma ReplaceKeepsShape(s: State, i: nat, item: Item)
    requires Good(s) && i < |s.items| && item.id == s.items[i].id
    requires Shaped(s.items[i]) ==> Shaped(item)
    ensures Good(s.(items := s.items[i := item]))
  {
    assert Fits(s.items[i], s.next);
    ReplaceKeeps(s, i, item);
  }

  lemma AppendKeeps(p: Projected, id: ItemId, delta: string, reasoning: bool)
    requires Good(p.state)
    ensures Good(AppendText(p, id, delta, reasoning).state)
    ensures AppendText(p, id, delta, reasoning).state.next == p.state.next
  {
    hide Good;
    var items := p.state.items;
    var i := FindItem(items, id);
    if i < |items| && (items[i].Message? || items[i].Reasoning?) {
      ReplaceKeepsShape(p.state, i, items[i].(text := items[i].text + delta));
    }
  }

  lemma UpdateToolKeeps(p: Projected, id: ItemId, name: Option<string>, detail: Option<string>, status: ToolStatus)
    requires Good(p.state) && id.ToolId?
    ensures Good(UpdateTool(p, id, name, detail, status).state)
  {
    hide Good;
    var items := p.state.items;
    var i := FindItem(items, id);
    if i < |items| && items[i].Tool? {
      ReplaceKeepsShape(p.state, i, Tool(id, OrElse(name, items[i].name), OrElse(detail, items[i].detail), status));
    } else {
      AddKeeps(p, Tool(id, OrElse(name, "tool"), OrElse(detail, ""), status));
    }
  }

  lemma UsageKeeps(p: Projected, index: nat, tokens: Tokens)
    requires Good(p.state) && index < p.state.next
    ensures Good(ReconcileUsage(p, index, tokens).state)
    ensures ReconcileUsage(p, index, tokens).state.next == p.state.next
  {
    hide Good;
    var items := p.state.items;
    var i := FindItem(items, UsageId(index));
    if i < |items| && items[i].Usage? {
      ReplaceKeepsShape(p.state, i, items[i].(tokens := tokens));
    } else {
      AddKeeps(p, Usage(UsageId(index), tokens));
    }
  }

  lemma ReconcileKeeps(p: Projected, item: Item)
    requires Good(p.state) && Fits(item, p.state.next)
    ensures Good(ReconcileItem(p, item).state)
    ensures ReconcileItem(p, item).state.next == p.state.next
  {
    hide Good, AddItem, AppendText, ReconcileUsage, Format, UsageIndex;
    var items := p.state.items;
    var i := FindItem(items, item.id);
    AddKeeps(p, item);
    if i < |items| {
      match (items[i], item) {
        case (Message(_, _, _, current), Message(_, _, _, final)) =>
          if current <= final { AppendKeeps(p, item.id, final[|current|..], false); }
        case (Reasoning(_, current), Reasoning(_, final)) =>
          if current <= final { AppendKeeps(p, item.id, final[|current|..], true); }
        case (Usage(_, _), Usage(_, tokens)) =>
          UsageIndexRoundTrip(item.id.index);
          UsageKeeps(p, item.id.index, tokens);
        case _ =>
      }
    }
  }

  // ----- several changes -----

  lemma {:induction false} AddAllKeeps(p: Projected, added: seq<Item>)
    requires Good(p.state) && forall i :: 0 <= i < |added| ==> Fits(added[i], p.state.next)
    ensures Good(AddAll(p, added).state) && AddAll(p, added).state.next == p.state.next
  {
    hide Good, Fits;
    if added != [] {
      AddAllKeeps(p, added[..|added| - 1]);
      AddKeeps(AddAll(p, added[..|added| - 1]), added[|added| - 1]);
    }
  }

  lemma {:induction false} ReconcileAllKeeps(p: Projected, final: seq<Item>)
    requires Good(p.state) && forall i :: 0 <= i < |final| ==> Fits(final[i], p.state.next)
    ensures Good(ReconcileAll(p, final).state) && ReconcileAll(p, final).state.next == p.state.next
  {
    hide Good, Fits;
    if final != [] {
      ReconcileAllKeeps(p, final[..|final| - 1]);
      ReconcileKeeps(ReconcileAll(p, final[..|final| - 1]), final[|final| - 1]);
    }
  }

  lemma {:induction false} PartItemsFit(content: seq<Part>, index: nat, next: nat)
    requires index < next
    ensures forall i :: 0 <= i < |PartItems(content, index)| ==> Fits(PartItems(content, index)[i], next)
  {
    if content != [] {
      PartItemsFit(content[..|content| - 1], index, next);
    }
  }

  lemma AssistantItemsFit(content: seq<Part>, usage: Option<Tokens>, index: nat, includeUsage: bool, next: nat)
    requires index < next
    ensures var items := AssistantItems(content, usage, index, includeUsage);
            forall i :: 0 <= i < |items| ==> Fits(items[i], next)
  {
    PartItemsFit(content, index, next);
  }

  lemma QueueKeeps(p: Projected)
    requires Good(p.state)
    ensures Good(ReconcileQueue(p).state)
  {
    hide QueueDeltas, Waiting;
    assert forall i :: 0 <= i < |p.state.items| ==> Fits(p.state.items[i], p.state.next);
  }

  lemma InterruptKeeps(p: Projected)
    requires Good(p.state)
    ensures Good(InterruptTools(p).state)
    ensures InterruptTools(p).state == p.state.(items := InterruptTools(p).state.items)
  {
    hide HaltDeltas;
    assert forall i :: 0 <= i < |p.state.items| ==> Fits(p.state.items[i], p.state.next);
  }

  // ----- actions -----

  lemma UserStartsKeeps(s: State, text: string)
    requires Good(s)
    ensures Good(UserStarts(Projected(s, []), text).state)
  {
    hide AddItem, SetQueued;
    if s.pending != [] && s.pending[0].text == text {
      SetQueuedKeeps(Projected(s.(pending := s.pending[1..]), []), s.pending[0].id, false);
    } else {
      AddKeeps(Projected(s.(pending := [], next := s.next + 1), []), Message(MessageId(s.next), false, User, text));
    }
  }

  lemma AssistantStartsKeeps(s: State, content: seq<Part>)
    requires Good(s)
    ensures Good(AssistantStarts(Projected(s, []), content).state)
  {
    hide AddAll, AssistantItems, Fits;
    var t := s.(next := s.next + 1, active := Some(s.next), tools := map[]);
    assert Good(t) by { NextKeeps(s); }
    AssistantItemsFit(content, None, s.next, false, t.next);
    AddAllKeeps(Projected(t, []), AssistantItems(content, None, s.next, false));
  }

  lemma NextKeeps(s: State)
    requires Good(s)
    ensures Good(s.(next := s.next + 1, active := Some(s.next), tools := map[]))
  {
  }

  lemma NoteCallKeeps(p: Projected, at: Option<nat>, call: string)
    requires Good(p.state)
    ensures Good(NoteCall(p, at, call).state) && NoteCall(p, at, call).state.next == p.state.next
  {
  }

  lemma StreamedKeeps(s: State, index: nat, update: Update, usage: Option<Tokens>)
    requires Good(s) && index < s.next
    ensures Good(Streamed(Projected(s, []), index, update, usage).state)
  {
    hide Good, AddItem, AppendText, UpdateTool, ReconcileUsage, NoteCall;
    var p := Projected(s, []);
    match update {
      case TextStart(c) => AddKeeps(p, Message(TextId(index, c), false, Assistant, ""));
      case TextGrew(c, delta) => AppendKeeps(p, TextId(index, c), delta, false);
      case ThinkingStart(c) => AddKeeps(p, Reasoning(ReasoningId(index, c), ""));
      case ThinkingGrew(c, delta) => AppendKeeps(p, ReasoningId(index, c), delta, true);
      case CallStart(c, call, name) =>
        NoteCallKeeps(p, Some(c), call);
        AddKeeps(NoteCall(p, Some(c), call), Tool(ToolId(call), name, "", ToolRunning));
      case CallGrew(c, delta) =>
        ToolsAreTools(s);
        if c in s.tools { UpdateToolKeeps(p, s.tools[c], None, Some(delta), ToolRunning); }
      case CallEnd(at, call, name, arguments) =>
        NoteCallKeeps(p, at, call);
        UpdateToolKeeps(NoteCall(p, at, call), ToolId(call), Some(name), arguments, ToolRunning);
      case Finished => if usage.Some? { UsageKeeps(p, index, usage.value); }
      case OtherUpdate =>
    }
  }

  lemma ToolsAreTools(s: State)
    requires Good(s)
    ensures forall c :: c in s.tools ==> s.tools[c].ToolId?
    ensures s.active.Some? ==> s.active.value < s.next
  {
  }

  lemma EndKeeps(s: State, phase: Phase, failure: Option<string>, active: Option<nat>, tools: map<nat, ItemId>,
      input: Option<InputRequest>)
    requires Good(s.(phase := Idle, failure := None)) && (failure.Some? <==> phase.Failed? || phase.Interrupted?)
    requires active == None || active == s.active
    requires tools == map[] || tools == s.tools
    ensures Good(s.(phase := phase, failure := failure, active := active, tools := tools, input := input))
  {
  }

  lemma IdleKeeps(s: State)
    requires Good(s)
    ensures Good(s.(phase := Idle, failure := None))
  {
  }

  lemma AgentEndsKeeps(s: State, last: Option<Ending>)
    requires Good(s)
    ensures Good(AgentEnds(Projected(s, []), last).state)
  {
    hide Good, HaltDeltas, InterruptTools;
    var cleared := ClearInput(Projected(s, []));
    IdleKeeps(s);
    EndKeeps(s, Idle, None, s.active, s.tools, None);
    var base := s.(input := None, phase := Idle, failure := None);
    InterruptedAlone(base, cleared, s.phase, s.failure);
    var failed := Settle(cleared, Failed, Some(OrElse(if last.Some? then last.value.errorMessage else None,
        FAILED_TURN)));
    InterruptedAlone(base, failed, failed.state.phase, failed.state.failure);
    var r := AgentEnds(Projected(s, []), last).state;
    EndKeeps(r.(active := s.active, tools := s.tools), r.phase, r.failure, None, map[], r.input);
  }

  /** Interrupting tools touches only the items, whatever the phase. */
  lemma InterruptedAlone(base: State, p: Projected, phase: Phase, failure: Option<string>)
    requires Good(base) && base.phase.Idle? && base.failure.None?
    requires p.state == base.(phase := phase, failure := failure)
    ensures InterruptTools(p).state == p.state.(items := InterruptTools(p).state.items)
    ensures Good(InterruptTools(p).state.(phase := Idle, failure := None))
  {
    hide HaltDeltas, Good;
    InterruptKeeps(Projected(base, []));
    assert InterruptTools(p).state.items == InterruptTools(Projected(base, [])).state.items;
    assert InterruptTools(p).state.(phase := Idle, failure := None) == InterruptTools(Projected(base, [])).state;
  }

  lemma RetryKeeps(s: State, cause: Option<string>)
    requires Good(s)
    ensures Good(RetryStarts(Projected(s, []), cause).state)
  {
    hide Good, HaltDeltas, InterruptTools, RetryMessage;
    IdleKeeps(s);
    InterruptedAlone(s.(phase := Idle, failure := None), Projected(s, []), s.phase, s.failure);
    var t := InterruptTools(Projected(s, [])).state;
    EndKeeps(t, Failed, Some(RetryMessage(cause)), None, map[], t.input);
  }

  lemma ProjectKeeps(s: State, event: PiEvent)
    requires Good(s)
    ensures Good(Project(s, event).state)
  {
    hide Good, UserStarts, AssistantStarts, Streamed, UpdateTool, ReconcileQueue, ReconcileAll, AssistantItems,
        RetryStarts, AgentEnds;
    IdleKeeps(s);
    EndKeeps(s, Running, None, s.active, s.tools, s.input);
    ToolsAreTools(s);
    match event {
      case UiRequest(Some(request)) => InputKeeps(s, Some(request));
      case MessageStart(UserMessage(Some(text))) => UserStartsKeeps(s, text);
      case MessageStart(AssistantMessage(content, _)) => AssistantStartsKeeps(s, content);
      case MessageUpdate(update, usage) => if s.active.Some? { StreamedKeeps(s, s.active.value, update, usage); }
      case ToolStart(call, name, arguments) => UpdateToolKeeps(Projected(s, []), ToolId(call), Some(name), arguments,
          ToolRunning);
      case ToolProgress(call, name, detail) => UpdateToolKeeps(Projected(s, []), ToolId(call), Some(name),
          Some(detail), ToolRunning);
      case ToolEnd(call, name, detail, isError) =>
        UpdateToolKeeps(Projected(s, []), ToolId(call), Some(name), Some(detail),
            if isError then ToolFailed else ToolSucceeded);
      case QueueUpdate(steering) =>
        SteeringKeeps(s, steering);
        QueueKeeps(Projected(s.(steering := steering), []));
      case MessageEnd(AssistantMessage(content, usage)) =>
        if s.active.Some? {
          AssistantItemsFit(content, usage, s.active.value, true, s.next);
          ReconcileAllKeeps(Projected(s, []), AssistantItems(content, usage, s.active.value, true));
        }
      case AutoRetryStart(cause) => RetryKeeps(s, cause);
      case AgentEnd(false, last) => AgentEndsKeeps(s, last);
      case _ =>
    }
  }

  lemma InputKeeps(s: State, input: Option<InputRequest>)
    requires Good(s)
    ensures Good(s.(input := input))
  {
  }

  lemma SteeringKeeps(s: State, steering: nat)
    requires Good(s)
    ensures Good(s.(steering := steering))
  {
  }

  /** A message that is sent always appears: its id is above every id in use. */
  lemma SendKeeps(s: State, text: string)
    requires Good(s)
    ensures Good(Send(s, text).state)
    ensures FindItem(s.items, MessageId(s.next)) == |s.items|
    ensures Send(s, text).state.items == s.items + [Message(MessageId(s.next), s.phase.Running?, User, text)]
  {
  }

  lemma RejectKeeps(s: State, id: ItemId, wasRunning: bool)
    requires Good(s)
    ensures Good(Reject(s, id, wasRunning).state)
  {
    var k := FindPending(s.pending, id);
    var i := FindItem(s.items, id);
    if k < |s.pending| {
      DropPending(s.pending, k, s.next);
      if i < |s.items| { DropItem(s.items, i, s.next); }
    }
  }

  lemma DropPending(pending: seq<Pending>, k: nat, next: nat)
    requires PendingOk(pending, next) && k < |pending|
    ensures PendingOk(pending[..k] + pending[k + 1..], next)
  {
  }

  lemma DropItem(items: seq<Item>, i: nat, next: nat)
    requires ItemsOk(items, next) && i < |items|
    ensures ItemsOk(items[..i] + items[i + 1..], next)
  {
  }

  lemma StopKeeps(s: State)
    requires Good(s)
    ensures Good(Stop(s).state)
  {
    hide Good, HaltDeltas, InterruptTools;
    IdleKeeps(s);
    InterruptedAlone(s.(phase := Idle, failure := None), Projected(s, []), s.phase, s.failure);
    var t := InterruptTools(Projected(s, [])).state;
    EndKeeps(t, Stopped, None, t.active, t.tools, None);
  }

  lemma LostKeeps(s: State)
    requires Good(s)
    ensures Good(RuntimeLost(s).state)
  {
    hide Good, HaltDeltas, InterruptTools;
    IdleKeeps(s);
    InterruptedAlone(s.(phase := Idle, failure := None), Projected(s, []), s.phase, s.failure);
    var t := InterruptTools(Projected(s, [])).state;
    EndKeeps(t, Interrupted, Some(RUNTIME_INTERRUPTED_TURN), t.active, t.tools, None);
  }

  /** Every action keeps ids distinct and fresh, and the failure in step with the phase. */
  lemma DoKeeps(s: State, action: Action)
    requires Good(s)
    ensures Good(Do(s, action).state)
  {
    hide Good, Project, Send, Reject, Stop, RuntimeLost;
    match action {
      case Reported(event) => ProjectKeeps(s, event);
      case Sent(text) => SendKeeps(s, text);
      case Rejected(id, wasRunning) => RejectKeeps(s, id, wasRunning);
      case Stopping => StopKeeps(s);
      case Answered(requestId) => InputKeeps(s, None);
      case Lost => LostKeeps(s);
    }
  }

  // ----- runs -----

  ghost function After(s: State, actions: seq<Action>): State {
    if actions == [] then s else Do(After(s, actions[..|actions| - 1]), actions[|actions| - 1]).state
  }

  lemma {:induction false} AfterJoin(s: State, a: seq<Action>, b: seq<Action>)
    ensures After(s, a + b) == After(After(s, a), b)
  {
    hide Do;
    if b == [] {
      assert a + b == a;
    } else {
      AfterJoin(s, a, b[..|b| - 1]);
      assert (a + b)[..|a + b| - 1] == a + b[..|b| - 1];
    }
  }

  lemma {:induction false} RunKeeps(s: State, actions: seq<Action>)
    requires Good(s)
    ensures Good(After(s, actions))
  {
    hide Good, Do;
    if actions != [] {
      RunKeeps(s, actions[..|actions| - 1]);
      DoKeeps(After(s, actions[..|actions| - 1]), actions[|actions| - 1]);
    }
  }

  // ----- the queue -----

  /** After a queue update a user message is queued exactly when it is one of the last
      `steering` pending ones, and each message whose flag changed is announced, once. */
  lemma QueueExact(s: State, steering: nat)
    requires Good(s)
    ensures var r := Project(s, QueueUpdate(steering));
            && |r.state.items| == |s.items|
            && r.state.pending == s.pending
            && (forall i :: 0 <= i < |s.items| ==>
                  var now := r.state.items[i];
                  && now.id == s.items[i].id
                  && (now.Message? && now.role.User? ==>
                        (now.queued <==> exists j ::
                            |s.pending| - steering <= j < |s.pending| && 0 <= j && s.pending[j].id == now.id))
                  && (if now != s.items[i] then Announced(r.emitted, MessageQueueChanged(now.id, now.queued)) == 1
                      else forall d :: d in r.emitted ==> d.MessageQueueChanged? && d.itemId != now.id))
  {
    var r := Project(s, QueueUpdate(steering));
    var wanted := Waiting(s.pending, steering);
    forall i | 0 <= i < |s.items|
      ensures var now := r.state.items[i];
              if now != s.items[i] then Announced(r.emitted, MessageQueueChanged(now.id, now.queued)) == 1
              else forall d :: d in r.emitted ==> d.MessageQueueChanged? && d.itemId != now.id
    {
      QueueDeltasOf(s.items, wanted, i);
    }
  }

  ghost function Announced(deltas: seq<Delta>, delta: Delta): nat {
    multiset(deltas)[delta]
  }

  lemma {:induction false} AnnouncedOnce(deltas: seq<Delta>, last: Delta)
    requires last !in deltas
    ensures Announced(deltas + [last], last) == 1
  {
  }

  lemma {:induction false} AnnouncedBefore(deltas: seq<Delta>, delta: Delta, more: seq<Delta>)
    requires delta !in more
    ensures Announced(deltas + more, delta) == Announced(deltas, delta)
  {
  }

  lemma {:induction false} QueueDeltasOf(items: seq<Item>, wanted: set<ItemId>, i: nat)
    requires Distinct(items) && i < |items|
    ensures var now := Requeued(items[i], wanted);
            if now != items[i] then now.Message? && Announced(QueueDeltas(items, wanted), MessageQueueChanged(now.id,
                now.queued)) == 1
            else forall d :: d in QueueDeltas(items, wanted) ==> d.MessageQueueChanged? && d.itemId != now.id
  {
    hide Announced;
    var init, last := items[..|items| - 1], items[|items| - 1];
    var now := Requeued(items[i], wanted);
    var more := if Requeued(last, wanted) != last then [MessageQueueChanged(last.id, last.id in wanted)] else [];
    if i < |init| {
      QueueDeltasOf(init, wanted, i);
      if now != items[i] { AnnouncedBefore(QueueDeltas(init, wanted), MessageQueueChanged(now.id, now.queued), more); }
    } else {
      QueueDeltasElsewhere(init, wanted, last.id);
      if now != last { AnnouncedOnce(QueueDeltas(init, wanted), MessageQueueChanged(last.id, last.id in wanted)); }
    }
  }

  lemma {:induction false} QueueDeltasElsewhere(items: seq<Item>, wanted: set<ItemId>, id: ItemId)
    requires forall i :: 0 <= i < |items| ==> items[i].id != id
    ensures forall d :: d in QueueDeltas(items, wanted) ==> d.MessageQueueChanged? && d.itemId != id
  {
    if items != [] {
      QueueDeltasElsewhere(items[..|items| - 1], wanted, id);
    }
  }
}
