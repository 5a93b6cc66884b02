/** Clients stay in step: what one action's deltas do to a client, and what a stamped stream
    of them does to a client that connected at any point. */
module ConversationSync {
  import opened Options
  import opened ConversationTypes
  import opened ProjectionSteps
  import opened ConversationInvariants
  import Host = ConversationProjection
  import opened ConversationReplay

  predicate IsTurn(delta: Delta) {
    delta.TurnStarted? || delta.TurnCompleted? || delta.TurnFailed? || delta.TurnInterrupted? || delta.TurnStopped?
  }

  function TurnPhase(delta: Delta): Phase
    requires IsTurn(delta)
  {
    match delta
    case TurnStarted => Running
    case TurnCompleted => Idle
    case TurnFailed(_) => Failed
    case TurnInterrupted(_) => Interrupted
    case TurnStopped => Stopped
  }

  function TurnFailure(delta: Delta): Option<string>
    requires IsTurn(delta)
  {
    match delta
    case TurnFailed(message) => Some(message)
    case TurnInterrupted(message) => Some(message)
    case _ => None
  }

  /** The client shows these items, this phase, failure and input request. */
  ghost predicate Displays(c: Client, items: seq<Item>, phase: Phase, failure: Option<string>,
      input: Option<InputRequest>) {
    ShowsItems(c, items) && c.phase == phase && c.failure == failure && c.input == input
  }

  // ----- the input request on the client -----

  function Resolve(input: Option<InputRequest>, id: string): Option<InputRequest> {
    if input.Some? && input.value.id == id then None else input
  }

  /** A turn event keeps the request only when it changes nothing else. */
  function ThroughTurn(s: State, phase: Phase, failure: Option<string>,
      input: Option<InputRequest>): Option<InputRequest> {
    if s.phase == phase && s.failure == failure then input else None
  }

  function ResolveHost(s: State, input: Option<InputRequest>): Option<InputRequest> {
    if s.input.Some? then Resolve(input, s.input.value.id) else input
  }

  function EndPhase(last: Option<Ending>): Phase {
    var reason := if last.Some? then last.value.stopReason else None;
    if reason == Some("aborted") then Interrupted else if reason == Some("error") then Failed else Idle
  }

  function EndFailure(last: Option<Ending>): Option<string> {
    match EndPhase(last)
    case Interrupted => Some(INTERRUPTED_TURN)
    case Failed => Some(OrElse(if last.Some? then last.value.errorMessage else None, FAILED_TURN))
    case _ => None
  }

  function ClientInput(s: State, action: Action, input: Option<InputRequest>): Option<InputRequest> {
    match action
    case Reported(AgentStart) => ThroughTurn(s, Running, None, input)
    case Reported(UiRequest(Some(request))) =>
      if input.Some? && input.value.id == request.id then input else Some(request)
    case Reported(AutoRetryStart(cause)) => ThroughTurn(s, Failed, Some(RetryMessage(cause)), input)
    case Reported(AgentEnd(false, last)) => ThroughTurn(s, EndPhase(last), EndFailure(last), ResolveHost(s, input))
    case Reported(_) => input
    case Sent(_) => if s.phase.Running? then input else None
    case Rejected(_, wasRunning) => if wasRunning then input else ThroughTurn(s, Failed, Some(REJECTED_PROMPT), input)
    case Stopping => if s.phase.Stopped? then input else None
    case Answered(id) => if s.input.Some? && s.input.value.id == id then Resolve(input, id) else input
    case Lost => ThroughTurn(s, Interrupted, Some(RUNTIME_INTERRUPTED_TURN), ResolveHost(s, input))
  }

  // ----- replaying one action -----

  lemma {:induction false} TurnDisplays(c0: Client, emitted: seq<Delta>, turn: Delta, items: seq<Item>)
    requires IsTurn(turn) && ShowsItems(ApplyAll(c0, emitted), items)
    ensures var c := ApplyAll(c0, emitted);
            Displays(ApplyAll(c0, emitted + [turn]), items, TurnPhase(turn), TurnFailure(turn),
                     if c.phase == TurnPhase(turn) && c.failure == TurnFailure(turn) then c.input else None)
  {
    assert (emitted + [turn])[..|emitted|] == emitted;
  }

  /** Resolve the pending input if there is one, interrupt the tools, end the turn. */
  lemma {:induction false} EndDisplays(c0: Client, s: State, pre: seq<Delta>, post: seq<Delta>, turn: Delta)
    requires Shows(c0, s) && Distinct(s.items) && IsTurn(turn)
    requires forall d :: d in pre + post ==> d.InputResolved?
    requires |pre + post| <= 1
    ensures Displays(ApplyAll(c0, pre + HaltDeltas(s.items) + post + [turn]), HaltedTo(s.items, |s.items|),
                     TurnPhase(turn), TurnFailure(turn),
                     ThroughTurn(s, TurnPhase(turn), TurnFailure(turn),
                                 if pre + post == [] then c0.input else Resolve(c0.input, (pre + post)[0].requestId)))
  {
    hide ShowsItems, Distinct, HaltDeltas;
    var c1 := ApplyAll(c0, pre);
    ResolvedOnly(c0, pre);
    SameItems(c0, c1, s.items);
    HaltFollows(c1, s.items, |s.items|);
    assert s.items[..|s.items|] == s.items;
    AppliedInTurn(c0, pre, HaltDeltas(s.items));
    var c2 := ApplyAll(c0, pre + HaltDeltas(s.items));
    ResolvedOnly(c2, post);
    AppliedInTurn(c0, pre + HaltDeltas(s.items), post);
    SameItems(c2, ApplyAll(c2, post), HaltedTo(s.items, |s.items|));
    TurnDisplays(c0, pre + HaltDeltas(s.items) + post, turn, HaltedTo(s.items, |s.items|));
  }

  lemma {:induction false} ResolvedOnly(c: Client, deltas: seq<Delta>)
    requires |deltas| <= 1 && forall d :: d in deltas ==> d.InputResolved?
    ensures ApplyAll(c, deltas) == c.(input := if deltas == [] then c.input else Resolve(c.input, deltas[0].requestId))
  {
    if deltas != [] {
      assert deltas[0] in deltas;
      assert deltas[..0] == [];
    }
  }

  lemma {:induction false} SameItems(c: Client, c': Client, items: seq<Item>)
    requires ShowsItems(c, items) && c'.ids == c.ids && c'.items == c.items
    ensures ShowsItems(c', items)
  {
  }

  lemma {:induction false} HaltedItems(p: Projected)
    ensures InterruptTools(p).state.items == HaltedTo(p.state.items, |p.state.items|)
  {
  }

  ghost predicate Replays(c: Client, s: State, action: Action) {
    var p := Do(s, action);
    Displays(ApplyAll(c, p.emitted), p.state.items, p.state.phase, p.state.failure, ClientInput(s, action, c.input))
  }

  function EndTurn(last: Option<Ending>): (turn: Delta)
    ensures IsTurn(turn)
  {
    match EndPhase(last)
    case Interrupted => TurnInterrupted(INTERRUPTED_TURN)
    case Failed => TurnFailed(EndFailure(last).value)
    case _ => TurnCompleted
  }

  /** What the end of a turn comes to, whichever way it ends. */
  lemma {:induction false} AgentEndsValue(s: State, last: Option<Ending>)
    ensures var p := AgentEnds(Projected(s, []), last);
            && p.state.items == (if EndPhase(last).Idle? then s.items else HaltedTo(s.items, |s.items|))
            && p.state.phase == EndPhase(last) == TurnPhase(EndTurn(last))
            && p.state.failure == EndFailure(last) == TurnFailure(EndTurn(last))
            && p.emitted == (if s.input.Some? then [InputResolved(s.input.value.id)] else [])
                            + (if EndPhase(last).Idle? then [] else HaltDeltas(s.items)) + [EndTurn(last)]
  {
    hide HaltDeltas, HaltedTo;
    var cleared := ClearInput(Projected(s, []));
    HaltedItems(cleared);
    HaltedItems(Settle(cleared, Failed, EndFailure(last)));
  }

  lemma {:induction false} AgentEndReplays(c: Client, s: State, last: Option<Ending>)
    requires Shows(c, s) && Distinct(s.items)
    ensures Replays(c, s, Reported(AgentEnd(false, last)))
  {
    hide ShowsItems, Distinct, HaltDeltas, HaltedTo, AgentEnds, EndTurn, EndPhase, EndFailure;
    var pre := if s.input.Some? then [InputResolved(s.input.value.id)] else [];
    AgentEndsValue(s, last);
    if EndPhase(last).Idle? {
      ResolvedOnly(c, pre);
      SameItems(c, ApplyAll(c, pre), s.items);
      TurnDisplays(c, pre, EndTurn(last), s.items);
      assert pre + [] == pre;
    } else {
      EndDisplays(c, s, pre, [], EndTurn(last));
      assert pre + HaltDeltas(s.items) + [] == pre + HaltDeltas(s.items) && pre + [] == pre;
    }
  }

  lemma {:induction false} RetryReplays(c: Client, s: State, cause: Option<string>)
    requires Shows(c, s) && Distinct(s.items)
    ensures Replays(c, s, Reported(AutoRetryStart(cause)))
  {
    hide ShowsItems, Distinct, HaltDeltas, HaltedTo, RetryMessage;
    HaltedItems(Projected(s, []));
    EndDisplays(c, s, [], [], TurnFailed(RetryMessage(cause)));
    assert [] + HaltDeltas(s.items) + [] == HaltDeltas(s.items);
    assert Projected(s, []).emitted + HaltDeltas(s.items) == HaltDeltas(s.items);
  }

  lemma {:induction false} LostReplays(c: Client, s: State)
    requires Shows(c, s) && Distinct(s.items)
    ensures Replays(c, s, Lost)
  {
    hide ShowsItems, Distinct, HaltDeltas, HaltedTo;
    var post := if s.input.Some? then [InputResolved(s.input.value.id)] else [];
    HaltedItems(Projected(s, []));
    EndDisplays(c, s, [], post, TurnInterrupted(RUNTIME_INTERRUPTED_TURN));
    assert [] + HaltDeltas(s.items) + post == HaltDeltas(s.items) + post;
    assert [] + post == post;
    assert RuntimeLost(s).emitted == HaltDeltas(s.items) + post + [TurnInterrupted(RUNTIME_INTERRUPTED_TURN)];
  }

  lemma {:induction false} StopReplays(c: Client, s: State)
    requires Shows(c, s) && Distinct(s.items) && FailureMatchesPhase(s)
    ensures Replays(c, s, Stopping)
  {
    hide ShowsItems, Distinct, HaltDeltas, HaltedTo;
    HaltedItems(Projected(s, []));
    assert [] + HaltDeltas(s.items) + [] == HaltDeltas(s.items) == Projected(s, []).emitted + HaltDeltas(s.items);
    if s.phase.Stopped? {
      HaltFollows(c, s.items, |s.items|);
      assert s.items[..|s.items|] == s.items;
    } else {
      EndDisplays(c, s, [], [], TurnStopped);
    }
  }

  lemma {:induction false} ItemsOnlyReplays(c: Client, s: State, action: Action)
    requires Shows(c, s) && Follows(c, Do(s, action))
    requires Do(s, action).state.phase == s.phase && Do(s, action).state.failure == s.failure
    requires ClientInput(s, action, c.input) == c.input
    ensures Replays(c, s, action)
  {
    hide Do, ShowsItems, ClientInput;
  }

  lemma {:induction false} Starting(c: Client, s: State)
    requires Shows(c, s)
    ensures Follows(c, Projected(s, []))
  {
  }

  lemma {:induction false} SayReplays(c: Client, s: State, action: Action, delta: Delta)
    requires Shows(c, s) && Do(s, action).emitted == [delta] && Do(s, action).state.items == s.items
    requires var c' := Apply(c, delta);
             && c'.ids == c.ids && c'.items == c.items
             && c'.phase == Do(s, action).state.phase && c'.failure == Do(s, action).state.failure
             && c'.input == ClientInput(s, action, c.input)
    ensures Replays(c, s, action)
  {
    hide Do, ShowsItems, ClientInput, Apply;
    Spelled(c, [], delta);
    assert [] + [delta] == [delta];
    SameItems(c, Apply(c, delta), s.items);
  }

  lemma {:induction false} UserReplays(c: Client, s: State, text: string)
    requires Shows(c, s) && Good(s)
    ensures Follows(c, UserStarts(Projected(s, []), text))
    ensures UserStarts(Projected(s, []), text).state.phase == s.phase
        && UserStarts(Projected(s, []), text).state.failure == s.failure
  {
    hide ShowsItems, FindItem, FirstQueued, Apply;
    Starting(c, s);
    if s.pending != [] && s.pending[0].text == text {
      var t := s.(pending := s.pending[1..]);
      Starting(c, t);
      SetQueuedFollows(c, Projected(t, []), s.pending[0].id, false);
    } else {
      var t := s.(pending := [], next := s.next + 1);
      Starting(c, t);
      AddFollows(c, Projected(t, []), Message(MessageId(s.next), false, User, text));
    }
  }

  lemma {:induction false} AddAllPhase(p: Projected, added: seq<Item>)
    ensures AddAll(p, added).state.phase == p.state.phase && AddAll(p, added).state.failure == p.state.failure
  {
    if added != [] { AddAllPhase(p, added[..|added| - 1]); }
  }

  lemma {:induction false} ReconcileAllPhase(p: Projected, final: seq<Item>)
    ensures ReconcileAll(p, final).state.phase == p.state.phase
        && ReconcileAll(p, final).state.failure == p.state.failure
  {
    if final != [] { ReconcileAllPhase(p, final[..|final| - 1]); }
  }

  lemma {:induction false} AssistantReplays(c: Client, s: State, content: seq<Part>)
    requires Shows(c, s) && Good(s)
    ensures Follows(c, AssistantStarts(Projected(s, []), content))
    ensures AssistantStarts(Projected(s, []), content).state.phase == s.phase
    ensures AssistantStarts(Projected(s, []), content).state.failure == s.failure
  {
    hide ShowsItems, Good, AddAll, AssistantItems, Fits;
    var t := s.(next := s.next + 1, active := Some(s.next), tools := map[]);
    NextKeeps(s);
    Starting(c, t);
    AssistantItemsFit(content, None, s.next, false, t.next);
    AddAllFollows(c, Projected(t, []), AssistantItems(content, None, s.next, false));
    AddAllPhase(Projected(t, []), AssistantItems(content, None, s.next, false));
  }

  lemma {:induction false} StreamedReplays(c: Client, s: State, index: nat, update: Update, usage: Option<Tokens>)
    requires Shows(c, s) && Good(s)
    ensures Follows(c, Streamed(Projected(s, []), index, update, usage))
    ensures Streamed(Projected(s, []), index, update, usage).state.phase == s.phase
    ensures Streamed(Projected(s, []), index, update, usage).state.failure == s.failure
  {
    hide ShowsItems, FindItem, FirstQueued, Apply;
    var p := Projected(s, []);
    Starting(c, s);
    match update {
      case TextStart(c0) => AddFollows(c, p, Message(TextId(index, c0), false, Assistant, ""));
      case TextGrew(c0, delta) => AppendFollows(c, p, TextId(index, c0), delta, false);
      case ThinkingStart(c0) => AddFollows(c, p, Reasoning(ReasoningId(index, c0), ""));
      case ThinkingGrew(c0, delta) => AppendFollows(c, p, ReasoningId(index, c0), delta, true);
      case CallStart(c0, call, name) =>
        AddFollows(c, NoteCall(p, Some(c0), call), Tool(ToolId(call), name, "", ToolRunning));
      case CallGrew(c0, delta) =>
        if c0 in s.tools { UpdateToolFollows(c, p, s.tools[c0], None, Some(delta), ToolRunning); }
      case CallEnd(at, call, name, arguments) =>
        UpdateToolFollows(c, NoteCall(p, at, call), ToolId(call), Some(name), arguments, ToolRunning);
      case Finished => if usage.Some? { UsageFollows(c, p, index, usage.value); }
      case OtherUpdate =>
    }
  }

  lemma {:induction false} ToolReplays(c: Client, s: State, call: string, name: string, detail: Option<string>,
      status: ToolStatus)
    requires Shows(c, s) && Good(s)
    ensures var p := UpdateTool(Projected(s, []), ToolId(call), Some(name), detail, status);
            Follows(c, p) && p.state.phase == s.phase && p.state.failure == s.failure
  {
    hide ShowsItems, FindItem, FirstQueued, Apply;
    Starting(c, s);
    UpdateToolFollows(c, Projected(s, []), ToolId(call), Some(name), detail, status);
  }

  lemma {:induction false} EventReplays(c: Client, s: State, event: PiEvent)
    requires Shows(c, s) && Good(s)
    ensures Replays(c, s, Reported(event))
  {
    hide ShowsItems, Good, UserStarts, AssistantStarts, Streamed, UpdateTool, ReconcileAll, AssistantItems,
        RetryStarts, AgentEnds,
         QueueDeltas, Waiting, FindItem, Replays;
    var action := Reported(event);
    Starting(c, s);
    GoodDistinct(s);
    match event {
      case AgentStart => SayReplays(c, s, action, TurnStarted);
      case UiRequest(Some(request)) => SayReplays(c, s, action, InputRequested(request));
      case MessageStart(UserMessage(Some(text))) =>
        UserReplays(c, s, text);
        ItemsOnlyReplays(c, s, action);
      case MessageStart(AssistantMessage(content, _)) =>
        AssistantReplays(c, s, content);
        ItemsOnlyReplays(c, s, action);
      case MessageUpdate(update, usage) =>
        if s.active.Some? { StreamedReplays(c, s, s.active.value, update, usage); }
        ItemsOnlyReplays(c, s, action);
      case ToolStart(call, name, arguments) =>
        ToolReplays(c, s, call, name, arguments, ToolRunning);
        ItemsOnlyReplays(c, s, action);
      case ToolProgress(call, name, detail) =>
        ToolReplays(c, s, call, name, Some(detail), ToolRunning);
        ItemsOnlyReplays(c, s, action);
      case ToolEnd(call, name, detail, isError) =>
        ToolReplays(c, s, call, name, Some(detail), if isError then ToolFailed else ToolSucceeded);
        ItemsOnlyReplays(c, s, action);
      case QueueUpdate(steering) =>
        Starting(c, s.(steering := steering));
        QueueReplays(c, Projected(s.(steering := steering), []));
        ItemsOnlyReplays(c, s, action);
      case MessageEnd(AssistantMessage(content, usage)) =>
        if s.active.Some? { MessageEndReplays(c, s, content, usage); }
        ItemsOnlyReplays(c, s, action);
      case AutoRetryStart(cause) => RetryReplays(c, s, cause);
      case AgentEnd(false, last) => AgentEndReplays(c, s, last);
      case _ => ItemsOnlyReplays(c, s, action);
    }
  }

  lemma {:induction false} GoodDistinct(s: State)
    requires Good(s)
    ensures Distinct(s.items) && FailureMatchesPhase(s)
  {
  }

  lemma {:induction false} MessageEndReplays(c: Client, s: State, content: seq<Part>, usage: Option<Tokens>)
    requires Shows(c, s) && Good(s) && s.active.Some?
    ensures var p := ReconcileAll(Projected(s, []), AssistantItems(content, usage, s.active.value, true));
            Follows(c, p) && p.state.phase == s.phase && p.state.failure == s.failure
  {
    hide ShowsItems, AssistantItems, ReconcileAll, Fits;
    Starting(c, s);
    AssistantItemsFit(content, usage, s.active.value, true, s.next);
    ReconcileAllFollows(c, Projected(s, []), AssistantItems(content, usage, s.active.value, true));
    ReconcileAllPhase(Projected(s, []), AssistantItems(content, usage, s.active.value, true));
  }

  lemma {:induction false} PushShows(c: Client, items: seq<Item>, item: Item)
    requires ShowsItems(c, items) && FindItem(items, item.id) == |items|
    ensures ItemsFollow(c, Apply(c, ItemAdded(None, item)), items + [item])
    ensures item.id in Apply(c, ItemAdded(None, item)).items && Apply(c, ItemAdded(None, item)).items[item.id] == item
  {
    hide FindItem, ShowsItems;
    NotShown(c, items, item.id);
    SameLength(c, items);
    InsertedShows(c, items, |items|, item);
    assert Inserted(items, |items|, item) == items + [item];
    assert Inserted(c.ids, |items|, item.id) == c.ids + [item.id];
  }

  lemma {:induction false} QueuedReplays(c: Client, s: State, text: string)
    requires Shows(c, s) && s.phase.Running? && s.failure.None? && FindItem(s.items, MessageId(s.next)) == |s.items|
    ensures Replays(c, s, Sent(text))
  {
    hide FindItem, ShowsItems;
    var item := Message(MessageId(s.next), true, User, text);
    PushShows(c, s.items, item);
    Spelled(c, [], ItemAdded(None, item));
    Spelled(c, [ItemAdded(None, item)], MessageQueueChanged(item.id, true));
    var c2 := Apply(c, ItemAdded(None, item));
    assert c2.items[item.id := item] == c2.items;
    assert Send(s, text).emitted == [ItemAdded(None, item)] + [MessageQueueChanged(item.id, true)];
  }

  lemma {:induction false} StartedReplays(c: Client, s: State, text: string)
    requires Shows(c, s) && !s.phase.Running? && FindItem(s.items, MessageId(s.next)) == |s.items|
    ensures Replays(c, s, Sent(text))
  {
    hide FindItem, ShowsItems;
    var item := Message(MessageId(s.next), false, User, text);
    SameItems(c, Apply(c, TurnStarted), s.items);
    PushShows(Apply(c, TurnStarted), s.items, item);
    Spelled(c, [], TurnStarted);
    Spelled(c, [TurnStarted], ItemAdded(None, item));
    assert Send(s, text).emitted == [TurnStarted] + [ItemAdded(None, item)];
  }

  lemma {:induction false} SentReplays(c: Client, s: State, text: string)
    requires Shows(c, s) && Good(s)
    ensures Replays(c, s, Sent(text))
  {
    hide Good, FindItem, Shows, Replays;
    GoodDistinct(s);
    SendKeeps(s, text);
    if s.phase.Running? { QueuedReplays(c, s, text); } else { StartedReplays(c, s, text); }
  }

  lemma {:induction false} Spelled(c: Client, deltas: seq<Delta>, delta: Delta)
    ensures ApplyAll(c, deltas + [delta]) == Apply(ApplyAll(c, deltas), delta)
  {
    assert (deltas + [delta])[..|deltas|] == deltas;
  }

  lemma {:induction false} WithdrawReplays(c: Client, s: State, id: ItemId)
    requires Shows(c, s) && Good(s)
    ensures Follows(c, Withdraw(s, id))
    ensures Withdraw(s, id).state.phase == s.phase && Withdraw(s, id).state.failure == s.failure
  {
    hide ShowsItems, Good, Apply, FindPending, FindItem, Follows, Distinct;
    GoodDistinct(s);
    var k, i := FindPending(s.pending, id), FindItem(s.items, id);
    if k < |s.pending| {
      var left := s.(pending := s.pending[..k] + s.pending[k + 1..]);
      Starting(c, left);
      if i < |s.items| {
        assert ApplyAll(c, []) == c;
        RemoveFollows(c, s.items, i);
        SaidOne(c, Projected(left, []), s.items[..i] + s.items[i + 1..], ItemRemoved(id));
        assert [] + [ItemRemoved(id)] == [ItemRemoved(id)];
      }
    } else {
      Starting(c, s);
    }
  }

  lemma {:induction false} RejectedReplays(c: Client, s: State, id: ItemId, wasRunning: bool)
    requires Shows(c, s) && Good(s)
    ensures Replays(c, s, Rejected(id, wasRunning))
  {
    hide ShowsItems, Good, Withdraw;
    WithdrawReplays(c, s, id);
    var p := Withdraw(s, id);
    if !wasRunning {
      TurnDisplays(c, p.emitted, TurnFailed(REJECTED_PROMPT), p.state.items);
    }
  }

  lemma {:induction false} AnsweredReplays(c: Client, s: State, id: string)
    requires Shows(c, s)
    ensures Replays(c, s, Answered(id))
  {
    if s.input.Some? && s.input.value.id == id {
      SayReplays(c, s, Answered(id), InputResolved(id));
    }
  }

  /** Whatever the action, a client that showed the old state shows the new one: the same
      items in the same order up to tool names, the same phase and failure. */
  lemma {:induction false} ActionReplays(c: Client, s: State, action: Action)
    requires Shows(c, s) && Good(s)
    ensures Shows(ApplyAll(c, Do(s, action).emitted), Do(s, action).state)
    ensures ApplyAll(c, Do(s, action).emitted).input == ClientInput(s, action, c.input)
  {
    hide Good, ShowsItems, Do, ClientInput;
    GoodDistinct(s);
    match action {
      case Reported(event) => EventReplays(c, s, event);
      case Sent(text) => SentReplays(c, s, text);
      case Rejected(id, wasRunning) => RejectedReplays(c, s, id, wasRunning);
      case Stopping => StopReplays(c, s);
      case Answered(id) => AnsweredReplays(c, s, id);
      case Lost => LostReplays(c, s);
    }
  }

  // ----- the input request -----

  /** When a client's input request survives an action in step with the host's. The host keeps
      its request through the start of a turn, a retry, a send or a refused send, and the
      client drops it there; the client ignores a request whose id it already shows. */
  predicate KeepsInput(s: State, action: Action) {
    match action
    case Reported(AgentStart) => s.input.None? || s.phase.Running?
    case Reported(UiRequest(Some(request))) =>
      s.input.Some? && s.input.value.id == request.id ==> request == s.input.value
    case Reported(AutoRetryStart(cause)) => s.input.None? || (s.phase.Failed? && s.failure == Some(RetryMessage(cause)))
    case Sent(_) => s.input.None? || s.phase.Running?
    case Rejected(_, wasRunning) =>
      s.input.None? || wasRunning || (s.phase.Failed? && s.failure == Some(REJECTED_PROMPT))
    case Stopping => s.input.None? || !s.phase.Stopped?
    case _ => true
  }

  lemma {:induction false} HostInput(s: State, action: Action)
    ensures Do(s, action).state.input ==
            match action
            case Reported(UiRequest(Some(request))) => Some(request)
            case Reported(AgentEnd(false, _)) => None
            case Answered(id) => Resolve(s.input, id)
            case Stopping => None
            case Lost => None
            case _ => s.input
  {
    hide HaltDeltas, FindItem, FindPending, Project;
    if action.Reported? { EventInput(s, action.event); }
  }

  lemma {:induction false} EventInput(s: State, event: PiEvent)
    ensures Project(s, event).state.input ==
            match event
            case UiRequest(Some(request)) => Some(request)
            case AgentEnd(false, _) => None
            case _ => s.input
  {
    hide QueueDeltas, Waiting, UpdateTool, Streamed, AgentEnds, RetryStarts, UserStarts, AssistantStarts, ReconcileAll,
        AssistantItems;
    var p := Projected(s, []);
    match event {
      case MessageStart(UserMessage(Some(text))) => UserStartsInput(p, text);
      case MessageStart(AssistantMessage(content, _)) => AssistantStartsInput(p, content);
      case MessageUpdate(update, usage) => if s.active.Some? { StreamedInput(p, s.active.value, update, usage); }
      case MessageEnd(AssistantMessage(content, usage)) =>
        if s.active.Some? { ReconcileAllInput(p, AssistantItems(content, usage, s.active.value, true)); }
      case ToolStart(call, name, arguments) => ToolInput(p, ToolId(call), Some(name), arguments, ToolRunning);
      case ToolProgress(call, name, detail) => ToolInput(p, ToolId(call), Some(name), Some(detail), ToolRunning);
      case ToolEnd(call, name, detail, isError) =>
        ToolInput(p, ToolId(call), Some(name), Some(detail), if isError then ToolFailed else ToolSucceeded);
      case AutoRetryStart(cause) => EndsInput(p, cause, None);
      case AgentEnd(false, last) => EndsInput(p, None, last);
      case _ =>
    }
  }

  lemma {:induction false} EndsInput(p: Projected, cause: Option<string>, last: Option<Ending>)
    ensures AgentEnds(p, last).state.input.None? && RetryStarts(p, cause).state.input == p.state.input
  {
    hide HaltDeltas, RetryMessage;
  }

  lemma {:induction false} UserStartsInput(p: Projected, text: string)
    ensures UserStarts(p, text).state.input == p.state.input
  {
    hide FindItem, FirstQueued;
  }

  lemma {:induction false} AssistantStartsInput(p: Projected, content: seq<Part>)
    ensures AssistantStarts(p, content).state.input == p.state.input
  {
    hide AssistantItems, AddAll;
    var s := p.state;
    AddAllInput(p.(state := s.(next := s.next + 1, active := Some(s.next), tools := map[])), AssistantItems(content,
        None, s.next, false));
  }

  lemma {:induction false} ToolInput(p: Projected, id: ItemId, name: Option<string>, detail: Option<string>,
      status: ToolStatus)
    ensures UpdateTool(p, id, name, detail, status).state.input == p.state.input
  {
    hide FindItem, FirstQueued;
  }

  lemma {:induction false} StreamedInput(p: Projected, index: nat, update: Update, usage: Option<Tokens>)
    ensures Streamed(p, index, update, usage).state.input == p.state.input
  {
    hide FindItem, FirstQueued, UpdateTool;
    match update {
      case CallGrew(c, delta) =>
        if c in p.state.tools { ToolInput(p, p.state.tools[c], None, Some(delta), ToolRunning); }
      case CallEnd(at, call, name, arguments) => ToolInput(NoteCall(p, at, call), ToolId(call), Some(name), arguments,
          ToolRunning);
      case _ =>
    }
  }

  lemma {:induction false} AddAllInput(p: Projected, added: seq<Item>)
    ensures AddAll(p, added).state.input == p.state.input
  {
    if added != [] { AddAllInput(p, added[..|added| - 1]); }
  }

  lemma {:induction false} ReconcileAllInput(p: Projected, final: seq<Item>)
    ensures ReconcileAll(p, final).state.input == p.state.input
  {
    if final != [] { ReconcileAllInput(p, final[..|final| - 1]); }
  }

  lemma {:induction false} InputKeptIff(c: Client, s: State, action: Action)
    requires Shows(c, s) && Good(s) && c.input == s.input
    ensures ApplyAll(c, Do(s, action).emitted).input == Do(s, action).state.input <==> KeepsInput(s, action)
  {
    hide ShowsItems, Do, RetryMessage;
    ActionReplays(c, s, action);
    HostInput(s, action);
  }

  /** One way they part: a request is pending when a turn starts. */
  lemma {:induction false} InputDropped() returns (c: Client, s: State)
    ensures Shows(c, s) && Good(s) && c.input == s.input
    ensures ApplyAll(c, Do(s, Reported(AgentStart)).emitted).input.None?
        && Do(s, Reported(AgentStart)).state.input.Some?
  {
    var request := InputRequest("1", Confirm, "", None, [], None, None);
    s := State([], Idle, None, Some(request), 0, None, map[], 0, []);
    c := Client([], map[], Idle, None, Some(request));
    ActionReplays(c, s, Reported(AgentStart));
  }

  /** The client shows the host's request, an older text of it, or none. */
  predicate InputBehind(input: Option<InputRequest>, host: Option<InputRequest>) {
    input.None? || (host.Some? && input.value.id == host.value.id)
  }

  /** Apart or not, the two agree again when a turn ends, the runtime stops or a new request
      arrives. Only stopping what is already stopped can leave a stale request showing. */
  lemma {:induction false} InputRecovers(c: Client, s: State, action: Action)
    requires Shows(c, s) && Good(s) && InputBehind(c.input, s.input)
    requires action.Stopping? ==> !s.phase.Stopped? || s.input.None?
    ensures var input, host := ApplyAll(c, Do(s, action).emitted).input, Do(s, action).state.input;
            && InputBehind(input, host)
            && (match action
                case Reported(AgentEnd(false, _)) => input == host == None
                case Lost => input == host == None
                case Stopping => input == host == None
                case Reported(UiRequest(Some(request))) =>
                  (s.input.Some? ==> s.input.value.id != request.id) ==> input == host == Some(request)
                case _ => true)
  {
    hide ShowsItems, Do, RetryMessage;
    ActionReplays(c, s, action);
    HostInput(s, action);
  }

  // ----- streams -----

  /** Everything the host sends over a run. */
  ghost function Deltas(s: State, actions: seq<Action>): seq<Delta> {
    if actions == [] then []
    else
      var init := actions[..|actions| - 1];
      Deltas(s, init) + Do(After(s, init), actions[|actions| - 1]).emitted
  }

  lemma {:induction false} RunReplays(c: Client, s: State, actions: seq<Action>)
    requires Shows(c, s) && Good(s)
    ensures Shows(ApplyAll(c, Deltas(s, actions)), After(s, actions))
  {
    hide Shows, Good, Do;
    if actions != [] {
      var init, last := actions[..|actions| - 1], actions[|actions| - 1];
      RunReplays(c, s, init);
      RunKeeps(s, init);
      ActionReplays(ApplyAll(c, Deltas(s, init)), After(s, init), last);
      AppliedInTurn(c, Deltas(s, init), Do(After(s, init), last).emitted);
    }
  }

  lemma {:induction false} RunsInTurn(s: State, a: seq<Action>, b: seq<Action>)
    ensures Deltas(s, a + b) == Deltas(s, a) + Deltas(After(s, a), b)
  {
    hide Do;
    if b == [] {
      assert a + b == a;
    } else {
      RunsInTurn(s, a, b[..|b| - 1]);
      AfterJoin(s, a, b[..|b| - 1]);
      assert (a + b)[..|a + b| - 1] == a + b[..|b| - 1];
    }
  }

  /** A connected client: it ignores what its snapshot already includes. */
  datatype Controller = Controller(client: Client, revision: nat)

  function Receive(ctl: Controller, event: Host.Stamped): Controller {
    if event.revision <= ctl.revision then ctl else Controller(Apply(ctl.client, event.delta), event.revision)
  }

  ghost function ReceiveAll(ctl: Controller, events: seq<Host.Stamped>): Controller {
    if events == [] then ctl else Receive(ReceiveAll(ctl, events[..|events| - 1]), events[|events| - 1])
  }

  /** Receiving the deltas from position `from` on: those up to the snapshot are ignored, the
      others are applied. */
  lemma {:induction false} ReceivesTail(ctl: Controller, deltas: seq<Delta>, base: nat, from: nat, seen: nat)
    requires from <= seen <= |deltas| && ctl.revision == base + seen
    ensures ReceiveAll(ctl, Host.Stamps(deltas, base)[from..]) == Controller(ApplyAll(ctl.client, deltas[seen..]),
        base + |deltas|)
  {
    hide Apply;
    var events := Host.Stamps(deltas, base)[from..];
    if |deltas| == seen {
      ReceivesNothing(ctl, events);
      assert deltas[seen..] == [];
    } else {
      var init := deltas[..|deltas| - 1];
      ReceivesTail(ctl, init, base, from, seen);
      assert events[..|events| - 1] == Host.Stamps(init, base)[from..];
      assert deltas[seen..][..|deltas| - seen - 1] == init[seen..];
    }
  }

  lemma {:induction false} ReceivesNothing(ctl: Controller, events: seq<Host.Stamped>)
    requires forall i :: 0 <= i < |events| ==> events[i].revision <= ctl.revision
    ensures ReceiveAll(ctl, events) == ctl
  {
    if events != [] {
      ReceivesNothing(ctl, events[..|events| - 1]);
    }
  }

  ghost function Loaded(items: seq<Item>): map<ItemId, Item> {
    if items == [] then map[] else Loaded(items[..|items| - 1])[items[|items| - 1].id := items[|items| - 1]]
  }

  /** A client that has just been given the host's snapshot. */
  ghost function FromSnapshot(s: State): Client {
    Client(seq(|s.items|, i requires 0 <= i < |s.items| => s.items[i].id), Loaded(s.items), s.phase, s.failure, s.input)
  }

  lemma {:induction false} LoadedItems(items: seq<Item>)
    requires Distinct(items)
    ensures forall i :: 0 <= i < |items| ==> items[i].id in Loaded(items) && Loaded(items)[items[i].id] == items[i]
    ensures forall id :: id in Loaded(items) ==> exists i :: 0 <= i < |items| && items[i].id == id
  {
    if items != [] {
      var init := items[..|items| - 1];
      LoadedItems(init);
      forall id | id in Loaded(items)
        ensures exists i :: 0 <= i < |items| && items[i].id == id
      {
        if id in Loaded(init) {
          var i :| 0 <= i < |init| && init[i].id == id;
          assert items[i].id == id;
        }
      }
    }
  }

  lemma {:induction false} SnapshotShows(s: State)
    requires Distinct(s.items)
    ensures Shows(FromSnapshot(s), s)
  {
    LoadedItems(s.items);
    var c := FromSnapshot(s);
    forall id | id in c.items
      ensures id in c.ids
    {
      var i :| 0 <= i < |s.items| && s.items[i].id == id;
      assert c.ids[i] == id;
    }
  }

  /** A client that takes its snapshot at any point of a run and is sent the stamped events
      from any earlier point on ends up showing what the host shows, at the host's revision. */
  lemma {:induction false} CatchesUp(s: State, base: nat, before: seq<Action>, after: seq<Action>, from: nat)
    requires Good(s) && from <= |Deltas(s, before)|
    ensures var all := Deltas(s, before + after);
            var ctl := Controller(FromSnapshot(After(s, before)), base + |Deltas(s, before)|);
            && from <= |all|
            && var end := ReceiveAll(ctl, Host.Stamps(all, base)[from..]);
               Shows(end.client, After(s, before + after)) && end.revision == base + |all|
  {
    hide Shows, Good, Do, FromSnapshot;
    var here := After(s, before);
    RunsInTurn(s, before, after);
    AfterJoin(s, before, after);
    RunKeeps(s, before);
    GoodDistinct(here);
    SnapshotShows(here);
    RunReplays(FromSnapshot(here), here, after);
    var all, seen := Deltas(s, before + after), |Deltas(s, before)|;
    ReceivesTail(Controller(FromSnapshot(here), base + seen), all, base, from, seen);
    assert all[seen..] == Deltas(here, after);
  }

  // ----- commands, whose events are stamped after their change -----

  predicate IsCommand(action: Action) {
    action.Sent? || action.Rejected? || action.Stopping? || action.Answered?
  }

  lemma {:induction false} NothingNew(c: Client, deltas: seq<Delta>)
    requires forall i :: 0 <= i < |deltas| ==> Apply(c, deltas[i]) == c
    ensures ApplyAll(c, deltas) == c
  {
    hide Apply;
    if deltas != [] { NothingNew(c, deltas[..|deltas| - 1]); }
  }

  lemma LoadedAt(s: State, i: nat)
    requires Distinct(s.items) && i < |s.items|
    ensures var c := FromSnapshot(s); s.items[i].id in c.items && c.items[s.items[i].id] == s.items[i]
  {
    hide Loaded;
    LoadedItems(s.items);
  }

  lemma {:induction false} HaltSays(items: seq<Item>, d: Delta)
    requires d in HaltDeltas(items)
    ensures exists i :: 0 <= i < |items| && Halted(items[i]) != items[i]
                        && d == ToolUpdate(items[i].id, items[i].detail, ToolInterrupted)
  {
    if items != [] {
      var init, last := items[..|items| - 1], items[|items| - 1];
      if d in HaltDeltas(init) {
        HaltSays(init, d);
        var i :| 0 <= i < |init| && Halted(init[i]) != init[i]
                 && d == ToolUpdate(init[i].id, init[i].detail, ToolInterrupted);
        assert items[i] == init[i];
      } else {
        assert items[|items| - 1] == last;
      }
    }
  }

  lemma {:induction false} StopSaysNothing(s: State, d: Delta)
    requires Good(s) && d in Stop(s).emitted
    ensures Apply(FromSnapshot(Stop(s).state), d) == FromSnapshot(Stop(s).state)
  {
    hide Good, Loaded, HaltDeltas, Distinct;
    var t := Stop(s).state;
    DoKeeps(s, Stopping);
    GoodDistinct(t);
    if d in HaltDeltas(s.items) {
      HaltSays(s.items, d);
      var i :| 0 <= i < |s.items| && Halted(s.items[i]) != s.items[i]
               && d == ToolUpdate(s.items[i].id, s.items[i].detail, ToolInterrupted);
      LoadedAt(t, i);
    }
  }

  lemma {:induction false} SendSaysNothing(s: State, text: string, d: Delta)
    requires Good(s) && d in Send(s, text).emitted
    ensures Apply(FromSnapshot(Send(s, text).state), d) == FromSnapshot(Send(s, text).state)
  {
    hide Good, Loaded, Distinct;
    var t := Send(s, text).state;
    DoKeeps(s, Sent(text));
    GoodDistinct(t);
    if |t.items| > |s.items| { LoadedAt(t, |s.items|); }
  }

  lemma {:induction false} WithdrawnGone(s: State, id: ItemId)
    requires Distinct(s.items)
    ensures var p := Withdraw(s, id);
            || p.emitted == []
            || (p.emitted == [ItemRemoved(id)] && forall k :: 0 <= k < |p.state.items| ==> p.state.items[k].id != id)
  {
    var i := FindItem(s.items, id);
    if i < |s.items| {
      var left := s.items[..i] + s.items[i + 1..];
      forall k | 0 <= k < |left|
        ensures left[k].id != id
      {
        assert left[k] == s.items[if k < i then k else k + 1];
      }
    }
  }

  lemma {:induction false} NotLoaded(items: seq<Item>, id: ItemId)
    requires forall k :: 0 <= k < |items| ==> items[k].id != id
    ensures id !in Loaded(items)
  {
    if items != [] { NotLoaded(items[..|items| - 1], id); }
  }

  lemma {:induction false} RejectSaysNothing(s: State, id: ItemId, wasRunning: bool, d: Delta)
    requires Good(s) && d in Reject(s, id, wasRunning).emitted
    ensures Apply(FromSnapshot(Reject(s, id, wasRunning).state), d) == FromSnapshot(Reject(s, id, wasRunning).state)
  {
    hide Good, Loaded, Withdraw, Distinct;
    var t := Reject(s, id, wasRunning).state;
    GoodDistinct(s);
    WithdrawnGone(s, id);
    if d == ItemRemoved(id) { NotLoaded(t.items, id); }
  }

  /** To a client whose snapshot has a command's change, its events say nothing new. */
  lemma {:induction false} CommandSaysNothing(s: State, command: Action, d: Delta)
    requires Good(s) && IsCommand(command) && d in Do(s, command).emitted
    ensures Apply(FromSnapshot(Do(s, command).state), d) == FromSnapshot(Do(s, command).state)
  {
    hide Good, Loaded, Stop, Send, Reject;
    match command {
      case Sent(text) => SendSaysNothing(s, text, d);
      case Stopping => StopSaysNothing(s, d);
      case Rejected(id, wasRunning) => RejectSaysNothing(s, id, wasRunning, d);
      case Answered(_) =>
    }
  }

  /** The same for a client that takes its snapshot in the middle of a command, after its change
      and after `stamped` of its events, if nothing else happens in between. */
  lemma {:induction false} CatchesUpMidway(s: State, base: nat, before: seq<Action>, command: Action,
      after: seq<Action>, stamped: nat, from: nat)
    requires Good(s) && IsCommand(command) && stamped <= |Do(After(s, before), command).emitted|
    requires from <= |Deltas(s, before)| + stamped
    ensures var all := Deltas(s, before + [command] + after);
            var seen := |Deltas(s, before)| + stamped;
            var ctl := Controller(FromSnapshot(After(s, before + [command])), base + seen);
            && from <= |all|
            && var end := ReceiveAll(ctl, Host.Stamps(all, base)[from..]);
               Shows(end.client, After(s, before + [command] + after)) && end.revision == base + |all|
  {
    hide Shows, Good, Do, FromSnapshot, Apply;
    var mid := After(s, before);
    var here, emitted := After(s, before + [command]), Do(mid, command).emitted;
    assert (before + [command])[..|before|] == before;
    RunsInTurn(s, before + [command], after);
    AfterJoin(s, before + [command], after);
    RunKeeps(s, before);
    RunKeeps(s, before + [command]);
    GoodDistinct(here);
    SnapshotShows(here);
    RunReplays(FromSnapshot(here), here, after);
    var all, seen := Deltas(s, before + [command] + after), |Deltas(s, before)| + stamped;
    ReceivesTail(Controller(FromSnapshot(here), base + seen), all, base, from, seen);
    forall i | 0 <= i < |emitted[stamped..]|
      ensures Apply(FromSnapshot(here), emitted[stamped..][i]) == FromSnapshot(here)
    {
      assert emitted[stamped..][i] == emitted[stamped + i];
      CommandSaysNothing(mid, command, emitted[stamped + i]);
    }
    NothingNew(FromSnapshot(here), emitted[stamped..]);
    AppliedInTurn(FromSnapshot(here), emitted[stamped..], Deltas(here, after));
    assert all[seen..] == emitted[stamped..] + Deltas(here, after);
  }
}
