/** Streaming agrees with rebuilding, over whole conversations: what is shown after any run of
    well-formed turns is what opening the longer history would show, tools left aside. */
module ConversationTurns {
  import opened Options
  import opened ConversationTypes
  import opened ProjectionSteps
  import opened ConversationInvariants
  import opened ConversationHistory
  import opened ConversationStreaming

  // ----- turns -----

  /** A step of a conversation, as the host sees it and as the history records it. */
  datatype Chunk =
    | Sending(text: string)
    | UserTurn(text: string)
    | AssistantTurn(start: seq<Part>, events: seq<PiEvent>, content: seq<Part>, usage: Option<Tokens>)
    | Recorded(message: PiMessage)
    | Aside(action: Action)

  ghost function Actions(chunk: Chunk): seq<Action> {
    match chunk
    case Sending(text) => [Sent(text)]
    case UserTurn(text) => [Reported(MessageStart(UserMessage(Some(text))))]
    case AssistantTurn(start, events, content, usage) =>
      [Reported(MessageStart(AssistantMessage(start, None)))] + Reports(events)
      + [Reported(MessageEnd(AssistantMessage(content, usage)))]
    case Recorded(message) => [Reported(MessageStart(message))]
    case Aside(action) => [action]
  }

  function Messages(chunk: Chunk): seq<PiMessage> {
    match chunk
    case UserTurn(text) => [UserMessage(Some(text))]
    case AssistantTurn(_, _, content, usage) => [AssistantMessage(content, usage)]
    case Recorded(message) => [message]
    case _ => []
  }

  predicate Textless(message: PiMessage) {
    message == UserMessage(None)
  }

  /** What may happen at any time between messages: reports that pass, the end of a turn, and
      what the user or the runtime does to a turn. */
  predicate Between(action: Action) {
    match action
    case Reported(event) => Passing(event) || event.AgentEnd? || event.AutoRetryStart?
    case Stopping => true
    case Answered(_) => true
    case Lost => true
    case _ => false
  }

  /** A message is sent when no turn runs and none is waiting, Pi starts on a sent message
      before it answers and repeats its text, and messages stream as `WellStreamed` says. */
  ghost predicate WellFormed(s: State, chunk: Chunk) {
    match chunk
    case Sending(_) => !s.phase.Running? && s.pending == []
    case UserTurn(text) => s.pending == [] || s.pending[0].text == text
    case AssistantTurn(start, events, content, usage) =>
      s.pending == [] && WellStreamed(Speech(start), events, content, usage)
    case Recorded(message) => message.ToolResult? || message.OtherMessage? || Textless(message)
    case Aside(action) => Between(action)
  }

  // ----- agreement -----

  /** The message Pi has not started on; a queue update may mark it. */
  function Waiting(s: State, queued: bool): seq<Item> {
    if s.pending == [] then [] else [Message(s.pending[0].id, queued, User, s.pending[0].text)]
  }

  /** The host shows `history` and the message that waits. */
  ghost predicate Agrees(s: State, history: seq<PiMessage>, queued: bool) {
    && Good(s)
    && |s.pending| <= 1
    && (s.pending != [] ==> s.pending[0].id == MessageId(Count(history)))
    && s.next == Count(history) + |s.pending|
    && Spoken(s.items) == Spoken(Batch(history)) + Waiting(s, queued)
  }

  lemma {:induction false} SpokenMember(items: seq<Item>, i: nat)
    requires i < |items| && !items[i].Tool?
    ensures items[i] in Spoken(items)
  {
    if i > 0 { SpokenMember(items[1..], i - 1); }
  }

  lemma {:induction false} GoodShaped(s: State)
    requires Good(s)
    ensures AllShaped(s.items)
  {
    assert forall i :: 0 <= i < |s.items| ==> Fits(s.items[i], s.next);
  }

  predicate Rests(item: Item, next: nat) {
    !item.Tool? && !item.id.ToolId? && item.id.index < next && !QueuedByUser(item)
  }

  lemma {:induction false} BatchRests(history: seq<PiMessage>)
    ensures forall i :: 0 <= i < |Spoken(Batch(history))| ==> Rests(Spoken(Batch(history))[i], Count(history))
  {
    hide Spoken, Batch, Count, Calls;
    BatchShape(history);
    var items := Batch(history);
    forall i | 0 <= i < |Spoken(items)|
      ensures Rests(Spoken(items)[i], Count(history))
    {
      var k :| 0 <= k < |items| && items[k] == Spoken(items)[i];
      assert NumberedBy(items[k], Count(history));
      ShapedTool(items[k]);
    }
  }

  /** With no message waiting nothing is queued. */
  lemma {:induction false} AgreesCalm(s: State, history: seq<PiMessage>, queued: bool)
    requires Agrees(s, history, queued) && s.pending == []
    ensures Calm(s.items) && Spoken(s.items) == Spoken(Batch(history))
  {
    hide Spoken, Batch, Count, Good;
    GoodShaped(s);
    BatchRests(history);
    forall i | 0 <= i < |s.items|
      ensures !QueuedByUser(s.items[i])
    {
      if QueuedByUser(s.items[i]) {
        SpokenMember(s.items, i);
        assert false;
      }
    }
  }

  // ----- between messages -----

  /** A tool's report changes only that tool, wherever a new one goes. */
  lemma {:induction false} ToolAnywhere(p: Projected, id: ItemId, name: Option<string>, detail: Option<string>,
      status: ToolStatus)
    requires AllShaped(p.state.items) && id.ToolId?
    ensures Spoken(UpdateTool(p, id, name, detail, status).state.items) == Spoken(p.state.items)
  {
    hide FindItem, Spoken, Slot, BeforeItem;
    var items := p.state.items;
    var i := FindItem(items, id);
    if i < |items| && items[i].Tool? {
      var tool := Tool(items[i].id, OrElse(name, items[i].name), OrElse(detail, items[i].detail), status);
      SpokenSame(items[i := tool], items);
    } else {
      var tool, at := Tool(id, OrElse(name, "tool"), OrElse(detail, ""), status), Slot(items);
      SpokenJoin(items[..at] + [tool], items[at..]);
      SpokenJoin(items[..at], [tool]);
      SpokenJoin(items[..at], items[at..]);
      SpokenOne(tool);
      assert items[..at] + items[at..] == items;
    }
  }

  function RequeuedAll(items: seq<Item>, wanted: set<ItemId>): seq<Item> {
    seq(|items|, i requires 0 <= i < |items| => Requeued(items[i], wanted))
  }

  lemma {:induction false} SpokenRequeued(items: seq<Item>, wanted: set<ItemId>)
    ensures Spoken(RequeuedAll(items, wanted)) == RequeuedAll(Spoken(items), wanted)
  {
    hide Spoken;
    if items == [] {
      SpokenNone();
    } else {
      SpokenRequeued(items[1..], wanted);
      SpokenCons(items[0], items[1..]);
      SpokenCons(Requeued(items[0], wanted), RequeuedAll(items[1..], wanted));
      assert items == [items[0]] + items[1..];
      assert RequeuedAll(items, wanted) == [Requeued(items[0], wanted)] + RequeuedAll(items[1..], wanted);
    }
  }

  /** A queue update says of the waiting message whether it is queued, and of no other. */
  lemma {:induction false} QueueAgrees(s: State, history: seq<PiMessage>, queued: bool, steering: nat)
    requires Agrees(s, history, queued)
    ensures var t := Project(s, QueueUpdate(steering)).state;
            Agrees(t, history, steering > 0)
  {
    hide Spoken, Batch, Count, Good, QueueDeltas;
    var t := Project(s, QueueUpdate(steering)).state;
    ProjectKeeps(s, QueueUpdate(steering));
    var wanted := ProjectionSteps.Waiting(s.pending, steering);
    assert t.items == RequeuedAll(s.items, wanted);
    SpokenRequeued(s.items, wanted);
    BatchRests(history);
    var base := Spoken(Batch(history));
    assert s.pending != [] ==> (s.pending[0].id in wanted <==> steering > 0);
    forall i | 0 <= i < |base|
      ensures Requeued(base[i], wanted) == base[i]
    {
      assert Rests(base[i], Count(history));
    }
    assert RequeuedAll(base + Waiting(s, queued), wanted) == base + Waiting(t, steering > 0);
  }

  lemma {:induction false} HaltedSpoken(p: Projected)
    ensures Spoken(InterruptTools(p).state.items) == Spoken(p.state.items)
  {
    hide Spoken;
    SpokenSame(InterruptTools(p).state.items, p.state.items);
  }

  lemma {:induction false} BetweenSpoken(s: State, action: Action)
    requires AllShaped(s.items) && Between(action) && !(action.Reported? && action.event.QueueUpdate?)
    ensures var t := Do(s, action).state;
            Spoken(t.items) == Spoken(s.items) && t.next == s.next && t.pending == s.pending
  {
    hide Spoken, FindItem, FirstQueued, UpdateTool, HaltDeltas, RetryMessage, OrElse, AllShaped;
    var p := Projected(s, []);
    match action {
      case Reported(ToolStart(call, name, arguments)) =>
        ToolAnywhere(p, ToolId(call), Some(name), arguments, ToolRunning);
        ToolShape(p, ToolId(call), Some(name), arguments, ToolRunning);
      case Reported(ToolProgress(call, name, detail)) =>
        ToolAnywhere(p, ToolId(call), Some(name), Some(detail), ToolRunning);
        ToolShape(p, ToolId(call), Some(name), Some(detail), ToolRunning);
      case Reported(ToolEnd(call, name, detail, isError)) =>
        var status := if isError then ToolFailed else ToolSucceeded;
        ToolAnywhere(p, ToolId(call), Some(name), Some(detail), status);
        ToolShape(p, ToolId(call), Some(name), Some(detail), status);
      case Reported(AgentEnd(_, last)) =>
        HaltedSpoken(ClearInput(p));
        if last.Some? {
          HaltedSpoken(Settle(ClearInput(p), Failed, Some(OrElse(last.value.errorMessage, FAILED_TURN))));
        }
      case Reported(AutoRetryStart(_)) => HaltedSpoken(p);
      case Stopping => HaltedSpoken(p);
      case Lost => HaltedSpoken(p);
      case _ =>
    }
  }

  lemma {:induction false} AsideAgrees(s: State, history: seq<PiMessage>, queued: bool, action: Action)
    returns (after: bool)
    requires Agrees(s, history, queued) && Between(action)
    ensures Agrees(Do(s, action).state, history, after)
  {
    hide Good, Spoken, Batch, Count, Passing, Do;
    DoKeeps(s, action);
    after := queued;
    if action.Reported? && action.event.QueueUpdate? {
      after := action.event.steering > 0;
      QueueAgrees(s, history, queued, action.event.steering);
      DoReported(s, action.event);
    } else {
      GoodShaped(s);
      BetweenSpoken(s, action);
    }
  }

  lemma {:induction false} DoReported(s: State, event: PiEvent)
    ensures Do(s, Reported(event)) == Project(s, event)
  {
  }

  // ----- user messages -----

  lemma {:induction false} SendAgrees(s: State, history: seq<PiMessage>, queued: bool, text: string)
    requires Agrees(s, history, queued) && WellFormed(s, Sending(text))
    ensures Agrees(Send(s, text).state, history, false)
  {
    hide Good, Spoken, Batch, Count, FindItem;
    SendKeeps(s, text);
    var item := Message(MessageId(s.next), false, User, text);
    SpokenJoin(s.items, [item]);
    SpokenOne(item);
  }

  /** Pi starts on the message that waits: it is the next of the history. */
  lemma {:induction false} SentAgrees(s: State, history: seq<PiMessage>, queued: bool, text: string)
    requires Agrees(s, history, queued) && s.pending != [] && s.pending[0].text == text
    ensures Agrees(Project(s, MessageStart(UserMessage(Some(text)))).state, history + [UserMessage(Some(text))], false)
  {
    hide Good, Spoken, Batch, Count, FindItem;
    var message := UserMessage(Some(text));
    var t := Project(s, MessageStart(message)).state;
    ProjectKeeps(s, MessageStart(message));
    GoodShaped(s);
    var id, base := s.pending[0].id, Spoken(Batch(history));
    var item := Message(id, false, User, text);
    HistoryMore(history, message);
    SpokenJoin(Batch(history), [item]);
    SpokenOne(item);
    BatchRests(history);
    SpokenFind(s.items, id);
    var k := FindItem(Spoken(s.items), id);
    assert k == |base| by {
      forall i | 0 <= i < |base|
        ensures Spoken(s.items)[i].id != id
      {
        assert Rests(base[i], Count(history)) && Spoken(s.items)[i] == base[i];
      }
      assert Spoken(s.items)[|base|].id == id;
    }
    SpokenReplace(s.items, id, item);
    assert Spoken(s.items)[k := item] == base + [item];
    var i := FindItem(s.items, id);
    assert s.items[i] == Message(id, queued, User, text);
    if !queued { assert s.items[i := item] == s.items; }
  }

  /** A message that was not sent through the host. */
  lemma {:induction false} HeardAgrees(s: State, history: seq<PiMessage>, queued: bool, text: string)
    requires Agrees(s, history, queued) && s.pending == []
    ensures Agrees(Project(s, MessageStart(UserMessage(Some(text)))).state, history + [UserMessage(Some(text))], false)
  {
    hide Good, Spoken, Batch, Count, FindItem, AddItem, Calm;
    var message := UserMessage(Some(text));
    ProjectKeeps(s, MessageStart(message));
    AgreesCalm(s, history, queued);
    SendKeeps(s, text);
    var item := Message(MessageId(s.next), false, User, text);
    var p := Projected(s.(pending := [], next := s.next + 1), []);
    CalmQueue(s.items);
    Appended(p, item);
    AddShape(p, item);
    HistoryMore(history, message);
    SpokenJoin(Batch(history), [item]);
    SpokenJoin(s.items, [item]);
    SpokenOne(item);
  }

  lemma {:induction false} AddShape(p: Projected, item: Item)
    ensures AddItem(p, item).state == p.state.(items := AddItem(p, item).state.items)
  {
    hide FindItem, FirstQueued;
  }

  lemma {:induction false} CalmQueue(items: seq<Item>)
    requires Calm(items)
    ensures NoQueue(items)
  {
  }

  lemma {:induction false} UserAgrees(s: State, history: seq<PiMessage>, queued: bool, text: string)
    requires Agrees(s, history, queued) && WellFormed(s, UserTurn(text))
    ensures Agrees(After(s, Actions(UserTurn(text))), history + [UserMessage(Some(text))], false)
  {
    hide Agrees, Project;
    AfterOne(s, Reported(MessageStart(UserMessage(Some(text)))));
    if s.pending == [] { HeardAgrees(s, history, queued, text); } else { SentAgrees(s, history, queued, text); }
  }

  // ----- other messages -----

  lemma {:induction false} HistoryMore(history: seq<PiMessage>, message: PiMessage)
    ensures Count(history + [message]) ==
            Count(history) + if message.UserMessage? || message.AssistantMessage? then 1 else 0
    ensures Batch(history + [message]) ==
            match message
            case UserMessage(Some(text)) => Batch(history) + [Message(MessageId(Count(history)), false, User, text)]
            case AssistantMessage(content, usage) =>
              Batch(history) + AssistantItems(content, usage, Count(history), true)
            case ToolResult(Some(call), detail, isError) => SettleTool(Batch(history), call, detail, isError)
            case _ => Batch(history)
  {
    hide AssistantItems, SettleTool;
    assert (history + [message])[..|history|] == history;
  }

  lemma {:induction false} AssistantAgrees(s: State, history: seq<PiMessage>, queued: bool, start: seq<Part>,
      events: seq<PiEvent>, content: seq<Part>, usage: Option<Tokens>)
    requires Agrees(s, history, queued) && s.pending == [] && WellStreamed(Speech(start), events, content, usage)
    ensures Agrees(After(s, Actions(AssistantTurn(start, events, content, usage))),
                   history + [AssistantMessage(content, usage)], queued)
  {
    hide Calm, Good, Spoken, Batch, Project, WellStreamed, Speech, Count, AssistantItems;
    var first, last := MessageStart(AssistantMessage(start, None)), MessageEnd(AssistantMessage(content, usage));
    AgreesCalm(s, history, queued);
    var base := Spoken(s.items);
    Starts(s, start, None);
    AfterJoin(s, [Reported(first)] + Reports(events), [Reported(last)]);
    AfterJoin(s, [Reported(first)], Reports(events));
    AfterOne(s, Reported(first));
    var t := Project(s, first).state;
    var pieces, seen := MessageStreams(t, s.next, base, Speech(start), None, events, content, usage);
    var u := After(t, Reports(events));
    Ends(u, s.next, base, pieces, seen, content, usage);
    AfterOne(u, Reported(last));
    HistoryMore(history, AssistantMessage(content, usage));
    SpokenMessage(content, usage, s.next);
    SpokenJoin(Batch(history), AssistantItems(content, usage, s.next, true));
    assert base + (Rendered(s.next, Speech(content)) + UsageItems(s.next, usage)) ==
           Shown(base, s.next, Speech(content), usage);
  }

  /** The history without the user messages that have no text. */
  function Heard(messages: seq<PiMessage>): seq<PiMessage> {
    if messages == [] then []
    else
      var last := messages[|messages| - 1];
      Heard(messages[..|messages| - 1]) + if Textless(last) then [] else [last]
  }

  lemma {:induction false} HeardJoin(a: seq<PiMessage>, b: seq<PiMessage>)
    ensures Heard(a + b) == Heard(a) + Heard(b)
  {
    if b == [] {
      assert a + b == a;
    } else {
      HeardJoin(a, b[..|b| - 1]);
      assert (a + b)[..|a + b| - 1] == a + b[..|b| - 1];
    }
  }

  lemma {:induction false} HeardOne(message: PiMessage)
    ensures Heard([message]) == if Textless(message) then [] else [message]
  {
    assert [message][..0] == [];
  }

  lemma {:induction false} RecordedAgrees(s: State, history: seq<PiMessage>, queued: bool, message: PiMessage)
    requires Agrees(s, history, queued) && WellFormed(s, Recorded(message))
    ensures Agrees(After(s, Actions(Recorded(message))), history + Heard([message]), queued)
  {
    hide Calm, Good, Spoken, Batch, Count;
    AfterOne(s, Reported(MessageStart(message)));
    HistoryMore(history, message);
    HeardOne(message);
    if message.ToolResult? && message.call.Some? {
      var settled := SettleTool(Batch(history), message.call.value, message.detail, message.isError);
      SpokenSame(settled, Batch(history));
    } else if Textless(message) {
      assert history + [] == history;
    }
  }

  lemma {:induction false} ChunkAgrees(s: State, history: seq<PiMessage>, queued: bool, chunk: Chunk)
    returns (after: bool)
    requires Agrees(s, history, queued) && WellFormed(s, chunk)
    ensures Agrees(After(s, Actions(chunk)), history + Heard(Messages(chunk)), after)
  {
    hide Agrees, WellStreamed, Between, Do, Heard;
    after := false;
    match chunk {
      case Sending(text) =>
        SendAgrees(s, history, queued, text);
        AfterOne(s, Sent(text));
        DoSent(s, text);
        HeardNone();
        assert history + [] == history;
      case UserTurn(text) =>
        UserAgrees(s, history, queued, text);
        HeardOne(UserMessage(Some(text)));
      case AssistantTurn(start, events, content, usage) =>
        AssistantAgrees(s, history, queued, start, events, content, usage);
        after := queued;
        HeardOne(AssistantMessage(content, usage));
      case Recorded(message) =>
        RecordedAgrees(s, history, queued, message);
        after := queued;
      case Aside(action) =>
        after := AsideAgrees(s, history, queued, action);
        AfterOne(s, action);
        HeardNone();
        assert history + [] == history;
    }
  }

  lemma {:induction false} DoSent(s: State, text: string)
    ensures Do(s, Sent(text)) == Send(s, text)
  {
  }

  lemma {:induction false} HeardNone()
    ensures Heard([]) == []
  {
  }

  // ----- whole conversations -----

  ghost function Run(s: State, chunks: seq<Chunk>): State
    decreases |chunks|
  {
    if chunks == [] then s else Run(After(s, Actions(chunks[0])), chunks[1..])
  }

  function History(chunks: seq<Chunk>): seq<PiMessage> {
    if chunks == [] then [] else Messages(chunks[0]) + History(chunks[1..])
  }

  ghost predicate WellFormedRun(s: State, chunks: seq<Chunk>)
    decreases |chunks|
  {
    chunks == [] || (WellFormed(s, chunks[0]) && WellFormedRun(After(s, Actions(chunks[0])), chunks[1..]))
  }

  lemma {:induction false} RunAgrees(s: State, history: seq<PiMessage>, queued: bool, chunks: seq<Chunk>)
    returns (after: bool)
    requires Agrees(s, history, queued) && WellFormedRun(s, chunks)
    ensures Agrees(Run(s, chunks), history + Heard(History(chunks)), after)
    decreases |chunks|
  {
    hide Agrees, WellFormed, Actions, Messages, After, Heard;
    if chunks == [] {
      HeardNone();
      assert history + [] == history;
      after := queued;
    } else {
      var first := Heard(Messages(chunks[0]));
      after := ChunkAgrees(s, history, queued, chunks[0]);
      after := RunAgrees(After(s, Actions(chunks[0])), history + first, after, chunks[1..]);
      HeardJoin(Messages(chunks[0]), History(chunks[1..]));
      assert history + first + Heard(History(chunks[1..])) == history + Heard(History(chunks));
    }
  }

  /** The order in which a prompt is answered: sent, the turn starts, Pi starts on the
      message and ends it. */
  lemma {:induction false} OrdinaryTurn(s: State, text: string)
    requires !s.phase.Running? && s.pending == [] && Good(s)
    ensures WellFormedRun(s, [Sending(text), Aside(Reported(AgentStart)), UserTurn(text),
                              Aside(Reported(MessageEnd(UserMessage(Some(text)))))])
  {
    hide Good, FindItem;
    var sent, started, user, ended :=
      Sending(text), Aside(Reported(AgentStart)), UserTurn(text), Aside(Reported(MessageEnd(UserMessage(Some(text)))));
    SendKeeps(s, text);
    var t := After(s, Actions(sent));
    AfterOne(s, Sent(text));
    var u := After(t, Actions(started));
    AfterOne(t, Reported(AgentStart));
    var v := After(u, Actions(user));
    assert WellFormedRun(v, [ended]) by { assert [ended][1..] == []; }
    assert WellFormedRun(u, [user, ended]) by { assert [user, ended][1..] == [ended]; }
    assert WellFormedRun(t, [started, user, ended]) by { assert [started, user, ended][1..] == [user, ended]; }
    assert [sent, started, user, ended][1..] == [started, user, ended];
  }

  /** A new chat: the turn starts, then Pi starts on the message the chat was created with. */
  lemma {:induction false} FirstTurn(text: string, completed: bool)
    ensures WellFormedRun(OpenSession([], text, false, completed), [Aside(Reported(AgentStart)), UserTurn(text)])
  {
    var s := OpenSession([], text, false, completed);
    assert Batch([]) == [] && s.pending == [Pending(MessageId(0), text)];
    var started, user := Aside(Reported(AgentStart)), UserTurn(text);
    var t := After(s, Actions(started));
    AfterOne(s, Reported(AgentStart));
    assert WellFormedRun(t, [user]) by { assert [user][1..] == []; }
    assert [started, user][1..] == [user];
  }

  // ----- messages without text -----

  /** What a message of the history shows under the number `index`, tools aside. */
  ghost function Voice(message: PiMessage, index: nat): seq<Item> {
    match message
    case UserMessage(Some(text)) => [Message(MessageId(index), false, User, text)]
    case AssistantMessage(content, usage) => Rendered(index, Speech(content)) + UsageItems(index, usage)
    case _ => []
  }

  ghost predicate Speaks(message: PiMessage) {
    match message
    case UserMessage(text) => text.Some?
    case AssistantMessage(content, usage) => Speech(content) != [] || usage.Some?
    case _ => false
  }

  lemma {:induction false} VoiceIndex(message: PiMessage, i: nat, j: nat)
    ensures |Voice(message, i)| == |Voice(message, j)| && (Speaks(message) <==> Voice(message, i) != [])
    ensures Voice(message, i) == Voice(message, j) <==> i == j || !Speaks(message)
  {
    hide Speech;
    if Speaks(message) {
      assert Voice(message, i)[0].id.index == i && Voice(message, j)[0].id.index == j;
    }
  }

  lemma {:induction false} SpokenMore(history: seq<PiMessage>, message: PiMessage)
    ensures Spoken(Batch(history + [message])) == Spoken(Batch(history)) + Voice(message, Count(history))
  {
    hide Spoken, Batch, Count, AssistantItems;
    HistoryMore(history, message);
    match message {
      case UserMessage(Some(text)) =>
        SpokenJoin(Batch(history), [Message(MessageId(Count(history)), false, User, text)]);
        SpokenOne(Message(MessageId(Count(history)), false, User, text));
      case AssistantMessage(content, usage) =>
        SpokenJoin(Batch(history), AssistantItems(content, usage, Count(history), true));
        SpokenMessage(content, usage, Count(history));
      case ToolResult(Some(call), detail, isError) =>
        SpokenSame(SettleTool(Batch(history), call, detail, isError), Batch(history));
      case _ =>
    }
  }

  function Silences(messages: seq<PiMessage>): (n: nat)
    ensures n == 0 <==> forall i :: 0 <= i < |messages| ==> !Textless(messages[i])
  {
    if messages == [] then 0
    else Silences(messages[..|messages| - 1]) + if Textless(messages[|messages| - 1]) then 1 else 0
  }

  /** No message that shows anything comes after a user message without text. */
  ghost predicate Unshifted(messages: seq<PiMessage>) {
    forall i, j :: 0 <= i < j < |messages| && Textless(messages[i]) ==> !Speaks(messages[j])
  }

  lemma {:induction false} UnshiftedMore(init: seq<PiMessage>, last: PiMessage)
    ensures Unshifted(init + [last]) <==> Unshifted(init) && (Silences(init) == 0 || !Speaks(last))
  {
    hide Speaks;
    var all := init + [last];
    assert all[|init|] == last && forall i :: 0 <= i < |init| ==> all[i] == init[i];
    if Silences(init) > 0 && Speaks(last) {
      var i :| 0 <= i < |init| && Textless(init[i]);
      assert Textless(all[i]) && Speaks(all[|init|]);
    }
    if Unshifted(all) {
      forall i, j | 0 <= i < j < |init| && Textless(init[i])
        ensures !Speaks(init[j])
      {
        assert Textless(all[i]) && !Speaks(all[j]);
      }
    }
  }

  /** The stream gives a user message without text no number, the history does. Leaving such
      messages out shows the same exactly when nothing is shown after them. */
  lemma {:induction false} ShiftIff(base: seq<PiMessage>, later: seq<PiMessage>)
    ensures Count(base + later) == Count(base + Heard(later)) + Silences(later)
    ensures |Spoken(Batch(base + later))| == |Spoken(Batch(base + Heard(later)))|
    ensures Spoken(Batch(base + Heard(later))) == Spoken(Batch(base + later)) <==> Unshifted(later)
  {
    hide Spoken, Batch, Count, Voice, Speaks, Unshifted;
    if later == [] {
      assert Heard(later) == later;
      assert Unshifted([]) by { UnshiftedNone(); }
    } else {
      var init, last := later[..|later| - 1], later[|later| - 1];
      ShiftIff(base, init);
      UnshiftedMore(init, last);
      assert init + [last] == later && base + later == base + init + [last];
      ShiftStep(base, init, last);
    }
  }

  lemma {:induction false} ShiftStep(base: seq<PiMessage>, init: seq<PiMessage>, last: PiMessage)
    requires Count(base + init) == Count(base + Heard(init)) + Silences(init)
    requires |Spoken(Batch(base + init))| == |Spoken(Batch(base + Heard(init)))|
    requires Spoken(Batch(base + Heard(init))) == Spoken(Batch(base + init)) <==> Unshifted(init)
    ensures var later := init + [last];
            && Count(base + init + [last]) == Count(base + Heard(later)) + Silences(later)
            && |Spoken(Batch(base + init + [last]))| == |Spoken(Batch(base + Heard(later)))|
            && (Spoken(Batch(base + Heard(later))) == Spoken(Batch(base + init + [last]))
                <==> Unshifted(init) && (Silences(init) == 0 || !Speaks(last)))
  {
    hide Spoken, Batch, Count, Voice, Speaks, Unshifted, Heard, Silences;
    var later := init + [last];
    HeardMore(init, last);
    SpokenMore(base + init, last);
    HistoryMore(base + init, last);
    VoiceIndex(last, Count(base + init), Count(base + Heard(init)));
    if Textless(last) {
      TextlessSilent(last);
      assert Heard(init) + [] == Heard(init);
    } else {
      assert base + Heard(later) == base + Heard(init) + [last];
      SpokenMore(base + Heard(init), last);
      HistoryMore(base + Heard(init), last);
      var a, b := Spoken(Batch(base + Heard(init))), Spoken(Batch(base + init));
      JoinedEqual(a, Voice(last, Count(base + Heard(init))), b, Voice(last, Count(base + init)));
    }
  }

  lemma {:induction false} HeardMore(init: seq<PiMessage>, last: PiMessage)
    ensures Heard(init + [last]) == Heard(init) + if Textless(last) then [] else [last]
    ensures Silences(init + [last]) == Silences(init) + if Textless(last) then 1 else 0
  {
    assert (init + [last])[..|init|] == init;
  }

  lemma {:induction false} UnshiftedNone()
    ensures Unshifted([])
  {
  }

  lemma {:induction false} TextlessSilent(message: PiMessage)
    requires Textless(message)
    ensures !Speaks(message) && forall i :: Voice(message, i) == []
  {
  }

  lemma {:induction false} JoinedEqual(a: seq<Item>, u: seq<Item>, b: seq<Item>, v: seq<Item>)
    requires |a| == |b| || |u| == |v|
    ensures a + u == b + v <==> a == b && u == v
  {
    if a + u == b + v {
      assert |a + u| == |a| + |u| && |b + v| == |b| + |v|;
      assert a == (a + u)[..|a|] && b == (b + v)[..|b|];
      assert u == (a + u)[|a|..] && v == (b + v)[|b|..];
    }
  }

  // ----- from opening on -----

  /** What an opened conversation shows: its history, or the text a chat was created with. */
  function OpenedWith(history: seq<PiMessage>, initialText: string, stored: bool): seq<PiMessage> {
    if history == [] && stored then [UserMessage(Some(initialText))] else history
  }

  lemma {:induction false} OpenedAgrees(history: seq<PiMessage>, initialText: string, stored: bool, completed: bool)
    requires NoRepeats(Calls(history))
    ensures Agrees(OpenSession(history, initialText, stored, completed),
                   OpenedWith(history, initialText, stored), false)
  {
    hide Spoken, Batch, Count, Good, Calls, NoRepeats;
    var s := OpenSession(history, initialText, stored, completed);
    OpenedGood(history, initialText, stored, completed);
    if history == [] {
      EmptyHistory();
      var item := Message(MessageId(0), false, User, initialText);
      SpokenOne(item);
      SpokenNone();
      HistoryMore([], UserMessage(Some(initialText)));
      assert [] + [UserMessage(Some(initialText))] == [UserMessage(Some(initialText))];
      assert [] + [item] == [item];
    } else {
      HaltedItems(Batch(history));
    }
  }

  lemma {:induction false} HaltedItems(items: seq<Item>)
    ensures Spoken(seq(|items|, i requires 0 <= i < |items| => Halted(items[i]))) == Spoken(items)
  {
    hide Spoken;
    SpokenSame(seq(|items|, i requires 0 <= i < |items| => Halted(items[i])), items);
  }

  lemma {:induction false} EmptyHistory()
    ensures Batch([]) == [] && Count([]) == 0
  {
  }

  /** How many items a message adds does not depend on its number. */
  ghost function Spread(messages: seq<PiMessage>): nat {
    if messages == [] then 0
    else Spread(messages[..|messages| - 1]) + |Voice(messages[|messages| - 1], 0)|
  }

  lemma {:induction false} SpokenSpread(base: seq<PiMessage>, later: seq<PiMessage>)
    ensures |Spoken(Batch(base + later))| == |Spoken(Batch(base))| + Spread(later)
  {
    hide Spoken, Batch, Count, Voice;
    if later == [] {
      assert base + later == base;
    } else {
      var init, last := later[..|later| - 1], later[|later| - 1];
      SpokenSpread(base, init);
      assert base + later == base + init + [last];
      SpokenMore(base + init, last);
      VoiceIndex(last, Count(base + init), 0);
    }
  }

  /** A conversation, new or opened from any history with distinct tool calls, and continued by
      well-formed turns, shows the messages, reasoning and usage that opening the longer
      history would show, ids included, and the message that waits: if and only if the chat was
      not stored without a history, and nothing was shown after a user message without text. */
  lemma {:induction false} StreamingRefinesBatch(history: seq<PiMessage>, initialText: string, stored: bool,
      completed: bool, chunks: seq<Chunk>)
    requires NoRepeats(Calls(history))
    requires WellFormedRun(OpenSession(history, initialText, stored, completed), chunks)
    ensures var s, later := Run(OpenSession(history, initialText, stored, completed), chunks), History(chunks);
            && ((exists queued :: Spoken(s.items) == Spoken(Batch(history + later)) + Waiting(s, queued))
                <==> !(stored && history == []) && Unshifted(later))
            && s.next + Silences(later) == Count(OpenedWith(history, initialText, stored) + later) + |s.pending|
  {
    hide WellFormedRun, Run, Batch, Count, Calls, NoRepeats, Spoken, Unshifted, Good, Heard;
    var opening := OpenSession(history, initialText, stored, completed);
    var base, later, s := OpenedWith(history, initialText, stored), History(chunks), Run(opening, chunks);
    OpenedAgrees(history, initialText, stored, completed);
    var queued := RunAgrees(opening, base, false, chunks);
    ShiftIff(base, later);
    var shown, rebuilt := Spoken(Batch(base + Heard(later))), Spoken(Batch(history + later));
    if stored && history == [] {
      SpokenSpread(base, later);
      SpokenSpread(history, later);
      EmptyHistory();
      HistoryMore([], base[0]);
      assert [] + base == base;
      var item := Message(MessageId(0), false, User, initialText);
      assert [] + [item] == [item];
      SpokenOne(item);
      SpokenNone();
      assert |shown| != |rebuilt|;
    }
    forall q
      ensures shown + Waiting(s, queued) == rebuilt + Waiting(s, q) <==>
                shown == rebuilt && Waiting(s, queued) == Waiting(s, q)
    {
      JoinedEqual(shown, Waiting(s, queued), rebuilt, Waiting(s, q));
    }
    assert Waiting(s, queued) == Waiting(s, queued);
  }

  /** The first case: the text the chat was created with is shown and is in no history, so the
      next message has number 1 here and number 0 when the chat is opened again. */
  lemma {:induction false} StoredWithoutHistory(initialText: string, completed: bool)
    ensures var s := OpenSession([], initialText, true, completed);
            s.items == [Message(MessageId(0), false, User, initialText)] && s.next == 1 && s.pending == []
            && Batch([]) == []
  {
    assert Count([]) == 0;
  }

  /** The second case: a user message without text takes a number in the history and none in
      the stream, so later ids differ. */
  lemma {:induction false} TextlessUserShifts()
    ensures var silent := UserMessage(None);
            var s := Opened([], Idle, None, 0);
            && Project(s, MessageStart(silent)).state.next == 0
            && Count([silent]) == 1
            && Batch([silent, UserMessage(Some("a"))]) == [Message(MessageId(1), false, User, "a")]
            && After(s, [Reported(MessageStart(silent)), Reported(MessageStart(UserMessage(Some("a"))))]).items
               == [Message(MessageId(0), false, User, "a")]
  {
    var silent, a := UserMessage(None), UserMessage(Some("a"));
    var s := Opened([], Idle, None, 0);
    assert [silent][..0] == [] && [silent, a][..1] == [silent];
    assert Batch([]) == [] && Count([]) == 0;
    assert Batch([silent]) == [];
    var first, second := [Reported(MessageStart(silent))], [Reported(MessageStart(a))];
    assert [Reported(MessageStart(silent)), Reported(MessageStart(a))] == first + second;
    AfterJoin(s, first, second);
    AfterOne(s, Reported(MessageStart(silent)));
    AfterOne(s, Reported(MessageStart(a)));
    Appended(Projected(s.(next := 1), []), Message(MessageId(0), false, User, "a"));
  }
}
