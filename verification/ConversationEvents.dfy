/** What a reader of the conversation sees after each report of Pi and each command. */
module ConversationEvents {
  import opened Options
  import opened ConversationTypes
  import opened ProjectionSteps
  import opened ConversationInvariants

  /** The items without those of that id, in order. */
  function Others(items: seq<Item>, id: ItemId): seq<Item> {
    if items == [] then [] else (if items[0].id == id then [] else [items[0]]) + Others(items[1..], id)
  }

  /** The item is shown, under an id no other item has. */
  ghost predicate ShownOnce(items: seq<Item>, item: Item) {
    item in items && forall i :: 0 <= i < |items| && items[i].id == item.id ==> items[i] == item
  }

  /** One item is new or changed; all else is as it was. */
  ghost predicate Only(s: State, t: State, item: Item) {
    && ShownOnce(t.items, item) && Others(t.items, item.id) == Others(s.items, item.id)
    && t == s.(items := t.items, tools := t.tools)
  }

  lemma {:induction false} OthersCons(x: Item, rest: seq<Item>, id: ItemId)
    ensures Others([x] + rest, id) == (if x.id == id then [] else [x]) + Others(rest, id)
  {
    assert ([x] + rest)[1..] == rest;
  }

  lemma {:induction false} OthersJoin(a: seq<Item>, b: seq<Item>, id: ItemId)
    ensures Others(a + b, id) == Others(a, id) + Others(b, id)
  {
    hide Others;
    if a == [] {
      assert a + b == b;
      assert Others(a, id) + Others(b, id) == Others(b, id) by { OthersOf(id); }
    } else {
      OthersJoin(a[1..], b, id);
      OthersCons(a[0], a[1..], id);
      OthersCons(a[0], a[1..] + b, id);
      assert a == [a[0]] + a[1..] && a + b == [a[0]] + (a[1..] + b);
    }
  }

  lemma {:induction false} OthersOf(id: ItemId)
    ensures Others([], id) == []
  {
  }

  lemma {:induction false} OthersReplaced(items: seq<Item>, i: nat, item: Item)
    requires i < |items| && item.id == items[i].id
    ensures Others(items[i := item], item.id) == Others(items, item.id)
  {
    hide Others;
    assert items == items[..i] + ([items[i]] + items[i + 1..]);
    assert items[i := item] == items[..i] + ([item] + items[i + 1..]);
    OthersJoin(items[..i], [items[i]] + items[i + 1..], item.id);
    OthersJoin(items[..i], [item] + items[i + 1..], item.id);
    OthersJoin([items[i]], items[i + 1..], item.id);
    OthersJoin([item], items[i + 1..], item.id);
    OthersOne(items[i]);
    OthersOne(item);
  }

  lemma OthersOne(item: Item)
    ensures Others([item], item.id) == []
  {
  }

  lemma {:induction false} OthersInserted(items: seq<Item>, at: nat, item: Item)
    requires at <= |items|
    ensures Others(items[..at] + [item] + items[at..], item.id) == Others(items, item.id)
  {
    hide Others;
    OthersJoin(items[..at] + [item], items[at..], item.id);
    OthersJoin(items[..at], [item], item.id);
    OthersJoin(items[..at], items[at..], item.id);
    OthersOne(item);
    assert items[..at] + items[at..] == items;
  }

  // ----- one item -----

  lemma {:induction false} ReplacedOnly(s: State, t: State, i: nat, item: Item)
    requires Distinct(s.items) && i < |s.items| && item.id == s.items[i].id
    requires t == s.(items := s.items[i := item], tools := t.tools)
    ensures Only(s, t, item)
  {
    hide Others;
    OthersReplaced(s.items, i, item);
    assert t.items[i] == item;
  }

  lemma {:induction false} AddedOnly(p: Projected, item: Item, s: State)
    requires FindItem(p.state.items, item.id) == |p.state.items| && p.state == s.(tools := p.state.tools)
    ensures Only(s, AddItem(p, item).state, item)
  {
    hide Others, Slot, BeforeItem;
    var items, t := p.state.items, AddItem(p, item).state;
    var at := Slot(items);
    OthersInserted(items, at, item);
    assert t.items == items[..at] + [item] + items[at..] && t.items[at] == item;
    forall i | 0 <= i < |t.items| && i != at
      ensures t.items[i].id != item.id
    {
      assert t.items[i] == items[if i < at then i else i - 1];
    }
  }

  /** A new item goes in front of the user messages that are queued, or to the end. */
  lemma {:induction false} Placed(p: Projected, item: Item) returns (k: nat)
    requires Distinct(p.state.items) && forall i :: 0 <= i < |p.state.items| ==> p.state.items[i].id != item.id
    ensures var items := p.state.items;
            && k <= |items| && AddItem(p, item).state.items == items[..k] + [item] + items[k..]
            && (forall j :: 0 <= j < k ==> !(items[j].Message? && items[j].queued && items[j].role == User))
            && (k < |items| ==> items[k].Message? && items[k].queued && items[k].role == User)
  {
    k := FirstQueued(p.state.items);
  }

  /** The tool of that id, or none. */
  ghost function ToolIn(items: seq<Item>, call: string): Option<Item> {
    var i := FindItem(items, ToolId(call));
    if i < |items| then Some(items[i]) else None
  }

  /** What is known of the call's detail when a report says nothing of it. */
  ghost function DetailOf(items: seq<Item>, call: string): string {
    var tool := ToolIn(items, call);
    if tool.Some? && tool.value.Tool? then tool.value.detail else ""
  }

  lemma {:induction false} ToolShown(p: Projected, call: string, name: string, detail: Option<string>,
      status: ToolStatus, s: State)
    requires Good(s) && p.state == s.(tools := p.state.tools)
    ensures Only(s, UpdateTool(p, ToolId(call), Some(name), detail, status).state,
                 Tool(ToolId(call), name, OrElse(detail, DetailOf(s.items, call)), status))
  {
    hide Only, AddItem;
    var items, i := s.items, FindItem(s.items, ToolId(call));
    assert forall k :: 0 <= k < |items| ==> Fits(items[k], s.next);
    var tool := Tool(ToolId(call), name, OrElse(detail, DetailOf(items, call)), status);
    if i < |items| {
      ReplacedOnly(s, UpdateTool(p, ToolId(call), Some(name), detail, status).state, i, tool);
    } else {
      AddedOnly(p, tool, s);
    }
  }

  /** A call that starts is shown as running, with its arguments if it has any. */
  lemma {:induction false} ToolStarts(s: State, call: string, name: string, arguments: Option<string>)
    requires Good(s)
    ensures var t := Do(s, Reported(ToolStart(call, name, arguments))).state;
            match arguments
            case Some(detail) => Only(s, t, Tool(ToolId(call), name, detail, ToolRunning))
            case None => Only(s, t, Tool(ToolId(call), name, DetailOf(s.items, call), ToolRunning))
  {
    hide Only, Good, UpdateTool;
    ToolShown(Projected(s, []), call, name, arguments, ToolRunning, s);
  }

  lemma {:induction false} ToolProgresses(s: State, call: string, name: string, detail: string)
    requires Good(s)
    ensures Only(s, Do(s, Reported(ToolProgress(call, name, detail))).state,
                 Tool(ToolId(call), name, detail, ToolRunning))
  {
    hide Only, Good, UpdateTool;
    ToolShown(Projected(s, []), call, name, Some(detail), ToolRunning, s);
  }

  /** A call that ends is shown with its result, as failed exactly if it is an error. */
  lemma {:induction false} ToolEnds(s: State, call: string, name: string, detail: string, isError: bool)
    requires Good(s)
    ensures var t := Do(s, Reported(ToolEnd(call, name, detail, isError))).state;
            && (isError ==> Only(s, t, Tool(ToolId(call), name, detail, ToolFailed)))
            && (!isError ==> Only(s, t, Tool(ToolId(call), name, detail, ToolSucceeded)))
  {
    hide Only, Good, UpdateTool;
    ToolShown(Projected(s, []), call, name, Some(detail), if isError then ToolFailed else ToolSucceeded, s);
  }

  lemma {:induction false} NewTool(p: Projected, item: Item)
    requires FindItem(p.state.items, item.id) < |p.state.items|
    ensures AddItem(p, item) == p
  {
  }

  /** A call that Pi begins to write is shown as running, unless it is shown already. */
  lemma {:induction false} CallStarts(s: State, c: nat, call: string, name: string, usage: Option<Tokens>)
    requires Good(s) && s.active.Some?
    ensures var t := Do(s, Reported(MessageUpdate(CallStart(c, call, name), usage))).state;
            && t.tools == s.tools[c := ToolId(call)]
            && match ToolIn(s.items, call)
               case None => Only(s, t, Tool(ToolId(call), name, "", ToolRunning))
               case Some(_) => t.items == s.items
  {
    hide Only, Good, FindItem, FirstQueued;
    var p, item := NoteCall(Projected(s, []), Some(c), call), Tool(ToolId(call), name, "", ToolRunning);
    if ToolIn(s.items, call).None? { AddedOnly(p, item, s); } else { NewTool(p, item); }
  }

  /** What is written of its arguments comes in pieces, each in the place of the last. */
  lemma {:induction false} CallGrows(s: State, c: nat, detail: string, usage: Option<Tokens>)
    requires Good(s) && s.active.Some?
    ensures var t := Do(s, Reported(MessageUpdate(CallGrew(c, detail), usage))).state;
            if c !in s.tools then t == s
            else match ToolIn(s.items, s.tools[c].call)
              case Some(tool) => Only(s, t, Tool(tool.id, tool.name, detail, ToolRunning))
              case None => Only(s, t, Tool(s.tools[c], "tool", detail, ToolRunning))
  {
    hide Only, AddItem;
    var p := Projected(s, []);
    assert forall k :: 0 <= k < |s.items| ==> Fits(s.items[k], s.next);
    if c in s.tools {
      var i, call := FindItem(s.items, s.tools[c]), s.tools[c].call;
      if i < |s.items| {
        ReplacedOnly(s, UpdateTool(p, s.tools[c], None, Some(detail), ToolRunning).state, i,
                     Tool(s.items[i].id, s.items[i].name, detail, ToolRunning));
      } else {
        AddedOnly(p, Tool(s.tools[c], "tool", detail, ToolRunning), s);
      }
    }
  }

  /** When it is written it is shown with its name and whole arguments. */
  lemma {:induction false} CallEnds(s: State, at: Option<nat>, call: string, name: string, detail: string,
      usage: Option<Tokens>)
    requires Good(s) && s.active.Some?
    ensures var t := Do(s, Reported(MessageUpdate(CallEnd(at, call, name, Some(detail)), usage))).state;
            && Only(s, t, Tool(ToolId(call), name, detail, ToolRunning))
            && t.tools == if at.Some? then s.tools[at.value := ToolId(call)] else s.tools
  {
    hide Only, Good, FindItem, FirstQueued;
    ToolShown(NoteCall(Projected(s, []), at, call), call, name, Some(detail), ToolRunning, s);
  }

  // ----- what an assistant says -----

  /** A piece of the message that streams starts empty, once, and grows by what is reported. */
  lemma {:induction false} SpeechStreams(s: State, c: nat, delta: string, usage: Option<Tokens>)
    requires Good(s) && s.active.Some?
    ensures var index := s.active.value;
            var t := Do(s, Reported(MessageUpdate(TextStart(c), usage))).state;
            var u := Do(s, Reported(MessageUpdate(ThinkingStart(c), usage))).state;
            && (if FindItem(s.items, TextId(index, c)) < |s.items| then t == s
                else Only(s, t, Message(TextId(index, c), false, Assistant, "")))
            && (if FindItem(s.items, ReasoningId(index, c)) < |s.items| then u == s
                else Only(s, u, Reasoning(ReasoningId(index, c), "")))
    ensures var index := s.active.value;
            var i, j := FindItem(s.items, TextId(index, c)), FindItem(s.items, ReasoningId(index, c));
            var t := Do(s, Reported(MessageUpdate(TextGrew(c, delta), usage))).state;
            var u := Do(s, Reported(MessageUpdate(ThinkingGrew(c, delta), usage))).state;
            && (i < |s.items| ==>
                  && s.items[i].Message?
                  && Only(s, t, Message(TextId(index, c), false, Assistant, s.items[i].text + delta)))
            && (j < |s.items| ==>
                  && s.items[j].Reasoning?
                  && Only(s, u, Reasoning(ReasoningId(index, c), s.items[j].text + delta)))
            && (i == |s.items| ==> t == s) && (j == |s.items| ==> u == s)
  {
    hide Only, AddItem;
    var p, index := Projected(s, []), s.active.value;
    var text, thought := Message(TextId(index, c), false, Assistant, ""), Reasoning(ReasoningId(index, c), "");
    var i, j := FindItem(s.items, text.id), FindItem(s.items, thought.id);
    assert forall k :: 0 <= k < |s.items| ==> Fits(s.items[k], s.next);
    if i == |s.items| {
      AddedOnly(p, text, s);
    } else {
      NewTool(p, text);
      ReplacedOnly(s, AppendText(p, text.id, delta, false).state, i, text.(text := s.items[i].text + delta));
    }
    if j == |s.items| {
      AddedOnly(p, thought, s);
    } else {
      NewTool(p, thought);
      ReplacedOnly(s, AppendText(p, thought.id, delta, true).state, j,
                   Reasoning(thought.id, s.items[j].text + delta));
    }
  }

  /** An item of the finished message: it is added if it is not shown; what was streamed of it is
      completed if it is a beginning of it, and left otherwise; usage is replaced, a tool kept. */
  lemma {:induction false} Completed(p: Projected, item: Item, i: nat)
    requires Good(p.state) && Fits(item, p.state.next) && (item.Message? ==> item.role == Assistant)
    ensures var s, t := p.state, ReconcileItem(p, item).state;
            && ((forall k :: 0 <= k < |s.items| ==> s.items[k].id != item.id) ==> Only(s, t, item))
            && (i < |s.items| && s.items[i].id == item.id ==>
                  match item
                  case Message(id, _, _, text) => s.items[i].Message?
                    && t.items == s.items[i := s.items[i].(text := if s.items[i].text <= text then text
                                                                   else s.items[i].text)]
                  case Reasoning(id, text) => s.items[i].Reasoning?
                    && t.items == s.items[i := s.items[i].(text := if s.items[i].text <= text then text
                                                                   else s.items[i].text)]
                  case Usage(id, tokens) => t.items == s.items[i := Usage(id, tokens)]
                  case Tool(_, _, _, _) => t.items == s.items)
  {
    hide Only, AddItem, Format, UsageIndex;
    var items := p.state.items;
    assert forall k :: 0 <= k < |items| ==> Fits(items[k], p.state.next);
    if FindItem(items, item.id) == |items| { AddedOnly(p, item, p.state); }
    if i < |items| && items[i].id == item.id {
      assert FindItem(items, item.id) == i;
      if item.Usage? { UsageIndexRoundTrip(item.id.index); }
      if item.Message? && items[i].text <= item.text { Rest(items[i].text, item.text); }
      if item.Reasoning? && items[i].text <= item.text { Rest(items[i].text, item.text); }
    }
  }

  lemma {:induction false} Rest(a: string, b: string)
    requires a <= b
    ensures a + b[|a|..] == b
  {
  }

  // ----- the turn -----

  /** Tools that were running are interrupted; nothing else changed. */
  ghost predicate OnlyHalted(items: seq<Item>, after: seq<Item>) {
    && |after| == |items|
    && forall i :: 0 <= i < |items| ==>
         if items[i].Tool? && items[i].status == ToolRunning
         then after[i] == Tool(items[i].id, items[i].name, items[i].detail, ToolInterrupted)
         else after[i] == items[i]
  }

  /** How a turn that ends is shown: by the reason its last message stopped for. */
  lemma {:induction false} TurnEnds(s: State, last: Option<Ending>)
    ensures var t := Do(s, Reported(AgentEnd(false, last))).state;
            && t.input.None? && t.active.None? && t.tools == map[] && t.pending == s.pending && t.next == s.next
            && (last == None || (last.value.stopReason != Some("aborted") && last.value.stopReason != Some("error")) ==>
                  t.phase == Idle && t.failure == None && t.items == s.items)
            && (last.Some? && last.value.stopReason == Some("aborted") ==>
                  t.phase == Interrupted && t.failure == Some(INTERRUPTED_TURN) && OnlyHalted(s.items, t.items))
            && (last.Some? && last.value.stopReason == Some("error") ==>
                  && t.phase == Failed && OnlyHalted(s.items, t.items)
                  && t.failure == Some(if last.value.errorMessage.Some? then last.value.errorMessage.value
                                       else FAILED_TURN))
  {
    hide HaltDeltas;
  }

  /** A turn that will be retried has not ended, one that is retried is shown as failed, and a
      start as running. */
  lemma {:induction false} TurnGoesOn(s: State, last: Option<Ending>, cause: Option<string>)
    ensures Do(s, Reported(AgentEnd(true, last))).state == s
    ensures var t := Do(s, Reported(AgentStart)).state;
            t == s.(phase := t.phase, failure := t.failure) && t.phase == Running && t.failure == None
    ensures var t := Do(s, Reported(AutoRetryStart(cause))).state;
            && t.phase == Failed && t.failure.Some? && t.active.None? && t.tools == map[]
            && OnlyHalted(s.items, t.items) && t.input == s.input && t.pending == s.pending
  {
    hide HaltDeltas, RetryMessage;
  }

  lemma {:induction false} RequestShown(s: State, request: InputRequest, requestId: string)
    ensures Do(s, Reported(UiRequest(Some(request)))).state == s.(input := Some(request))
    ensures Do(s, Answered(requestId)).state.input ==
              (if s.input.Some? && s.input.value.id == requestId then None else s.input)
    ensures Do(s, Answered(requestId)).state == s.(input := Do(s, Answered(requestId)).state.input)
  {
  }

  /** Stopped by the user, or by a runtime that is gone. */
  lemma {:induction false} TurnStops(s: State)
    ensures var t := Do(s, Stopping).state;
            t.phase == Stopped && t.failure == None && t.input == None && OnlyHalted(s.items, t.items)
            && t.pending == s.pending
    ensures var t := Do(s, Lost).state;
            && t.phase == Interrupted && t.failure == Some(RUNTIME_INTERRUPTED_TURN) && t.input == None
            && OnlyHalted(s.items, t.items) && t.pending == s.pending
  {
    hide HaltDeltas;
  }

  // ----- user messages -----

  /** A message that is sent is shown last, queued exactly if a turn is running. */
  lemma {:induction false} SendShown(s: State, text: string)
    requires Good(s)
    ensures var t := Do(s, Sent(text)).state;
            && t.items == s.items + [Message(MessageId(s.next), s.phase == Running, User, text)]
            && t.pending == s.pending + [Pending(MessageId(s.next), text)] && t.next == s.next + 1
            && t.phase == Running && t.failure == None && t.input == s.input
  {
    assert forall i :: 0 <= i < |s.items| ==> Fits(s.items[i], s.next);
  }

  /** One that Pi refuses is gone, if Pi has not started on it, and the turn it began has failed. */
  lemma {:induction false} RejectShown(s: State, id: ItemId, wasRunning: bool)
    requires Good(s)
    ensures var t := Do(s, Rejected(id, wasRunning)).state;
            && (wasRunning ==> t.phase == s.phase && t.failure == s.failure)
            && (!wasRunning ==> t.phase == Failed && t.failure == Some(REJECTED_PROMPT))
            && if forall j :: 0 <= j < |s.pending| ==> s.pending[j].id != id then
                 t.items == s.items && t.pending == s.pending
               else
                 t.items == Others(s.items, id) && forall j :: 0 <= j < |t.pending| ==> t.pending[j].id != id
  {
    var k, i := FindPending(s.pending, id), FindItem(s.items, id);
    if k < |s.pending| {
      var left := s.pending[..k] + s.pending[k + 1..];
      assert forall j :: 0 <= j < |left| ==> left[j] == s.pending[if j < k then j else j + 1];
      if i < |s.items| { OthersAre(s.items, i); } else { OthersNone(s.items, id); }
    }
  }

  lemma {:induction false} OthersNone(items: seq<Item>, id: ItemId)
    requires forall j :: 0 <= j < |items| ==> items[j].id != id
    ensures Others(items, id) == items
  {
    if items != [] { OthersNone(items[1..], id); }
  }

  lemma {:induction false} OthersAre(items: seq<Item>, i: nat)
    requires Distinct(items) && i < |items|
    ensures Others(items, items[i].id) == items[..i] + items[i + 1..]
  {
    hide Others;
    var id, a, b := items[i].id, items[..i], items[i + 1..];
    assert items == a + ([items[i]] + b);
    OthersJoin(a, [items[i]] + b, id);
    OthersJoin([items[i]], b, id);
    OthersOne(items[i]);
    OthersNone(a, id);
    OthersNone(b, id);
  }

  /** Pi starts on a message: on the one that waits, which is then not queued, or on one of its
      own. */
  lemma {:induction false} UserShown(s: State, text: string)
    requires Good(s)
    ensures var t := Do(s, Reported(MessageStart(UserMessage(Some(text))))).state;
            if s.pending != [] && s.pending[0].text == text then
              && t.pending == s.pending[1..] && t.next == s.next
              && Others(t.items, s.pending[0].id) == Others(s.items, s.pending[0].id)
              && forall i :: 0 <= i < |t.items| && t.items[i].id == s.pending[0].id ==>
                   t.items[i].Message? && !t.items[i].queued && t.items[i].(queued := s.items[i].queued) == s.items[i]
            else
              && t.pending == [] && t.next == s.next + 1
              && ShownOnce(t.items, Message(MessageId(s.next), false, User, text))
              && Others(t.items, MessageId(s.next)) == s.items
  {
    assert forall i :: 0 <= i < |s.items| ==> Fits(s.items[i], s.next);
    var p := Projected(s, []);
    if s.pending != [] && s.pending[0].text == text {
      var i := FindItem(s.items, s.pending[0].id);
      if i < |s.items| { OthersReplaced(s.items, i, s.items[i].(queued := false)); }
    } else {
      var item := Message(MessageId(s.next), false, User, text);
      var q := p.(state := s.(pending := [], next := s.next + 1));
      AddedOnly(q, item, q.state);
      OthersNone(s.items, item.id);
    }
  }
}
