/** Streaming agrees with rebuilding: for well-formed turns the messages, reasoning and usage
    items built event by event are those `Batch` rebuilds from the resulting history. Tools
    have their own agreement: see `ConversationTools`. */
module ConversationStreaming {
  import opened Options
  import opened ConversationTypes
  import opened ProjectionSteps
  import opened ConversationInvariants
  import opened ConversationHistory

  // ----- everything but tools -----

  function Spoken(items: seq<Item>): (r: seq<Item>)
    ensures forall i :: 0 <= i < |r| ==> r[i] in items && !r[i].Tool?
  {
    if items == [] then [] else (if items[0].Tool? then [] else [items[0]]) + Spoken(items[1..])
  }

  lemma {:induction false} SpokenCons(x: Item, rest: seq<Item>)
    ensures Spoken([x] + rest) == (if x.Tool? then [] else [x]) + Spoken(rest)
  {
    assert ([x] + rest)[1..] == rest;
  }

  lemma {:induction false} SpokenNone()
    ensures Spoken([]) == []
  {
  }

  lemma {:induction false} SpokenJoin(a: seq<Item>, b: seq<Item>)
    ensures Spoken(a + b) == Spoken(a) + Spoken(b)
  {
    hide Spoken;
    if a == [] {
      assert a + b == b;
      SpokenNone();
      assert Spoken(a) + Spoken(b) == Spoken(b);
    } else {
      SpokenJoin(a[1..], b);
      SpokenCons(a[0], a[1..]);
      SpokenCons(a[0], a[1..] + b);
      assert a == [a[0]] + a[1..] && a + b == [a[0]] + (a[1..] + b);
    }
  }

  lemma {:induction false} SpokenOne(item: Item)
    ensures Spoken([item]) == if item.Tool? then [] else [item]
  {
    assert [item][1..] == [];
  }

  lemma {:induction false} SpokenSame(a: seq<Item>, b: seq<Item>)
    requires |a| == |b| && forall i :: 0 <= i < |a| ==> a[i] == b[i] || (a[i].Tool? && b[i].Tool?)
    ensures Spoken(a) == Spoken(b)
  {
    if a != [] {
      assert a[0] == b[0] || (a[0].Tool? && b[0].Tool?);
      SpokenSame(a[1..], b[1..]);
    }
  }

  ghost predicate AllShaped(items: seq<Item>) {
    forall i :: 0 <= i < |items| ==> Shaped(items[i])
  }

  lemma {:induction false} FindCons(x: Item, rest: seq<Item>, id: ItemId)
    ensures FindItem([x] + rest, id) == if x.id == id then 0 else 1 + FindItem(rest, id)
  {
    assert ([x] + rest)[1..] == rest;
  }

  /** A message, reasoning or usage item is found among the spoken ones too. */
  lemma {:induction false} SpokenFind(items: seq<Item>, id: ItemId)
    requires AllShaped(items) && !id.ToolId?
    ensures var i, k := FindItem(items, id), FindItem(Spoken(items), id);
            && (i < |items| <==> k < |Spoken(items)|)
            && (i < |items| ==> Spoken(items)[k] == items[i])
    decreases |items|, 1
  {
    if items != [] {
      var x, rest := items[0], items[1..];
      assert items == [x] + rest;
      ShapedTool(x);
      SpokenFindRest(x, rest, id);
    }
  }

  lemma {:induction false} SpokenFindRest(x: Item, rest: seq<Item>, id: ItemId)
    requires AllShaped(rest) && !id.ToolId? && (x.Tool? <==> x.id.ToolId?)
    ensures var items := [x] + rest;
            var i, k := FindItem(items, id), FindItem(Spoken(items), id);
            && (i < |items| <==> k < |Spoken(items)|)
            && (i < |items| ==> Spoken(items)[k] == items[i])
    decreases |rest|, 2
  {
    hide FindItem, Spoken, Shaped;
    SpokenFind(rest, id);
    FindCons(x, rest, id);
    SpokenCons(x, rest);
    if x.Tool? {
      assert Spoken([x] + rest) == Spoken(rest);
    } else {
      FindCons(x, Spoken(rest), id);
    }
  }

  lemma {:induction false} SpokenReplace(items: seq<Item>, id: ItemId, item: Item)
    requires AllShaped(items) && !id.ToolId? && !item.Tool? && FindItem(items, id) < |items|
    ensures FindItem(Spoken(items), id) < |Spoken(items)|
    ensures Spoken(items[FindItem(items, id) := item]) == Spoken(items)[FindItem(Spoken(items), id) := item]
  {
    hide FindItem, Spoken;
    SpokenFind(items, id);
    var i, k := FindItem(items, id), FindItem(Spoken(items), id);
    var before, after := items[..i], items[i + 1..];
    assert items == before + [items[i]] + after;
    assert items[i := item] == before + [item] + after;
    ShapedTool(items[i]);
    SpokenParts(before, items[i], after);
    SpokenParts(before, item, after);
    SpokenMissing(before, id);
    var l := Spoken(before) + [items[i]] + Spoken(after);
    assert k == |Spoken(before)| by {
      assert l[|Spoken(before)|].id == id;
      assert forall j :: 0 <= j < |Spoken(before)| ==> l[j] == Spoken(before)[j];
    }
  }

  lemma {:induction false} SpokenParts(before: seq<Item>, item: Item, after: seq<Item>)
    requires !item.Tool?
    ensures Spoken(before + [item] + after) == Spoken(before) + [item] + Spoken(after)
  {
    hide Spoken;
    SpokenJoin(before + [item], after);
    SpokenJoin(before, [item]);
    SpokenOne(item);
  }

  lemma {:induction false} SpokenMissing(items: seq<Item>, id: ItemId)
    requires forall i :: 0 <= i < |items| ==> items[i].id != id
    ensures forall i :: 0 <= i < |Spoken(items)| ==> Spoken(items)[i].id != id
  {
    hide Spoken;
  }

  // ----- the projection's changes, seen on the spoken items -----

  /** Nobody is waiting in the queue, so new items go to the end. */
  ghost predicate NoQueue(items: seq<Item>) {
    forall i :: 0 <= i < |items| ==> !QueuedByUser(items[i])
  }

  ghost predicate Calm(items: seq<Item>) {
    AllShaped(items) && NoQueue(items)
  }

  function On(items: seq<Item>): Projected {
    Projected(Opened(items, Idle, None, 0), [])
  }

  lemma {:induction false} SpokenCalm(items: seq<Item>)
    requires Calm(items)
    ensures Calm(Spoken(items))
  {
  }

  lemma {:induction false} Appended(p: Projected, item: Item)
    requires NoQueue(p.state.items)
    ensures AddItem(p, item).state.items == if FindItem(p.state.items, item.id) < |p.state.items|
        then p.state.items else p.state.items + [item]
  {
    assert FirstQueued(p.state.items) == |p.state.items|;
  }

  lemma {:induction false} AddSpoken(p: Projected, item: Item)
    requires Calm(p.state.items) && Shaped(item) && !QueuedByUser(item)
    ensures Calm(AddItem(p, item).state.items)
    ensures Spoken(AddItem(p, item).state.items) ==
            if item.Tool? then Spoken(p.state.items) else AddItem(On(Spoken(p.state.items)), item).state.items
  {
    hide AddItem, Shaped, FindItem, Spoken;
    var items := p.state.items;
    Appended(p, item);
    SpokenCalm(items);
    Appended(On(Spoken(items)), item);
    SpokenJoin(items, [item]);
    SpokenOne(item);
    ShapedTool(item);
    if !item.Tool? { SpokenFind(items, item.id); }
  }

  lemma {:induction false} ShapedTool(item: Item)
    requires Shaped(item)
    ensures item.Tool? <==> item.id.ToolId?
  {
  }

  lemma {:induction false} ReplacedCalm(items: seq<Item>, i: nat, item: Item)
    requires Calm(items) && i < |items| && Shaped(item) && !QueuedByUser(item)
    ensures Calm(items[i := item])
  {
  }

  lemma {:induction false} AppendSpoken(p: Projected, id: ItemId, delta: string, reasoning: bool)
    requires Calm(p.state.items) && !id.ToolId?
    ensures Calm(AppendText(p, id, delta, reasoning).state.items)
    ensures Spoken(AppendText(p, id, delta, reasoning).state.items) ==
            AppendText(On(Spoken(p.state.items)), id, delta, reasoning).state.items
  {
    hide FindItem, Spoken;
    var items := p.state.items;
    var i := FindItem(items, id);
    SpokenFind(items, id);
    if i < |items| && (items[i].Message? || items[i].Reasoning?) {
      var item := items[i].(text := items[i].text + delta);
      assert Shaped(items[i]) && !QueuedByUser(items[i]);
      ReplacedCalm(items, i, item);
      SpokenReplace(items, id, item);
    }
  }

  lemma {:induction false} UsageSpoken(p: Projected, index: nat, tokens: Tokens)
    requires Calm(p.state.items)
    ensures Calm(ReconcileUsage(p, index, tokens).state.items)
    ensures Spoken(ReconcileUsage(p, index, tokens).state.items) ==
            ReconcileUsage(On(Spoken(p.state.items)), index, tokens).state.items
  {
    hide FindItem, Spoken, AddItem;
    var items, id := p.state.items, UsageId(index);
    var i := FindItem(items, id);
    SpokenFind(items, id);
    if i < |items| && items[i].Usage? {
      ReplacedCalm(items, i, items[i].(tokens := tokens));
      SpokenReplace(items, id, items[i].(tokens := tokens));
    } else {
      AddSpoken(p, Usage(id, tokens));
    }
  }

  lemma {:induction false} ToolSpoken(p: Projected, id: ItemId, name: Option<string>, detail: Option<string>,
      status: ToolStatus)
    requires Calm(p.state.items) && id.ToolId?
    ensures Calm(UpdateTool(p, id, name, detail, status).state.items)
    ensures Spoken(UpdateTool(p, id, name, detail, status).state.items) == Spoken(p.state.items)
  {
    hide FindItem, Spoken, AddItem;
    var items := p.state.items;
    var i := FindItem(items, id);
    if i < |items| && items[i].Tool? {
      var tool := Tool(items[i].id, OrElse(name, items[i].name), OrElse(detail, items[i].detail), status);
      ReplacedCalm(items, i, tool);
      SpokenSame(items[i := tool], items);
    } else {
      AddSpoken(p, Tool(id, OrElse(name, "tool"), OrElse(detail, ""), status));
    }
  }

  lemma {:induction false} ReconcileSpoken(p: Projected, item: Item)
    requires Calm(p.state.items) && Shaped(item) && !QueuedByUser(item)
    ensures Calm(ReconcileItem(p, item).state.items)
    ensures Spoken(ReconcileItem(p, item).state.items) ==
            if item.Tool? then Spoken(p.state.items) else ReconcileItem(On(Spoken(p.state.items)), item).state.items
  {
    hide FindItem, Spoken, AddItem, AppendText, ReconcileUsage, Format, UsageIndex, Calm, QueuedByUser;
    var items := p.state.items;
    var i := FindItem(items, item.id);
    CalmShaped(items);
    if !item.Tool? { SpokenFind(items, item.id); }
    if i == |items| {
      AddSpoken(p, item);
    } else {
      match (items[i], item) {
        case (Message(_, _, _, current), Message(_, _, _, final)) =>
          if current <= final { AppendSpoken(p, item.id, final[|current|..], false); }
        case (Reasoning(_, current), Reasoning(_, final)) =>
          if current <= final { AppendSpoken(p, item.id, final[|current|..], true); }
        case (Usage(_, _), Usage(_, tokens)) => UsageSpoken(p, UsageIndex(Format(item.id)), tokens);
        case _ =>
      }
    }
  }

  lemma {:induction false} CalmShaped(items: seq<Item>)
    requires Calm(items)
    ensures AllShaped(items)
  {
  }

  // ----- the pieces of a message -----

  /** A run of text or thinking at a position of an assistant message. */
  datatype Piece = Piece(content: nat, thinking: bool, text: string)

  function PieceId(index: nat, content: nat, thinking: bool): ItemId {
    if thinking then ReasoningId(index, content) else TextId(index, content)
  }

  function Render(index: nat, piece: Piece): Item {
    if piece.thinking then Reasoning(ReasoningId(index, piece.content), piece.text)
    else Message(TextId(index, piece.content), false, Assistant, piece.text)
  }

  ghost function Rendered(index: nat, pieces: seq<Piece>): seq<Item> {
    seq(|pieces|, i requires 0 <= i < |pieces| => Render(index, pieces[i]))
  }

  ghost function UsageItems(index: nat, usage: Option<Tokens>): seq<Item> {
    if usage.Some? then [Usage(UsageId(index), usage.value)] else []
  }

  /** The text and thinking of a message, each at its position. */
  ghost function Speech(content: seq<Part>): seq<Piece> {
    if content == [] then []
    else
      var k := |content| - 1;
      Speech(content[..k])
      + match content[k]
        case TextPart(text) => [Piece(k, false, text)]
        case ThinkingPart(text) => [Piece(k, true, text)]
        case _ => []
  }

  function FindPiece(pieces: seq<Piece>, content: nat, thinking: bool): (i: nat)
    ensures i <= |pieces|
    ensures i < |pieces| ==> pieces[i].content == content && pieces[i].thinking == thinking
    ensures forall j :: 0 <= j < i ==> !(pieces[j].content == content && pieces[j].thinking == thinking)
  {
    if pieces == [] || (pieces[0].content == content && pieces[0].thinking == thinking) then 0
    else 1 + FindPiece(pieces[1..], content, thinking)
  }

  function Begun(pieces: seq<Piece>, content: nat, thinking: bool): seq<Piece> {
    if FindPiece(pieces, content, thinking) < |pieces| then pieces else pieces + [Piece(content, thinking, "")]
  }

  function Grown(pieces: seq<Piece>, content: nat, thinking: bool, delta: string): seq<Piece> {
    var i := FindPiece(pieces, content, thinking);
    if i < |pieces| then pieces[i := Piece(content, thinking, pieces[i].text + delta)] else pieces
  }

  /** What has been streamed of a message after one more update. */
  function Track(pieces: seq<Piece>, update: Update): seq<Piece> {
    match update
    case TextStart(c) => Begun(pieces, c, false)
    case TextGrew(c, delta) => Grown(pieces, c, false, delta)
    case ThinkingStart(c) => Begun(pieces, c, true)
    case ThinkingGrew(c, delta) => Grown(pieces, c, true, delta)
    case _ => pieces
  }

  /** The streamed pieces are the first ones of the message, in order, each a prefix. */
  ghost predicate Fitting(pieces: seq<Piece>, whole: seq<Piece>) {
    && |pieces| <= |whole|
    && forall i :: 0 <= i < |pieces| ==>
         pieces[i].content == whole[i].content && pieces[i].thinking == whole[i].thinking
         && pieces[i].text <= whole[i].text
  }

  /** Reports that may come in the middle of a message. */
  predicate Passing(event: PiEvent) {
    match event
    case UiRequest(_) => true
    case AgentStart => true
    case ToolStart(_, _, _) => true
    case ToolProgress(_, _, _) => true
    case ToolEnd(_, _, _, _) => true
    case QueueUpdate(_) => true
    case MessageStart(message) => message.ToolResult? || message.OtherMessage?
    case MessageEnd(message) => !message.AssistantMessage?
    case OtherEvent => true
    case _ => false
  }

  /** The pieces start in order and never say more than the finished message; usage is
      reported once they have all started, and the finished message has some. */
  ghost predicate WellStreamed(pieces: seq<Piece>, events: seq<PiEvent>, content: seq<Part>, usage: Option<Tokens>)
    decreases |events|
  {
    && Fitting(pieces, Speech(content))
    && (events == [] ||
        match events[0]
        case MessageUpdate(update, reported) =>
          && (update.Finished? && reported.Some? ==> usage.Some? && |pieces| == |Speech(content)|)
          && WellStreamed(Track(pieces, update), events[1..], content, usage)
        case event => Passing(event) && WellStreamed(pieces, events[1..], content, usage))
  }

  // ----- while a message streams -----

  ghost predicate Before(base: seq<Item>, index: nat) {
    forall i :: 0 <= i < |base| ==> !base[i].id.ToolId? && base[i].id.index < index
  }

  ghost function Shown(base: seq<Item>, index: nat, pieces: seq<Piece>, usage: Option<Tokens>): seq<Item> {
    base + Rendered(index, pieces) + UsageItems(index, usage)
  }

  lemma {:induction false} FindShown(base: seq<Item>, index: nat, pieces: seq<Piece>, usage: Option<Tokens>,
      content: nat, thinking: bool)
    requires Before(base, index)
    ensures var items, i, k := Shown(base, index, pieces, usage), FindItem(Shown(base, index, pieces, usage),
        PieceId(index, content, thinking)),
                               FindPiece(pieces, content, thinking);
            if k < |pieces| then i == |base| + k && items[i] == Render(index, pieces[k]) else i == |items|
  {
    hide FindItem, FindPiece;
    var items, id, k := Shown(base, index, pieces, usage), PieceId(index, content, thinking), FindPiece(pieces,
        content, thinking);
    forall j | 0 <= j < |items|
      ensures items[j].id == id <==>
          |base| <= j < |base| + |pieces| && pieces[j - |base|].content == content
          && pieces[j - |base|].thinking == thinking
    {
      if j < |base| {
        assert items[j] == base[j];
      } else if j < |base| + |pieces| {
        assert items[j] == Render(index, pieces[j - |base|]);
      }
    }
    if k < |pieces| {
      assert items[|base| + k].id == id;
    }
  }

  lemma {:induction false} FindUsage(base: seq<Item>, index: nat, pieces: seq<Piece>, usage: Option<Tokens>)
    requires Before(base, index)
    ensures var items := Shown(base, index, pieces, usage);
            FindItem(items, UsageId(index)) == |base| + |pieces|
            && (usage.Some? ==> items[|base| + |pieces|] == Usage(UsageId(index), usage.value))
            && (usage.None? ==> |items| == |base| + |pieces|)
  {
    hide FindItem;
    var items := Shown(base, index, pieces, usage);
    forall j | 0 <= j < |base| + |pieces|
      ensures items[j].id != UsageId(index)
    {
      if j < |base| { assert items[j] == base[j]; } else { assert items[j] == Render(index, pieces[j - |base|]); }
    }
    if usage.Some? { assert items[|base| + |pieces|].id == UsageId(index); }
  }

  /** `s` is streaming message `index` after `base`. */
  ghost predicate Streaming(s: State, index: nat, base: seq<Item>, pieces: seq<Piece>, usage: Option<Tokens>) {
    && s.active == Some(index) && s.next == index + 1 && s.pending == []
    && Calm(s.items) && Good(s)
    && Before(base, index)
    && Spoken(s.items) == Shown(base, index, pieces, usage)
  }

  lemma {:induction false} BeginShown(base: seq<Item>, index: nat, pieces: seq<Piece>, usage: Option<Tokens>,
      content: nat, thinking: bool, text: string)
    requires Before(base, index) && NoQueue(Shown(base, index, pieces, usage))
    requires usage.Some? ==> FindPiece(pieces, content, thinking) < |pieces|
    ensures AddItem(On(Shown(base, index, pieces, usage)), Render(index, Piece(content, thinking, text))).state.items ==
            Shown(base, index, if FindPiece(pieces, content, thinking) < |pieces| then pieces
                else pieces + [Piece(content, thinking, text)], usage)
  {
    hide AddItem, FindItem, FindPiece, NoQueue;
    var items, item := Shown(base, index, pieces, usage), Render(index, Piece(content, thinking, text));
    FindShown(base, index, pieces, usage, content, thinking);
    Appended(On(items), item);
    if FindPiece(pieces, content, thinking) == |pieces| {
      assert Rendered(index, pieces + [Piece(content, thinking, text)]) == Rendered(index, pieces) + [item];
      assert items + [item] == Shown(base, index, pieces + [Piece(content, thinking, text)], usage);
    }
  }

  lemma {:induction false} GrowShown(base: seq<Item>, index: nat, pieces: seq<Piece>, usage: Option<Tokens>,
      content: nat, thinking: bool, delta: string)
    requires Before(base, index)
    ensures AppendText(On(Shown(base, index, pieces, usage)), PieceId(index, content, thinking), delta, thinking)
              .state.items ==
            Shown(base, index, Grown(pieces, content, thinking, delta), usage)
  {
    hide FindItem, FindPiece;
    var items, k := Shown(base, index, pieces, usage), FindPiece(pieces, content, thinking);
    FindShown(base, index, pieces, usage, content, thinking);
    if k < |pieces| {
      var piece := Piece(content, thinking, pieces[k].text + delta);
      assert Rendered(index, pieces[k := piece]) == Rendered(index, pieces)[k := Render(index, piece)];
      assert items[|base| + k := Render(index, piece)] == Shown(base, index, pieces[k := piece], usage);
    }
  }

  lemma {:induction false} UsageShown(base: seq<Item>, index: nat, pieces: seq<Piece>, usage: Option<Tokens>,
      tokens: Tokens)
    requires Before(base, index) && NoQueue(Shown(base, index, pieces, usage))
    ensures ReconcileUsage(On(Shown(base, index, pieces, usage)), index, tokens).state.items ==
            Shown(base, index, pieces, Some(tokens))
  {
    hide FindItem, AddItem, NoQueue;
    var items := Shown(base, index, pieces, usage);
    FindUsage(base, index, pieces, usage);
    Appended(On(items), Usage(UsageId(index), tokens));
    if usage.Some? {
      assert items[|base| + |pieces| := Usage(UsageId(index), tokens)] == Shown(base, index, pieces, Some(tokens));
    } else {
      assert items + [Usage(UsageId(index), tokens)] == Shown(base, index, pieces, Some(tokens));
    }
  }

  // ----- one report while a message streams -----

  lemma {:induction false} UpdateShape(p: Projected, index: nat, update: Update, reported: Option<Tokens>)
    ensures var s := Streamed(p, index, update, reported).state;
            s.active == p.state.active && s.next == p.state.next && s.pending == p.state.pending
  {
    hide FindItem, FirstQueued;
  }

  lemma {:induction false} UpdateSpoken(s: State, index: nat, base: seq<Item>, pieces: seq<Piece>,
      usage: Option<Tokens>, update: Update, reported: Option<Tokens>)
    requires Streaming(s, index, base, pieces, usage)
    requires usage.Some? ==> |Track(pieces, update)| == |pieces|
    ensures var items := Streamed(Projected(s, []), index, update, reported).state.items;
            && Calm(items)
            && Spoken(items) == Shown(base, index, Track(pieces, update), if update.Finished? && reported.Some?
                then reported else usage)
  {
    hide Calm, Good, AddItem, AppendText, UpdateTool, ReconcileUsage, Shown, Spoken, FindPiece, Before;
    var p := Projected(s, []);
    CalmShown(s.items);
    match update {
      case TextStart(c) =>
        AddSpoken(p, Message(TextId(index, c), false, Assistant, ""));
        BeginShown(base, index, pieces, usage, c, false, "");
      case TextGrew(c, delta) =>
        AppendSpoken(p, TextId(index, c), delta, false);
        GrowShown(base, index, pieces, usage, c, false, delta);
      case ThinkingStart(c) =>
        AddSpoken(p, Reasoning(ReasoningId(index, c), ""));
        BeginShown(base, index, pieces, usage, c, true, "");
      case ThinkingGrew(c, delta) =>
        AppendSpoken(p, ReasoningId(index, c), delta, true);
        GrowShown(base, index, pieces, usage, c, true, delta);
      case CallStart(c, call, name) => AddSpoken(NoteCall(p, Some(c), call), Tool(ToolId(call), name, "", ToolRunning));
      case CallGrew(c, delta) =>
        GoodTools(s);
        if c in s.tools { ToolSpoken(p, s.tools[c], None, Some(delta), ToolRunning); }
      case CallEnd(at, call, name, arguments) => ToolSpoken(NoteCall(p, at, call), ToolId(call), Some(name), arguments,
          ToolRunning);
      case Finished =>
        if reported.Some? {
          UsageSpoken(p, index, reported.value);
          UsageShown(base, index, pieces, usage, reported.value);
        }
      case OtherUpdate =>
    }
  }

  lemma {:induction false} GoodTools(s: State)
    requires Good(s)
    ensures forall c :: c in s.tools ==> s.tools[c].ToolId?
    ensures s.active.Some? ==> s.active.value < s.next
  {
  }

  lemma {:induction false} CalmShown(items: seq<Item>)
    requires Calm(items)
    ensures NoQueue(Spoken(items))
  {
    hide Spoken;
  }

  lemma {:induction false} UpdateStreams(s: State, index: nat, base: seq<Item>, pieces: seq<Piece>,
      usage: Option<Tokens>, update: Update, reported: Option<Tokens>)
    requires Streaming(s, index, base, pieces, usage)
    requires usage.Some? ==> |Track(pieces, update)| == |pieces|
    ensures Streaming(Project(s, MessageUpdate(update, reported)).state, index, base, Track(pieces, update),
                      if update.Finished? && reported.Some? then reported else usage)
  {
    hide Calm, Good, Streamed, Track, Shown, Spoken, Before;
    UpdateSpoken(s, index, base, pieces, usage, update, reported);
    UpdateShape(Projected(s, []), index, update, reported);
    StreamedKeeps(s, index, update, reported);
  }

  /** With nothing pending and nothing queued a queue update changes no item. */
  lemma {:induction false} QueueIdle(s: State, steering: nat)
    requires s.pending == [] && Calm(s.items)
    ensures Project(s, QueueUpdate(steering)).state.items == s.items
  {
    var wanted := Waiting(s.pending, steering);
    assert forall i :: 0 <= i < |s.items| ==> Shaped(s.items[i]) && !QueuedByUser(s.items[i]);
    assert forall i :: 0 <= i < |s.items| ==> Requeued(s.items[i], wanted) == s.items[i];
  }

  lemma {:induction false} PassingSpoken(s: State, event: PiEvent)
    requires Passing(event) && s.pending == [] && Calm(s.items)
    ensures var t := Project(s, event).state;
            && Calm(t.items) && Spoken(t.items) == Spoken(s.items)
            && t.active == s.active && t.next == s.next && t.pending == []
  {
    hide Calm, Spoken, FindItem, FirstQueued, QueueDeltas, Waiting, Requeued, UpdateTool;
    var p := Projected(s, []);
    match event {
      case ToolStart(call, name, arguments) =>
        ToolSpoken(p, ToolId(call), Some(name), arguments, ToolRunning);
        ToolShape(p, ToolId(call), Some(name), arguments, ToolRunning);
      case ToolProgress(call, name, detail) =>
        ToolSpoken(p, ToolId(call), Some(name), Some(detail), ToolRunning);
        ToolShape(p, ToolId(call), Some(name), Some(detail), ToolRunning);
      case ToolEnd(call, name, detail, isError) =>
        var status := if isError then ToolFailed else ToolSucceeded;
        ToolSpoken(p, ToolId(call), Some(name), Some(detail), status);
        ToolShape(p, ToolId(call), Some(name), Some(detail), status);
      case QueueUpdate(steering) => QueueIdle(s, steering);
      case _ =>
    }
  }

  lemma {:induction false} ToolShape(p: Projected, id: ItemId, name: Option<string>, detail: Option<string>,
      status: ToolStatus)
    ensures UpdateTool(p, id, name, detail, status).state == p.state.(items := UpdateTool(p, id, name, detail,
        status).state.items)
  {
    hide FindItem, FirstQueued;
  }

  lemma {:induction false} PassingStreams(s: State, index: nat, base: seq<Item>, pieces: seq<Piece>,
      usage: Option<Tokens>, event: PiEvent)
    requires Streaming(s, index, base, pieces, usage) && Passing(event)
    ensures Streaming(Project(s, event).state, index, base, pieces, usage)
  {
    hide Calm, Good, Project, Shown, Spoken, Before;
    PassingSpoken(s, event);
    ProjectKeeps(s, event);
  }

  /** The reports of one message, one after the other. */
  ghost function Reports(events: seq<PiEvent>): seq<Action> {
    seq(|events|, i requires 0 <= i < |events| => Reported(events[i]))
  }

  lemma {:induction false} FittingLength(pieces: seq<Piece>, events: seq<PiEvent>, content: seq<Part>,
      usage: Option<Tokens>)
    requires WellStreamed(pieces, events, content, usage) && events != [] && events[0].MessageUpdate?
    requires |pieces| == |Speech(content)|
    ensures |Track(pieces, events[0].update)| == |pieces|
  {
    assert Fitting(Track(pieces, events[0].update), Speech(content));
  }

  lemma {:induction false} MessageStreams(s: State, index: nat, base: seq<Item>, pieces: seq<Piece>,
      seen: Option<Tokens>, events: seq<PiEvent>, content: seq<Part>, usage: Option<Tokens>)
    returns (end: seq<Piece>, reported: Option<Tokens>)
    requires Streaming(s, index, base, pieces, seen) && WellStreamed(pieces, events, content, usage)
    requires seen.Some? ==> usage.Some? && |pieces| == |Speech(content)|
    ensures Streaming(After(s, Reports(events)), index, base, end, reported) && Fitting(end, Speech(content))
    ensures reported.Some? ==> usage.Some? && |end| == |Speech(content)|
    decreases |events|
  {
    hide Streaming, Fitting, Speech, Track, Project;
    if events == [] {
      end, reported := pieces, seen;
    } else {
      var t := Project(s, events[0]).state;
      AfterFirst(s, events);
      match events[0] {
        case MessageUpdate(update, told) =>
          if |pieces| == |Speech(content)| { FittingLength(pieces, events, content, usage); }
          UpdateStreams(s, index, base, pieces, seen, update, told);
          end, reported := MessageStreams(t, index, base, Track(pieces, update),
                                          if update.Finished? && told.Some? then told else seen,
                                          events[1..], content, usage);
        case event =>
          PassingStreams(s, index, base, pieces, seen, event);
          end, reported := MessageStreams(t, index, base, pieces, seen, events[1..], content, usage);
      }
    }
  }

  lemma {:induction false} AfterOne(s: State, action: Action)
    ensures After(s, [action]) == Do(s, action).state
  {
    assert [action][..0] == [];
    assert After(s, []) == s;
  }

  lemma {:induction false} AfterFirst(s: State, events: seq<PiEvent>)
    requires events != []
    ensures After(s, Reports(events)) == After(Project(s, events[0]).state, Reports(events[1..]))
  {
    hide Project;
    assert Reports(events) == [Reported(events[0])] + Reports(events[1..]);
    AfterJoin(s, [Reported(events[0])], Reports(events[1..]));
    AfterOne(s, Reported(events[0]));
  }

  // ----- the start of a message -----

  lemma {:induction false} SpeechWithin(content: seq<Part>)
    ensures forall i :: 0 <= i < |Speech(content)| ==> Speech(content)[i].content < |content|
    ensures forall i, j :: 0 <= i < j < |Speech(content)| ==> Speech(content)[i].content < Speech(content)[j].content
  {
    if content != [] {
      SpeechWithin(content[..|content| - 1]);
    }
  }

  lemma {:induction false} AddAllShape(p: Projected, added: seq<Item>)
    ensures AddAll(p, added).state == p.state.(items := AddAll(p, added).state.items)
  {
    hide FindItem, FirstQueued;
    if added != [] { AddAllShape(p, added[..|added| - 1]); }
  }

  lemma {:induction false} AddAllMore(p: Projected, added: seq<Item>, more: Option<Item>)
    ensures AddAll(p, added + ToSeq(more)) == if more.Some? then AddItem(AddAll(p, added), more.value) else AddAll(p,
        added)
  {
    hide AddItem;
    if more.Some? {
      assert (added + [more.value])[..|added|] == added;
    } else {
      assert added + [] == added;
    }
  }

  lemma {:induction false} StartShown(p: Projected, index: nat, base: seq<Item>, content: seq<Part>)
    requires Calm(p.state.items) && Spoken(p.state.items) == base && Before(base, index)
    ensures Calm(AddAll(p, PartItems(content, index)).state.items)
    ensures Spoken(AddAll(p, PartItems(content, index)).state.items) == Shown(base, index, Speech(content), None)
  {
    hide Calm, Before, AddItem, Spoken;
    if content == [] {
      assert Shown(base, index, [], None) == base;
    } else {
      var k := |content| - 1;
      var init := content[..k];
      StartShown(p, index, base, init);
      AddAllMore(p, PartItems(init, index), PartItem(content[k], index, k));
      StartOne(AddAll(p, PartItems(init, index)), index, base, content);
    }
  }

  lemma {:induction false} StartOne(q: Projected, index: nat, base: seq<Item>, content: seq<Part>)
    requires content != [] && Calm(q.state.items) && Before(base, index)
    requires Spoken(q.state.items) == Shown(base, index, Speech(content[..|content| - 1]), None)
    ensures var more := PartItem(content[|content| - 1], index, |content| - 1);
            var r := if more.Some? then AddItem(q, more.value) else q;
            Calm(r.state.items) && Spoken(r.state.items) == Shown(base, index, Speech(content), None)
  {
    hide Calm, Before, AddItem, Spoken, Shown, FindPiece;
    var k := |content| - 1;
    var init := content[..k];
    SpeechWithin(init);
    CalmShown(q.state.items);
    match content[k] {
      case TextPart(text) =>
        AddSpoken(q, Message(TextId(index, k), false, Assistant, text));
        BeginShown(base, index, Speech(init), None, k, false, text);
      case ThinkingPart(text) =>
        AddSpoken(q, Reasoning(ReasoningId(index, k), text));
        BeginShown(base, index, Speech(init), None, k, true, text);
      case CallPart(call, name, detail) =>
        assert Speech(content) == Speech(init);
        AddSpoken(q, Tool(ToolId(call), name, detail, ToolRunning));
      case OtherPart =>
        assert Speech(content) == Speech(init);
    }
  }

  lemma {:induction false} Starts(s: State, content: seq<Part>, usage: Option<Tokens>)
    requires Good(s) && Calm(s.items) && s.pending == []
    ensures Streaming(Project(s, MessageStart(AssistantMessage(content, usage))).state, s.next, Spoken(s.items),
        Speech(content), None)
  {
    hide Calm, AddAll, PartItems, Speech, Good, Shown, Spoken;
    var t := s.(next := s.next + 1, active := Some(s.next), tools := map[]);
    var p := Projected(t, []);
    ProjectKeeps(s, MessageStart(AssistantMessage(content, usage)));
    BaseBefore(s);
    StartShown(p, s.next, Spoken(s.items), content);
    assert AssistantItems(content, None, s.next, false) == PartItems(content, s.next);
    AddAllShape(p, PartItems(content, s.next));
  }

  lemma {:induction false} BaseBefore(s: State)
    requires Good(s)
    ensures Before(Spoken(s.items), s.next)
  {
    hide Spoken;
    forall i | 0 <= i < |Spoken(s.items)|
      ensures !Spoken(s.items)[i].id.ToolId? && Spoken(s.items)[i].id.index < s.next
    {
      var k :| 0 <= k < |s.items| && s.items[k] == Spoken(s.items)[i];
      assert Fits(s.items[k], s.next);
    }
  }

  // ----- the end of a message -----

  /** The pieces once the first ones have been brought up to `done`. */
  function Merged(pieces: seq<Piece>, done: seq<Piece>): seq<Piece> {
    done + if |done| < |pieces| then pieces[|done|..] else []
  }

  lemma {:induction false} ReconcileAllShape(p: Projected, final: seq<Item>)
    ensures ReconcileAll(p, final).state == p.state.(items := ReconcileAll(p, final).state.items)
  {
    hide FindItem, FirstQueued, Format, UsageIndex;
    if final != [] { ReconcileAllShape(p, final[..|final| - 1]); }
  }

  lemma {:induction false} ReconcileAllMore(p: Projected, final: seq<Item>, more: Option<Item>)
    ensures ReconcileAll(p, final + ToSeq(more)) == if more.Some?
        then ReconcileItem(ReconcileAll(p, final), more.value) else ReconcileAll(p, final)
  {
    hide ReconcileItem;
    if more.Some? {
      assert (final + [more.value])[..|final|] == final;
    } else {
      assert final + [] == final;
    }
  }

  /** Where the next piece is, in pieces that are ordered like `whole`. */
  lemma {:induction false} FindMerged(pieces: seq<Piece>, whole: seq<Piece>, k: nat)
    requires Fitting(pieces, whole) && k < |whole|
    requires forall i, j :: 0 <= i < j < |whole| ==> whole[i].content < whole[j].content
    ensures var merged := Merged(pieces, whole[..k]);
            FindPiece(merged, whole[k].content, whole[k].thinking) == if k < |pieces| then k else |merged|
  {
    hide FindPiece;
    var merged := Merged(pieces, whole[..k]);
    forall i | 0 <= i < |merged|
      ensures merged[i].content == whole[i].content && merged[i].thinking == whole[i].thinking
    {
      if i >= k { assert merged[i] == pieces[i]; }
    }
  }

  lemma {:induction false} ReconcilePiece(base: seq<Item>, index: nat, pieces: seq<Piece>, usage: Option<Tokens>,
      whole: seq<Piece>, k: nat)
    requires Before(base, index) && Fitting(pieces, whole) && k < |whole|
    requires forall i, j :: 0 <= i < j < |whole| ==> whole[i].content < whole[j].content
    requires usage.Some? ==> |pieces| == |whole|
    requires NoQueue(Shown(base, index, Merged(pieces, whole[..k]), usage))
    ensures ReconcileItem(On(Shown(base, index, Merged(pieces, whole[..k]), usage)),
                          Render(index, whole[k])).state.items ==
            Shown(base, index, Merged(pieces, whole[..k + 1]), usage)
  {
    hide FindItem, FindPiece, Before, NoQueue, AddItem, AppendText, Shown, Format, UsageIndex;
    var merged := Merged(pieces, whole[..k]);
    var p := On(Shown(base, index, merged, usage));
    FindMerged(pieces, whole, k);
    FindShown(base, index, merged, usage, whole[k].content, whole[k].thinking);
    ShownLength(base, index, merged, usage);
    if k < |pieces| {
      assert merged[k] == pieces[k];
      var rest := whole[k].text[|pieces[k].text|..];
      assert pieces[k].text + rest == whole[k].text;
      GrowShown(base, index, merged, usage, whole[k].content, whole[k].thinking, rest);
      assert merged[k := whole[k]] == Merged(pieces, whole[..k + 1]);
    } else {
      BeginShown(base, index, merged, usage, whole[k].content, whole[k].thinking, whole[k].text);
      assert merged + [whole[k]] == Merged(pieces, whole[..k + 1]);
    }
  }

  lemma {:induction false} SpeechPrefix(content: seq<Part>, k: nat)
    requires k <= |content|
    ensures Speech(content[..k]) <= Speech(content)
    decreases |content|
  {
    if k < |content| {
      SpeechPrefix(content[..|content| - 1], k);
      assert content[..|content| - 1][..k] == content[..k];
    } else {
      assert content[..k] == content;
    }
  }

  lemma {:induction false} EndShown(p: Projected, index: nat, base: seq<Item>, pieces: seq<Piece>,
      usage: Option<Tokens>, content: seq<Part>, k: nat)
    requires Calm(p.state.items) && Spoken(p.state.items) == Shown(base, index, pieces, usage) && Before(base, index)
    requires k <= |content| && Fitting(pieces, Speech(content)) && (usage.Some? ==> |pieces| == |Speech(content)|)
    ensures var q := ReconcileAll(p, PartItems(content[..k], index));
            && Calm(q.state.items)
            && Spoken(q.state.items) == Shown(base, index, Merged(pieces, Speech(content[..k])), usage)
    decreases k
  {
    hide Calm, Before, ReconcileItem, Shown, Spoken, Fitting, PartItem, Merged;
    if k == 0 {
      assert Merged(pieces, []) == pieces by { MergedNone(pieces); }
    } else {
      var init := content[..k - 1];
      assert content[..k][..k - 1] == init;
      EndShown(p, index, base, pieces, usage, content, k - 1);
      var q := ReconcileAll(p, PartItems(init, index));
      ReconcileAllMore(p, PartItems(init, index), PartItem(content[k - 1], index, k - 1));
      SpeechPrefix(content, k);
      SpeechWithin(content);
      CalmShown(q.state.items);
      var whole, n := Speech(content), |Speech(init)|;
      assert Speech(init) == whole[..n] by { SpeechPrefix(content, k - 1); }
      EndOne(q, index, base, pieces, usage, content, k - 1);
    }
  }

  lemma {:induction false} MergedNone(pieces: seq<Piece>)
    ensures Merged(pieces, []) == pieces
  {
  }

  lemma {:induction false} EndOne(q: Projected, index: nat, base: seq<Item>, pieces: seq<Piece>,
      usage: Option<Tokens>, content: seq<Part>, k: nat)
    requires k < |content| && Calm(q.state.items) && Before(base, index)
    requires Spoken(q.state.items) == Shown(base, index, Merged(pieces, Speech(content[..k])), usage)
    requires NoQueue(Spoken(q.state.items))
    requires Fitting(pieces, Speech(content)) && (usage.Some? ==> |pieces| == |Speech(content)|)
    requires Speech(content[..k + 1]) <= Speech(content) && Speech(content[..k]) <= Speech(content)
    requires forall i, j :: 0 <= i < j < |Speech(content)| ==> Speech(content)[i].content < Speech(content)[j].content
    ensures var part := PartItem(content[k], index, k);
            var r := if part.Some? then ReconcileItem(q, part.value) else q;
            && Calm(r.state.items)
            && Spoken(r.state.items) == Shown(base, index, Merged(pieces, Speech(content[..k + 1])), usage)
  {
    hide Calm, Before, ReconcileItem, Shown, Spoken, Fitting, Merged, NoQueue;
    var whole, n := Speech(content), |Speech(content[..k])|;
    assert content[..k + 1][..k] == content[..k];
    assert Speech(content[..k]) == whole[..n];
    match content[k] {
      case TextPart(text) =>
        assert Speech(content[..k + 1]) == whole[..n] + [Piece(k, false, text)] == whole[..n + 1];
        ReconcileSpoken(q, Message(TextId(index, k), false, Assistant, text));
        ReconcilePiece(base, index, pieces, usage, whole, n);
      case ThinkingPart(text) =>
        assert Speech(content[..k + 1]) == whole[..n] + [Piece(k, true, text)] == whole[..n + 1];
        ReconcileSpoken(q, Reasoning(ReasoningId(index, k), text));
        ReconcilePiece(base, index, pieces, usage, whole, n);
      case CallPart(call, name, detail) =>
        assert Speech(content[..k + 1]) == whole[..n];
        ReconcileSpoken(q, Tool(ToolId(call), name, detail, ToolRunning));
      case OtherPart =>
        assert Speech(content[..k + 1]) == whole[..n];
    }
  }

  lemma {:induction false} UsageEnd(q: Projected, index: nat, base: seq<Item>, pieces: seq<Piece>,
      seen: Option<Tokens>, tokens: Tokens)
    requires Calm(q.state.items) && Spoken(q.state.items) == Shown(base, index, pieces, seen) && Before(base, index)
    ensures Calm(ReconcileItem(q, Usage(UsageId(index), tokens)).state.items)
    ensures Spoken(ReconcileItem(q, Usage(UsageId(index), tokens)).state.items) ==
            Shown(base, index, pieces, Some(tokens))
  {
    hide Calm, Before, Shown, Spoken, AddItem, AppendText, FindItem, Format, UsageIndex;
    ReconcileSpoken(q, Usage(UsageId(index), tokens));
    CalmShown(q.state.items);
    FindUsage(base, index, pieces, seen);
    UsageShown(base, index, pieces, seen, tokens);
    UsageIndexRoundTrip(index);
    ShownLength(base, index, pieces, seen);
  }

  lemma {:induction false} ShownLength(base: seq<Item>, index: nat, pieces: seq<Piece>, usage: Option<Tokens>)
    ensures |Shown(base, index, pieces, usage)| == |base| + |pieces| + if usage.Some? then 1 else 0
  {
  }

  /** The finished message: every piece is complete, and its usage is there if it has one. */
  lemma {:induction false} Ends(s: State, index: nat, base: seq<Item>, pieces: seq<Piece>, seen: Option<Tokens>,
      content: seq<Part>, usage: Option<Tokens>)
    requires Streaming(s, index, base, pieces, seen) && Fitting(pieces, Speech(content))
    requires seen.Some? ==> usage.Some? && |pieces| == |Speech(content)|
    ensures var t := Project(s, MessageEnd(AssistantMessage(content, usage))).state;
            && Good(t) && Calm(t.items) && t.next == index + 1 && t.pending == []
            && Spoken(t.items) == Shown(base, index, Speech(content), usage)
  {
    hide Calm, ReconcileAll, PartItems, Speech, Good, Shown, Spoken, Fitting, ReconcileItem, Before;
    var p := Projected(s, []);
    ProjectKeeps(s, MessageEnd(AssistantMessage(content, usage)));
    EndShown(p, index, base, pieces, seen, content, |content|);
    assert content[..|content|] == content;
    assert Merged(pieces, Speech(content)) == Speech(content) by { MergedAll(pieces, content); }
    var q := ReconcileAll(p, PartItems(content, index));
    var last := if usage.Some? then Some(Usage(UsageId(index), usage.value)) else None;
    ReconcileAllMore(p, PartItems(content, index), last);
    assert AssistantItems(content, usage, index, true) == PartItems(content, index) + ToSeq(last);
    ReconcileAllShape(p, AssistantItems(content, usage, index, true));
    if usage.Some? {
      UsageEnd(q, index, base, Speech(content), seen, usage.value);
    }
  }

  lemma {:induction false} MergedAll(pieces: seq<Piece>, content: seq<Part>)
    requires Fitting(pieces, Speech(content))
    ensures Merged(pieces, Speech(content)) == Speech(content)
  {
  }

  // ----- a message of the history -----

  lemma {:induction false} SpokenSpeech(content: seq<Part>, index: nat)
    ensures Spoken(PartItems(content, index)) == Rendered(index, Speech(content))
  {
    hide Spoken;
    if content == [] {
      SpokenNone();
    } else {
      var k := |content| - 1;
      SpokenSpeech(content[..k], index);
      SpokenJoin(PartItems(content[..k], index), ToSeq(PartItem(content[k], index, k)));
      if PartItem(content[k], index, k).Some? {
        SpokenOne(PartItem(content[k], index, k).value);
      } else {
        SpokenNone();
      }
    }
  }

  lemma {:induction false} SpokenMessage(content: seq<Part>, usage: Option<Tokens>, index: nat)
    ensures Spoken(AssistantItems(content, usage, index, true)) ==
            Rendered(index, Speech(content)) + UsageItems(index, usage)
  {
    hide Spoken, PartItems, Speech;
    SpokenSpeech(content, index);
    SpokenJoin(PartItems(content, index), UsageItems(index, usage));
    if usage.Some? { SpokenOne(Usage(UsageId(index), usage.value)); } else { SpokenNone(); }
  }
}
