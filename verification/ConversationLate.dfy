/** Commands change the conversation under one lock and stamp their events under another: what
    Pi reports in between is stamped first. When that order still leaves a client showing what
    the host shows. */
module ConversationLate {
  import opened Options
  import opened Sequences
  import opened ConversationTypes
  import opened ProjectionSteps
  import opened ConversationInvariants
  import opened ConversationReplay
  import opened ConversationSync

  // ----- what a report says of an older user message -----

  ghost predicate Has(items: seq<Item>, id: ItemId) {
    exists i :: 0 <= i < |items| && items[i].id == id
  }

  /** The delta removes nothing and does not add `id`; if it adds something in front of it, it
      is there. */
  predicate Quiet(d: Delta, id: ItemId, there: bool) {
    !d.ItemRemoved? && (d.ItemAdded? ==> d.item.id != id && (d.before == Some(id) ==> there))
  }

  ghost predicate Silent(p: Projected, q: Projected, id: ItemId) {
    && p.emitted <= q.emitted
    && (forall i :: |p.emitted| <= i < |q.emitted| ==> Quiet(q.emitted[i], id, Has(p.state.items, id)))
    && (Has(q.state.items, id) <==> Has(p.state.items, id))
    && p.state.next <= q.state.next
  }

  lemma {:induction false} SilentTrans(p: Projected, q: Projected, r: Projected, id: ItemId)
    requires Silent(p, q, id) && Silent(q, r, id)
    ensures Silent(p, r, id)
  {
    hide Has, Quiet;
    forall i | |p.emitted| <= i < |r.emitted|
      ensures Quiet(r.emitted[i], id, Has(p.state.items, id))
    {
      if i < |q.emitted| { assert r.emitted[i] == q.emitted[i]; }
    }
  }

  lemma {:induction false} SilentReplace(p: Projected, i: nat, item: Item, d: Delta, id: ItemId)
    requires i < |p.state.items| && item.id == p.state.items[i].id && !d.ItemAdded? && !d.ItemRemoved?
    ensures Silent(p, With(p, p.state.items[i := item], d), id)
  {
    var items, after := p.state.items, p.state.items[i := item];
    assert forall k :: 0 <= k < |items| ==> after[k].id == items[k].id;
  }

  lemma {:induction false} SilentAdd(p: Projected, item: Item, id: ItemId)
    requires item.id != id
    ensures Silent(p, AddItem(p, item), id)
  {
    hide Slot, BeforeItem;
    var items, q := p.state.items, AddItem(p, item);
    if FindItem(items, item.id) == |items| {
      BeforeIs(items, id);
      HasInserted(items, Slot(items), item, id);
      assert q.state.items == Inserted(items, Slot(items), item);
    }
  }

  lemma BeforeIs(items: seq<Item>, id: ItemId)
    ensures BeforeItem(items) == Some(id) ==> Has(items, id)
  {
  }

  lemma HasInserted(items: seq<Item>, at: nat, item: Item, id: ItemId)
    requires at <= |items| && item.id != id
    ensures Has(Inserted(items, at, item), id) <==> Has(items, id)
  {
    hide Inserted;
    var after := Inserted(items, at, item);
    if i :| 0 <= i < |items| && items[i].id == id { assert after[if i < at then i else i + 1].id == id; }
    if i :| 0 <= i < |after| && after[i].id == id { assert items[if i < at then i else i - 1].id == id; }
  }

  lemma {:induction false} SilentQueued(p: Projected, of: ItemId, queued: bool, id: ItemId)
    ensures Silent(p, SetQueued(p, of, queued), id)
  {
    var items := p.state.items;
    var i := FindItem(items, of);
    if i < |items| && items[i].Message? {
      SilentReplace(p, i, items[i].(queued := queued), MessageQueueChanged(of, queued), id);
    }
  }

  lemma {:induction false} SilentAppend(p: Projected, of: ItemId, delta: string, reasoning: bool, id: ItemId)
    ensures Silent(p, AppendText(p, of, delta, reasoning), id)
  {
    var items := p.state.items;
    var i := FindItem(items, of);
    if i < |items| && (items[i].Message? || items[i].Reasoning?) {
      var d := if reasoning then ReasoningDelta(of, delta) else TextDelta(of, delta);
      SilentReplace(p, i, items[i].(text := items[i].text + delta), d, id);
    }
  }

  lemma {:induction false} SilentTool(p: Projected, of: ItemId, name: Option<string>, detail: Option<string>,
      status: ToolStatus, id: ItemId)
    requires of != id
    ensures Silent(p, UpdateTool(p, of, name, detail, status), id)
  {
    hide AddItem;
    var items := p.state.items;
    var i := FindItem(items, of);
    if i < |items| && items[i].Tool? {
      var tool := Tool(items[i].id, OrElse(name, items[i].name), OrElse(detail, items[i].detail), status);
      SilentReplace(p, i, tool, ToolUpdate(of, tool.detail, status), id);
    } else {
      SilentAdd(p, Tool(of, OrElse(name, "tool"), OrElse(detail, ""), status), id);
    }
  }

  lemma {:induction false} SilentUsage(p: Projected, index: nat, tokens: Tokens, id: ItemId)
    requires id.MessageId?
    ensures Silent(p, ReconcileUsage(p, index, tokens), id)
  {
    hide AddItem;
    var items := p.state.items;
    var i := FindItem(items, UsageId(index));
    if i < |items| && items[i].Usage? {
      SilentReplace(p, i, items[i].(tokens := tokens), UsageUpdate(UsageId(index), tokens), id);
    } else {
      SilentAdd(p, Usage(UsageId(index), tokens), id);
    }
  }

  lemma {:induction false} SilentReconcile(p: Projected, item: Item, id: ItemId)
    requires id.MessageId? && item.id != id
    ensures Silent(p, ReconcileItem(p, item), id)
  {
    hide AddItem, AppendText, ReconcileUsage, Format, UsageIndex;
    var items := p.state.items;
    var i := FindItem(items, item.id);
    if i == |items| {
      SilentAdd(p, item, id);
    } else {
      match (items[i], item) {
        case (Message(_, _, _, current), Message(_, _, _, final)) =>
          if current <= final { SilentAppend(p, item.id, final[|current|..], false, id); }
        case (Reasoning(_, current), Reasoning(_, final)) =>
          if current <= final { SilentAppend(p, item.id, final[|current|..], true, id); }
        case (Usage(_, _), Usage(_, tokens)) => SilentUsage(p, UsageIndex(Format(item.id)), tokens, id);
        case _ =>
      }
    }
  }

  lemma {:induction false} SilentAddAll(p: Projected, added: seq<Item>, id: ItemId)
    requires forall i :: 0 <= i < |added| ==> added[i].id != id
    ensures Silent(p, AddAll(p, added), id)
  {
    hide AddItem, Silent;
    if added == [] {
      SilentNone(p, id);
    } else {
      var init := added[..|added| - 1];
      SilentAddAll(p, init, id);
      SilentAdd(AddAll(p, init), added[|added| - 1], id);
      SilentTrans(p, AddAll(p, init), AddAll(p, added), id);
    }
  }

  lemma {:induction false} SilentReconcileAll(p: Projected, final: seq<Item>, id: ItemId)
    requires id.MessageId? && forall i :: 0 <= i < |final| ==> final[i].id != id
    ensures Silent(p, ReconcileAll(p, final), id)
  {
    hide ReconcileItem, Silent;
    if final == [] {
      SilentNone(p, id);
    } else {
      var init := final[..|final| - 1];
      SilentReconcileAll(p, init, id);
      SilentReconcile(ReconcileAll(p, init), final[|final| - 1], id);
      SilentTrans(p, ReconcileAll(p, init), ReconcileAll(p, final), id);
    }
  }

  lemma {:induction false} SilentNone(p: Projected, id: ItemId)
    ensures Silent(p, p, id)
  {
  }

  lemma {:induction false} QueueQuiet(items: seq<Item>, wanted: set<ItemId>, id: ItemId)
    ensures forall i :: 0 <= i < |QueueDeltas(items, wanted)| ==> Quiet(QueueDeltas(items, wanted)[i], id, false)
  {
    if items != [] { QueueQuiet(items[..|items| - 1], wanted, id); }
  }

  lemma {:induction false} HaltQuiet(items: seq<Item>, id: ItemId)
    ensures forall i :: 0 <= i < |HaltDeltas(items)| ==> Quiet(HaltDeltas(items)[i], id, false)
  {
    if items != [] { HaltQuiet(items[..|items| - 1], id); }
  }

  lemma {:induction false} SilentMore(p: Projected, q: Projected, deltas: seq<Delta>, id: ItemId)
    requires q.emitted == p.emitted + deltas
    requires forall i :: 0 <= i < |deltas| ==> Quiet(deltas[i], id, false)
    requires |q.state.items| == |p.state.items| && q.state.next == p.state.next
    requires forall i :: 0 <= i < |p.state.items| ==> q.state.items[i].id == p.state.items[i].id
    ensures Silent(p, q, id)
  {
  }

  lemma {:induction false} SilentSweep(p: Projected, id: ItemId)
    ensures Silent(p, ReconcileQueue(p), id) && Silent(p, InterruptTools(p), id)
  {
    hide QueueDeltas, HaltDeltas, Quiet, Silent;
    var wanted := Waiting(p.state.pending, p.state.steering);
    QueueQuiet(p.state.items, wanted, id);
    HaltQuiet(p.state.items, id);
    SilentMore(p, ReconcileQueue(p), QueueDeltas(p.state.items, wanted), id);
    SilentMore(p, InterruptTools(p), HaltDeltas(p.state.items), id);
  }

  lemma {:induction false} PartsNoMessage(content: seq<Part>, index: nat)
    ensures forall i :: 0 <= i < |PartItems(content, index)| ==> !PartItems(content, index)[i].id.MessageId?
  {
    if content != [] { PartsNoMessage(content[..|content| - 1], index); }
  }

  lemma {:induction false} AssistantNoMessage(content: seq<Part>, usage: Option<Tokens>, index: nat, full: bool)
    ensures forall i :: 0 <= i < |AssistantItems(content, usage, index, full)| ==>
              !AssistantItems(content, usage, index, full)[i].id.MessageId?
  {
    hide PartItems;
    PartsNoMessage(content, index);
  }

  /** A report never adds a user message that has its number already, and removes none. */
  lemma {:induction false} ReportSilent(s: State, event: PiEvent, id: ItemId)
    requires Good(s) && id.MessageId? && id.index < s.next
    ensures Silent(Projected(s, []), Project(s, event), id)
  {
    hide AddAll, ReconcileAll, UpdateTool, Streamed, UserStarts, InterruptTools, ReconcileQueue, AgentEnds, RetryStarts,
        AssistantItems, Silent, Good;
    var p := Projected(s, []);
    match event {
      case MessageStart(UserMessage(Some(text))) => UserSilent(p, text, id);
      case MessageStart(AssistantMessage(content, _)) =>
        AssistantNoMessage(content, None, s.next, false);
        SilentAddAll(p.(state := s.(next := s.next + 1, active := Some(s.next), tools := map[])),
                     AssistantItems(content, None, s.next, false), id);
        SilentFrame(p, p.(state := s.(next := s.next + 1, active := Some(s.next), tools := map[])),
                    Project(s, event), id);
      case MessageUpdate(update, usage) =>
        if s.active.Some? { StreamedSilent(p, s.active.value, update, usage, id); } else { SilentNone(p, id); }
      case ToolStart(call, name, arguments) => SilentTool(p, ToolId(call), Some(name), arguments, ToolRunning, id);
      case ToolProgress(call, name, detail) => SilentTool(p, ToolId(call), Some(name), Some(detail), ToolRunning, id);
      case ToolEnd(call, name, detail, isError) =>
        SilentTool(p, ToolId(call), Some(name), Some(detail), if isError then ToolFailed else ToolSucceeded, id);
      case QueueUpdate(steering) =>
        SilentSweep(p.(state := s.(steering := steering)), id);
        SilentFrame(p, p.(state := s.(steering := steering)), Project(s, event), id);
      case MessageEnd(AssistantMessage(content, usage)) =>
        if s.active.Some? {
          AssistantNoMessage(content, usage, s.active.value, true);
          SilentReconcileAll(p, AssistantItems(content, usage, s.active.value, true), id);
        } else {
          SilentNone(p, id);
        }
      case AutoRetryStart(cause) => RetrySilent(p, cause, id);
      case AgentEnd(false, last) => EndsSilent(p, last, id);
      case _ => SilentSaid(p, Project(s, event), id);
    }
  }

  /** Only the items matter. */
  lemma {:induction false} SilentFrame(p: Projected, p': Projected, q: Projected, id: ItemId)
    requires p'.emitted == p.emitted && p'.state.items == p.state.items && p.state.next <= p'.state.next
    requires Silent(p', q, id)
    ensures Silent(p, q, id)
  {
  }

  lemma {:induction false} SilentSaid(p: Projected, q: Projected, id: ItemId)
    requires q.state.items == p.state.items && q.state.next == p.state.next
    requires q.emitted == p.emitted || (exists d: Delta :: Quiet(d, id, false) && q.emitted == p.emitted + [d])
    ensures Silent(p, q, id)
  {
  }

  lemma {:induction false} UserSilent(p: Projected, text: string, id: ItemId)
    requires id.MessageId? && id.index < p.state.next
    ensures Silent(p, UserStarts(p, text), id)
  {
    hide AddItem, SetQueued, Silent;
    var s := p.state;
    if s.pending != [] && s.pending[0].text == text {
      SilentQueued(p.(state := s.(pending := s.pending[1..])), s.pending[0].id, false, id);
      SilentFrame(p, p.(state := s.(pending := s.pending[1..])), UserStarts(p, text), id);
    } else {
      SilentAdd(p.(state := s.(pending := [], next := s.next + 1)), Message(MessageId(s.next), false, User, text), id);
      SilentFrame(p, p.(state := s.(pending := [], next := s.next + 1)), UserStarts(p, text), id);
    }
  }

  lemma {:induction false} StreamedSilent(p: Projected, index: nat, update: Update, usage: Option<Tokens>, id: ItemId)
    requires Good(p.state) && id.MessageId?
    ensures Silent(p, Streamed(p, index, update, usage), id)
  {
    hide AddItem, AppendText, UpdateTool, ReconcileUsage, Silent;
    match update {
      case TextStart(c) => SilentAdd(p, Message(TextId(index, c), false, Assistant, ""), id);
      case TextGrew(c, delta) => SilentAppend(p, TextId(index, c), delta, false, id);
      case ThinkingStart(c) => SilentAdd(p, Reasoning(ReasoningId(index, c), ""), id);
      case ThinkingGrew(c, delta) => SilentAppend(p, ReasoningId(index, c), delta, true, id);
      case CallStart(c, call, name) =>
        SilentAdd(NoteCall(p, Some(c), call), Tool(ToolId(call), name, "", ToolRunning), id);
        SilentFrame(p, NoteCall(p, Some(c), call), Streamed(p, index, update, usage), id);
      case CallGrew(c, delta) =>
        if c in p.state.tools {
          SilentTool(p, p.state.tools[c], None, Some(delta), ToolRunning, id);
        } else {
          SilentNone(p, id);
        }
      case CallEnd(at, call, name, arguments) =>
        SilentTool(NoteCall(p, at, call), ToolId(call), Some(name), arguments, ToolRunning, id);
        SilentFrame(p, NoteCall(p, at, call), Streamed(p, index, update, usage), id);
      case Finished => if usage.Some? { SilentUsage(p, index, usage.value, id); } else { SilentNone(p, id); }
      case OtherUpdate => SilentNone(p, id);
    }
  }

  /** What a report says of the turn comes on top. */
  lemma {:induction false} SilentThen(p: Projected, q: Projected, r: Projected, d: Delta, id: ItemId)
    requires Silent(p, q, id) && r.state.items == q.state.items && r.state.next == q.state.next
    requires r.emitted == q.emitted || (r.emitted == q.emitted + [d] && Quiet(d, id, false))
    ensures Silent(p, r, id)
  {
  }

  lemma {:induction false} RetrySilent(p: Projected, cause: Option<string>, id: ItemId)
    ensures Silent(p, RetryStarts(p, cause), id)
  {
    hide InterruptTools, RetryMessage, Silent;
    SilentSweep(p, id);
    SilentThen(p, InterruptTools(p), RetryStarts(p, cause), TurnFailed(RetryMessage(cause)), id);
  }

  lemma {:induction false} EndsSilent(p: Projected, last: Option<Ending>, id: ItemId)
    ensures Silent(p, AgentEnds(p, last), id)
  {
    hide InterruptTools, Silent;
    var cleared := ClearInput(p);
    SilentNone(p, id);
    SilentThen(p, p, cleared, if p.state.input.Some? then InputResolved(p.state.input.value.id) else TurnCompleted, id);
    var reason := if last.Some? then last.value.stopReason else None;
    if reason == Some("aborted") {
      SilentHalted(p, cleared, cleared, AgentEnds(p, last), TurnInterrupted(INTERRUPTED_TURN), id);
    } else if reason == Some("error") {
      var message := OrElse(last.value.errorMessage, FAILED_TURN);
      SilentHalted(p, cleared, Settle(cleared, Failed, Some(message)), AgentEnds(p, last), TurnFailed(message), id);
    } else {
      SilentThen(p, cleared, AgentEnds(p, last), TurnCompleted, id);
    }
  }

  lemma {:induction false} SilentHalted(p: Projected, q: Projected, settled: Projected, r: Projected, d: Delta,
      id: ItemId)
    requires Silent(p, q, id) && settled.state.items == q.state.items && settled.emitted == q.emitted
    requires settled.state.next == q.state.next && r.state.next == InterruptTools(settled).state.next
    requires r.state.items == InterruptTools(settled).state.items
    requires r.emitted == InterruptTools(settled).emitted + [d] && Quiet(d, id, false)
    ensures Silent(p, r, id)
  {
    hide InterruptTools, Silent;
    SilentThen(p, q, settled, d, id);
    SilentSweep(settled, id);
    SilentTrans(p, settled, InterruptTools(settled), id);
    SilentThen(p, InterruptTools(settled), r, d, id);
  }

  // ----- runs of reports -----

  ghost predicate AllReports(actions: seq<Action>) {
    forall i :: 0 <= i < |actions| ==> actions[i].Reported?
  }

  lemma {:induction false} RunSilent(s: State, reports: seq<Action>, id: ItemId)
    requires Good(s) && AllReports(reports) && id.MessageId? && id.index < s.next
    ensures forall i :: 0 <= i < |Deltas(s, reports)| ==> Quiet(Deltas(s, reports)[i], id, Has(s.items, id))
    ensures Has(After(s, reports).items, id) <==> Has(s.items, id)
    ensures s.next <= After(s, reports).next
  {
    hide Good, Quiet, Has, Project;
    if reports != [] {
      var init, last := reports[..|reports| - 1], reports[|reports| - 1];
      RunSilent(s, init, id);
      RunKeeps(s, init);
      ReportSilent(After(s, init), last.event, id);
      var before, now := Deltas(s, init), Project(After(s, init), last.event).emitted;
      forall i | 0 <= i < |before + now|
        ensures Quiet((before + now)[i], id, Has(s.items, id))
      {
        if i >= |before| { assert (before + now)[i] == now[i - |before|]; }
      }
    }
  }

  // ----- a client with and without an item -----

  predicate SameView(c: Client, d: Client) {
    c.ids == d.ids && c.items == d.items
  }

  predicate SameTurn(c: Client, d: Client) {
    c.phase == d.phase && c.failure == d.failure
  }

  lemma {:induction false} AlikeOne(c: Client, d: Client, delta: Delta)
    ensures SameView(c, d) ==> SameView(Apply(c, delta), Apply(d, delta))
    ensures SameTurn(c, d) ==> SameTurn(Apply(c, delta), Apply(d, delta))
  {
    match delta {
      case ItemAdded(_, _) =>
      case ItemRemoved(_) =>
      case _ =>
    }
  }

  lemma {:induction false} AllAlike(c: Client, d: Client, deltas: seq<Delta>)
    ensures SameView(c, d) ==> SameView(ApplyAll(c, deltas), ApplyAll(d, deltas))
    ensures SameTurn(c, d) ==> SameTurn(ApplyAll(c, deltas), ApplyAll(d, deltas))
  {
    hide Apply, SameView, SameTurn;
    if deltas != [] {
      var init := deltas[..|deltas| - 1];
      AllAlike(c, d, init);
      AlikeOne(ApplyAll(c, init), ApplyAll(d, init), deltas[|deltas| - 1]);
    }
  }

  function Hidden(c: Client, id: ItemId): Client {
    c.(ids := Without(c.ids, id), items := c.items - {id})
  }

  /** Each item once, and no other. */
  ghost predicate Tidy(c: Client) {
    Once(c.ids) && forall id :: id in c.ids <==> id in c.items
  }

  lemma WithoutFirst(ids: seq<ItemId>, id: ItemId)
    ensures Without([], id) == []
    ensures ids != [] ==>
              Without(ids, id) == (if ids[0] == id then [] else [ids[0]]) + Without(ids[1..], id)
  {
  }

  lemma Associates(a: seq<ItemId>, b: seq<ItemId>, c: seq<ItemId>)
    ensures a + (b + c) == a + b + c
  {
  }

  lemma {:induction false} WithoutJoin(a: seq<ItemId>, b: seq<ItemId>, id: ItemId)
    ensures Without(a + b, id) == Without(a, id) + Without(b, id)
  {
    hide Without;
    WithoutFirst(a, id);
    if a == [] {
      assert a + b == b;
    } else {
      var rest := a[1..];
      WithoutJoin(rest, b, id);
      WithoutFirst(a + b, id);
      assert (a + b)[0] == a[0] && (a + b)[1..] == rest + b;
      Associates(if a[0] == id then [] else [a[0]], Without(rest, id), Without(b, id));
    }
  }

  lemma {:induction false} WithoutMember(ids: seq<ItemId>, id: ItemId, x: ItemId)
    ensures x in Without(ids, id) <==> x in ids && x != id
  {
    if ids != [] { WithoutMember(ids[1..], id, x); }
  }

  /** Where `before` stands once `id` is left out. */
  lemma {:induction false} IndexWithout(ids: seq<ItemId>, id: ItemId, before: ItemId)
    requires before != id
    ensures IndexOf(Without(ids, id), before) == |Without(ids[..IndexOf(ids, before)], id)|
  {
    hide Without, IndexOf;
    var k := IndexOf(ids, before);
    var a, b := ids[..k], ids[k..];
    assert ids == a + b;
    WithoutJoin(a, b, id);
    assert before !in Without(a, id) by {
      WithoutMember(a, id, before);
      assert forall j :: 0 <= j < k ==> ids[j] != before;
    }
    if k < |ids| {
      assert b == [before] + b[1..];
      WithoutJoin([before], b[1..], id);
      WithoutNone([before], id);
      FirstAt(Without(a, id), before, Without(b[1..], id));
      assert Without(ids, id) == Without(a, id) + ([before] + Without(b[1..], id));
    } else {
      assert b == [] && Without(ids, id) == Without(a, id) by { assert a == ids; }
      AbsentAt(Without(a, id), before);
    }
  }

  lemma FirstAt(a: seq<ItemId>, x: ItemId, b: seq<ItemId>)
    requires x !in a
    ensures IndexOf(a + ([x] + b), x) == |a|
  {
    hide IndexOf;
    var whole := a + ([x] + b);
    assert whole[|a|] == x && forall i :: 0 <= i < |a| ==> whole[i] == a[i];
  }

  lemma AbsentAt(a: seq<ItemId>, x: ItemId)
    requires x !in a
    ensures IndexOf(a, x) == |a|
  {
    hide IndexOf;
  }

  predicate LastId(ids: seq<ItemId>, id: ItemId) {
    ids != [] && ids[|ids| - 1] == id
  }

  ghost predicate Once(ids: seq<ItemId>) {
    forall i, j :: 0 <= i < j < |ids| ==> ids[i] != ids[j]
  }

  lemma {:induction false} LastAlone(ids: seq<ItemId>, id: ItemId)
    requires LastId(ids, id) && Once(ids)
    ensures IndexOf(ids, id) == |ids| - 1 && Without(ids, id) == ids[..|ids| - 1]
    ensures IndexOf(Without(ids, id), id) == |ids| - 1
  {
    var last := |ids| - 1;
    WithoutOne(ids, last);
    assert ids[last + 1..] == [] && ids[..last] + [] == ids[..last];
    assert forall k :: 0 <= k < last ==> ids[k] != ids[last];
  }

  function Placed(ids: seq<ItemId>, before: Option<ItemId>): (at: nat)
    ensures at <= |ids|
  {
    if before.Some? then IndexOf(ids, before.value) else |ids|
  }

  lemma {:induction false} PlacedWithout(ids: seq<ItemId>, before: Option<ItemId>, id: ItemId)
    requires Once(ids) && (before == Some(id) ==> LastId(ids, id))
    ensures Placed(Without(ids, id), before) == |Without(ids[..Placed(ids, before)], id)|
  {
    hide Without;
    var at := Placed(ids, before);
    if before == Some(id) {
      LastAlone(ids, id);
      WithoutNone(ids[..at], id);
    } else if before.Some? {
      IndexWithout(ids, id, before.value);
    } else {
      assert ids[..at] == ids;
    }
  }

  lemma {:induction false} InsertWithout(ids: seq<ItemId>, before: Option<ItemId>, x: ItemId, id: ItemId)
    requires Once(ids) && x != id && (before == Some(id) ==> LastId(ids, id))
    ensures var at, less := Placed(ids, before), Without(ids, id);
            var at' := Placed(less, before);
            Without(ids[..at] + [x] + ids[at..], id) == less[..at'] + [x] + less[at'..]
  {
    hide Without, Placed, Once;
    var at := Placed(ids, before);
    PlacedWithout(ids, before, id);
    WithoutJoin(ids[..at] + [x], ids[at..], id);
    WithoutJoin(ids[..at], [x], id);
    WithoutJoin(ids[..at], ids[at..], id);
    WithoutNone([x], id);
    assert ids[..at] + ids[at..] == ids;
  }

  /** Leaving the item out commutes with a quiet delta, if nothing is put in front of it or it
      is the last. */
  lemma {:induction false} HiddenApply(c: Client, d: Delta, id: ItemId, there: bool)
    requires Tidy(c) && Quiet(d, id, there) && (there ==> LastId(c.ids, id))
    ensures SameView(Hidden(Apply(c, d), id), Apply(Hidden(c, id), d))
  {
    hide Without;
    if d.ItemAdded? {
      if d.item.id !in c.items {
        InsertWithout(c.ids, d.before, d.item.id, id);
        AddedIs(c, d);
        AddedIs(Hidden(c, id), d);
      }
    } else {
      HiddenKnown(c, d, id);
    }
  }

  lemma AddedIs(c: Client, d: Delta)
    requires d.ItemAdded? && d.item.id !in c.items
    ensures var at := Placed(c.ids, d.before);
            Apply(c, d) == c.(ids := c.ids[..at] + [d.item.id] + c.ids[at..], items := c.items[d.item.id := d.item])
  {
  }

  lemma HiddenKnown(c: Client, d: Delta, id: ItemId)
    requires !d.ItemAdded? && !d.ItemRemoved?
    ensures SameView(Hidden(Apply(c, d), id), Apply(Hidden(c, id), d))
  {
    hide Without;
  }

  lemma {:induction false} TidyApply(c: Client, d: Delta)
    requires Tidy(c) && !d.ItemRemoved?
    ensures Tidy(Apply(c, d))
  {
    if d.ItemAdded? && d.item.id !in c.items {
      hide Inserted;
      AddedIs(c, d);
      var at := Placed(c.ids, d.before);
      var ids := Inserted(c.ids, at, d.item.id);
      assert ids == c.ids[..at] + [d.item.id] + c.ids[at..];
      TidyInserted(c.ids, at, d.item.id);
    }
  }

  lemma {:induction false} TidyInserted(ids: seq<ItemId>, at: nat, x: ItemId)
    requires Once(ids) && at <= |ids| && x !in ids
    ensures Once(Inserted(ids, at, x))
    ensures forall y :: y in Inserted(ids, at, x) <==> y in ids || y == x
  {
    hide Inserted;
    var after := Inserted(ids, at, x);
    forall i, j | 0 <= i < j < |after|
      ensures after[i] != after[j]
    {
      if i != at { assert after[i] == ids[if i < at then i else i - 1]; }
      if j != at { assert after[j] == ids[if j < at then j else j - 1]; }
    }
    forall y
      ensures y in after <==> y in ids || y == x
    {
      if k :| 0 <= k < |ids| && ids[k] == y { assert after[if k < at then k else k + 1] == y; }
      if k :| 0 <= k < |after| && after[k] == y && k != at { assert ids[if k < at then k else k - 1] == y; }
      assert after[at] == x;
    }
  }

  /** With no item removed, an item that is not the last one does not become it. */
  lemma {:induction false} StaysBehind(c: Client, d: Delta, id: ItemId)
    requires !d.ItemRemoved? && (d.ItemAdded? ==> d.item.id != id) && c.ids != []
    ensures Apply(c, d).ids != []
    ensures LastId(Apply(c, d).ids, id) ==> LastId(c.ids, id)
  {
    if d.ItemAdded? && d.item.id !in c.items { AddedIs(c, d); }
  }

  /** Leaving the item out commutes with a run of quiet deltas after which it is the last. */
  lemma {:induction false} HiddenAll(c: Client, deltas: seq<Delta>, id: ItemId, there: bool)
    requires Tidy(c) && c.ids != [] && forall i :: 0 <= i < |deltas| ==> Quiet(deltas[i], id, there)
    requires there ==> LastId(ApplyAll(c, deltas).ids, id)
    ensures Tidy(ApplyAll(c, deltas)) && ApplyAll(c, deltas).ids != []
    ensures SameView(Hidden(ApplyAll(c, deltas), id), ApplyAll(Hidden(c, id), deltas))
  {
    hide Tidy, Apply, Hidden;
    if deltas != [] {
      var init, last := deltas[..|deltas| - 1], deltas[|deltas| - 1];
      TidyAll(c, init, id, there);
      StaysBehind(ApplyAll(c, init), last, id);
      HiddenAll(c, init, id, there);
      HiddenApply(ApplyAll(c, init), last, id, there);
      TidyApply(ApplyAll(c, init), last);
      AlikeOne(Hidden(ApplyAll(c, init), id), ApplyAll(Hidden(c, id), init), last);
    }
  }

  lemma {:induction false} TidyAll(c: Client, deltas: seq<Delta>, id: ItemId, there: bool)
    requires Tidy(c) && c.ids != [] && forall i :: 0 <= i < |deltas| ==> Quiet(deltas[i], id, there)
    ensures Tidy(ApplyAll(c, deltas)) && ApplyAll(c, deltas).ids != []
  {
    hide Tidy, Apply;
    if deltas != [] {
      TidyAll(c, deltas[..|deltas| - 1], id, there);
      TidyApply(ApplyAll(c, deltas[..|deltas| - 1]), deltas[|deltas| - 1]);
      StaysBehind(ApplyAll(c, deltas[..|deltas| - 1]), deltas[|deltas| - 1], id);
    }
  }

  lemma {:induction false} StaysOut(c: Client, deltas: seq<Delta>, id: ItemId, there: bool)
    requires id !in c.items && forall i :: 0 <= i < |deltas| ==> Quiet(deltas[i], id, there)
    ensures id !in ApplyAll(c, deltas).items
  {
    if deltas != [] { StaysOut(c, deltas[..|deltas| - 1], id, there); }
  }

  lemma {:induction false} ShowsTidy(c: Client, s: State)
    requires Shows(c, s) && Distinct(s.items)
    ensures Tidy(c)
  {
    forall i, j | 0 <= i < j < |c.ids|
      ensures c.ids[i] != c.ids[j]
    {
      assert c.ids[i] == s.items[i].id && c.ids[j] == s.items[j].id;
    }
  }

  // ----- a message that is sent -----

  function SentItem(s: State, text: string): Item {
    Message(MessageId(s.next), s.phase.Running?, User, text)
  }

  lemma {:induction false} SentIs(s: State, text: string)
    requires Good(s)
    ensures var item, sent := SentItem(s, text), Send(s, text);
            && FindItem(s.items, item.id) == |s.items|
            && sent.state.items == s.items + [item] && sent.state.next == s.next + 1
            && sent.state.phase.Running? && sent.state.failure.None?
            && (s.phase.Running? ==>
                  s.failure.None? && sent.emitted == [ItemAdded(None, item), MessageQueueChanged(item.id, true)])
            && (!s.phase.Running? ==> sent.emitted == [TurnStarted, ItemAdded(None, item)])
  {
    assert forall i :: 0 <= i < |s.items| ==> Fits(s.items[i], s.next);
  }

  /** What the events still to be stamped need of the host's state by then: the turn is running,
      the message is last and as it was sent, it is queued. */
  ghost predicate InOrder(late: seq<Delta>, u: State, item: Item) {
    && (TurnStarted in late ==> u.phase.Running? && u.failure.None?)
    && (ItemAdded(None, item) in late ==> u.items != [] && u.items[|u.items| - 1] == item)
    && (late == [MessageQueueChanged(item.id, true)] ==>
          forall i :: 0 <= i < |u.items| && u.items[i].id == item.id ==> u.items[i].Message? && u.items[i].queued)
  }

  /** The item comes last, whatever was there without it. */
  lemma {:induction false} AddedLate(c0: Client, c1: Client, deltas: seq<Delta>, end: Client, u: State, item: Item)
    requires Tidy(c1) && item.Message? && item.id in c1.items && SameView(Hidden(c1, item.id), c0)
    requires Shows(ApplyAll(c1, deltas), u)
    requires forall i :: 0 <= i < |deltas| ==> Quiet(deltas[i], item.id, true)
    requires var here := ApplyAll(c0, deltas);
             end.ids == here.ids + [item.id] && end.items == here.items[item.id := item]
    ensures ShowsItems(end, u.items) <==> u.items != [] && u.items[|u.items| - 1] == item
  {
    hide Apply, Quiet, Without, Once;
    var id, here, full := item.id, ApplyAll(c0, deltas), ApplyAll(c1, deltas);
    OneIsThere(c1, id);
    TidyAll(c1, deltas, id, true);
    if u.items != [] && u.items[|u.items| - 1] == item {
      assert LastId(full.ids, id);
      HiddenAll(c1, deltas, id, true);
      AllAlike(Hidden(c1, id), c0, deltas);
      PutBack(full, here, end, item);
    }
  }

  lemma OneIsThere(c: Client, id: ItemId)
    requires Tidy(c) && id in c.items
    ensures c.ids != []
  {
    assert id in c.ids;
  }

  lemma {:induction false} PutBack(full: Client, here: Client, end: Client, item: Item)
    requires Once(full.ids) && LastId(full.ids, item.id)
    requires item.id in full.items && full.items[item.id] == item
    requires SameView(Hidden(full, item.id), here)
    requires end.ids == here.ids + [item.id] && end.items == here.items[item.id := item]
    ensures SameView(end, full)
  {
    hide Without, Once;
    LastAlone(full.ids, item.id);
    assert full.ids == full.ids[..|full.ids| - 1] + [item.id];
    assert end.items == full.items;
  }

  /** What the events of a message do to a client that has not got it. */
  lemma {:induction false} LateAdds(c: Client, s: State, text: string, k: nat)
    requires Good(s) && SentItem(s, text).id !in c.items
    requires k < |Send(s, text).emitted| && (s.phase.Running? ==> k == 0)
    ensures var item, late := SentItem(s, text), Send(s, text).emitted[k..];
            var end := ApplyAll(c, late);
            && end.ids == c.ids + [item.id] && end.items == c.items[item.id := item]
            && (TurnStarted in late ==> end.phase.Running? && end.failure.None?)
            && (TurnStarted !in late ==> SameTurn(end, c))
            && ItemAdded(None, item) in late && late != [MessageQueueChanged(item.id, true)]
  {
    hide Good, Send;
    SentIs(s, text);
    var item, sent := SentItem(s, text), Send(s, text);
    var late := sent.emitted[k..];
    var added := ItemAdded(None, item);
    OneApplied(c, added);
    if s.phase.Running? {
      var queue := MessageQueueChanged(item.id, true);
      assert late == [added, queue];
      TwoApplied(c, added, queue);
    } else if k == 0 {
      assert late == [TurnStarted, added];
      TwoApplied(c, TurnStarted, added);
    } else {
      assert late == [added];
    }
  }

  lemma {:induction false} OneApplied(c: Client, d: Delta)
    ensures ApplyAll(c, [d]) == Apply(c, d)
  {
    hide Apply;
    assert [d][..0] == [] && ApplyAll(c, []) == c;
  }

  lemma {:induction false} TwoApplied(c: Client, d: Delta, e: Delta)
    ensures ApplyAll(c, [d, e]) == Apply(Apply(c, d), e)
  {
    hide Apply;
    OneApplied(c, d);
    assert [d, e][..1] == [d];
  }

  /** A message that was announced, but not that it is queued. */
  lemma {:induction false} QueuedLate(here: Client, u: State, item: Item)
    requires ShowsItems(here, u.items) && Distinct(u.items) && Has(u.items, item.id)
    requires forall i :: 0 <= i < |u.items| && u.items[i].id == item.id ==> u.items[i].Message?
    ensures ShowsItems(Apply(here, MessageQueueChanged(item.id, true)), u.items) <==>
              forall i :: 0 <= i < |u.items| && u.items[i].id == item.id ==> u.items[i].queued
  {
    var i :| 0 <= i < |u.items| && u.items[i].id == item.id;
    var end := Apply(here, MessageQueueChanged(item.id, true));
    assert here.ids[i] == item.id && SameButName(here.items[item.id], u.items[i]);
    assert end.ids == here.ids && end.items == here.items[item.id := u.items[i].(queued := true)];
    if u.items[i].queued { assert end.items == here.items; }
    if ShowsItems(end, u.items) { assert SameButName(end.items[end.ids[i]], u.items[i]); }
  }

  lemma NothingLate(u: State, item: Item)
    ensures InOrder([], u, item)
  {
  }

  lemma ItemsAlike(c: Client, d: Client, items: seq<Item>)
    requires ShowsItems(c, items) && SameView(c, d)
    ensures ShowsItems(d, items)
  {
  }

  lemma ShowsAlike(c: Client, d: Client, u: State)
    requires Shows(c, u) && SameView(c, d) && SameTurn(c, d)
    ensures Shows(d, u)
  {
  }

  lemma UserMessagesAre(u: State, id: ItemId)
    requires Good(u) && id.MessageId?
    ensures Distinct(u.items)
    ensures forall i :: 0 <= i < |u.items| && u.items[i].id == id ==> u.items[i].Message?
  {
    assert forall i :: 0 <= i < |u.items| ==> Fits(u.items[i], u.next);
  }

  lemma {:induction false} QueueIff(c: Client, s: State, text: string, reports: seq<Action>)
    requires Shows(c, s) && Good(s) && AllReports(reports) && s.phase.Running?
    ensures var sent := Send(s, text);
            var u := After(sent.state, reports);
            Shows(ApplyAll(ApplyAll(ApplyAll(c, sent.emitted[..1]), Deltas(sent.state, reports)), sent.emitted[1..]), u)
            <==> InOrder(sent.emitted[1..], u, SentItem(s, text))
  {
    hide ShowsItems, Good, Send, Quiet, Deltas, Distinct;
    var sent, item := Send(s, text), SentItem(s, text);
    var t, deltas := sent.state, Deltas(sent.state, reports);
    var u, added, queue := After(t, reports), ItemAdded(None, item), MessageQueueChanged(item.id, true);
    SentIs(s, text);
    assert sent.emitted[..1] == [added] && sent.emitted[1..] == [queue];
    DoKeeps(s, Sent(text));
    RunKeeps(t, reports);
    RunSilent(t, reports, item.id);
    NotShown(c, s.items, item.id);
    OneApplied(c, added);
    TwoApplied(c, added, queue);
    AllInTime(c, s, text, reports);
    var c0, c1 := Apply(c, added), Apply(Apply(c, added), queue);
    assert SameView(c0, c1) && SameTurn(c0, c1);
    AllAlike(c0, c1, deltas);
    var here := ApplyAll(c0, deltas);
    ShowsAlike(ApplyAll(c1, deltas), here, u);
    OneApplied(here, queue);
    UserMessagesAre(u, item.id);
    assert Has(t.items, item.id) by { assert t.items[|s.items|].id == item.id; }
    QueuedLate(here, u, item);
    assert SameTurn(Apply(here, queue), here);
  }

  /** What a client has of a message before the reports, its events stamped or not. */
  lemma {:induction false} AddStart(c: Client, s: State, text: string, k: nat)
    requires Shows(c, s) && Good(s) && k < |Send(s, text).emitted| && (s.phase.Running? ==> k == 0)
    ensures var item, sent := SentItem(s, text), Send(s, text);
            var c0, c1 := ApplyAll(c, sent.emitted[..k]), ApplyAll(c, sent.emitted);
            && item.id !in c0.items && item.id in c1.items && SameView(Hidden(c1, item.id), c0)
            && (TurnStarted !in sent.emitted[k..] ==> SameTurn(c0, c1))
  {
    hide Good, Send, Without, ShowsItems;
    SentIs(s, text);
    var item, sent := SentItem(s, text), Send(s, text);
    var added, queue := ItemAdded(None, item), MessageQueueChanged(item.id, true);
    NotShown(c, s.items, item.id);
    AddedIs(c, added);
    assert item.id !in c.ids by { if item.id in c.ids { IdIsThere(c, s, item.id); } }
    WithoutLast(c.ids, item.id);
    if s.phase.Running? {
      assert sent.emitted[..k] == [] && ApplyAll(c, []) == c;
      TwoApplied(c, added, queue);
    } else {
      TwoApplied(c, TurnStarted, added);
      OneApplied(c, TurnStarted);
      assert sent.emitted[..k] == if k == 0 then [] else [TurnStarted];
      if k == 1 { assert sent.emitted[k..] == [added]; } else { assert sent.emitted[k..][0] == TurnStarted; }
      assert ApplyAll(c, []) == c;
    }
  }

  lemma IdIsThere(c: Client, s: State, id: ItemId)
    requires Shows(c, s) && id in c.ids
    ensures id in c.items
  {
    var i :| 0 <= i < |c.ids| && c.ids[i] == id;
  }

  lemma {:induction false} WithoutLast(ids: seq<ItemId>, id: ItemId)
    requires id !in ids
    ensures Without(ids + [id], id) == ids && ids[..|ids|] + [id] + ids[|ids|..] == ids + [id]
  {
    hide Without;
    WithoutOne(ids + [id], |ids|);
    assert (ids + [id])[..|ids|] == ids && (ids + [id])[|ids| + 1..] == [];
  }

  lemma {:induction false} AddIff(c: Client, s: State, text: string, k: nat, reports: seq<Action>)
    requires Shows(c, s) && Good(s) && AllReports(reports)
    requires k < |Send(s, text).emitted| && (s.phase.Running? ==> k == 0)
    ensures var sent := Send(s, text);
            var u := After(sent.state, reports);
            Shows(ApplyAll(ApplyAll(ApplyAll(c, sent.emitted[..k]), Deltas(sent.state, reports)), sent.emitted[k..]), u)
            <==> InOrder(sent.emitted[k..], u, SentItem(s, text))
  {
    hide ShowsItems, Good, Send, Quiet, Deltas, Distinct, Apply, Hidden, Tidy;
    var sent, item := Send(s, text), SentItem(s, text);
    var t, deltas := sent.state, Deltas(sent.state, reports);
    var u := After(t, reports);
    SentIs(s, text);
    DoKeeps(s, Sent(text));
    RunSilent(t, reports, item.id);
    AllInTime(c, s, text, reports);
    AddStart(c, s, text, k);
    var c0, c1 := ApplyAll(c, sent.emitted[..k]), ApplyAll(c, sent.emitted);
    ActionReplays(c, s, Sent(text));
    GoodDistinct(t);
    ShowsTidy(c1, t);
    assert Has(t.items, item.id) by { assert t.items[|s.items|].id == item.id; }
    StaysOut(c0, deltas, item.id, true);
    AllAlike(c0, c1, deltas);
    var here := ApplyAll(c0, deltas);
    LateAdds(here, s, text, k);
    AddedLate(c0, c1, deltas, ApplyAll(here, sent.emitted[k..]), u, item);
  }

  /** A client is sent the first `k` events of a message, whatever Pi reports before the others
      are stamped, and the others: it shows what the host shows if and only if these are still
      in order. */
  lemma {:induction false} LateIff(c: Client, s: State, text: string, k: nat, reports: seq<Action>)
    requires Shows(c, s) && Good(s) && AllReports(reports) && k <= |Send(s, text).emitted|
    ensures var sent := Send(s, text);
            var u := After(sent.state, reports);
            var early, late := sent.emitted[..k], sent.emitted[k..];
            Shows(ApplyAll(c, early + Deltas(sent.state, reports) + late), u)
            <==> InOrder(late, u, SentItem(s, text))
  {
    hide Shows, Good, Send, Quiet, InOrder, Apply, Deltas, ShowsItems, Distinct;
    var sent, item := Send(s, text), SentItem(s, text);
    var t, deltas, early, late := sent.state, Deltas(sent.state, reports), sent.emitted[..k], sent.emitted[k..];
    var u := After(t, reports);
    SentIs(s, text);
    DoKeeps(s, Sent(text));
    RunKeeps(t, reports);
    AppliedInTurn(c, early, deltas);
    AppliedInTurn(c, early + deltas, late);
    if k == |sent.emitted| {
      AllInTime(c, s, text, reports);
      assert early == sent.emitted && late == [];
      NothingLate(u, item);
      assert early + deltas + [] == early + deltas;
    } else if s.phase.Running? && k == 1 {
      QueueIff(c, s, text, reports);
    } else {
      AddIff(c, s, text, k, reports);
    }
  }

  /** Everything was stamped before. */
  lemma {:induction false} AllInTime(c: Client, s: State, text: string, reports: seq<Action>)
    requires Shows(c, s) && Good(s) && AllReports(reports)
    ensures var sent := Send(s, text);
            Shows(ApplyAll(ApplyAll(c, sent.emitted), Deltas(sent.state, reports)), After(sent.state, reports))
  {
    hide Shows, Good, Send, Deltas;
    DoKeeps(s, Sent(text));
    ActionReplays(c, s, Sent(text));
    RunReplays(ApplyAll(c, Send(s, text).emitted), Send(s, text).state, reports);
  }

  lemma {:induction false} EmptyGood()
    ensures Good(State([], Running, None, None, 0, None, map[], 0, []))
  {
  }

  lemma {:induction false} EmptyQueue(s: State, item: Item)
    requires s.items == [item] && item.Message? && item.role.User? && item.queued
    ensures Do(s, Reported(QueueUpdate(0))).emitted == [MessageQueueChanged(item.id, false)]
    ensures Do(s, Reported(QueueUpdate(0))).state.items == [item.(queued := false)]
  {
    var wanted := Waiting(s.pending, 0);
    assert wanted == {} && [item][..0] == [];
    assert QueueDeltas([], wanted) == [];
    assert QueueDeltas([item], wanted) == [MessageQueueChanged(item.id, false)];
    var p := ReconcileQueue(Projected(s.(steering := 0), []));
    assert p.emitted == [] + QueueDeltas([item], wanted);
    assert Do(s, Reported(QueueUpdate(0))) == p;
  }

  /** A steering message is in the host's state but not announced yet, and Pi reports an empty
      queue: the client shows as queued what the host does not. */
  lemma {:induction false} LateStamps() returns (c: Client, s: State, reports: seq<Action>)
    ensures Shows(c, s) && Good(s) && AllReports(reports)
    ensures var sent := Send(s, "a");
            !Shows(ApplyAll(c, Deltas(sent.state, reports) + sent.emitted), After(sent.state, reports))
  {
    hide Good, Deltas, Send, Project;
    s := State([], Running, None, None, 0, None, map[], 0, []);
    c := Client([], map[], Running, None, None);
    reports := [Reported(QueueUpdate(0))];
    EmptyGood();
    SentIs(s, "a");
    var sent, item := Send(s, "a"), SentItem(s, "a");
    EmptyQueue(sent.state, item);
    assert reports[..0] == [] && After(sent.state, []) == sent.state;
    assert After(sent.state, reports).items == [item.(queued := false)];
    LateIff(c, s, "a", 0, reports);
    assert sent.emitted[..0] == [] && sent.emitted[0..] == sent.emitted;
    assert [] + Deltas(sent.state, reports) == Deltas(sent.state, reports);
    assert !InOrder(sent.emitted, After(sent.state, reports), item);
  }

  // ----- the other commands -----

  /** Nothing can come between an answer and its event that matters. */
  lemma {:induction false} LateAnswer(c: Client, s: State, requestId: string, reports: seq<Action>)
    requires Shows(c, s) && Good(s)
    ensures var t := Answer(s, requestId).state;
            Shows(ApplyAll(c, Deltas(t, reports) + Answer(s, requestId).emitted), After(t, reports))
  {
    hide Good, Deltas, ShowsItems;
    var t, emitted := Answer(s, requestId).state, Answer(s, requestId).emitted;
    DoKeeps(s, Answered(requestId));
    RunReplays(c, t, reports);
    AppliedInTurn(c, Deltas(t, reports), emitted);
    var here := ApplyAll(c, Deltas(t, reports));
    if emitted == [] {
      assert ApplyAll(here, []) == here;
    } else {
      OneApplied(here, InputResolved(requestId));
      ShowsAlike(here, Apply(here, InputResolved(requestId)), After(t, reports));
    }
  }

  lemma {:induction false} RemovedHidden(c: Client, id: ItemId)
    requires Tidy(c)
    ensures SameView(Apply(c, ItemRemoved(id)), Hidden(c, id)) && SameTurn(Apply(c, ItemRemoved(id)), c)
  {
    hide Without;
    if id !in c.items {
      assert id !in c.ids;
      WithoutNone(c.ids, id);
      assert c.items - {id} == c.items;
    }
  }

  /** A message that is taken back is out of the host's state before its clients are told. */
  lemma {:induction false} LateRemoval(c: Client, t: State, id: ItemId, reports: seq<Action>)
    requires Tidy(c) && c.ids != [] && Good(t) && AllReports(reports)
    requires id.MessageId? && id.index < t.next && !Has(t.items, id)
    requires Shows(Apply(c, ItemRemoved(id)), t)
    ensures Shows(Apply(ApplyAll(c, Deltas(t, reports)), ItemRemoved(id)), After(t, reports))
  {
    hide Good, Deltas, ShowsItems, Quiet, Apply, Hidden, Without;
    var deltas, c1 := Deltas(t, reports), Apply(c, ItemRemoved(id));
    RunSilent(t, reports, id);
    HiddenAll(c, deltas, id, false);
    RemovedHidden(c, id);
    RemovedHidden(ApplyAll(c, deltas), id);
    RunReplays(c1, t, reports);
    AllAlike(c1, Hidden(c, id), deltas);
    AllAlike(c1, c, deltas);
    ShowsAlike(ApplyAll(c1, deltas), Apply(ApplyAll(c, deltas), ItemRemoved(id)), After(t, reports));
  }

  /** Either nothing was waiting under that id, or the message goes. */
  lemma {:induction false} WithdrawIs(s: State, id: ItemId)
    requires Good(s)
    ensures var p := Withdraw(s, id);
            && p.state.next == s.next
            && if p.emitted == [] then p.state.items == s.items
               else p.emitted == [ItemRemoved(id)] && id.MessageId? && id.index < s.next && s.items != []
                    && !Has(p.state.items, id)
  {
    WithdrawnGone(s, id);
  }

  /** The client with the items of before and the phase of after the rejection. */
  function Told(c: Client, t: State): Client {
    c.(phase := t.phase, failure := t.failure)
  }

  lemma {:induction false} RejectedItems(c: Client, s: State, id: ItemId, wasRunning: bool, reports: seq<Action>)
    requires Shows(c, s) && Good(s) && AllReports(reports)
    ensures var t, gone := Reject(s, id, wasRunning).state, Withdraw(s, id).emitted != [];
            var here := ApplyAll(Told(c, t), Deltas(t, reports));
            Shows(if gone then Apply(here, ItemRemoved(id)) else here, After(t, reports))
  {
    hide Good, Deltas, ShowsItems, Apply, Withdraw, Distinct, Has;
    var t := Reject(s, id, wasRunning).state;
    var d := Told(c, t);
    DoKeeps(s, Rejected(id, wasRunning));
    WithdrawIs(s, id);
    if Withdraw(s, id).emitted == [] {
      ItemsAlike(c, d, s.items);
      RunReplays(d, t, reports);
    } else {
      GoodDistinct(s);
      ShowsTidy(c, s);
      SomeShown(c, s);
      ActionReplays(c, s, Rejected(id, wasRunning));
      OneApplied(c, ItemRemoved(id));
      TwoApplied(c, ItemRemoved(id), TurnFailed(REJECTED_PROMPT));
      AlikeOne(c, d, ItemRemoved(id));
      RejectedShows(c, d, t, id, wasRunning);
      LateRemoval(d, t, id, reports);
    }
  }

  lemma SomeShown(c: Client, s: State)
    requires Shows(c, s) && s.items != []
    ensures c.ids != []
  {
  }

  lemma RejectedShows(c: Client, d: Client, t: State, id: ItemId, wasRunning: bool)
    requires SameView(Apply(c, ItemRemoved(id)), Apply(d, ItemRemoved(id))) && d == Told(c, t)
    requires Shows(if wasRunning then Apply(c, ItemRemoved(id))
                   else Apply(Apply(c, ItemRemoved(id)), TurnFailed(REJECTED_PROMPT)), t)
    ensures Shows(Apply(d, ItemRemoved(id)), t)
  {
  }

  /** A rejection, its events stamped after whatever Pi reports: the removal does no harm, and a
      failure is still to be the host's phase. */
  lemma {:induction false} LateRejectIff(c: Client, s: State, id: ItemId, wasRunning: bool, reports: seq<Action>)
    requires Shows(c, s) && Good(s) && AllReports(reports)
    ensures var rejected := Reject(s, id, wasRunning);
            var u := After(rejected.state, reports);
            Shows(ApplyAll(c, Deltas(rejected.state, reports) + rejected.emitted), u)
            <==> wasRunning || (u.phase.Failed? && u.failure == Some(REJECTED_PROMPT))
  {
    hide Good, Deltas, Shows, Apply, Withdraw, Has;
    var rejected := Reject(s, id, wasRunning);
    var t, deltas := rejected.state, Deltas(rejected.state, reports);
    var u, d := After(t, reports), Told(c, t);
    var here, told := ApplyAll(c, deltas), ApplyAll(d, deltas);
    AppliedInTurn(c, deltas, rejected.emitted);
    WithdrawIs(s, id);
    RejectedItems(c, s, id, wasRunning, reports);
    AllAlike(c, d, deltas);
    WithdrawTurn(c, s, id);
    RejectedEnd(here, told, rejected.emitted, Withdraw(s, id).emitted != [], wasRunning, id, u);
  }

  lemma WithdrawTurn(c: Client, s: State, id: ItemId)
    requires Shows(c, s)
    ensures SameTurn(c, Told(c, Withdraw(s, id).state))
  {
  }

  lemma {:induction false} RejectedEnd(here: Client, told: Client, emitted: seq<Delta>, gone: bool, wasRunning: bool,
      id: ItemId, u: State)
    requires SameView(here, told) && (wasRunning ==> SameTurn(here, told))
    requires Shows(if gone then Apply(told, ItemRemoved(id)) else told, u)
    requires emitted == (if gone then [ItemRemoved(id)] else [])
                        + (if wasRunning then [] else [TurnFailed(REJECTED_PROMPT)])
    ensures Shows(ApplyAll(here, emitted), u) <==>
              wasRunning || (u.phase.Failed? && u.failure == Some(REJECTED_PROMPT))
  {
    hide Apply, Shows;
    var failed := TurnFailed(REJECTED_PROMPT);
    OneApplied(here, ItemRemoved(id));
    OneApplied(here, failed);
    TwoApplied(here, ItemRemoved(id), failed);
    AlikeOne(here, told, ItemRemoved(id));
    assert ApplyAll(here, []) == here;
    var h := if gone then Apply(here, ItemRemoved(id)) else here;
    var w := if gone then Apply(told, ItemRemoved(id)) else told;
    if wasRunning {
      assert emitted == if gone then [ItemRemoved(id)] else [];
      ShowsAlike(w, h, u);
    } else {
      assert emitted == if gone then [ItemRemoved(id), failed] else [failed];
      FailedShows(h, w, u);
    }
  }

  lemma FailedShows(c: Client, d: Client, u: State)
    requires SameView(c, d) && Shows(d, u)
    ensures Shows(Apply(c, TurnFailed(REJECTED_PROMPT)), u) <==>
              u.phase.Failed? && u.failure == Some(REJECTED_PROMPT)
  {
  }
}
