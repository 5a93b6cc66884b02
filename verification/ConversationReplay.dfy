/** The client's store, and the proof that the deltas an action emits bring a client that
    shows the old state to one that shows the new state. */
module ConversationReplay {
  import opened Options
  import opened Sequences
  import opened ConversationTypes
  import opened ProjectionSteps
  import opened ConversationInvariants

  datatype Client = Client(ids: seq<ItemId>, items: map<ItemId, Item>, phase: Phase, failure: Option<string>,
      input: Option<InputRequest>)

  // ----- the client -----

  function Without(ids: seq<ItemId>, id: ItemId): seq<ItemId> {
    if ids == [] then [] else (if ids[0] == id then [] else [ids[0]]) + Without(ids[1..], id)
  }

  function Put(c: Client, item: Item): Client {
    c.(items := c.items[item.id := item])
  }

  /** A turn event that says nothing new leaves a pending input request alone. */
  function Turn(c: Client, phase: Phase, failure: Option<string>): Client {
    if c.phase == phase && c.failure == failure then c
    else c.(phase := phase, failure := failure, input := None)
  }

  function Apply(c: Client, delta: Delta): Client {
    match delta
    case InputRequested(request) =>
      if c.input.Some? && c.input.value.id == request.id then c else c.(input := Some(request))
    case InputResolved(id) =>
      if c.input.Some? && c.input.value.id == id then c.(input := None) else c
    case ItemAdded(before, item) =>
      if item.id in c.items then c
      else
        var at := if before.Some? then IndexOf(c.ids, before.value) else |c.ids|;
        c.(ids := c.ids[..at] + [item.id] + c.ids[at..], items := c.items[item.id := item])
    case ItemRemoved(id) =>
      if id in c.items then c.(ids := Without(c.ids, id), items := c.items - {id}) else c
    case TurnStarted => Turn(c, Running, None)
    case TurnCompleted => Turn(c, Idle, None)
    case TurnFailed(message) => Turn(c, Failed, Some(message))
    case TurnInterrupted(message) => Turn(c, Interrupted, Some(message))
    case TurnStopped => Turn(c, Stopped, None)
    case MessageQueueChanged(id, queued) =>
      if id in c.items && c.items[id].Message? then c.(items := c.items[id := c.items[id].(queued := queued)]) else c
    case TextDelta(id, text) =>
      if id in c.items && c.items[id].Message? && text != ""
          then c.(items := c.items[id := c.items[id].(text := c.items[id].text + text)]) else c
    case ReasoningDelta(id, text) =>
      if id in c.items && c.items[id].Reasoning? && text != ""
          then c.(items := c.items[id := c.items[id].(text := c.items[id].text + text)]) else c
    case UsageUpdate(id, tokens) =>
      if id in c.items && c.items[id].Usage? then c.(items := c.items[id := c.items[id].(tokens := tokens)]) else c
    case ToolUpdate(id, detail, status) =>
      if id in c.items && c.items[id].Tool? then c.(items := c.items[id := c.items[id].(detail := detail,
          status := status)]) else c
  }

  ghost function ApplyAll(c: Client, deltas: seq<Delta>): Client {
    if deltas == [] then c else Apply(ApplyAll(c, deltas[..|deltas| - 1]), deltas[|deltas| - 1])
  }

  // ----- what it shows -----

  /** `ToolUpdate` carries no name, so a client may keep a tool's first name. */
  predicate SameButName(a: Item, b: Item) {
    if a.Tool? && b.Tool? then a.(name := b.name) == b else a == b
  }

  ghost predicate ShowsItems(c: Client, items: seq<Item>) {
    && |c.ids| == |items|
    && (forall i :: 0 <= i < |items| ==>
          && c.ids[i] == items[i].id && c.ids[i] in c.items
          && SameButName(c.items[c.ids[i]], items[i]))
    && (forall id :: id in c.items ==> id in c.ids)
  }

  ghost predicate Shows(c: Client, s: State) {
    ShowsItems(c, s.items) && c.phase == s.phase && c.failure == s.failure
  }

  predicate AboutItems(delta: Delta) {
    !(delta.InputRequested? || delta.InputResolved? || delta.TurnStarted? || delta.TurnCompleted? || delta.TurnFailed?
      || delta.TurnInterrupted? || delta.TurnStopped?)
  }

  /** The client sees the same items again, everything else as before. */
  ghost predicate ItemsFollow(before: Client, after: Client, items: seq<Item>) {
    ShowsItems(after, items) && after == before.(ids := after.ids, items := after.items)
  }

  // ----- one delta -----

  function Inserted<T>(s: seq<T>, at: nat, x: T): (r: seq<T>)
    requires at <= |s|
    ensures |r| == |s| + 1 && r[at] == x
    ensures forall k :: 0 <= k < at ==> r[k] == s[k]
    ensures forall k :: at < k < |r| ==> r[k] == s[k - 1]
    ensures forall k :: at <= k < |s| ==> r[k + 1] == s[k]
  {
    s[..at] + [x] + s[at..]
  }

  lemma {:induction false} InsertedShows(c: Client, items: seq<Item>, at: nat, item: Item)
    requires ShowsItems(c, items) && at <= |items| && item.id !in c.items
    ensures ShowsItems(c.(ids := Inserted(c.ids, at, item.id), items := c.items[item.id := item]),
                       Inserted(items, at, item))
  {
    hide Inserted;
    var ids, shown := Inserted(c.ids, at, item.id), c.items[item.id := item];
    var after := Inserted(items, at, item);
    forall k | 0 <= k < |after|
      ensures ids[k] == after[k].id && ids[k] in shown && SameButName(shown[ids[k]], after[k])
    {
      var was := if k < at then k else k - 1;
      if k != at { assert c.ids[was] == items[was].id; }
    }
    forall id | id in shown
      ensures id in ids
    {
      if id == item.id {
        assert ids[at] == id;
      } else {
        var k :| 0 <= k < |c.ids| && c.ids[k] == id;
        assert ids[if k < at then k else k + 1] == id;
      }
    }
  }

  lemma {:induction false} NotShown(c: Client, items: seq<Item>, id: ItemId)
    requires ShowsItems(c, items) && FindItem(items, id) == |items|
    ensures id !in c.items
  {
    forall k | 0 <= k < |items|
      ensures c.ids[k] != id
    {
      assert items[k].id != id;
    }
  }

  lemma {:induction false} SameSlot(c: Client, items: seq<Item>)
    requires ShowsItems(c, items)
    ensures var before := BeforeItem(items);
            Slot(items) == if before.Some? then IndexOf(c.ids, before.value) else |c.ids|
  {
    if BeforeItem(items).Some? {
      SameIndex(c, items, BeforeItem(items).value);
    }
  }

  lemma {:induction false} SameIndex(c: Client, items: seq<Item>, id: ItemId)
    requires ShowsItems(c, items)
    ensures FindItem(items, id) == IndexOf(c.ids, id)
  {
    var i, k := FindItem(items, id), IndexOf(c.ids, id);
    if i < |items| { assert c.ids[i] == items[i].id; }
    if k < |items| { assert c.ids[k] == items[k].id; }
  }

  lemma {:induction false} InsertFollows(c: Client, items: seq<Item>, item: Item)
    requires ShowsItems(c, items) && FindItem(items, item.id) == |items|
    ensures ItemsFollow(c, Apply(c, ItemAdded(BeforeItem(items), item)),
        items[..Slot(items)] + [item] + items[Slot(items)..])
  {
    hide ShowsItems, FindItem, Slot, BeforeItem;
    NotShown(c, items, item.id);
    SameSlot(c, items);
    SameLength(c, items);
    InsertedShows(c, items, Slot(items), item);
  }

  lemma {:induction false} SameLength(c: Client, items: seq<Item>)
    requires ShowsItems(c, items)
    ensures |c.ids| == |items|
  {
  }

  lemma {:induction false} ReplaceFollows(c: Client, c': Client, items: seq<Item>, i: nat, item: Item, shown: Item)
    requires ShowsItems(c, items) && Distinct(items) && i < |items| && item.id == items[i].id
    requires c' == c.(items := c.items[item.id := shown]) && SameButName(shown, item)
    ensures ItemsFollow(c, c', items[i := item])
  {
    hide Distinct, SameButName;
    assert c.ids[i] == items[i].id;
    OthersDiffer(items, i);
    forall k | 0 <= k < |items|
      ensures c'.ids[k] == items[i := item][k].id && c'.ids[k] in c'.items
              && SameButName(c'.items[c'.ids[k]], items[i := item][k])
    {
      assert c.ids[k] == items[k].id;
    }
  }

  lemma {:induction false} OthersDiffer(items: seq<Item>, i: nat)
    requires Distinct(items) && i < |items|
    ensures forall k :: 0 <= k < |items| && k != i ==> items[k].id != items[i].id
  {
  }

  lemma {:induction false} FoundShown(c: Client, items: seq<Item>, id: ItemId)
    requires ShowsItems(c, items) && FindItem(items, id) < |items|
    ensures id in c.items && SameButName(c.items[id], items[FindItem(items, id)])
  {
    assert c.ids[FindItem(items, id)] == id;
  }

  function Removed<T>(s: seq<T>, at: nat): (r: seq<T>)
    requires at < |s|
    ensures |r| == |s| - 1
    ensures forall k :: 0 <= k < at ==> r[k] == s[k]
    ensures forall k :: at <= k < |r| ==> r[k] == s[k + 1]
    ensures forall k :: at < k < |s| ==> r[k - 1] == s[k]
  {
    s[..at] + s[at + 1..]
  }

  lemma {:induction false} RemovedShows(c: Client, items: seq<Item>, i: nat)
    requires ShowsItems(c, items) && Distinct(items) && i < |items|
    ensures |c.ids| == |items| && c.ids[i] == items[i].id && items[i].id in c.items
    ensures ShowsItems(c.(ids := Removed(c.ids, i), items := c.items - {items[i].id}), Removed(items, i))
  {
    hide Removed, Distinct, SameButName;
    var id := items[i].id;
    assert c.ids[i] == id;
    var ids, shown, after := Removed(c.ids, i), c.items - {id}, Removed(items, i);
    OthersDiffer(items, i);
    forall k | 0 <= k < |after|
      ensures ids[k] == after[k].id && ids[k] in shown && SameButName(shown[ids[k]], after[k])
    {
      var was := if k < i then k else k + 1;
      assert c.ids[was] == items[was].id;
    }
    forall other | other in shown
      ensures other in ids
    {
      var k :| 0 <= k < |c.ids| && c.ids[k] == other;
      assert ids[if k < i then k else k - 1] == other;
    }
  }

  lemma {:induction false} RemoveFollows(c: Client, items: seq<Item>, i: nat)
    requires ShowsItems(c, items) && Distinct(items) && i < |items|
    ensures ItemsFollow(c, Apply(c, ItemRemoved(items[i].id)), items[..i] + items[i + 1..])
  {
    hide ShowsItems;
    RemovedShows(c, items, i);
    OthersDiffer(items, i);
    forall k | 0 <= k < |c.ids| && k != i
      ensures c.ids[k] != c.ids[i]
    {
      ShownAt(c, items, k);
    }
    WithoutOne(c.ids, i);
  }

  lemma {:induction false} WithoutOne(ids: seq<ItemId>, i: nat)
    requires i < |ids| && forall k :: 0 <= k < |ids| && k != i ==> ids[k] != ids[i]
    ensures Without(ids, ids[i]) == ids[..i] + ids[i + 1..]
  {
    if i == 0 {
      WithoutNone(ids[1..], ids[0]);
    } else {
      WithoutOne(ids[1..], i - 1);
      assert ids[1..][..i - 1] == ids[1..i] && ids[1..][i..] == ids[i + 1..];
      assert ids[..i] == [ids[0]] + ids[1..i];
    }
  }

  lemma {:induction false} WithoutNone(ids: seq<ItemId>, id: ItemId)
    requires forall k :: 0 <= k < |ids| ==> ids[k] != id
    ensures Without(ids, id) == ids
  {
    if ids != [] {
      WithoutNone(ids[1..], id);
    }
  }

  // ----- the helpers of the projection -----

  /** `c` has been sent everything in `p` and shows its items; the rest is as in `c0`. */
  ghost predicate Follows(c0: Client, p: Projected) {
    ItemsFollow(c0, ApplyAll(c0, p.emitted), p.state.items)
  }

  lemma {:induction false} SaidOne(c0: Client, p: Projected, items: seq<Item>, delta: Delta)
    requires Follows(c0, p)
    requires ItemsFollow(ApplyAll(c0, p.emitted), Apply(ApplyAll(c0, p.emitted), delta), items)
    ensures Follows(c0, With(p, items, delta))
  {
    var emitted := p.emitted + [delta];
    assert emitted[..|emitted| - 1] == p.emitted;
  }

  lemma {:induction false} AddFollows(c0: Client, p: Projected, item: Item)
    requires Follows(c0, p) && Distinct(p.state.items)
    ensures Follows(c0, AddItem(p, item))
  {
    hide Distinct, ShowsItems;
    var items := p.state.items;
    if FindItem(items, item.id) == |items| {
      InsertFollows(ApplyAll(c0, p.emitted), items, item);
      SaidOne(c0, p, items[..Slot(items)] + [item] + items[Slot(items)..], ItemAdded(BeforeItem(items), item));
    }
  }

  lemma {:induction false} SetQueuedFollows(c0: Client, p: Projected, id: ItemId, queued: bool)
    requires Follows(c0, p) && Distinct(p.state.items)
    ensures Follows(c0, SetQueued(p, id, queued))
  {
    hide Distinct, ShowsItems;
    var items, c := p.state.items, ApplyAll(c0, p.emitted);
    var i := FindItem(items, id);
    if i < |items| && items[i].Message? && items[i].queued != queued {
      FoundShown(c, items, id);
      var item := items[i].(queued := queued);
      assert Apply(c, MessageQueueChanged(id, queued)) == c.(items := c.items[id := item]);
      ReplaceFollows(c, Apply(c, MessageQueueChanged(id, queued)), items, i, item, item);
      SaidOne(c0, p, items[i := item], MessageQueueChanged(id, queued));
    }
  }

  lemma {:induction false} AppendFollows(c0: Client, p: Projected, id: ItemId, delta: string, reasoning: bool)
    requires Follows(c0, p) && Distinct(p.state.items)
    ensures Follows(c0, AppendText(p, id, delta, reasoning))
  {
    hide Distinct, ShowsItems;
    var items, c := p.state.items, ApplyAll(c0, p.emitted);
    var i := FindItem(items, id);
    if i < |items| && (if reasoning then items[i].Reasoning? else items[i].Message?) {
      FoundShown(c, items, id);
      var item := items[i].(text := items[i].text + delta);
      var sent := if reasoning then ReasoningDelta(id, delta) else TextDelta(id, delta);
      assert items[i].text + "" == items[i].text;
      assert delta != "" ==> Apply(c, sent) == c.(items := c.items[id := item]);
      assert delta == "" ==> c.items[id := item] == c.items;
      ReplaceFollows(c, Apply(c, sent), items, i, item, item);
      SaidOne(c0, p, items[i := item], sent);
    }
  }

  lemma {:induction false} UpdateToolFollows(c0: Client, p: Projected, id: ItemId, name: Option<string>,
      detail: Option<string>, status: ToolStatus)
    requires Follows(c0, p) && Distinct(p.state.items)
    ensures Follows(c0, UpdateTool(p, id, name, detail, status))
  {
    hide Distinct, ShowsItems;
    var items, c := p.state.items, ApplyAll(c0, p.emitted);
    var i := FindItem(items, id);
    if i < |items| && items[i].Tool? {
      FoundShown(c, items, id);
      var tool := Tool(items[i].id, OrElse(name, items[i].name), OrElse(detail, items[i].detail), status);
      var shown := c.items[id].(detail := tool.detail, status := status);
      assert Apply(c, ToolUpdate(id, tool.detail, status)) == c.(items := c.items[id := shown]);
      ReplaceFollows(c, Apply(c, ToolUpdate(id, tool.detail, status)), items, i, tool, shown);
      SaidOne(c0, p, items[i := tool], ToolUpdate(id, tool.detail, status));
    } else {
      AddFollows(c0, p, Tool(id, OrElse(name, "tool"), OrElse(detail, ""), status));
    }
  }

  lemma {:induction false} UsageFollows(c0: Client, p: Projected, index: nat, tokens: Tokens)
    requires Follows(c0, p) && Distinct(p.state.items)
    ensures Follows(c0, ReconcileUsage(p, index, tokens))
  {
    hide Distinct, ShowsItems;
    var items, c, id := p.state.items, ApplyAll(c0, p.emitted), UsageId(index);
    var i := FindItem(items, id);
    if i < |items| && items[i].Usage? {
      FoundShown(c, items, id);
      var item := items[i].(tokens := tokens);
      assert Apply(c, UsageUpdate(id, tokens)) == c.(items := c.items[id := item]);
      ReplaceFollows(c, Apply(c, UsageUpdate(id, tokens)), items, i, item, item);
      SaidOne(c0, p, items[i := item], UsageUpdate(id, tokens));
    } else {
      AddFollows(c0, p, Usage(id, tokens));
    }
  }

  lemma {:induction false} ReconcileFollows(c0: Client, p: Projected, item: Item)
    requires Follows(c0, p) && Distinct(p.state.items)
    ensures Follows(c0, ReconcileItem(p, item))
  {
    hide Follows, Distinct, AddItem, AppendText, ReconcileUsage, Format, UsageIndex;
    var items := p.state.items;
    var i := FindItem(items, item.id);
    if i == |items| {
      AddFollows(c0, p, item);
    } else {
      match (items[i], item) {
        case (Message(_, _, _, current), Message(_, _, _, final)) =>
          if current <= final { AppendFollows(c0, p, item.id, final[|current|..], false); }
        case (Reasoning(_, current), Reasoning(_, final)) =>
          if current <= final { AppendFollows(c0, p, item.id, final[|current|..], true); }
        case (Usage(_, _), Usage(_, tokens)) => UsageFollows(c0, p, UsageIndex(Format(item.id)), tokens);
        case _ =>
      }
    }
  }

  lemma {:induction false} AddAllFollows(c0: Client, p: Projected, added: seq<Item>)
    requires Follows(c0, p) && Good(p.state)
    requires forall i :: 0 <= i < |added| ==> Fits(added[i], p.state.next)
    ensures Follows(c0, AddAll(p, added))
  {
    hide Follows, Fits, AddItem;
    if added != [] {
      var init := added[..|added| - 1];
      AddAllFollows(c0, p, init);
      AddAllKeeps(p, init);
      AddFollows(c0, AddAll(p, init), added[|added| - 1]);
    }
  }

  lemma {:induction false} ReconcileAllFollows(c0: Client, p: Projected, final: seq<Item>)
    requires Follows(c0, p) && Good(p.state)
    requires forall i :: 0 <= i < |final| ==> Fits(final[i], p.state.next)
    ensures Follows(c0, ReconcileAll(p, final))
  {
    hide Follows, Fits, ReconcileItem;
    if final != [] {
      var init := final[..|final| - 1];
      ReconcileAllFollows(c0, p, init);
      ReconcileAllKeeps(p, init);
      ReconcileFollows(c0, ReconcileAll(p, init), final[|final| - 1]);
    }
  }

  // ----- sweeps -----

  lemma {:induction false} AppliedInTurn(c: Client, a: seq<Delta>, b: seq<Delta>)
    ensures ApplyAll(c, a + b) == ApplyAll(ApplyAll(c, a), b)
  {
    hide Apply;
    if b == [] {
      assert a + b == a;
    } else {
      AppliedInTurn(c, a, b[..|b| - 1]);
      assert (a + b)[..|a + b| - 1] == a + b[..|b| - 1];
    }
  }

  /** The items when the sweep has reached the first `k`. */
  ghost function RequeuedTo(items: seq<Item>, wanted: set<ItemId>, k: nat): seq<Item>
    requires k <= |items|
  {
    seq(|items|, i requires 0 <= i < |items| => if i < k then Requeued(items[i], wanted) else items[i])
  }

  lemma {:induction false} QueueFollows(c: Client, items: seq<Item>, wanted: set<ItemId>, k: nat)
    requires ShowsItems(c, items) && Distinct(items) && k <= |items|
    ensures ItemsFollow(c, ApplyAll(c, QueueDeltas(items[..k], wanted)), RequeuedTo(items, wanted, k))
  {
    hide ShowsItems, Distinct, Apply, RequeuedTo, Requeued;
    if k == 0 {
      RequeuedNone(items, wanted);
    } else {
      QueueFollows(c, items, wanted, k - 1);
      var deltas := QueueDeltas(items[..k - 1], wanted);
      assert items[..k][..k - 1] == items[..k - 1];
      QueueOne(ApplyAll(c, deltas), items, wanted, k - 1);
      if Requeued(items[k - 1], wanted) != items[k - 1] {
        var delta := MessageQueueChanged(items[k - 1].id, items[k - 1].id in wanted);
        assert (deltas + [delta])[..|deltas|] == deltas;
      } else {
        assert QueueDeltas(items[..k], wanted) == deltas;
      }
    }
  }

  lemma {:induction false} RequeuedNone(items: seq<Item>, wanted: set<ItemId>)
    ensures RequeuedTo(items, wanted, 0) == items
  {
  }

  lemma {:induction false} QueueOne(c: Client, items: seq<Item>, wanted: set<ItemId>, k: nat)
    requires k < |items| && Distinct(items) && ShowsItems(c, RequeuedTo(items, wanted, k))
    ensures Requeued(items[k], wanted) != items[k] ==>
              ItemsFollow(c, Apply(c, MessageQueueChanged(items[k].id, items[k].id in wanted)),
                          RequeuedTo(items, wanted, k + 1))
    ensures Requeued(items[k], wanted) == items[k] ==> RequeuedTo(items, wanted, k) == RequeuedTo(items, wanted, k + 1)
  {
    hide ShowsItems;
    var done, last, now := RequeuedTo(items, wanted, k), items[k], Requeued(items[k], wanted);
    assert RequeuedTo(items, wanted, k + 1) == done[k := now];
    if now != last {
      ShownAt(c, done, k);
      var c' := Apply(c, MessageQueueChanged(last.id, last.id in wanted));
      assert c' == c.(items := c.items[last.id := now]);
      assert Distinct(done);
      ReplaceFollows(c, c', done, k, now, now);
    }
  }

  lemma {:induction false} ShownAt(c: Client, items: seq<Item>, i: nat)
    requires ShowsItems(c, items) && i < |items|
    ensures |c.ids| == |items| && c.ids[i] == items[i].id
    ensures items[i].id in c.items && SameButName(c.items[items[i].id], items[i])
  {
    assert c.ids[i] == items[i].id;
  }

  ghost function HaltedTo(items: seq<Item>, k: nat): seq<Item>
    requires k <= |items|
  {
    seq(|items|, i requires 0 <= i < |items| => if i < k then Halted(items[i]) else items[i])
  }

  lemma {:induction false} HaltFollows(c: Client, items: seq<Item>, k: nat)
    requires ShowsItems(c, items) && Distinct(items) && k <= |items|
    ensures ItemsFollow(c, ApplyAll(c, HaltDeltas(items[..k])), HaltedTo(items, k))
  {
    hide ShowsItems, Distinct, Apply, HaltedTo;
    if k == 0 {
      HaltedNone(items);
    } else {
      HaltFollows(c, items, k - 1);
      var deltas := HaltDeltas(items[..k - 1]);
      assert items[..k][..k - 1] == items[..k - 1];
      HaltOne(ApplyAll(c, deltas), items, k - 1);
      if Halted(items[k - 1]) != items[k - 1] {
        var delta := ToolUpdate(items[k - 1].id, items[k - 1].detail, ToolInterrupted);
        assert (deltas + [delta])[..|deltas|] == deltas;
      } else {
        assert HaltDeltas(items[..k]) == deltas;
      }
    }
  }

  lemma {:induction false} HaltedNone(items: seq<Item>)
    ensures HaltedTo(items, 0) == items
  {
  }

  lemma {:induction false} HaltOne(c: Client, items: seq<Item>, k: nat)
    requires k < |items| && Distinct(items) && ShowsItems(c, HaltedTo(items, k))
    ensures Halted(items[k]) != items[k] ==>
              ItemsFollow(c, Apply(c, ToolUpdate(items[k].id, items[k].detail, ToolInterrupted)),
                          HaltedTo(items, k + 1))
    ensures Halted(items[k]) == items[k] ==> HaltedTo(items, k) == HaltedTo(items, k + 1)
  {
    hide ShowsItems;
    var done, last, now := HaltedTo(items, k), items[k], Halted(items[k]);
    assert HaltedTo(items, k + 1) == done[k := now];
    if now != last {
      ShownAt(c, done, k);
      var c' := Apply(c, ToolUpdate(last.id, last.detail, ToolInterrupted));
      var shown := c.items[last.id].(detail := last.detail, status := ToolInterrupted);
      assert c' == c.(items := c.items[last.id := shown]);
      assert Distinct(done);
      ReplaceFollows(c, c', done, k, now, shown);
    }
  }

  lemma {:induction false} QueueReplays(c0: Client, p: Projected)
    requires Follows(c0, p) && Distinct(p.state.items)
    ensures Follows(c0, ReconcileQueue(p))
  {
    hide ShowsItems, Distinct, QueueDeltas, Waiting;
    var items, wanted := p.state.items, Waiting(p.state.pending, p.state.steering);
    QueueFollows(ApplyAll(c0, p.emitted), items, wanted, |items|);
    assert items[..|items|] == items;
    AppliedInTurn(c0, p.emitted, QueueDeltas(items, wanted));
    assert ReconcileQueue(p).state.items == RequeuedTo(items, wanted, |items|);
  }
}
