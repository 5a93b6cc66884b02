/** The requests of one Pi child: which are pending, which were given up on, and what became
    of the rest. Every method is one critical section of the transport, so an interleaving
    of callers, the reader and the supervisor is a sequence of steps. */
module RpcRequests {
  import opened Options
  import opened Numerals
  import opened Sequences

  const MAX_ABANDONED_REQUESTS: nat := 256

  /** A response as read, with whatever fields it has. */
  datatype Message = Message(id: Option<string>, command: Option<string>, success: Option<bool>, error: Option<string>,
      data: string)

  datatype Reply =
    | Accepted(data: string)
    | Remote(message: string)
    | Violation(problem: string)
    | Ended(error: string)

  datatype Delivery = Delivery(id: string, reply: Reply)

  /** What became of an issued id. */
  datatype Fate = Fresh | Waiting | Answered | Abandoned | Unheard | Evicted | Discarded | FailedByFinish | Refused

  datatype State = State(next: nat, pending: map<string, string>, abandoned: seq<string>, terminal: Option<string>,
                         delivered: seq<Delivery>, fates: map<string, Fate>)

  function Id(n: nat): string {
    "piu-" + Decimal(n)
  }

  lemma {:induction false} IdInjective(a: nat, b: nat)
    ensures Id(a) == Id(b) <==> a == b
  {
    DecimalRoundTrip(a);
    DecimalRoundTrip(b);
    assert Id(a)[4..] == Decimal(a) && Id(b)[4..] == Decimal(b);
  }

  // ----- the steps -----

  ghost function Issue(s: State): State {
    s.(next := s.next + 1, fates := s.fates[Id(s.next + 1) := Fresh])
  }

  ghost function Insert(s: State, id: string, command: string): State {
    if s.terminal.Some? then s.(fates := s.fates[id := Refused])
    else s.(pending := s.pending[id := command], fates := s.fates[id := Waiting])
  }

  ghost function Abandon(s: State, id: string): State {
    if id !in s.pending then s
    else
      var queue := s.abandoned + [id];
      var fates := s.fates[id := Abandoned];
      var t := s.(pending := s.pending - {id});
      if |queue| > MAX_ABANDONED_REQUESTS then t.(abandoned := queue[1..], fates := fates[queue[0] := Evicted])
      else t.(abandoned := queue, fates := fates)
  }

  ghost function Discard(s: State, id: string): State {
    if id in s.pending then s.(pending := s.pending - {id}, fates := s.fates[id := Discarded]) else s
  }

  /** What a pending request is told by a response that bears its id. */
  function ReplyTo(expected: string, command: string, m: Message): Reply
    requires m.success.Some?
  {
    if expected != command then Violation("acknowledged " + command + ", expected " + expected)
    else if m.success.value then Accepted(m.data)
    else if m.error.Some? then Remote(m.error.value)
    else Violation("failed response omitted its error message")
  }

  datatype Resolution = Resolution(state: State, problem: Option<string>)

  ghost function Resolve(s: State, m: Message): Resolution {
    if m.id.None? then Resolution(s, Some("response omitted its string id"))
    else if m.command.None? then Resolution(s, Some("response omitted its command"))
    else if m.success.None? then Resolution(s, Some("response omitted its success flag"))
    else
      var id := m.id.value;
      var i := IndexOf(s.abandoned, id);
      if i < |s.abandoned| then
        Resolution(s.(abandoned := s.abandoned[..i] + s.abandoned[i + 1..], fates := s.fates[id := Unheard]), None)
      else if id !in s.pending then Resolution(s, Some("unknown or duplicate response id " + id))
      else
        var reply := ReplyTo(s.pending[id], m.command.value, m);
        Resolution(s.(pending := s.pending - {id}, delivered := s.delivered + [Delivery(id, reply)],
            fates := s.fates[id := Answered]),
                   if reply.Violation? then Some(reply.problem) else None)
  }

  /** Delivers the error to `ids`, in some order. */
  ghost predicate Notified(before: seq<Delivery>, after: seq<Delivery>, ids: set<string>, error: string) {
    && before <= after
    && (forall i :: |before| <= i < |after| ==> after[i].reply == Ended(error) && after[i].id in ids)
    && (forall i, j :: |before| <= i < j < |after| ==> after[i].id != after[j].id)
    && (forall id :: id in ids ==> exists i :: |before| <= i < |after| && after[i].id == id)
  }

  ghost predicate Finishes(s: State, t: State, error: string) {
    if s.terminal.Some? then t == s
    else
      && t == s.(terminal := Some(error), pending := map[], delivered := t.delivered, fates := t.fates)
      && Notified(s.delivered, t.delivered, s.pending.Keys, error)
      && t.fates == map id | id in s.fates :: if id in s.pending then FailedByFinish else s.fates[id]
  }

  class Transport {
    var next: nat
    var pending: map<string, string>
    var abandoned: seq<string>
    var terminal: Option<string>
    /** What the callers are told, in the order it was settled under the lock. */
    var delivered: seq<Delivery>
    ghost var fates: map<string, Fate>

    constructor ()
      ensures Value() == State(0, map[], [], None, [], map[])
    {
      next, pending, abandoned, terminal, delivered, fates := 0, map[], [], None, [], map[];
    }

    ghost function Value(): State
      reads this
    {
      State(next, pending, abandoned, terminal, delivered, fates)
    }

    method NextId() returns (id: string)
      modifies this
      ensures Value() == Issue(old(Value())) && id == Id(next)
    {
      next := next + 1;
      id := Id(next);
      fates := fates[id := Fresh];
    }

    method InsertPending(id: string, command: string) returns (ok: bool)
      modifies this
      ensures Value() == Insert(old(Value()), id, command) && (ok <==> old(terminal).None?)
    {
      if terminal.Some? {
        fates := fates[id := Refused];
        return false;
      }
      pending := pending[id := command];
      fates := fates[id := Waiting];
      ok := true;
    }

    method AbandonRequest(id: string)
      modifies this
      ensures Value() == Abandon(old(Value()), id)
    {
      if id in pending {
        pending := pending - {id};
        abandoned := abandoned + [id];
        fates := fates[id := Abandoned];
        if |abandoned| > MAX_ABANDONED_REQUESTS {
          fates := fates[abandoned[0] := Evicted];
          abandoned := abandoned[1..];
        }
      }
    }

    method DiscardRequest(id: string)
      modifies this
      ensures Value() == Discard(old(Value()), id)
    {
      if id in pending { fates := fates[id := Discarded]; }
      pending := pending - {id};
    }

    method ResolveResponse(m: Message) returns (problem: Option<string>)
      modifies this
      ensures Resolution(Value(), problem) == Resolve(old(Value()), m)
    {
      if m.id.None? { return Some("response omitted its string id"); }
      if m.command.None? { return Some("response omitted its command"); }
      if m.success.None? { return Some("response omitted its success flag"); }
      var id := m.id.value;
      var i := 0;
      while i < |abandoned| && abandoned[i] != id
        invariant i <= IndexOf(abandoned, id)
      {
        i := i + 1;
      }
      if i < |abandoned| {
        abandoned := abandoned[..i] + abandoned[i + 1..];
        fates := fates[id := Unheard];
        return None;
      }
      if id !in pending { return Some("unknown or duplicate response id " + id); }
      var reply := ReplyTo(pending[id], m.command.value, m);
      pending := pending - {id};
      delivered := delivered + [Delivery(id, reply)];
      fates := fates[id := Answered];
      problem := if reply.Violation? then Some(reply.problem) else None;
    }

    method Finish(error: string)
      modifies this
      ensures Finishes(old(Value()), Value(), error)
    {
      if terminal.Some? { return; }
      terminal := Some(error);
      ghost var failed := map id | id in fates :: if id in pending then FailedByFinish else fates[id];
      var left := pending.Keys;
      fates := failed;
      pending := map[];
      NotifyAll(left, error);
    }

    method NotifyAll(ids: set<string>, error: string)
      modifies `delivered
      ensures Notified(old(delivered), delivered, ids, error)
    {
      hide Notified;
      var left := ids;
      NotifyNone(delivered, error);
      assert ids - left == {};
      while left != {}
        invariant left <= ids && Notified(old(delivered), delivered, ids - left, error)
        decreases left
      {
        var id :| id in left;
        ghost var told := delivered;
        delivered := delivered + [Delivery(id, Ended(error))];
        NotifyOne(old(delivered), told, ids - left, id, error);
        assert ids - (left - {id}) == (ids - left) + {id};
        left := left - {id};
      }
      assert ids - left == ids;
    }

    /** Any number of critical sections of other threads. */
    method Interleave()
      requires Accounted(Value())
      modifies this
      ensures Accounted(Value()) && Onward(old(Value()), Value())
    {
      hide Accounted, Onward, Issue, Insert, Abandon, Discard, Finishes;
      ghost var s0 := Value();
      StayOnward(s0);
      var rounds: nat :| true;
      for i := 0 to rounds
        invariant Accounted(Value()) && Onward(s0, Value())
      {
        ghost var s := Value();
        var choice: int, id: string, text: string := *, *, *;
        match choice {
          case 0 =>
            var issued := NextId();
            StepTaken(s0, s, Issues, Value());
            IssuedFresh(s);
            s := Value();
            var _ := InsertPending(issued, text);
            StepTaken(s0, s, Inserts(issued, text), Value());
          case 1 => AbandonRequest(id); StepTaken(s0, s, Abandons(id), Value());
          case 2 => DiscardRequest(id); StepTaken(s0, s, Discards(id), Value());
          case _ => Finish(text); StepTaken(s0, s, Ends(text), Value());
        }
      }
    }

    /** A response that cannot be matched or read ends the transport, unless an error of
        another thread came in between and ended it first. */
    method HandleResponse(m: Message)
      requires Accounted(Value())
      modifies this
      ensures var r := Resolve(old(Value()), m);
              && Accounted(Value()) && Onward(r.state, Value())
              && (r.problem.None? ==> Value() == r.state)
              && (r.problem.Some? ==> terminal.Some? && pending == map[])
    {
      hide Accounted, Onward, Resolve, Finishes;
      ghost var s := Value();
      var problem := ResolveResponse(m);
      ghost var resolved := Value();
      ResolveAccounted(s, m);
      StayOnward(resolved);
      if problem.Some? {
        Interleave();
        ghost var now := Value();
        Finish(problem.value);
        StepTaken(resolved, now, Ends(problem.value), Value());
        FinishAccounted(now, Value(), problem.value);
      }
    }
  }

  lemma {:induction false} StepTaken(s0: State, s: State, e: Event, t: State)
    requires Accounted(s) && Onward(s0, s) && Steps(s, e, t)
    ensures Accounted(t) && Onward(s0, t)
  {
    hide Accounted, Onward, Steps;
    StepAccounted(s, e, t);
    StepOnward(s, e, t);
    OnwardTrans(s0, s, t);
  }

  lemma {:induction false} IssuedFresh(s: State)
    ensures var t := Issue(s); Id(t.next) in t.fates && t.fates[Id(t.next)].Fresh?
  {
  }

  lemma {:induction false} NotifyNone(before: seq<Delivery>, error: string)
    ensures Notified(before, before, {}, error)
  {
  }

  lemma {:induction false} NotifyOne(before: seq<Delivery>, told: seq<Delivery>, ids: set<string>, id: string,
      error: string)
    requires Notified(before, told, ids, error) && id !in ids
    ensures Notified(before, told + [Delivery(id, Ended(error))], ids + {id}, error)
  {
    var after := told + [Delivery(id, Ended(error))];
    assert after[|told|].id == id;
    forall x | x in ids
      ensures exists i :: |before| <= i < |after| && after[i].id == x
    {
      var i :| |before| <= i < |told| && told[i].id == x;
      assert after[i].id == x;
    }
  }

  // ----- the invariant -----

  predicate IsIssued(s: State, id: string) {
    exists n :: 1 <= n <= s.next && id == Id(n)
  }

  ghost predicate Told(delivered: seq<Delivery>, id: string) {
    exists i :: 0 <= i < |delivered| && delivered[i].id == id
  }

  /** Each issued id is in exactly one of the states of `Fate`, and the transport's own
      collections say the same. */
  ghost predicate Accounted(s: State) {
    && (forall id :: id in s.fates <==> IsIssued(s, id))
    && (forall id :: id in s.pending <==> id in s.fates && s.fates[id].Waiting?)
    && (forall id :: id in s.abandoned <==> id in s.fates && s.fates[id].Abandoned?)
    && (forall i, j :: 0 <= i < j < |s.abandoned| ==> s.abandoned[i] != s.abandoned[j])
    && |s.abandoned| <= MAX_ABANDONED_REQUESTS
    && (s.terminal.Some? ==> s.pending == map[])
    && (forall id :: Told(s.delivered, id) <==> id in s.fates && (s.fates[id].Answered? || s.fates[id].FailedByFinish?))
    && (forall i, j :: 0 <= i < j < |s.delivered| ==> s.delivered[i].id != s.delivered[j].id)
  }

  /** A step of some caller, of the reader, or of whoever ends the transport. A response with
      a problem ends it later, in a step of its own. */
  datatype Event =
    | Issues
    | Inserts(id: string, command: string)
    | Abandons(id: string)
    | Discards(id: string)
    | Responds(m: Message)
    | Ends(error: string)

  /** A caller registers only the id it was just issued. */
  ghost predicate Steps(s: State, e: Event, t: State) {
    match e
    case Issues => t == Issue(s)
    case Inserts(id, command) => id in s.fates && s.fates[id].Fresh? && t == Insert(s, id, command)
    case Abandons(id) => t == Abandon(s, id)
    case Discards(id) => t == Discard(s, id)
    case Responds(m) => t == Resolve(s, m).state
    case Ends(error) => Finishes(s, t, error)
  }

  lemma {:induction false} IssueAccounted(s: State)
    requires Accounted(s)
    ensures Accounted(Issue(s)) && Id(s.next + 1) !in s.fates
  {
    var t := Issue(s);
    if Id(s.next + 1) in s.fates {
      var n :| 1 <= n <= s.next && Id(s.next + 1) == Id(n);
      IdInjective(s.next + 1, n);
    }
    forall id
      ensures id in t.fates <==> IsIssued(t, id)
    {
      if IsIssued(t, id) {
        var n :| 1 <= n <= t.next && id == Id(n);
        if n <= s.next { assert IsIssued(s, id); }
      }
      if id in s.fates {
        var n :| 1 <= n <= s.next && id == Id(n);
        assert 1 <= n <= t.next;
      }
      assert IsIssued(t, Id(t.next));
    }
  }

  lemma {:induction false} InsertAccounted(s: State, id: string, command: string)
    requires Accounted(s) && id in s.fates && s.fates[id].Fresh?
    ensures Accounted(Insert(s, id, command))
  {
    hide Told, IsIssued;
    SameIssued(s, Insert(s, id, command));
  }

  lemma {:induction false} SameIssued(s: State, t: State)
    requires s.next == t.next
    ensures forall id :: IsIssued(s, id) <==> IsIssued(t, id)
  {
  }

  lemma {:induction false} AbandonAccounted(s: State, id: string)
    requires Accounted(s)
    ensures Accounted(Abandon(s, id))
  {
    hide Accounted, Abandon;
    if PendingThere(s, id) {
      EnqueueAccounted(s, id);
      if |s.abandoned| >= MAX_ABANDONED_REQUESTS { EvictAccounted(s, id); }
    } else {
      NotPending(s, id);
    }
  }

  predicate PendingThere(s: State, id: string) {
    id in s.pending
  }

  lemma {:induction false} NotPending(s: State, id: string)
    requires !PendingThere(s, id)
    ensures Abandon(s, id) == s
  {
  }

  lemma {:induction false} EnqueueAccounted(s: State, id: string)
    requires Accounted(s) && PendingThere(s, id)
    ensures |s.abandoned| < MAX_ABANDONED_REQUESTS ==> Accounted(Abandon(s, id))
  {
    hide Told, IsIssued;
    if |s.abandoned| < MAX_ABANDONED_REQUESTS {
      var t := s.(pending := s.pending - {id}, abandoned := s.abandoned + [id], fates := s.fates[id := Abandoned]);
      assert Abandon(s, id) == t;
      SameIssued(s, t);
      assert id !in s.abandoned;
      assert forall x :: x in t.abandoned <==> x in s.abandoned || x == id;
    }
  }

  lemma {:induction false} EvictAccounted(s: State, id: string)
    requires Accounted(s) && PendingThere(s, id) && |s.abandoned| >= MAX_ABANDONED_REQUESTS
    ensures Accounted(Abandon(s, id))
  {
    hide Told, IsIssued;
    var queue := s.abandoned + [id];
    var t := s.(pending := s.pending - {id}, abandoned := queue[1..],
        fates := s.fates[id := Abandoned][queue[0] := Evicted]);
    assert Abandon(s, id) == t;
    SameIssued(s, t);
    assert id !in s.abandoned;
    assert queue[0] in s.abandoned;
    assert forall x :: x in queue <==> x in s.abandoned || x == id;
    TailMembers(queue);
  }

  lemma {:induction false} TailMembers(queue: seq<string>)
    requires queue != [] && forall i, j :: 0 <= i < j < |queue| ==> queue[i] != queue[j]
    ensures forall x :: x in queue[1..] <==> x in queue && x != queue[0]
  {
    forall x | x in queue && x != queue[0]
      ensures x in queue[1..]
    {
      var i :| 0 <= i < |queue| && queue[i] == x;
      assert queue[1..][i - 1] == x;
    }
  }

  lemma {:induction false} DiscardAccounted(s: State, id: string)
    requires Accounted(s)
    ensures Accounted(Discard(s, id))
  {
    hide Told, IsIssued;
    SameIssued(s, Discard(s, id));
  }

  lemma {:induction false} RemovedMembers(queue: seq<string>, i: nat)
    requires i < |queue| && forall i, j :: 0 <= i < j < |queue| ==> queue[i] != queue[j]
    ensures forall x :: x in queue[..i] + queue[i + 1..] <==> x in queue && x != queue[i]
  {
    var rest := queue[..i] + queue[i + 1..];
    forall x | x in queue && x != queue[i]
      ensures x in rest
    {
      var k :| 0 <= k < |queue| && queue[k] == x;
      assert rest[if k < i then k else k - 1] == x;
    }
  }

  lemma {:induction false} SwallowAccounted(s: State, i: nat)
    requires Accounted(s) && i < |s.abandoned|
    ensures Accounted(s.(abandoned := s.abandoned[..i] + s.abandoned[i + 1..],
        fates := s.fates[s.abandoned[i] := Unheard]))
  {
    hide Told, IsIssued;
    var t := s.(abandoned := s.abandoned[..i] + s.abandoned[i + 1..], fates := s.fates[s.abandoned[i] := Unheard]);
    SameIssued(s, t);
    assert s.abandoned[i] in s.abandoned;
    RemovedMembers(s.abandoned, i);
  }

  lemma {:induction false} AnswerAccounted(s: State, id: string, reply: Reply)
    requires Accounted(s) && id in s.pending
    ensures Accounted(s.(pending := s.pending - {id}, delivered := s.delivered + [Delivery(id, reply)],
        fates := s.fates[id := Answered]))
  {
    hide Told, IsIssued;
    var t := s.(pending := s.pending - {id}, delivered := s.delivered + [Delivery(id, reply)],
        fates := s.fates[id := Answered]);
    SameIssued(s, t);
    ToldMore(s.delivered, Delivery(id, reply));
    assert !Told(s.delivered, id);
    NotTold(s.delivered, id);
  }

  lemma {:induction false} ResolveAccounted(s: State, m: Message)
    requires Accounted(s)
    ensures Accounted(Resolve(s, m).state) && Resolve(s, m).state.terminal == s.terminal
  {
    hide Accounted, ReplyTo;
    if m.id.Some? && m.command.Some? && m.success.Some? {
      var i := IndexOf(s.abandoned, m.id.value);
      if i < |s.abandoned| {
        SwallowAccounted(s, i);
      } else if m.id.value in s.pending {
        AnswerAccounted(s, m.id.value, ReplyTo(s.pending[m.id.value], m.command.value, m));
      }
    }
  }

  lemma {:induction false} ToldMore(delivered: seq<Delivery>, d: Delivery)
    ensures forall id :: Told(delivered + [d], id) <==> Told(delivered, id) || id == d.id
  {
    var more := delivered + [d];
    assert more[|delivered|] == d;
    forall id | Told(delivered, id)
      ensures Told(more, id)
    {
      var i :| 0 <= i < |delivered| && delivered[i].id == id;
      assert more[i].id == id;
    }
  }

  lemma {:induction false} NotTold(delivered: seq<Delivery>, id: string)
    requires !Told(delivered, id)
    ensures forall i :: 0 <= i < |delivered| ==> delivered[i].id != id
  {
  }

  lemma {:induction false} FinishAccounted(s: State, t: State, error: string)
    requires Accounted(s) && Finishes(s, t, error)
    ensures Accounted(t) && t.terminal.Some? && t.pending == map[]
  {
    hide Told, IsIssued;
    SameIssued(s, t);
    if s.terminal.None? {
      ToldAfter(s.delivered, t.delivered, s.pending.Keys, error);
      forall i, j | 0 <= i < j < |t.delivered|
        ensures t.delivered[i].id != t.delivered[j].id
      {
        if i < |s.delivered| <= j {
          IsTold(s.delivered, i);
          assert t.delivered[i] == s.delivered[i];
          assert t.delivered[j].id in s.pending;
        } else if j < |s.delivered| {
          assert t.delivered[i] == s.delivered[i] && t.delivered[j] == s.delivered[j];
        }
      }
    }
  }

  lemma {:induction false} IsTold(delivered: seq<Delivery>, i: nat)
    requires i < |delivered|
    ensures Told(delivered, delivered[i].id)
  {
  }

  lemma {:induction false} ToldAfter(before: seq<Delivery>, after: seq<Delivery>, ids: set<string>, error: string)
    requires Notified(before, after, ids, error)
    ensures forall id :: Told(after, id) <==> Told(before, id) || id in ids
  {
    forall id
      ensures Told(after, id) <==> Told(before, id) || id in ids
    {
      if Told(before, id) {
        var i :| 0 <= i < |before| && before[i].id == id;
        assert after[i].id == id;
      }
      if Told(after, id) {
        var i :| 0 <= i < |after| && after[i].id == id;
        if i < |before| { assert before[i].id == id; }
      }
    }
  }

  /** Every step, of whoever it is, keeps the account. */
  lemma {:induction false} StepAccounted(s: State, e: Event, t: State)
    requires Accounted(s) && Steps(s, e, t)
    ensures Accounted(t)
  {
    hide Accounted, Issue, Insert, Abandon, Discard, Resolve, Finishes;
    match e {
      case Issues => IssueAccounted(s);
      case Inserts(id, command) => InsertAccounted(s, id, command);
      case Abandons(id) => AbandonAccounted(s, id);
      case Discards(id) => DiscardAccounted(s, id);
      case Responds(m) => ResolveAccounted(s, m);
      case Ends(error) => FinishAccounted(s, t, error);
    }
  }

  // ----- what never changes back -----

  predicate Settled(f: Fate) {
    !(f.Fresh? || f.Waiting? || f.Abandoned?)
  }

  /** A settled id stays as it is; what was delivered stays delivered; the terminal error is
      written once. */
  ghost predicate Onward(s: State, t: State) {
    && (forall id :: id in s.fates ==> id in t.fates && (Settled(s.fates[id]) ==> t.fates[id] == s.fates[id]))
    && s.delivered <= t.delivered
    && (s.terminal.Some? ==> t.terminal == s.terminal && t.delivered == s.delivered)
  }

  lemma {:induction false} ResolveOnward(s: State, m: Message)
    requires Accounted(s)
    ensures Onward(s, Resolve(s, m).state)
  {
    hide Told, ReplyTo;
    if m.id.Some? && m.command.Some? && m.success.Some? {
      var i := IndexOf(s.abandoned, m.id.value);
      if i < |s.abandoned| { assert s.abandoned[i] in s.abandoned; }
    }
  }

  lemma {:induction false} FinishOnward(s: State, t: State, error: string)
    requires Accounted(s) && Finishes(s, t, error)
    ensures Onward(s, t)
  {
    hide Told;
  }

  lemma {:induction false} StepOnward(s: State, e: Event, t: State)
    requires Accounted(s) && Steps(s, e, t)
    ensures Onward(s, t)
  {
    hide Told, Resolve, Finishes, IsIssued;
    match e {
      case Issues => IssueAccounted(s);
      case Abandons(id) =>
        if id in s.pending && s.abandoned != [] { assert s.abandoned[0] in s.abandoned; }
      case Responds(m) => ResolveOnward(s, m);
      case Ends(error) => FinishOnward(s, t, error);
      case _ =>
    }
  }

  lemma {:induction false} OnwardTrans(a: State, b: State, c: State)
    requires Onward(a, b) && Onward(b, c)
    ensures Onward(a, c)
  {
  }

  // ----- runs -----

  ghost predicate IsRun(states: seq<State>, events: seq<Event>) {
    && |states| == |events| + 1
    && states[0] == State(0, map[], [], None, [], map[])
    && forall i :: 0 <= i < |events| ==> Steps(states[i], events[i], states[i + 1])
  }

  /** In every interleaving the account holds at every point, and from any point on settled
      ids, deliveries and the terminal error stay. */
  lemma {:induction false} RunAccounted(states: seq<State>, events: seq<Event>, from: nat, end: nat)
    requires IsRun(states, events) && from <= end < |states|
    ensures Accounted(states[end]) && Onward(states[from], states[end])
    decreases end
  {
    hide Accounted, Onward, Steps;
    if end == 0 {
      StartAccounted();
      StayOnward(states[0]);
    } else if from == end {
      RunAccounted(states, events, from - 1, end - 1);
      StepAccounted(states[end - 1], events[end - 1], states[end]);
      StayOnward(states[end]);
    } else {
      RunAccounted(states, events, from, end - 1);
      StepAccounted(states[end - 1], events[end - 1], states[end]);
      StepOnward(states[end - 1], events[end - 1], states[end]);
      OnwardTrans(states[from], states[end - 1], states[end]);
    }
  }

  lemma {:induction false} StartAccounted()
    ensures Accounted(State(0, map[], [], None, [], map[]))
  {
  }

  lemma {:induction false} StayOnward(s: State)
    ensures Onward(s, s)
  {
  }

  /** Once the transport has ended, nothing is ever pending or delivered again. */
  lemma {:induction false} NothingAfterEnd(states: seq<State>, events: seq<Event>, from: nat, end: nat)
    requires IsRun(states, events) && from <= end < |states| && states[from].terminal.Some?
    ensures states[end].terminal == states[from].terminal
    ensures states[end].pending == map[] && states[end].delivered == states[from].delivered
  {
    RunAccounted(states, events, from, end);
  }

  /** A response reaches at most one request: the pending one whose id it bears. */
  lemma {:induction false} AnswersOnlyItsId(s: State, m: Message, id: string)
    requires Accounted(s) && id in s.fates && m.id != Some(id)
    ensures Resolve(s, m).state.fates[id] == s.fates[id]
    ensures id in Resolve(s, m).state.pending <==> id in s.pending
  {
    hide Told, ReplyTo;
  }

  /** When a response with all its fields lets the transport go on: it answers a pending
      request as it should, or one that was given up on and is still remembered. Of more than
      256 given up on, the oldest are forgotten, and their late answers end the transport. */
  lemma {:induction false} SurvivesIff(s: State, m: Message)
    requires Accounted(s) && m.id.Some? && m.command.Some? && m.success.Some?
    ensures var fate := if m.id.value in s.fates then s.fates[m.id.value] else Refused;
            Resolve(s, m).problem.None? <==>
              || fate.Abandoned?
              || (fate.Waiting? && s.pending[m.id.value] == m.command.value && (m.success.value || m.error.Some?))
  {
    hide Told, IsIssued;
    var i := IndexOf(s.abandoned, m.id.value);
    if i < |s.abandoned| { assert s.abandoned[i] in s.abandoned; }
  }

  /** What a pending request is told by a response that bears its id, and that only it is. */
  lemma {:induction false} ToldAs(s: State, m: Message)
    requires m.id.Some? && m.id.value in s.pending && m.id.value !in s.abandoned
    requires m.command.Some? && m.success.Some?
    ensures var told := Resolve(s, m).state.delivered;
            && |told| == |s.delivered| + 1 && told[..|s.delivered|] == s.delivered
            && told[|s.delivered|].id == m.id.value
            && if m.command.value != s.pending[m.id.value] || (!m.success.value && m.error.None?)
               then told[|s.delivered|].reply.Violation?
               else if m.success.value then told[|s.delivered|].reply == Accepted(m.data)
               else told[|s.delivered|].reply == Remote(m.error.value)
  {
    hide Told;
  }

  /** The event that told a caller what it was told: its own command was acknowledged as a
      success or an error, or wrongly, or the transport ended while it waited. */
  predicate Tells(s: State, e: Event, d: Delivery) {
    && d.id in s.pending
    && match d.reply
       case Accepted(data) =>
         && e.Responds? && e.m.id == Some(d.id) && e.m.command == Some(s.pending[d.id])
         && e.m.success == Some(true) && e.m.data == data
       case Remote(message) =>
         && e.Responds? && e.m.id == Some(d.id) && e.m.command == Some(s.pending[d.id])
         && e.m.success == Some(false) && e.m.error == Some(message)
       case Violation(_) =>
         && e.Responds? && e.m.id == Some(d.id)
         && (e.m.command != Some(s.pending[d.id]) || (e.m.success == Some(false) && e.m.error.None?))
       case Ended(error) => e == Ends(error) && s.terminal.None?
  }

  lemma {:induction false} StepTells(s: State, e: Event, t: State, k: nat)
    requires Accounted(s) && Steps(s, e, t) && |s.delivered| <= k < |t.delivered|
    ensures Tells(s, e, t.delivered[k])
  {
    hide Told, IsIssued;
  }

  lemma {:induction false} StepInserts(s: State, e: Event, t: State, id: string)
    requires Steps(s, e, t) && id in t.pending
    ensures (id in s.pending && t.pending[id] == s.pending[id]) || e == Inserts(id, t.pending[id])
  {
  }

  /** A pending request was registered with the command it is pending for. */
  lemma {:induction false} PendingSince(states: seq<State>, events: seq<Event>, end: nat, id: string) returns (h: nat)
    requires IsRun(states, events) && end < |states| && id in states[end].pending
    ensures h < end && events[h] == Inserts(id, states[end].pending[id])
  {
    hide Steps;
    if end == 0 {
      assert false;
    }
    StepInserts(states[end - 1], events[end - 1], states[end], id);
    if events[end - 1] == Inserts(id, states[end].pending[id]) {
      h := end - 1;
    } else {
      h := PendingSince(states, events, end - 1, id);
    }
  }

  /** Over every run: whatever a caller was told, one event of the run told it, about the
      command the caller registered. */
  lemma {:induction false} RunTells(states: seq<State>, events: seq<Event>, end: nat, k: nat) returns (h: nat, i: nat)
    requires IsRun(states, events) && end < |states| && k < |states[end].delivered|
    ensures h < i < end && Tells(states[i], events[i], states[end].delivered[k])
    ensures var id := states[end].delivered[k].id; events[h] == Inserts(id, states[i].pending[id])
  {
    hide Steps, Tells, Accounted;
    if end == 0 {
      assert false;
    }
    RunAccounted(states, events, end - 1, end - 1);
    var s, t := states[end - 1], states[end];
    StepOnward(s, events[end - 1], t);
    if k < |s.delivered| {
      h, i := RunTells(states, events, end - 1, k);
    } else {
      i := end - 1;
      StepTells(s, events[i], t, k);
      TellsPending(s, events[i], t.delivered[k]);
      h := PendingSince(states, events, i, t.delivered[k].id);
    }
  }

  lemma {:induction false} TellsPending(s: State, e: Event, d: Delivery)
    requires Tells(s, e, d)
    ensures d.id in s.pending
  {
  }

  // ----- late answers -----

  /** After `k` requests that were sent and given up on, with no answer yet. */
  ghost function GivenUp(k: nat): State {
    if k == 0 then State(0, map[], [], None, [], map[])
    else Abandon(Insert(Issue(GivenUp(k - 1)), Id(k), "get_state"), Id(k))
  }

  /** A run gets there. */
  lemma {:induction false} GivenUpRun(k: nat) returns (states: seq<State>, events: seq<Event>)
    ensures IsRun(states, events) && states[|states| - 1] == GivenUp(k)
  {
    hide Abandon, GivenUp;
    if k == 0 {
      GivenUpNext(0);
      states, events := [GivenUp(0)], [];
    } else {
      states, events := GivenUpRun(k - 1);
      GivenUpNext(k);
      GivenUpIs(k - 1);
      var s, id := GivenUp(k - 1), Id(k);
      var t := Issue(s);
      var u := Insert(t, id, "get_state");
      states, events := states + [t, u, GivenUp(k)], events + [Issues, Inserts(id, "get_state"), Abandons(id)];
    }
  }

  lemma GivenUpNext(k: nat)
    ensures GivenUp(0) == State(0, map[], [], None, [], map[])
    ensures k > 0 ==> GivenUp(k) == Abandon(Insert(Issue(GivenUp(k - 1)), Id(k), "get_state"), Id(k))
  {
  }

  /** Of these the last 256 are remembered. */
  lemma {:induction false} GivenUpIs(k: nat)
    ensures var s := GivenUp(k);
            && s.next == k && s.pending == map[] && s.terminal.None?
            && |s.abandoned| == (if k < MAX_ABANDONED_REQUESTS then k else MAX_ABANDONED_REQUESTS)
            && (forall j :: 0 <= j < |s.abandoned| ==> s.abandoned[j] == Id(k - |s.abandoned| + 1 + j))
  {
    hide Id, Issue, Insert, Abandon;
    if k > 0 {
      GivenUpIs(k - 1);
      GiveUp(GivenUp(k - 1), Id(k));
    }
  }

  lemma GiveUp(s: State, id: string)
    requires s.pending == map[] && s.terminal.None? && |s.abandoned| <= MAX_ABANDONED_REQUESTS
    ensures var t := Abandon(Insert(Issue(s), id, "get_state"), id);
            && t.next == s.next + 1 && t.pending == map[] && t.terminal.None?
            && t.abandoned == if |s.abandoned| < MAX_ABANDONED_REQUESTS then s.abandoned + [id]
                              else s.abandoned[1..] + [id]
  {
    var u := Insert(Issue(s), id, "get_state");
    assert u.abandoned == s.abandoned && u.pending - {id} == map[];
    assert |s.abandoned| > 0 ==> (s.abandoned + [id])[1..] == s.abandoned[1..] + [id];
  }

  /** Whether a late answer ends the transport: exactly when more than 255 requests were given
      up on after its own. */
  lemma {:induction false} LateAnswerIff(k: nat, i: nat, m: Message)
    requires 0 < i <= k && m.id == Some(Id(i)) && m.command.Some? && m.success.Some?
    ensures Resolve(GivenUp(k), m).problem.Some? <==> i + MAX_ABANDONED_REQUESTS <= k
  {
    hide Id, GivenUp;
    GivenUpIs(k);
    var queue := GivenUp(k).abandoned;
    if i + MAX_ABANDONED_REQUESTS > k {
      assert queue[i - (k - |queue| + 1)] == Id(i);
    }
    var j := IndexOf(queue, Id(i));
    if j < |queue| { IdInjective(i, k - |queue| + 1 + j); }
  }
}
