/** Signing in through a helper process: its updates, the user's answers and cancellation,
    host failures and the helper's exit, in whatever order they arrive. Each step is one
    critical section. */
module SignIn {
  import opened Options

  datatype Update =
    | Progress
    | Prompt(id: string)
    | PromptCancelled(id: string)
    | Complete
    | Cancelled
    | Failed(code: string)

  datatype Status =
    | SignedOut
    | SigningIn
    | WaitingForInput(promptId: string)
    | Cancelling
    | SignedIn
    | WasCancelled
    | HasFailed(timedOut: bool)

  datatype Outcome = CompleteOutcome | CancelledOutcome | FailedOutcome | HostFailed

  datatype Error = TimedOut | Protocol | Io

  datatype Active = Active(generation: nat, pending: set<string>, answered: set<string>, cancelRequested: bool,
      terminal: Option<Outcome>)

  /** A broadcast update, with the generation it was sent for. */
  datatype Sent = Sent(generation: nat, update: Update)

  datatype State = State(status: Status, next: nat, active: Option<Active>, sent: seq<Sent>)

  const SIGN_IN_FAILED := "sign_in_failed"
  const SIGN_IN_TIMED_OUT := "sign_in_timed_out"

  // ----- the steps -----

  function Launch(s: State): State {
    if s.active.Some? then s
    else s.(status := SigningIn, next := s.next + 1, active := Some(Active(s.next + 1, {}, {}, false, None)))
  }

  function Answered(s: State, id: string): State {
    if s.active.None? || id !in s.active.value.pending then s
    else
      var a := s.active.value;
      s.(status := SigningIn, active := Some(a.(pending := a.pending - {id}, answered := a.answered + {id})))
  }

  function CancelAsked(s: State): State {
    if s.active.None? || s.active.value.terminal.Some? then s
    else s.(status := Cancelling, active := Some(s.active.value.(cancelRequested := true)))
  }

  function Broadcast(s: State, update: Update): State
    requires s.active.Some?
  {
    s.(sent := s.sent + [Sent(s.active.value.generation, update)])
  }

  function End(a: Active, outcome: Outcome): Active {
    a.(terminal := Some(outcome), pending := {}, answered := {})
  }

  /** What the helper may say at this point. */
  predicate Accepts(a: Active, update: Update) {
    && a.terminal.None?
    && match update
       case Progress => true
       case Prompt(id) => id != "" && a.pending == {} && id !in a.answered
       case PromptCancelled(id) => id in a.pending || id in a.answered
       case _ => a.pending == {}
  }

  function Applied(s: State, generation: nat, update: Update): State {
    if s.active.None? || s.active.value.generation != generation || !Accepts(s.active.value, update) then s
    else
      var a := s.active.value;
      match update
      case Progress => Broadcast(s, update)
      case Prompt(id) => Broadcast(s.(status := WaitingForInput(id), active := Some(a.(pending := {id}))), update)
      case PromptCancelled(id) =>
        Broadcast(s.(status := SigningIn,
                     active := Some(if id in a.pending then a.(pending := a.pending - {id})
                         else a.(answered := a.answered - {id}))), update)
      case Complete => s.(status := SigningIn, active := Some(End(a, CompleteOutcome)))
      case Cancelled => Broadcast(s.(status := WasCancelled, active := Some(End(a, CancelledOutcome))), update)
      case Failed(_) => Broadcast(s.(status := HasFailed(false), active := Some(End(a, FailedOutcome))),
          Failed(SIGN_IN_FAILED))
  }

  predicate Ignores(a: Active, error: Error) {
    || (a.terminal.Some? && a.terminal.value != CompleteOutcome && error.TimedOut?)
    || a.terminal == Some(HostFailed)
  }

  function HostFails(s: State, generation: nat, error: Error): State {
    if s.active.None? || s.active.value.generation != generation || Ignores(s.active.value, error) then s
    else
      Broadcast(s.(status := HasFailed(error.TimedOut?), active := Some(End(s.active.value, HostFailed))),
                Failed(if error.TimedOut? then SIGN_IN_TIMED_OUT else SIGN_IN_FAILED))
  }

  /** A record of the helper's output; one that is not accepted is a protocol failure. */
  function Record(s: State, generation: nat, update: Option<Update>): State {
    if update.Some? && s.active.Some? && s.active.value.generation == generation
        && Accepts(s.active.value, update.value)
    then Applied(s, generation, update.value)
    else HostFails(s, generation, Protocol)
  }

  predicate CleanExit(code: Option<int>, signal: Option<int>) {
    code == Some(0) && signal.None?
  }

  function Exited(s: State, generation: nat, code: Option<int>, signal: Option<int>): State {
    if s.active.None? || s.active.value.generation != generation then s
    else
      var a := s.active.value;
      var t :=
        if a.terminal == Some(CompleteOutcome) then
          if CleanExit(code, signal) then Broadcast(s.(status := SignedIn), Complete)
          else Broadcast(s.(status := HasFailed(false)), Failed(SIGN_IN_FAILED))
        else if a.terminal.None? then
          if a.cancelRequested then Broadcast(s.(status := WasCancelled), Cancelled)
          else Broadcast(s.(status := HasFailed(false)), Failed(SIGN_IN_FAILED))
        else s;
      t.(active := None)
  }

  datatype Step =
    | Launches
    | Answers(id: string)
    | Cancels
    | Reads(generation: nat, update: Option<Update>)
    | Fails(generation: nat, error: Error)
    | Exits(generation: nat, code: Option<int>, signal: Option<int>)

  function Next(s: State, step: Step): State {
    match step
    case Launches => Launch(s)
    case Answers(id) => Answered(s, id)
    case Cancels => CancelAsked(s)
    case Reads(generation, update) => Record(s, generation, update)
    case Fails(generation, error) => HostFails(s, generation, error)
    case Exits(generation, code, signal) => Exited(s, generation, code, signal)
  }

  const INITIAL := State(SignedOut, 0, None, [])

  class Manager {
    var status: Status
    var nextGeneration: nat
    var active: Option<Active>
    var sent: seq<Sent>
    const maximumResponseBytes: nat

    constructor (maximumResponseBytes: nat)
      ensures Value() == INITIAL && this.maximumResponseBytes == maximumResponseBytes
    {
      status, nextGeneration, active, sent := SignedOut, 0, None, [];
      this.maximumResponseBytes := maximumResponseBytes;
    }

    function Value(): State
      reads this
    {
      State(status, nextGeneration, active, sent)
    }

    method Send(generation: nat, update: Update)
      modifies `sent
      ensures sent == old(sent) + [Sent(generation, update)]
    {
      sent := sent + [Sent(generation, update)];
    }

    method Start() returns (started: bool)
      modifies this
      ensures Value() == Launch(old(Value())) && (started <==> old(active).None?)
    {
      if active.Some? { return false; }
      nextGeneration := nextGeneration + 1;
      active := Some(Active(nextGeneration, {}, {}, false, None));
      status := SigningIn;
      started := true;
    }

    /** An answer of `bytes` bytes; `written` is false when the helper's input is closed. */
    method Answer(id: string, bytes: nat, written: bool) returns (ok: bool)
      modifies this
      ensures var s := Answered(old(Value()), id);
              if id == "" || bytes == 0 || bytes > maximumResponseBytes then Value() == old(Value()) && !ok
              else if old(active).Some? && id in old(active).value.pending && !written
              then Value() == HostFails(s, s.active.value.generation, Io) && !ok
              else Value() == s && (ok <==> old(active).Some? && id in old(active).value.pending)
    {
      if id == "" || bytes == 0 || bytes > maximumResponseBytes { return false; }
      if active.None? || id !in active.value.pending { return false; }
      var a := active.value;
      active := Some(a.(pending := a.pending - {id}, answered := a.answered + {id}));
      status := SigningIn;
      if !written {
        Fail(a.generation, Io);
        return false;
      }
      ok := true;
    }

    method Cancel(written: bool) returns (ok: bool)
      modifies this
      ensures var s := CancelAsked(old(Value()));
              if old(active).Some? && old(active).value.terminal.None? && !written
              then Value() == HostFails(s, s.active.value.generation, Io) && !ok
              else Value() == s && (ok <==> old(active).Some? && old(active).value.terminal.None?)
    {
      if active.None? || active.value.terminal.Some? { return false; }
      active := Some(active.value.(cancelRequested := true));
      status := Cancelling;
      if !written {
        Fail(active.value.generation, Io);
        return false;
      }
      ok := true;
    }

    method Apply(generation: nat, update: Update) returns (ok: bool)
      modifies this
      ensures Value() == Applied(old(Value()), generation, update)
      ensures ok <==>
          && old(active).Some? && old(active).value.generation == generation
          && Accepts(old(active).value, update)
    {
      if active.None? || active.value.generation != generation || active.value.terminal.Some? { return false; }
      var a := active.value;
      match update {
        case Progress =>
        case Prompt(id) =>
          if id == "" || a.pending != {} || id in a.answered { return false; }
          assert a.pending + {id} == {id};
          active := Some(a.(pending := a.pending + {id}));
          status := WaitingForInput(id);
        case PromptCancelled(id) =>
          if id in a.pending {
            active := Some(a.(pending := a.pending - {id}));
          } else if id in a.answered {
            active := Some(a.(answered := a.answered - {id}));
          } else {
            return false;
          }
          status := SigningIn;
        case Complete =>
          if a.pending != {} { return false; }
          active := Some(End(a, CompleteOutcome));
          status := SigningIn;
        case Cancelled =>
          if a.pending != {} { return false; }
          active := Some(End(a, CancelledOutcome));
          status := WasCancelled;
        case Failed(_) =>
          if a.pending != {} { return false; }
          active := Some(End(a, FailedOutcome));
          status := HasFailed(false);
      }
      if !update.Complete? {
        Send(generation, if update.Failed? then Failed(SIGN_IN_FAILED) else update);
      }
      ok := true;
    }

    method Fail(generation: nat, error: Error)
      modifies this
      ensures Value() == HostFails(old(Value()), generation, error)
    {
      if active.None? || active.value.generation != generation { return; }
      var a := active.value;
      if a.terminal.Some? && a.terminal != Some(CompleteOutcome) && !(error.Protocol? || error.Io?) { return; }
      if a.terminal == Some(HostFailed) { return; }
      active := Some(End(a, HostFailed));
      status := HasFailed(error.TimedOut?);
      Send(generation, Failed(if error.TimedOut? then SIGN_IN_TIMED_OUT else SIGN_IN_FAILED));
    }

    method ProcessRecord(generation: nat, update: Option<Update>)
      modifies this
      ensures Value() == Record(old(Value()), generation, update)
    {
      if update.None? {
        Fail(generation, Protocol);
        return;
      }
      var ok := Apply(generation, update.value);
      if !ok {
        Fail(generation, Protocol);
      }
    }

    method ProcessExited(generation: nat, code: Option<int>, signal: Option<int>)
      modifies this
      ensures Value() == Exited(old(Value()), generation, code, signal)
    {
      if active.None? || active.value.generation != generation { return; }
      var a := active.value;
      if a.terminal == Some(CompleteOutcome) && code == Some(0) && signal.None? {
        status := SignedIn;
        Send(generation, Complete);
      } else if a.terminal == Some(CompleteOutcome) {
        status := HasFailed(false);
        Send(generation, Failed(SIGN_IN_FAILED));
      } else if a.terminal.None? {
        if a.cancelRequested {
          status := WasCancelled;
          Send(generation, Cancelled);
        } else {
          status := HasFailed(false);
          Send(generation, Failed(SIGN_IN_FAILED));
        }
      }
      active := None;
    }
  }

  // ----- the invariant -----

  predicate IsTerminal(update: Update) {
    update.Complete? || update.Cancelled? || update.Failed?
  }

  /** The terminal updates broadcast for one generation, in order. */
  function Terminals(sent: seq<Sent>, generation: nat): seq<Update> {
    if sent == [] then []
    else
      var last := sent[|sent| - 1];
      Terminals(sent[..|sent| - 1], generation)
      + if last.generation == generation && IsTerminal(last.update) then [last.update] else []
  }

  lemma {:induction false} TerminalsMore(sent: seq<Sent>, last: Sent, generation: nat)
    ensures Terminals(sent + [last], generation)
            == Terminals(sent, generation) + if last.generation == generation && IsTerminal(last.update)
                then [last.update] else []
  {
    assert (sent + [last])[..|sent|] == sent;
  }

  predicate Settled(status: Status) {
    status.SignedOut? || status.SignedIn? || status.WasCancelled? || status.HasFailed?
  }

  predicate Prompts(a: Active) {
    && (a.pending == {} || exists id :: id in a.pending && a.pending == {id})
    && a.pending !! a.answered
    && (a.terminal.Some? ==> a.pending == {} && a.answered == {})
  }

  predicate StatusFits(status: Status, a: Active) {
    && (status.WaitingForInput? ==> a.pending == {status.promptId})
    && match a.terminal
       case None => status.SigningIn? || status.WaitingForInput? || status.Cancelling?
       case Some(CompleteOutcome) => status.SigningIn?
       case Some(CancelledOutcome) => status.WasCancelled?
       case Some(_) => status.HasFailed?
  }

  /** What the running generation has broadcast so far. */
  predicate RunningTold(told: seq<Update>, terminal: Option<Outcome>) {
    match terminal
    case None => told == []
    case Some(CompleteOutcome) => told == []
    case Some(CancelledOutcome) => told == [Cancelled]
    case Some(FailedOutcome) => |told| == 1 && told[0].Failed?
    case Some(HostFailed) => 1 <= |told| <= 2 && Complete !in told && told[|told| - 1].Failed?
  }

  /** What an exited generation has broadcast: one or two terminal updates, and `Complete`
      only alone. */
  predicate ExitedTold(told: seq<Update>) {
    1 <= |told| <= 2 && (Complete in told ==> told == [Complete])
  }

  ghost predicate Safe(s: State) {
    && (match s.active
        case Some(a) =>
          && a.generation == s.next && s.next > 0 && Prompts(a) && StatusFits(s.status, a)
          && RunningTold(Terminals(s.sent, s.next), a.terminal)
        case None =>
          && Settled(s.status)
          && (s.status.SignedIn? <==> s.next > 0 && Terminals(s.sent, s.next) == [Complete])
          && (s.next > 0 ==> ExitedTold(Terminals(s.sent, s.next))))
    && (forall g :: 1 <= g < s.next ==> ExitedTold(Terminals(s.sent, g)))
    && (forall i :: 0 <= i < |s.sent| ==> 1 <= s.sent[i].generation <= s.next)
  }

  lemma {:induction false} NoneYet(sent: seq<Sent>, generation: nat)
    requires forall i :: 0 <= i < |sent| ==> sent[i].generation < generation
    ensures Terminals(sent, generation) == []
  {
    if sent != [] { NoneYet(sent[..|sent| - 1], generation); }
  }

  lemma {:induction false} LaunchSafe(s: State)
    requires Safe(s)
    ensures Safe(Launch(s))
  {
    hide Terminals;
    NoneYet(s.sent, s.next + 1);
  }

  /** Only the running generation's terminals grow. */
  lemma {:induction false} BroadcastElsewhere(s: State, update: Update)
    requires s.active.Some? && s.active.value.generation == s.next
    ensures forall g :: g != s.next ==> Terminals(Broadcast(s, update).sent, g) == Terminals(s.sent, g)
    ensures Terminals(Broadcast(s, update).sent, s.next) == Terminals(s.sent, s.next) + if IsTerminal(update)
        then [update] else []
  {
    hide Terminals;
    forall g ensures Terminals(Broadcast(s, update).sent, g) == Terminals(s.sent, g) + if g == s.next
        && IsTerminal(update) then [update] else []
    {
      TerminalsMore(s.sent, Sent(s.next, update), g);
    }
  }

  lemma {:induction false} AnsweredSafe(s: State, id: string)
    requires Safe(s)
    ensures Safe(Answered(s, id))
  {
    hide Terminals;
  }

  lemma {:induction false} CancelSafe(s: State)
    requires Safe(s)
    ensures Safe(CancelAsked(s))
  {
    hide Terminals;
  }

  lemma {:induction false} AppliedSafe(s: State, generation: nat, update: Update)
    requires Safe(s)
    ensures Safe(Applied(s, generation, update))
  {
    hide Terminals, RunningTold, ExitedTold;
    if s.active.Some? && s.active.value.generation == generation && Accepts(s.active.value, update) {
      var a := s.active.value;
      var out := if update.Failed? then Failed(SIGN_IN_FAILED) else update;
      BroadcastElsewhere(s, out);
      ToldStarts(Terminals(s.sent, s.next), update);
      if update.Prompt? { assert a.(pending := {update.id}).pending == {update.id}; }
    }
  }

  lemma {:induction false} ToldStarts(told: seq<Update>, update: Update)
    requires RunningTold(told, None)
    ensures RunningTold(told, Some(CompleteOutcome))
    ensures RunningTold(told + [Cancelled], Some(CancelledOutcome))
    ensures RunningTold(told + [Failed(SIGN_IN_FAILED)], Some(FailedOutcome))
    ensures told + [] == told
  {
  }

  lemma {:induction false} FailsSafe(s: State, generation: nat, error: Error)
    requires Safe(s)
    ensures Safe(HostFails(s, generation, error))
  {
    hide Terminals, ExitedTold;
    if s.active.Some? && s.active.value.generation == generation && !Ignores(s.active.value, error) {
      BroadcastElsewhere(s, Failed(if error.TimedOut? then SIGN_IN_TIMED_OUT else SIGN_IN_FAILED));
    }
  }

  /** What an exit adds to what was told. */
  lemma {:induction false} ToldAtExit(told: seq<Update>, terminal: Option<Outcome>)
    requires RunningTold(told, terminal)
    ensures terminal.None? ==> forall u :: u == Cancelled || u == Failed(SIGN_IN_FAILED) ==>
        ExitedTold(told + [u]) && told + [u] != [Complete]
    ensures terminal == Some(CompleteOutcome) ==> told + [Complete] == [Complete] && ExitedTold([Complete])
    ensures terminal == Some(CompleteOutcome) ==>
        ExitedTold(told + [Failed(SIGN_IN_FAILED)]) && told + [Failed(SIGN_IN_FAILED)] != [Complete]
    ensures terminal.Some? && terminal != Some(CompleteOutcome) ==> ExitedTold(told) && told != [Complete]
  {
    if terminal.None? || terminal == Some(CompleteOutcome) {
      assert forall u: Update :: told + [u] == [u];
    }
  }

  lemma {:induction false} ExitedSafe(s: State, generation: nat, code: Option<int>, signal: Option<int>)
    requires Safe(s)
    ensures Safe(Exited(s, generation, code, signal))
  {
    hide Terminals, CleanExit, RunningTold, ExitedTold;
    if s.active.Some? && s.active.value.generation == generation {
      ToldAtExit(Terminals(s.sent, s.next), s.active.value.terminal);
      BroadcastElsewhere(s, Complete);
      BroadcastElsewhere(s, Cancelled);
      BroadcastElsewhere(s, Failed(SIGN_IN_FAILED));
    }
  }

  /** Every step, stale ones included, keeps all of it. */
  lemma {:induction false} NextSafe(s: State, step: Step)
    requires Safe(s)
    ensures Safe(Next(s, step))
  {
    hide Safe, Launch, Answered, CancelAsked, Applied, HostFails, Exited, Accepts;
    match step {
      case Launches => LaunchSafe(s);
      case Answers(id) => AnsweredSafe(s, id);
      case Cancels => CancelSafe(s);
      case Reads(generation, update) =>
        if update.Some? { AppliedSafe(s, generation, update.value); }
        FailsSafe(s, generation, Protocol);
      case Fails(generation, error) => FailsSafe(s, generation, error);
      case Exits(generation, code, signal) => ExitedSafe(s, generation, code, signal);
    }
  }

  function Run(s: State, steps: seq<Step>): State {
    if steps == [] then s else Next(Run(s, steps[..|steps| - 1]), steps[|steps| - 1])
  }

  lemma {:induction false} RunSafe(steps: seq<Step>)
    ensures Safe(Run(INITIAL, steps))
  {
    hide Safe, Next;
    if steps == [] {
      InitialSafe();
    } else {
      RunSafe(steps[..|steps| - 1]);
      NextSafe(Run(INITIAL, steps[..|steps| - 1]), steps[|steps| - 1]);
    }
  }

  lemma {:induction false} InitialSafe()
    ensures Safe(INITIAL)
  {
  }

  // ----- what a step can do -----

  /** A step that names another generation changes nothing. */
  lemma {:induction false} StaleIgnored(s: State, step: Step)
    requires step.Reads? || step.Fails? || step.Exits?
    requires s.active.None? || s.active.value.generation != step.generation
    ensures Next(s, step) == s
  {
  }

  /** Being signed in is reached in one way only: the helper of the running generation said
      it was complete, nothing failed since, and it exited with code 0 and no signal. */
  lemma {:induction false} SignedInIff(s: State, step: Step)
    requires Safe(s) && !s.status.SignedIn?
    ensures Next(s, step).status.SignedIn? <==>
              step.Exits? && s.active.Some? && s.active.value.generation == step.generation
              && s.active.value.terminal == Some(CompleteOutcome) && CleanExit(step.code, step.signal)
  {
    hide Terminals, RunningTold, ExitedTold;
  }

  /** The completion it takes is the helper's own word, and a host failure takes it back. */
  lemma {:induction false} CompletesIff(s: State, step: Step)
    requires Safe(s) && s.active.Some? && Next(s, step).active.Some?
    ensures Next(s, step).active.value.terminal == Some(CompleteOutcome) <==>
              if s.active.value.terminal == Some(CompleteOutcome)
              then Next(s, step) == s
              else
                && step == Reads(s.active.value.generation, Some(Complete))
                && s.active.value.terminal.None? && s.active.value.pending == {}
  {
    hide Terminals, RunningTold, ExitedTold;
  }

  /** A report of the running generation, which has not ended. */
  predicate Running(s: State, generation: nat) {
    s.active.Some? && s.active.value.generation == generation && s.active.value.terminal.None?
  }

  /** It is cancelled in two ways: the helper says so while no prompt is pending, or it exits
      without a last word after the user asked. */
  lemma {:induction false} CancelledIff(s: State, step: Step)
    requires Safe(s) && !s.status.WasCancelled?
    ensures Next(s, step).status.WasCancelled? <==>
              || (step.Reads? && step.update == Some(Cancelled) && Running(s, step.generation)
                  && s.active.value.pending == {})
              || (step.Exits? && Running(s, step.generation) && s.active.value.cancelRequested)
  {
    hide Terminals, RunningTold, ExitedTold;
  }

  /** It times out in one way only. */
  lemma {:induction false} TimesOutIff(s: State, step: Step)
    requires Safe(s) && !s.status.HasFailed?
    ensures Next(s, step).status == HasFailed(true) <==>
              && step.Fails? && step.error.TimedOut? && s.active.Some? && s.active.value.generation == step.generation
              && (s.active.value.terminal.None? || s.active.value.terminal == Some(CompleteOutcome))
  {
    hide Terminals, RunningTold, ExitedTold;
  }

  /** It fails otherwise when the host does, when the helper says so or says what it may not,
      and when the helper exits without a last word though nobody asked, or not cleanly. */
  lemma {:induction false} FailsIff(s: State, step: Step)
    requires Safe(s) && !s.status.HasFailed?
    ensures Next(s, step).status == HasFailed(false) <==>
              && s.active.Some? && (step.Fails? || step.Reads? || step.Exits?)
              && s.active.value.generation == step.generation
              && match step
                 case Fails(_, error) => !error.TimedOut?
                 case Reads(_, Some(update)) =>
                   || s.active.value.terminal.Some?
                   || (match update
                       case Progress => false
                       case Prompt(id) => id == "" || s.active.value.pending != {} || id in s.active.value.answered
                       case PromptCancelled(id) => id !in s.active.value.pending && id !in s.active.value.answered
                       case Complete => s.active.value.pending != {}
                       case Cancelled => s.active.value.pending != {}
                       case Failed(_) => true)
                 case Reads(_, None) => true
                 case Exits(_, code, signal) =>
                   || (s.active.value.terminal.None? && !s.active.value.cancelRequested)
                   || (s.active.value.terminal == Some(CompleteOutcome) && !(code == Some(0) && signal == None))
                 case _ => false
  {
    hide Terminals, RunningTold, ExitedTold;
  }

  /** A prompt is asked once: with an id, while none is pending, and not again once answered. */
  lemma {:induction false} PromptedIff(s: State, step: Step, id: string)
    requires Safe(s) && s.status != WaitingForInput(id)
    ensures Next(s, step).status == WaitingForInput(id) <==>
              && step.Reads? && step.update == Some(Prompt(id)) && Running(s, step.generation)
              && id != "" && s.active.value.pending == {} && id !in s.active.value.answered
    ensures Next(s, step).status == WaitingForInput(id) ==>
              Next(s, step) == s.(status := WaitingForInput(id), active := Some(s.active.value.(pending := {id})),
                                  sent := s.sent + [Sent(step.generation, Prompt(id))])
  {
    hide Terminals, RunningTold, ExitedTold;
  }

  lemma {:induction false} CancellingIff(s: State, step: Step)
    requires Safe(s) && !s.status.Cancelling?
    ensures Next(s, step).status.Cancelling? <==> step.Cancels? && s.active.Some? && s.active.value.terminal.None?
    ensures Next(s, step).status.Cancelling? ==> Next(s, step).active.value.cancelRequested
  {
    hide Terminals, RunningTold, ExitedTold;
  }

  /** A generation is over when its helper has exited, and at no other time. */
  lemma {:induction false} OverIff(s: State, step: Step)
    requires Safe(s) && s.active.Some?
    ensures Next(s, step).active.None? <==> step.Exits? && step.generation == s.active.value.generation
    ensures Next(s, step).active.None? ==> Settled(Next(s, step).status)
  {
    hide Terminals, RunningTold, ExitedTold;
  }

  // ----- what was told and what is shown -----

  /** The last word of a generation is the one its status shows. */
  predicate ToldFits(status: Status, told: seq<Update>) {
    match status
    case SignedIn => told == [Complete]
    case WasCancelled => told == [Cancelled]
    case HasFailed(timedOut) =>
      told != [] && told[|told| - 1] == Failed(if timedOut then SIGN_IN_TIMED_OUT else SIGN_IN_FAILED)
    case _ => told == []
  }

  lemma {:induction false} ToldMore(told: seq<Update>, update: Update)
    requires update.Failed? || told == []
    ensures match update
            case Complete => ToldFits(SignedIn, told + [update])
            case Cancelled => ToldFits(WasCancelled, told + [update])
            case Failed(code) =>
              && (code == SIGN_IN_FAILED ==> ToldFits(HasFailed(false), told + [update]))
              && (code == SIGN_IN_TIMED_OUT ==> ToldFits(HasFailed(true), told + [update]))
            case _ => true
  {
  }

  /** What a broadcast adds to what the running generation told. */
  lemma {:induction false} ToldWith(s: State, update: Update)
    requires s.active.Some? && s.active.value.generation == s.next
    requires update.Failed? || Terminals(s.sent, s.next) == []
    ensures var told := Terminals(Broadcast(s, update).sent, s.next);
            match update
            case Complete => ToldFits(SignedIn, told)
            case Cancelled => ToldFits(WasCancelled, told)
            case Failed(code) =>
              && (code == SIGN_IN_FAILED ==> ToldFits(HasFailed(false), told))
              && (code == SIGN_IN_TIMED_OUT ==> ToldFits(HasFailed(true), told))
            case _ => told == []
  {
    hide ToldFits, Terminals;
    BroadcastElsewhere(s, update);
    ToldMore(Terminals(s.sent, s.next), update);
    assert update.Progress? || update.Prompt? || update.PromptCancelled? ==> !IsTerminal(update);
  }

  lemma {:induction false} NextTold(s: State, step: Step)
    requires Safe(s) && (s.next > 0 ==> ToldFits(s.status, Terminals(s.sent, s.next)))
    ensures var t := Next(s, step); t.next > 0 ==> ToldFits(t.status, Terminals(t.sent, t.next))
  {
    hide Terminals, ExitedTold;
    if step.Launches? {
      NoneYet(s.sent, s.next + 1);
    } else if s.active.Some? {
      ToldWith(s, Failed(SIGN_IN_FAILED));
      ToldWith(s, Failed(SIGN_IN_TIMED_OUT));
      if Terminals(s.sent, s.next) == [] {
        ToldWith(s, Complete);
        ToldWith(s, Cancelled);
        if step.Reads? && step.update.Some? { ToldWith(s, step.update.value); }
      }
    }
  }

  /** Over every run the status shows what the last generation was broadcast to end with, and
      nothing of the kind was broadcast before. */
  lemma {:induction false} RunTold(steps: seq<Step>)
    ensures var s := Run(INITIAL, steps); s.next > 0 ==> ToldFits(s.status, Terminals(s.sent, s.next))
  {
    hide Safe, Next, ToldFits, Terminals;
    if steps != [] {
      RunTold(steps[..|steps| - 1]);
      RunSafe(steps[..|steps| - 1]);
      NextTold(Run(INITIAL, steps[..|steps| - 1]), steps[|steps| - 1]);
    }
  }

  /** The pending prompt is the one that is shown. */
  predicate ShowsPending(s: State) {
    s.active.Some? && s.active.value.pending != {} ==> s.status.WaitingForInput?
  }

  /** A pending prompt stops being shown in two ways only: the user asks to cancel, or the
      helper takes an answered prompt back. */
  lemma {:induction false} HidesPendingIff(s: State, step: Step)
    requires Safe(s) && ShowsPending(s)
    ensures !ShowsPending(Next(s, step)) <==>
              && s.active.Some? && s.active.value.pending != {}
              && (step.Cancels?
                  || (step.Reads? && step.generation == s.active.value.generation
                      && step.update.Some? && step.update.value.PromptCancelled?
                      && step.update.value.id in s.active.value.answered))
  {
    hide Terminals, RunningTold, ExitedTold;
  }

  /** The second way: prompt a, answer a, prompt b, and a is taken back. */
  lemma {:induction false} HiddenPrompt()
    ensures var s := Next(Next(Next(Next(Next(INITIAL, Launches), Reads(1, Some(Prompt("a")))), Answers("a")),
                               Reads(1, Some(Prompt("b")))), Reads(1, Some(PromptCancelled("a"))));
            s.active.Some? && s.active.value.pending == {"b"} && s.status == SigningIn
  {
  }

  // ----- signed in, over runs -----

  /** The helper's reports, the host's failures and the exit of one generation. */
  predicate About(step: Step, generation: nat) {
    (step.Reads? || step.Fails? || step.Exits?) && step.generation == generation
  }

  /** The running helper of that generation may say it is complete. */
  predicate MayComplete(s: State, generation: nat) {
    s.active.Some? && s.active.value.generation == generation && Accepts(s.active.value, Complete)
  }

  /** At `i` the helper completed, and nothing of its generation came until `end`. */
  ghost predicate CompletedAt(steps: seq<Step>, i: int, end: nat, generation: nat) {
    && 0 <= i < end <= |steps|
    && steps[i] == Reads(generation, Some(Complete)) && MayComplete(Run(INITIAL, steps[..i]), generation)
    && forall k :: i < k < end ==> !About(steps[k], generation)
  }

  ghost predicate CompletedAndExited(steps: seq<Step>, i: int, j: int, generation: nat) {
    0 <= j < |steps| && CompletedAt(steps, i, j, generation) && steps[j] == Exits(generation, Some(0), None)
  }

  lemma {:induction false} RunStep(steps: seq<Step>, k: nat)
    requires k < |steps|
    ensures Run(INITIAL, steps[..k + 1]) == Next(Run(INITIAL, steps[..k]), steps[k])
  {
    assert steps[..k + 1][..k] == steps[..k];
  }

  /** A completed helper stays so while nothing of its generation comes. */
  lemma {:induction false} StaysComplete(s: State, step: Step)
    requires Safe(s) && s.active.Some? && s.active.value.terminal == Some(CompleteOutcome)
    ensures !About(step, s.next) <==> Next(s, step) == s
  {
    hide Terminals, RunningTold, ExitedTold;
  }

  lemma {:induction false} CompleteSince(steps: seq<Step>, n: nat) returns (i: nat)
    requires n <= |steps|
    requires var s := Run(INITIAL, steps[..n]); s.active.Some? && s.active.value.terminal == Some(CompleteOutcome)
    ensures CompletedAt(steps, i, n, Run(INITIAL, steps[..n]).next)
    decreases n
  {
    hide Safe, Next, Accepts;
    if n == 0 {
      assert false;
    }
    var s, t := Run(INITIAL, steps[..n - 1]), Run(INITIAL, steps[..n]);
    RunSafe(steps[..n - 1]);
    RunStep(steps, n - 1);
    ActiveBefore(s, steps[n - 1]);
    CompletesIff(s, steps[n - 1]);
    RunSafe(steps[..n]);
    SafeActive(s);
    SafeActive(t);
    if s.active.value.terminal == Some(CompleteOutcome) {
      i := CompleteSince(steps, n - 1);
      StaysComplete(s, steps[n - 1]);
    } else {
      i := n - 1;
      assert Accepts(s.active.value, Complete) by { CompleteAccepted(s.active.value); }
      NextOnward(s, steps[n - 1]);
    }
  }

  lemma {:induction false} CompleteAccepted(a: Active)
    requires a.terminal.None? && a.pending == {}
    ensures Accepts(a, Complete)
  {
  }

  lemma {:induction false} SafeActive(s: State)
    requires Safe(s) && s.active.Some?
    ensures s.active.value.generation == s.next
  {
    hide Terminals, RunningTold, ExitedTold;
  }

  lemma {:induction false} ActiveBefore(s: State, step: Step)
    requires Next(s, step).active.Some? && Next(s, step).active.value.terminal == Some(CompleteOutcome)
    ensures s.active.Some?
  {
  }

  /** Once signed in, only a launch changes anything, and it starts a new generation. */
  lemma {:induction false} SignedInStays(s: State, step: Step)
    requires Safe(s) && s.status.SignedIn?
    ensures s.active.None? && (Next(s, step) == s || (step.Launches? && Next(s, step).next == s.next + 1
                                                     && !Next(s, step).status.SignedIn?))
  {
    hide Terminals, RunningTold, ExitedTold;
  }

  /** Over every run: signed in is shown if and only if the helper of the last generation said
      it was complete when it might, nothing of that generation came in between, and it exited
      with code 0 and no signal. */
  lemma {:induction false} SignedInOverRuns(steps: seq<Step>)
    ensures var s := Run(INITIAL, steps);
            s.status.SignedIn? <==> exists i, j :: CompletedAndExited(steps, i, j, s.next)
  {
    hide Safe, Next, CompletedAndExited;
    var s := Run(INITIAL, steps);
    assert steps[..|steps|] == steps;
    if s.status.SignedIn? { var i, j := SignedInSince(steps, |steps|); }
    if i, j :| CompletedAndExited(steps, i, j, s.next) { ExitedSignedIn(steps, i, j); }
  }

  lemma {:induction false} SignedInSince(steps: seq<Step>, n: nat) returns (i: nat, j: nat)
    requires n <= |steps| && Run(INITIAL, steps[..n]).status.SignedIn?
    ensures CompletedAndExited(steps, i, j, Run(INITIAL, steps[..n]).next)
    ensures n == |steps| ==> CompletedAndExited(steps, i, j, Run(INITIAL, steps).next)
    decreases n
  {
    hide Safe, Next, CompletedAt;
    assert n == |steps| ==> steps[..n] == steps;
    if n == 0 {
      assert false;
    }
    var s := Run(INITIAL, steps[..n - 1]);
    RunSafe(steps[..n - 1]);
    RunStep(steps, n - 1);
    if s.status.SignedIn? {
      SignedInStays(s, steps[n - 1]);
      i, j := SignedInSince(steps, n - 1);
    } else {
      SignedInIff(s, steps[n - 1]);
      SafeActive(s);
      i := CompleteSince(steps, n - 1);
      j := n - 1;
      NextOnward(s, steps[n - 1]);
    }
  }

  lemma {:induction false} ExitedSignedIn(steps: seq<Step>, i: int, j: int)
    requires CompletedAndExited(steps, i, j, Run(INITIAL, steps).next)
    ensures Run(INITIAL, steps).status.SignedIn?
  {
    hide Safe, Next, MayComplete;
    var g := Run(INITIAL, steps).next;
    assert steps[..|steps|] == steps;
    CompleteUntil(steps, i, j, g);
    var s := Run(INITIAL, steps[..j]);
    RunSafe(steps[..j]);
    RunStep(steps, j);
    ExitSignsIn(s, steps[j]);
    SignedInUntil(steps, j + 1, |steps|, g);
  }

  lemma {:induction false} ExitSignsIn(s: State, step: Step)
    requires s.active.Some? && s.active.value.terminal == Some(CompleteOutcome)
    requires step == Exits(s.active.value.generation, Some(0), None)
    ensures Next(s, step).status.SignedIn? && Next(s, step).next == s.next
  {
  }

  lemma {:induction false} CompleteUntil(steps: seq<Step>, i: int, n: nat, g: nat)
    requires CompletedAt(steps, i, n, g)
    ensures var s := Run(INITIAL, steps[..n]);
            && s.active.Some? && s.active.value.terminal == Some(CompleteOutcome)
            && s.active.value.generation == g && s.next == g
    decreases n
  {
    hide Safe, Next;
    var s := Run(INITIAL, steps[..n - 1]);
    RunSafe(steps[..n - 1]);
    RunStep(steps, n - 1);
    if i == n - 1 {
      SafeActive(s);
      CompletesNow(s, g);
    } else {
      CompleteUntil(steps, i, n - 1, g);
      StaysComplete(s, steps[n - 1]);
    }
  }

  lemma {:induction false} CompletesNow(s: State, g: nat)
    requires MayComplete(s, g) && s.next == g
    ensures var t := Next(s, Reads(g, Some(Complete)));
            && t.active.Some? && t.active.value.terminal == Some(CompleteOutcome)
            && t.active.value.generation == g && t.next == g
  {
  }

  lemma {:induction false} SignedInUntil(steps: seq<Step>, m: nat, n: nat, g: nat)
    requires m <= n <= |steps| && Run(INITIAL, steps[..m]).status.SignedIn? && Run(INITIAL, steps[..m]).next == g
    requires Run(INITIAL, steps[..n]).next == g
    ensures Run(INITIAL, steps[..n]).status.SignedIn?
    decreases n - m
  {
    hide Safe, Next;
    if m < n {
      var s := Run(INITIAL, steps[..m]);
      RunSafe(steps[..m]);
      RunStep(steps, m);
      SignedInStays(s, steps[m]);
      GenerationsGrow(steps, m + 1, n);
      SignedInUntil(steps, m + 1, n, g);
    }
  }

  lemma {:induction false} GenerationsGrow(steps: seq<Step>, m: nat, n: nat)
    requires m <= n <= |steps|
    ensures Run(INITIAL, steps[..m]).next <= Run(INITIAL, steps[..n]).next
    decreases n - m
  {
    hide Next;
    if m < n {
      GenerationsGrow(steps, m, n - 1);
      RunStep(steps, n - 1);
      NextOnward(Run(INITIAL, steps[..n - 1]), steps[n - 1]);
    }
  }

  /** What has been broadcast stays broadcast, and generations only go up. */
  lemma {:induction false} NextOnward(s: State, step: Step)
    ensures s.sent <= Next(s, step).sent && s.next <= Next(s, step).next
    ensures Next(s, step).next != s.next ==> step.Launches? && s.active.None?
  {
  }
}
