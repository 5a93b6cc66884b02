/** Creating a chat's workspace: a directory, a git worktree, a branch and a database row,
    with a reservation that says how far it got. Git calls and database transactions are
    atomic; a crash may fall before or after any of them, in a reconciliation too. A database
    call that reports an error has not taken effect; a git call may have. */
module ChatCreation {
  import opened Options
  import opened Steps

  /** A checkout: its administrative directory, its commit, and its branch if not detached. */
  datatype Worktree = Worktree(gitDir: nat, head: string, branch: Option<string>, pristine: bool)

  /** The managed directory, by identity; it may not be a worktree yet. */
  datatype Directory = Directory(root: nat, worktree: Option<Worktree>)

  datatype Reservation = Reservation(branch: string, base: string, root: nat, gitDir: Option<nat>,
                                     worktreeCreated: bool, branchAttached: bool)

  datatype Chat = Chat(branch: string, base: string, root: nat, gitDir: nat)

  datatype World = World(dir: Option<Directory>, branches: map<string, string>,
                         reservation: Option<Reservation>, chat: Option<Chat>)

  // ----- the states of a creation -----

  /** What reconciliation checks before it removes the directory: its identity, the commit,
      the administrative directory once it is recorded, and that nothing was changed in it. */
  predicate Removable(dir: Directory, r: Reservation) {
    && dir.root == r.root
    && match dir.worktree
       case None => !r.worktreeCreated
       case Some(t) => t.head == r.base && t.pristine && (r.worktreeCreated ==> r.gitDir == Some(t.gitDir))
  }

  predicate Owns(dir: Option<Directory>, r: Reservation) {
    dir.Some? ==>
      && Removable(dir.value, r)
      && (dir.value.worktree.Some? && dir.value.worktree.value.branch.Some? ==>
            dir.value.worktree.value.branch == Some(r.branch))
  }

  predicate OnBranch(dir: Option<Directory>, branch: string) {
    dir.Some? && dir.value.worktree.Some? && dir.value.worktree.value.branch == Some(branch)
  }

  /** The branches are those of `before`, plus the new one if this creation made it. */
  predicate Made(w: World, r: Reservation, before: map<string, string>) {
    r.branch !in before && w.branches == before[r.branch := r.base]
  }

  /** A reservation is recorded; `before` are the branches there were at that point. */
  predicate Creating(w: World, before: map<string, string>) {
    && w.reservation.Some? && w.chat.None?
    && var r := w.reservation.value;
       && Owns(w.dir, r)
       && (r.worktreeCreated ==> r.gitDir.Some?)
       && (w.branches == before || Made(w, r, before))
       && (OnBranch(w.dir, r.branch) ==> Made(w, r, before))
       && (w.branches != before ==> r.branchAttached || OnBranch(w.dir, r.branch))
       && (r.branchAttached ==> r.branch !in before)
  }

  /** The worktree is gone and nothing on record says that the branch is this creation's. */
  predicate Orphaned(w: World, before: map<string, string>) {
    && w.reservation.Some? && w.chat.None? && w.dir.None?
    && !w.reservation.value.branchAttached && Made(w, w.reservation.value, before)
  }

  /** The creation is over and its branch is still there, for good. */
  predicate LeftBehind(w: World, r: Reservation, before: map<string, string>) {
    w.reservation.None? && w.chat.None? && w.dir.None? && Made(w, r, before)
  }

  /** Nothing is left of the creation. */
  predicate Discarded(w: World, before: map<string, string>) {
    w.reservation.None? && w.chat.None? && w.dir.None? && w.branches == before
  }

  /** The chat is there with its worktree on its new branch. */
  predicate Committed(w: World, before: map<string, string>) {
    && w.reservation.None? && w.chat.Some?
    && var chat := w.chat.value;
       && chat.branch !in before && w.branches == before[chat.branch := chat.base]
       && w.dir == Some(Directory(chat.root, Some(Worktree(chat.gitDir, chat.base, Some(chat.branch), true))))
  }

  /** The chat is the one that was reserved. */
  predicate Claimed(chat: Chat, r: Reservation) {
    chat.branch == r.branch && chat.base == r.base && chat.root == r.root
  }

  /** Where a creation may be; only a missed branch lets it be left behind. */
  predicate Reached(w: World, r: Reservation, before: map<string, string>, missed: bool) {
    || (Creating(w, before) && SameClaim(r, w.reservation.value))
    || Discarded(w, before)
    || (Committed(w, before) && Claimed(w.chat.value, r))
    || (missed && Orphaned(w, before) && SameClaim(r, w.reservation.value))
    || (missed && LeftBehind(w, r, before))
  }

  datatype Outcome = Finished | Refused | Died

  class Workspaces {
    var world: World
    ghost var faults: nat
    ghost var crashes: nat
    /** How often reading the branch of a checkout failed that was on the new branch. */
    ghost var misreads: nat
    /** What the transactions left on record of the reservation, one after the other. */
    ghost var rows: seq<Option<Reservation>>

    constructor (world: World)
      ensures this.world == world && faults == crashes == misreads == 0 && rows == []
    {
      this.world := world;
      faults, crashes, misreads, rows := 0, 0, 0, [];
    }

    method Interrupt() returns (r: Step)
      modifies `faults, `crashes
      ensures faults == old(faults) + Tick(r.Failed?) && crashes == old(crashes) + Tick(r.Crashed?)
    {
      r := AnyStep();
      faults, crashes := faults + Tick(r.Failed?), crashes + Tick(r.Crashed?);
    }

    /** A git or file-system effect. */
    method Effect(after: World) returns (r: Step)
      modifies `world, `faults, `crashes
      ensures crashes == old(crashes) + Tick(r.Crashed?)
      ensures world == old(world) || world == after
      ensures r.Done? ==> world == after
      ensures r.Failed? ==> faults > old(faults)
      ensures faults >= old(faults)
    {
      r := Interrupt();
      if !r.Done? { return; }
      world := after;
      r := Interrupt();
    }

    /** A database transaction: an error means it was rolled back. */
    method Transaction(after: World) returns (r: Step)
      modifies `world, `faults, `crashes, `rows
      ensures crashes == old(crashes) + Tick(r.Crashed?)
      ensures world == old(world) || (world == after && !r.Failed?)
      ensures r.Done? ==> world == after && rows == old(rows) + [after.reservation]
      ensures r.Failed? ==> faults > old(faults)
      ensures faults >= old(faults)
    {
      r := Interrupt();
      if !r.Done? { return; }
      world, rows := after, rows + [after.reservation];
      var dies: bool := *;
      crashes := crashes + Tick(dies);
      r := if dies then Crashed else Done;
    }

    // ----- git -----

    method AddDetachedWorktree(commit: string) returns (r: Step)
      modifies `world, `faults, `crashes
      ensures crashes == old(crashes) + Tick(r.Crashed?)
      ensures faults >= old(faults)
      ensures world == old(world) ||
              (old(world).dir.Some? && old(world).dir.value.worktree.None?
                  && exists gitDir: nat :: world == WithWorktree(old(world), gitDir, commit))
      ensures r.Done? ==> world != old(world)
      ensures r.Failed? ==> faults > old(faults) || old(world).dir.None? || old(world).dir.value.worktree.Some?
    {
      if world.dir.None? || world.dir.value.worktree.Some? { return Failed; }
      var gitDir: nat := *;
      r := Effect(WithWorktree(world, gitDir, commit));
    }

    /** Fails if the branch exists already. */
    method AttachNewBranch(branch: string) returns (r: Step)
      modifies `world, `faults, `crashes
      ensures crashes == old(crashes) + Tick(r.Crashed?)
      ensures faults >= old(faults)
      ensures world == old(world) || (Attachable(old(world), branch) && world == WithBranch(old(world), branch))
      ensures r.Done? ==> Attachable(old(world), branch) && world == WithBranch(old(world), branch)
      ensures r.Failed? ==> faults > old(faults) || !Attachable(old(world), branch)
    {
      if !Attachable(world, branch) { return Failed; }
      r := Effect(WithBranch(world, branch));
    }

    /** Whether the checkout is on the new branch; an error reads as no. */
    method ReadBranch(seen: Reservation) returns (attached: bool)
      modifies `misreads
      ensures attached ==> OnBranch(world.dir, seen.branch)
      ensures misreads == old(misreads) + Tick(Missable(world, seen) && !attached)
    {
      var failed: bool := *;
      attached := !failed && OnBranch(world.dir, seen.branch);
      misreads := misreads + Tick(Missable(world, seen) && !attached);
    }

    method RemoveWorktree() returns (r: Step)
      modifies `world, `faults, `crashes
      ensures crashes == old(crashes) + Tick(r.Crashed?)
      ensures faults >= old(faults)
      ensures world == old(world) || world == old(world).(dir := None)
      ensures r.Done? ==> world == old(world).(dir := None)
      ensures r.Failed? ==> faults > old(faults)
    {
      r := Effect(world.(dir := None));
    }

    method DeleteBranchIfAt(branch: string, head: string) returns (r: Step)
      modifies `world, `faults, `crashes
      ensures crashes == old(crashes) + Tick(r.Crashed?)
      ensures faults >= old(faults)
      ensures world == old(world) ||
              (branch in old(world).branches && old(world).branches[branch] == head
                  && world == old(world).(branches := old(world).branches - {branch}))
      ensures r.Done? ==> branch !in world.branches
      ensures r.Failed? ==>
          faults > old(faults) || (branch in old(world).branches && old(world).branches[branch] != head)
    {
      r := Interrupt();
      if !r.Done? || branch !in world.branches { return; }
      if world.branches[branch] != head { return Failed; }
      r := Effect(world.(branches := world.branches - {branch}));
    }

    // ----- reconciliation -----

    /** `reservation` is what the caller remembers; flags it has not seen set may be set on
        record. A directory that is not as it was left is never touched, nor is a branch that
        is not at the base commit or was never seen attached. */
    method ReconcileReservation(reservation: Reservation, ghost before: map<string, string>) returns (r: Outcome)
      requires world.reservation.Some? && Remembers(reservation, world)
      modifies `world, `faults, `crashes, `misreads, `rows
      ensures crashes == old(crashes) + Tick(r.Died?)
      ensures faults >= old(faults)
      ensures old(world).dir.Some? && !Removable(old(world).dir.value, reservation) ==>
                world.dir == old(world).dir && world.branches == old(world).branches && !r.Finished?
      ensures forall n :: n in old(world).branches && n !in world.branches ==>
                n == reservation.branch && old(world).branches[n] == reservation.base
                && (reservation.branchAttached || OnBranch(old(world).dir, n))
      ensures forall n ::
          n in world.branches ==> n in old(world).branches && world.branches[n] == old(world).branches[n]
      ensures misreads >= old(misreads) && (misreads == old(misreads) || Missable(old(world), reservation))
      ensures Creating(old(world), before) ==>
                && Reached(world, reservation, before, misreads > old(misreads)) && world.chat.None?
                && (r.Finished? ==>
                      if misreads > old(misreads) then LeftBehind(world, reservation, before)
                      else Discarded(world, before))
                && (r.Refused? ==> faults > old(faults) && world.reservation.Some?)
      ensures Orphaned(old(world), before) ==>
                && (world == old(world) || LeftBehind(world, reservation, before))
                && (r.Finished? ==> LeftBehind(world, reservation, before))
                && (r.Refused? ==> faults > old(faults) && world == old(world))
    {
      hide Creating, Discarded, Committed, Made, Removable;
      ghost var w0 := world;
      if Creating(w0, before) { CreatingRemovable(w0, reservation, before); CreatingOpen(w0, before); }
      var step := Interrupt();
      if !step.Done? { return if step.Crashed? then Died else Refused; }
      var ownedBranch := reservation.branchAttached;
      if world.dir.Some? {
        r, ownedBranch := RemoveOwned(reservation, before);
        if !r.Finished? { return; }
      } else if Creating(w0, before) {
        NothingAttached(w0, before);
      }
      if Creating(w0, before) && misreads > old(misreads) { WillBeLeft(world, reservation, before); }
      if Orphaned(w0, before) { OrphanIsLeft(w0, reservation, before); }
      r := FinishReconciliation(reservation, ownedBranch, before);
      if Creating(world, before) { CreatingOpen(world, before); }
    }

    /** Removes the worktree, or the bare directory, after looking at it. An attached branch
        is put on record first. */
    method RemoveOwned(reservation: Reservation, ghost before: map<string, string>)
      returns (r: Outcome, ownedBranch: bool)
      requires world.reservation.Some? && Remembers(reservation, world) && world.dir.Some?
      modifies `world, `faults, `crashes, `misreads, `rows
      ensures crashes == old(crashes) + Tick(r.Died?)
      ensures faults >= old(faults)
      ensures world == old(world).(dir := world.dir, reservation := world.reservation)
      ensures world.reservation.Some? && SameClaim(reservation, world.reservation.value)
      ensures world.dir == old(world).dir || (world.dir.None? && Removable(old(world).dir.value, reservation))
      ensures !Removable(old(world).dir.value, reservation) ==> !r.Finished?
      ensures misreads >= old(misreads) && (misreads == old(misreads) || Missable(old(world), reservation))
      ensures r.Finished? ==> world.dir.None? && (ownedBranch <==>
          reservation.branchAttached || (OnBranch(old(world).dir, reservation.branch) && misreads == old(misreads)))
      ensures r.Refused? ==> faults > old(faults) || !Removable(old(world).dir.value, reservation)
      ensures Creating(old(world), before) ==>
                && OwnedRemoval(world, reservation, before, misreads > old(misreads))
                && (r.Finished? ==> OwnedRemoved(world, before, ownedBranch, misreads > old(misreads)))
    {
      hide Creating, Made;
      ownedBranch := reservation.branchAttached;
      ghost var creating := Creating(world, before);
      if creating { CreatingOwned(world, reservation, before); }
      var dir := world.dir.value;
      if dir.root != reservation.root { return Refused, ownedBranch; }
      var attached := ReadBranch(reservation);
      if dir.worktree.Some? {
        r, ownedBranch := RemoveCheckout(reservation, attached, before);
        return;
      }
      if reservation.worktreeCreated { return Refused, ownedBranch; }
      if creating { DirGone(world, before); Unattached(world, reservation, before); }
      var step := Effect(world.(dir := None));
      r := match step case Done => Finished case Failed => Refused case Crashed => Died;
    }

    method RemoveCheckout(reservation: Reservation, attached: bool, ghost before: map<string, string>)
      returns (r: Outcome, ownedBranch: bool)
      requires world.reservation.Some? && Remembers(reservation, world) && world.dir.Some?
      requires world.dir.value.root == reservation.root && world.dir.value.worktree.Some?
      requires attached ==> OnBranch(world.dir, reservation.branch)
      modifies `world, `faults, `crashes, `rows
      ensures crashes == old(crashes) + Tick(r.Died?)
      ensures faults >= old(faults)
      ensures world == old(world).(dir := world.dir, reservation := world.reservation)
      ensures world.reservation.Some? && SameClaim(reservation, world.reservation.value)
      ensures world.dir == old(world).dir || (world.dir.None? && Removable(old(world).dir.value, reservation))
      ensures r.Finished? ==> world.dir.None? && (ownedBranch <==> reservation.branchAttached || attached)
      ensures r.Refused? ==> faults > old(faults) || !Removable(old(world).dir.value, reservation)
      ensures Creating(old(world), before) ==>
                var missed := Missable(old(world), reservation) && !attached;
                && OwnedRemoval(world, reservation, before, missed)
                && (r.Finished? ==> OwnedRemoved(world, before, ownedBranch, missed))
    {
      hide Creating, Made;
      ownedBranch := reservation.branchAttached;
      ghost var w0 := world;
      ghost var creating := Creating(w0, before);
      if creating { CreatingOwned(w0, reservation, before); }
      var worktree := world.dir.value.worktree.value;
      if worktree.head != reservation.base { return Refused, ownedBranch; }
      if reservation.worktreeCreated && reservation.gitDir != Some(worktree.gitDir) { return Refused, ownedBranch; }
      if attached && !ownedBranch {
        if creating { Marked(w0, before); }
        var step := Transaction(world.(reservation := Some(world.reservation.value.(branchAttached := true))));
        if creating && world != w0 { CreatingOwned(world, reservation, before); }
        if !step.Done? { return (if step.Crashed? then Died else Refused), ownedBranch; }
        ownedBranch := true;
      }
      if !worktree.pristine { return Refused, ownedBranch; }
      if creating {
        Unattached(w0, reservation, before);
        if Missable(w0, reservation) && !attached { Missed(w0, reservation, before); } else { DirGone(world, before); }
      }
      var step := RemoveWorktree();
      r := match step case Done => Finished case Failed => Refused case Crashed => Died;
    }

    /** The directory is gone: the branch goes if this creation made it, then the record. */
    method FinishReconciliation(reservation: Reservation, ownedBranch: bool, ghost before: map<string, string>)
      returns (r: Outcome)
      requires world.reservation.Some? && world.dir.None? && SameClaim(reservation, world.reservation.value)
      modifies `world, `faults, `crashes, `rows
      ensures crashes == old(crashes) + Tick(r.Died?)
      ensures faults >= old(faults)
      ensures world == old(world).(branches := world.branches, reservation := world.reservation)
      ensures world.reservation == old(world).reservation || world.reservation.None?
      ensures world.branches == old(world).branches ||
              (ownedBranch && reservation.branch in old(world).branches
                  && old(world).branches[reservation.branch] == reservation.base
               && world.branches == old(world).branches - {reservation.branch})
      ensures !ownedBranch ==>
                && (world == old(world) || world == old(world).(reservation := None))
                && (r.Finished? ==> world == old(world).(reservation := None))
                && (r.Refused? ==> faults > old(faults) && world == old(world))
      ensures Creating(old(world), before)
              && (if ownedBranch then old(world).reservation.value.branchAttached
                  else old(world).branches == before) ==>
                && (Creating(world, before) || Discarded(world, before))
                && (r.Finished? ==> Discarded(world, before))
                && (r.Refused? ==> faults > old(faults) && Creating(world, before))
    {
      ghost var w0 := world;
      ghost var creating := Creating(w0, before) && (if ownedBranch then w0.reservation.value.branchAttached
          else w0.branches == before);
      if ownedBranch {
        var step := DeleteBranchIfAt(reservation.branch, reservation.base);
        if creating { BranchGone(w0, world, before, reservation.branch); }
        if !step.Done? { return if step.Crashed? then Died else Refused; }
      }
      var step := Transaction(world.(reservation := None));
      r := match step case Done => Finished case Failed => Refused case Crashed => Died;
    }

    // ----- creation -----

    /** The creation failed: what it made goes again, short of another error. */
    method ReconcileAfterError(reservation: Reservation, ghost before: map<string, string>) returns (r: Outcome)
      requires Creating(world, before) && Remembers(reservation, world)
      modifies `world, `faults, `crashes, `misreads, `rows
      ensures crashes == old(crashes) + Tick(r.Died?)
      ensures faults >= old(faults) && misreads >= old(misreads)
      ensures Reached(world, reservation, before, misreads > old(misreads)) && world.chat.None?
      ensures !r.Finished?
      ensures r.Refused? && world.reservation.Some? ==> faults > old(faults)
    {
      r := ReconcileReservation(reservation, before);
      r := if r.Died? then Died else Refused;
    }

    /** From the recorded reservation to the committed chat. A refusal leaves the reservation
        open only after a second error. */
    method CreateReserved(reserved: Reservation, ghost before: map<string, string>) returns (r: Outcome)
      requires world.reservation == Some(reserved) && world.chat.None? && world.branches == before
      requires world.dir == Some(Directory(reserved.root, None))
      requires !reserved.worktreeCreated && !reserved.branchAttached && reserved.gitDir.None?
      modifies `world, `faults, `crashes, `misreads, `rows
      ensures crashes == old(crashes) + Tick(r.Died?)
      ensures faults >= old(faults) && misreads >= old(misreads)
      ensures Reached(world, reserved, before, misreads > old(misreads))
      ensures r.Finished? ==> Committed(world, before) && Claimed(world.chat.value, reserved)
      ensures r.Finished? ==>
                var there := reserved.(worktreeCreated := true, gitDir := Some(world.chat.value.gitDir));
                rows == old(rows) + [Some(there), Some(there.(branchAttached := true)), None]
      ensures r.Refused? ==> world.chat.None? && (faults > old(faults) || reserved.branch in before)
      ensures r.Refused? && world.reservation.Some? ==>
                faults > old(faults) + if reserved.branch in before then 0 else 1
    {
      var step := AddDetachedWorktree(reserved.base);
      if step.Crashed? { return Died; }
      if step.Failed? { r := ReconcileAfterError(reserved, before); return; }
      step := Interrupt();
      if step.Crashed? { return Died; }
      if step.Failed? { r := ReconcileAfterError(reserved, before); return; }
      var gitDir := world.dir.value.worktree.value.gitDir;
      var marked := reserved.(worktreeCreated := true, gitDir := Some(gitDir));
      step := Transaction(world.(reservation := Some(marked)));
      if step.Crashed? { return Died; }
      if step.Failed? { r := ReconcileAfterError(reserved.(gitDir := Some(gitDir)), before); return; }
      r := AttachAndCommit(marked, gitDir, before);
    }

    method AttachAndCommit(marked: Reservation, gitDir: nat, ghost before: map<string, string>) returns (r: Outcome)
      requires world.reservation == Some(marked) && world.chat.None? && world.branches == before
      requires marked.worktreeCreated && !marked.branchAttached && marked.gitDir == Some(gitDir)
      requires world.dir == Some(Directory(marked.root, Some(Worktree(gitDir, marked.base, None, true))))
      modifies `world, `faults, `crashes, `misreads, `rows
      ensures crashes == old(crashes) + Tick(r.Died?)
      ensures faults >= old(faults) && misreads >= old(misreads)
      ensures Reached(world, marked, before, misreads > old(misreads))
      ensures r.Finished? ==> Committed(world, before) && Claimed(world.chat.value, marked)
      ensures r.Finished? ==>
                world.chat.value.gitDir == gitDir && rows == old(rows) + [Some(marked.(branchAttached := true)), None]
      ensures r.Refused? ==> world.chat.None? && (faults > old(faults) || marked.branch in before)
      ensures r.Refused? && world.reservation.Some? ==>
                faults > old(faults) + if marked.branch in before then 0 else 1
    {
      var step := AttachNewBranch(marked.branch);
      if step.Crashed? { return Died; }
      if step.Failed? { r := ReconcileAfterError(marked, before); return; }
      step := Transaction(world.(reservation := Some(marked.(branchAttached := true))));
      if step.Crashed? { return Died; }
      if step.Failed? { r := ReconcileAfterError(marked, before); return; }
      var chat := Chat(marked.branch, marked.base, marked.root, gitDir);
      step := Transaction(world.(reservation := None, chat := Some(chat)));
      if step.Crashed? { return Died; }
      if step.Failed? { r := ReconcileAfterError(marked, before); return; }
      r := Finished;
    }

    /** One start: a reservation found on record is reconciled from what it says. Short of an
        error or a crash it leaves nothing open. */
    method ReconcileOnce(ghost claim: Reservation, ghost before: map<string, string>, ghost missed: bool)
      returns (r: Outcome)
      requires Reached(world, claim, before, missed)
      modifies `world, `faults, `crashes, `misreads, `rows
      ensures crashes == old(crashes) + Tick(r.Died?)
      ensures faults >= old(faults) && misreads >= old(misreads)
      ensures Reached(world, claim, before, missed || misreads > old(misreads))
      ensures old(world).reservation.None? ==> world == old(world)
      ensures r.Finished? ==> world.reservation.None?
      ensures r.Refused? ==> faults > old(faults)
    {
      hide Creating, Discarded, Committed, Made;
      var step := Interrupt();
      if !step.Done? { return if step.Crashed? then Died else Refused; }
      if world.reservation.None? { return Finished; }
      ReachedOpen(world, claim, before, missed);
      ghost var recorded := world.reservation.value;
      ghost var w0 := world;
      r := ReconcileReservation(world.reservation.value, before);
      if Creating(w0, before) || world != w0 {
        ReachedBy(world, recorded, claim, before, missed || misreads > old(misreads));
      }
      if r.Finished? { Closes(world, recorded, before); }
    }

    /** A creation cut off anywhere, then any number of starts cut off anywhere. Every start
        that does not finish met an error or a crash, and one that finished is all or nothing
        unless reading the branch failed where nothing else said that it was made. With nothing
        in its way the creation is committed. */
    method CreateAcrossCrashes(reserved: Reservation, starts: nat, ghost before: map<string, string>)
      returns (r: Outcome)
      requires world.reservation == Some(reserved) && world.chat.None? && world.branches == before
      requires world.dir == Some(Directory(reserved.root, None))
      requires !reserved.worktreeCreated && !reserved.branchAttached && reserved.gitDir.None?
      modifies `world, `faults, `crashes, `misreads, `rows
      ensures Reached(world, reserved, before, misreads > old(misreads))
      ensures r.Finished? ==> world.reservation.None?
      ensures r.Finished? && misreads == old(misreads) ==> Discarded(world, before) || Committed(world, before)
      ensures r.Finished? || faults + crashes >= old(faults + crashes) + starts
      ensures faults == old(faults) && crashes == old(crashes) && reserved.branch !in before ==>
                Committed(world, before) && Claimed(world.chat.value, reserved)
      ensures forall n :: n in before ==> n in world.branches && world.branches[n] == before[n]
    {
      hide Creating, Discarded, Committed, Orphaned, LeftBehind, Reached;
      r := CreateReserved(reserved, before);
      if !r.Finished? {
        for i := 0 to starts
          invariant faults + crashes >= old(faults + crashes) + i && misreads >= old(misreads)
          invariant faults >= old(faults) && crashes >= old(crashes)
          invariant reserved.branch !in before ==> faults > old(faults) || crashes > old(crashes)
          invariant Reached(world, reserved, before, misreads > old(misreads))
          invariant !r.Finished?
        {
          r := ReconcileOnce(reserved, before, misreads > old(misreads));
          if r.Finished? { break; }
        }
      }
      BranchesKept(world, reserved, before, misreads > old(misreads));
      if r.Finished? { Closed(world, reserved, before, misreads > old(misreads)); }
    }
  }

  /** The branch is checked out, and the caller does not remember that it was put on record. */
  predicate Missable(w: World, seen: Reservation) {
    !seen.branchAttached && OnBranch(w.dir, seen.branch)
  }

  predicate SameClaim(seen: Reservation, recorded: Reservation) {
    seen.branch == recorded.branch && seen.base == recorded.base && seen.root == recorded.root
  }

  /** A creation may remember less than the record says, after an error in between; a branch
      it has not seen marked is then still checked out. */
  predicate Remembers(seen: Reservation, w: World)
    requires w.reservation.Some?
  {
    var recorded := w.reservation.value;
    && SameClaim(seen, recorded)
    && (seen.worktreeCreated ==> recorded.worktreeCreated && seen.gitDir == recorded.gitDir)
    && (seen.branchAttached ==> recorded.branchAttached)
    && (recorded.branchAttached && !seen.branchAttached ==> OnBranch(w.dir, seen.branch))
  }

  function WithWorktree(w: World, gitDir: nat, commit: string): World
    requires w.dir.Some?
  {
    w.(dir := Some(w.dir.value.(worktree := Some(Worktree(gitDir, commit, None, true)))))
  }

  predicate Attachable(w: World, branch: string) {
    w.dir.Some? && w.dir.value.worktree.Some? && branch !in w.branches
  }

  function WithBranch(w: World, branch: string): World
    requires Attachable(w, branch)
  {
    var t := w.dir.value.worktree.value;
    w.(dir := Some(w.dir.value.(worktree := Some(t.(branch := Some(branch))))),
        branches := w.branches[branch := t.head])
  }

  lemma CreatingRemovable(w: World, seen: Reservation, before: map<string, string>)
    requires Creating(w, before) && Remembers(seen, w)
    ensures w.dir.Some? ==> Removable(w.dir.value, seen)
  {
  }

  lemma NothingAttached(w: World, before: map<string, string>)
    requires Creating(w, before) && w.dir.None?
    ensures !w.reservation.value.branchAttached ==> w.branches == before
  {
  }

  lemma Unattached(w: World, seen: Reservation, before: map<string, string>)
    requires Creating(w, before) && Remembers(seen, w)
    ensures !seen.branchAttached && !OnBranch(w.dir, seen.branch) ==> w.branches == before
    ensures seen.branchAttached ==> w.reservation.value.branchAttached
  {
  }

  lemma DirGone(w: World, before: map<string, string>)
    requires Creating(w, before) && (OnBranch(w.dir, w.reservation.value.branch) ==> w.reservation.value.branchAttached)
    ensures Creating(w.(dir := None), before)
  {
  }

  lemma Marked(w: World, before: map<string, string>)
    requires Creating(w, before) && OnBranch(w.dir, w.reservation.value.branch)
    ensures Creating(w.(reservation := Some(w.reservation.value.(branchAttached := true))), before)
  {
  }

  lemma BranchGone(w: World, after: World, before: map<string, string>, branch: string)
    requires Creating(w, before) && w.dir.None? && w.reservation.value.branchAttached
        && branch == w.reservation.value.branch
    requires after == w || after == w.(branches := w.branches - {branch})
    ensures Creating(after, before)
    ensures branch !in after.branches ==> after.branches == before
    ensures branch in w.branches ==> w.branches[branch] == w.reservation.value.base
  {
    if branch in w.branches {
      assert w.branches - {branch} == before;
    } else {
      assert w.branches - {branch} == w.branches;
    }
  }

  /** Its branch unseen, the worktree goes and the branch stays; a mark on record survives. */
  lemma Missed(w: World, seen: Reservation, before: map<string, string>)
    requires Creating(w, before) && Remembers(seen, w) && Missable(w, seen)
    ensures var after := w.(dir := None);
            Made(after, seen, before)
            && if w.reservation.value.branchAttached then Creating(after, before) else Orphaned(after, before)
  {
  }

  /** While a creation's directory is being removed: only an unseen branch may be orphaned,
      and its name is this creation's. */
  predicate OwnedRemoval(w: World, seen: Reservation, before: map<string, string>, missed: bool) {
    && (Creating(w, before) || (missed && Orphaned(w, before)))
    && (missed ==> Made(w, seen, before))
  }

  predicate OwnedRemoved(w: World, before: map<string, string>, ownedBranch: bool, missed: bool) {
    && (ownedBranch ==> Creating(w, before) && w.reservation.Some? && w.reservation.value.branchAttached)
    && (!ownedBranch && !missed ==> Creating(w, before) && w.branches == before)
  }

  lemma CreatingOwned(w: World, seen: Reservation, before: map<string, string>)
    requires Creating(w, before) && w.reservation.Some? && SameClaim(seen, w.reservation.value)
    ensures OnBranch(w.dir, seen.branch) ==> Made(w, seen, before)
  {
  }

  lemma CreatingOpen(w: World, before: map<string, string>)
    requires Creating(w, before)
    ensures w.chat.None? && w.reservation.Some?
  {
  }

  lemma WillBeLeft(w: World, seen: Reservation, before: map<string, string>)
    requires w.dir.None? && w.chat.None? && Made(w, seen, before)
    ensures LeftBehind(w.(reservation := None), seen, before)
  {
  }

  lemma OrphanIsLeft(w: World, seen: Reservation, before: map<string, string>)
    requires Orphaned(w, before) && SameClaim(seen, w.reservation.value)
    ensures LeftBehind(w.(reservation := None), seen, before)
  {
  }

  lemma ReachedOpen(w: World, claim: Reservation, before: map<string, string>, missed: bool)
    requires Reached(w, claim, before, missed) && w.reservation.Some?
    ensures Creating(w, before) || (missed && Orphaned(w, before))
    ensures SameClaim(claim, w.reservation.value)
  {
  }

  lemma ReachedBy(w: World, recorded: Reservation, claim: Reservation, before: map<string, string>, missed: bool)
    requires Reached(w, recorded, before, missed) || (missed && LeftBehind(w, recorded, before))
    requires SameClaim(claim, recorded)
    ensures Reached(w, claim, before, missed)
  {
  }

  lemma Closes(w: World, claim: Reservation, before: map<string, string>)
    requires Discarded(w, before) || LeftBehind(w, claim, before)
    ensures w.reservation.None?
  {
  }

  lemma Closed(w: World, claim: Reservation, before: map<string, string>, missed: bool)
    requires Reached(w, claim, before, missed) && w.reservation.None?
    ensures Discarded(w, before) || Committed(w, before) || (missed && LeftBehind(w, claim, before))
  {
  }

  /** Whatever happened, a branch that was there before is still there, at its head. */
  lemma BranchesKept(w: World, claim: Reservation, before: map<string, string>, missed: bool)
    requires Reached(w, claim, before, missed)
    ensures forall n :: n in before ==> n in w.branches && w.branches[n] == before[n]
  {
  }

  /** The branch of a creation that was left behind stays: nothing on record names it, and
      it is neither all nor nothing. */
  lemma LeftBehindStays(w: World, r: Reservation, before: map<string, string>)
    requires LeftBehind(w, r, before)
    ensures r.branch in w.branches && r.branch !in before
    ensures !Discarded(w, before) && !Committed(w, before) && !Creating(w, before)
  {
  }

  /** A crash between attaching the branch and recording it, then a failed read: such a state. */
  lemma MissedInstance() returns (w: World, before: map<string, string>)
    ensures Creating(w, before) && Missable(w, w.reservation.value) && !w.reservation.value.branchAttached
    ensures Orphaned(w.(dir := None), before)
    ensures LeftBehind(w.(dir := None, reservation := None), w.reservation.value, before)
  {
    before := map["main" := "c"];
    var r := Reservation("agent/x", "c", 1, Some(2), true, false);
    var checkout := Worktree(2, "c", Some("agent/x"), true);
    w := World(Some(Directory(1, Some(checkout))), before["agent/x" := "c"], Some(r), None);
  }

  /** A creation is in exactly one of its states, so one that finished is all or nothing. */
  lemma AllOrNothing(w: World, before: map<string, string>)
    requires Discarded(w, before) || Committed(w, before)
    ensures !Creating(w, before)
    ensures w.chat.Some? <==> Committed(w, before)
    ensures w.chat.Some? <==> w.dir.Some?
    ensures w.chat.Some? <==> w.branches != before
  {
  }
}
