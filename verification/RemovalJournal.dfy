/** The steps a removal takes on its journal, and rolling it back. */
module RemovalJournal {
  import opened Options
  import opened Steps
  import opened AssetDisk
  import opened AssetOperations
  import opened RemovalRecovery

  datatype StagedRemoval = StagedRemoval(original: Name, staged: Name, identity: Identity)

  /** How a removal ends: everything gone (`Superseded`: but the operation slot had been
      taken over), stopped with an error, or with the process. */
  datatype Outcome = Removed | Superseded | Stopped(recoveryRequired: bool) | Lost

  // ----- writing a journal -----

  ghost predicate WithPrivate(d: Disk, d': Disk, dir: string) {
    exists k: nat, f: File :: SmallPrivate(f) && d' == d.(files := d.files[Staged(dir, PrivateWrite(k)) := f])
  }

  ghost predicate WithJournal(d: Disk, d': Disk, dir: string, plan: Plan) {
    && Journal(dir) in d'.files
    && d'.files[Journal(dir)].body == JournalBody(plan)
    && SmallPrivate(d'.files[Journal(dir)])
    && d' == d.(files := d.files[Journal(dir) := d'.files[Journal(dir)]])
  }

  ghost predicate NoPrivate(d: Disk, dir: string) {
    forall k: nat :: Staged(dir, PrivateWrite(k)) !in d.files
  }

  lemma PublishedPrivate(d: Disk, d1: Disk, d2: Disk, dir: string, plan: Plan, k: nat, f: File)
    requires Staged(dir, PrivateWrite(k)) !in d.files
    requires d1 == d.(files := d.files[Staged(dir, PrivateWrite(k)) := f])
    requires SmallPrivate(f) && f.body == JournalBody(plan)
    requires Moved(d1, d2, Staged(dir, PrivateWrite(k)), Journal(dir))
    ensures WithJournal(d, d2, dir, plan)
  {
    assert d2.files == d.files[Journal(dir) := d2.files[Journal(dir)]];
  }

  /** The private file, empty or fully written; none if it could not be created. */
  method CreatePrivateWrite(store: Storage, dir: string, plan: Plan) returns (r: Step, k: nat)
    requires NoPrivate(store.disk, dir)
    modifies store`disk, store`faults, store`crashes
    ensures store.crashes == old(store.crashes) + Tick(r.Crashed?)
    ensures store.faults >= old(store.faults)
    ensures r.Failed? ==> store.faults > old(store.faults)
    ensures store.disk == old(store.disk) || WithPrivate(old(store.disk), store.disk, dir)
    ensures r.Done? ==>
              && Staged(dir, PrivateWrite(k)) in store.disk.files
              && var f := store.disk.files[Staged(dir, PrivateWrite(k))];
                 SmallPrivate(f) && f.body == JournalBody(plan)
                 && store.disk == old(store.disk).(files := old(store.disk).files[Staged(dir, PrivateWrite(k)) := f])
  {
    k :| true;
    var n := Staged(dir, PrivateWrite(k));
    ghost var d := store.disk;
    r := store.CreateNew(n);
    if store.disk != d {
      var f: File :| Fresh(f) && store.disk == d.(files := d.files[n := f]);
      assert SmallPrivate(f);
    }
    if !r.Done? { return; }
    r := store.Interrupt();
    if !r.Done? { return; }
    var size: nat :| size <= REMOVAL_RECOVERY_MAX_BYTES;
    var changed: int := *;
    var digest: Digest := *;
    var f := store.disk.files[n].(size := size, changed := changed, digest := digest, body := JournalBody(plan));
    assert SmallPrivate(f);
    store.disk := store.disk.(files := store.disk.files[n := f]);
    r := store.Interrupt();
  }

  method PublishPrivateWrite(store: Storage, dir: string, plan: Plan, k: nat) returns (r: Step, ghost published: bool)
    requires Staged(dir, PrivateWrite(k)) in store.disk.files
    modifies store
    ensures store.crashes == old(store.crashes) + Tick(r.Crashed?)
    ensures store.faults >= old(store.faults)
    ensures r.Failed? ==> store.faults > old(store.faults)
    ensures r.Done? ==> published
    ensures if published then Moved(old(store.disk), store.disk, Staged(dir, PrivateWrite(k)), Journal(dir))
        else store.disk == old(store.disk)
    ensures store.deletingPublished == (old(store.deletingPublished) || (published && plan.phase.Deleting?))
    ensures store.journalFault == (old(store.journalFault) || (published && plan.phase.Deleting? && r.Failed?))
  {
    published := false;
    r := store.Interrupt();
    if !r.Done? { return; }
    var changed: int := *;
    var f := store.disk.files[Staged(dir, PrivateWrite(k))].(changed := changed);
    store.disk := store.disk.(files := (store.disk.files - {Staged(dir, PrivateWrite(k))})[Journal(dir) := f]);
    published := true;
    store.deletingPublished := store.deletingPublished || plan.phase.Deleting?;
    r := store.Interrupt();
    store.journalFault := store.journalFault || (plan.phase.Deleting? && r.Failed?);
  }

  /** A journal reaches its name by a rename of a private file written beforehand. The
      write may be cancelled before that, and then the private file is removed. */
  method WriteJournal(store: Storage, ops: Operations, id: nat, dir: string, plan: Plan)
    returns (r: Step, ghost published: bool)
    requires ops.Valid()
    requires NoPrivate(store.disk, dir)
    modifies store, ops
    ensures store.crashes == old(store.crashes) + Tick(r.Crashed?)
    ensures ops.Valid() && old(ops.committed) <= ops.committed && (id in ops.committed ==> id in old(ops.committed))
    ensures store.faults >= old(store.faults)
    ensures if published then WithJournal(old(store.disk), store.disk, dir, plan)
            else store.disk == old(store.disk) || WithPrivate(old(store.disk), store.disk, dir)
    ensures r.Done? ==> published
    ensures r.Failed? && store.faults == old(store.faults) ==> store.disk == old(store.disk) && id in ops.cancelled
    ensures store.deletingPublished == (old(store.deletingPublished) || (published && plan.phase.Deleting?))
    ensures store.journalFault == (old(store.journalFault) || (published && plan.phase.Deleting? && r.Failed?))
  {
    published := false;
    ghost var d := store.disk;
    var cancelled := ops.IsCancelled(id);
    if cancelled { return Failed, false; }
    var k;
    r, k := CreatePrivateWrite(store, dir, plan);
    if !r.Done? { return; }
    cancelled := ops.IsCancelled(id);
    if cancelled {
      var discarded := store.RemoveFileDurable(Staged(dir, PrivateWrite(k)));
      assert r.Done? && discarded.Done? ==> store.disk.files == d.files;
      return (if discarded.Crashed? then Crashed else Failed), false;
    }
    ghost var d1 := store.disk;
    r, published := PublishPrivateWrite(store, dir, plan, k);
    if published {
      PublishedPrivate(d, d1, store.disk, dir, plan, k, d1.files[Staged(dir, PrivateWrite(k))]);
    }
  }

  // ----- rolling back -----

  /** The first `|staged|` entries are staged as recorded, the others are in place. */
  ghost predicate Rollbackable(d: Disk, dir: string, plan: Plan, b: Before, staged: seq<StagedRemoval>) {
    && RestUntouched(d, dir, b)
    && HasJournal(d, dir, plan)
    && Covers(plan.entries, dir, b)
    && |staged| <= |plan.entries|
    && (forall k :: 0 <= k < |staged| ==> StagedAs(d, plan.entries[k], plan.phase, b, staged[k]))
    && (forall k :: |staged| <= k < |plan.entries| ==> AtOriginal(d, plan.entries[k], b))
  }

  predicate StagedAs(d: Disk, e: Entry, phase: Phase, b: Before, s: StagedRemoval)
    requires e.original in b.owned
  {
    && s.original == e.original
    && s.staged == e.staged
    && AtStaged(d, e, b)
    && s.identity == IdentityOf(d.files[e.staged])
    && (phase.Deleting? ==> e.identity == Some(s.identity))
  }

  /** What recovery would keep if the process stopped with `m` entries still staged. Under a
      Deleting journal that is only what is already back in place. */
  ghost function KeptIfInterrupted(plan: Plan, b: Before, m: nat): set<Name> {
    if plan.phase.Staging? || m > |plan.entries| then b.owned.Keys else Originals(plan.entries[m..])
  }

  lemma TailOriginals(plan: Plan, dir: string, b: Before, m: nat, k: nat)
    requires Covers(plan.entries, dir, b) && m <= |plan.entries| && k < |plan.entries|
    ensures plan.entries[k].original in Originals(plan.entries[m..]) <==> k >= m
  {
    var tail := plan.entries[m..];
    if k >= m {
      assert tail[k - m] == plan.entries[k];
    } else {
      assert forall i :: 0 <= i < |tail| ==> tail[i] == plan.entries[m + i];
    }
  }

  lemma RollbackInterruptible(d: Disk, dir: string, plan: Plan, b: Before, staged: seq<StagedRemoval>)
    requires Rollbackable(d, dir, plan, b, staged)
    ensures Interruptible(d, dir, b, KeptIfInterrupted(plan, b, |staged|))
    ensures dir in d.dirs
    ensures staged == [] ==> KeptIfInterrupted(plan, b, 0) == b.owned.Keys && JournalSpent(d, dir, b, b.owned.Keys)
  {
    hide RestUntouched, OnePrivate;
    if plan.phase.Deleting? {
      forall k | 0 <= k < |plan.entries|
        ensures plan.entries[k].original in KeptIfInterrupted(plan, b, |staged|) <==> k >= |staged|
      {
        TailOriginals(plan, dir, b, |staged|, k);
      }
    }
    assert plan.entries[0..] == plan.entries;
  }

  lemma RollbackStep(d: Disk, d': Disk, dir: string, plan: Plan, b: Before, staged: seq<StagedRemoval>)
    requires Rollbackable(d, dir, plan, b, staged) && staged != []
    requires var last := staged[|staged| - 1]; Moved(d, d', last.staged, last.original)
    ensures Rollbackable(d', dir, plan, b, staged[..|staged| - 1])
  {
    hide RestUntouched, HasJournal, Originals;
    FrameKeptByRestore(d, d', dir, plan, b, |staged| - 1);
  }

  method UnstageLast(store: Storage, dir: string, staged: seq<StagedRemoval>, ghost plan: Plan, ghost b: Before)
    returns (r: Recovery, ghost left: seq<StagedRemoval>)
    requires Rollbackable(store.disk, dir, plan, b, staged) && staged != []
    modifies store`disk, store`faults, store`crashes
    ensures store.crashes == old(store.crashes) + Tick(r.Halted?)
    ensures store.faults >= old(store.faults) && store.disk.dirs == old(store.disk).dirs
    ensures left == staged || left == staged[..|staged| - 1]
    ensures Rollbackable(store.disk, dir, plan, b, left)
    ensures r.Recovered? ==> left == staged[..|staged| - 1]
    ensures r.Refused? ==> store.faults > old(store.faults)
  {
    hide RestUntouched, HasJournal, Originals;
    var last := staged[|staged| - 1];
    left := staged;
    var step := store.Read();
    if !step.Done? { return (if step.Crashed? then Halted else Refused), left; }
    assert StagedAs(store.disk, plan.entries[|staged| - 1], plan.phase, b, last);
    if last.staged !in store.disk.files
        || IdentityOf(store.disk.files[last.staged]) != last.identity { return Refused, left; }
    if last.original in store.disk.files { return Refused, left; }
    ghost var d := store.disk;
    step := store.RenameDurable(last.staged, last.original);
    if store.disk != d {
      RollbackStep(d, store.disk, dir, plan, b, staged);
      left := staged[..|staged| - 1];
    }
    r := match step case Done => Recovered case Failed => Refused case Crashed => Halted;
  }

  lemma RollbackableJournal(d: Disk, dir: string, plan: Plan, b: Before, staged: seq<StagedRemoval>)
    requires Rollbackable(d, dir, plan, b, staged)
    ensures JournalOf(d, dir, plan)
  {
    hide RestUntouched, Lists, StagedAs, AtOriginal;
  }

  /** Renames everything back, last staged first, and removes the journal and the directory. */
  method RollbackStaged(store: Storage, dir: string, staged: seq<StagedRemoval>, ghost plan: Plan, ghost b: Before)
    returns (r: Recovery, ghost kept: set<Name>)
    requires Rollbackable(store.disk, dir, plan, b, staged)
    modifies store`disk, store`faults, store`crashes
    ensures store.crashes == old(store.crashes) + Tick(r.Halted?)
    ensures store.faults >= old(store.faults)
    ensures JournalOf(store.disk, dir, plan)
    ensures Interruptible(store.disk, dir, b, kept)
    ensures plan.phase.Staging? ==> kept == b.owned.Keys
    ensures r.Recovered? ==> Finished(store.disk, dir, b, b.owned.Keys) && kept == b.owned.Keys
    ensures r.Refused? ==> store.faults > old(store.faults)
  {
    hide RestUntouched, HasJournal, Covers, Interruptible, JournalSpent, StagedAs, AtOriginal;
    ghost var left := staged;
    var i := |staged|;
    while i > 0
      invariant 0 <= i <= |staged| && left == staged[..i]
      invariant Rollbackable(store.disk, dir, plan, b, left)
      invariant store.faults >= old(store.faults) && store.crashes == old(store.crashes)
          && store.disk.dirs == old(store.disk).dirs
    {
      r, left := UnstageLast(store, dir, staged[..i], plan, b);
      if !r.Recovered? {
        RollbackInterruptible(store.disk, dir, plan, b, left);
        kept := KeptIfInterrupted(plan, b, |left|);
        RollbackableJournal(store.disk, dir, plan, b, left);
        return;
      }
      assert staged[..i][..i - 1] == staged[..i - 1];
      i := i - 1;
    }
    RollbackInterruptible(store.disk, dir, plan, b, []);
    kept := b.owned.Keys;
    RollbackableJournal(store.disk, dir, plan, b, []);
    r := CloseStaging(store, dir, b, b.owned.Keys);
  }

  method RollbackOrRequireRecovery(store: Storage, ops: Operations, dir: string, staged: seq<StagedRemoval>,
      ghost plan: Plan, ghost b: Before)
    returns (r: Outcome, ghost kept: set<Name>)
    requires ops.Valid()
    requires Rollbackable(store.disk, dir, plan, b, staged)
    modifies store`disk, store`faults, store`crashes, ops`recoveryRequired
    ensures store.crashes == old(store.crashes) + Tick(r.Lost?)
    ensures ops.Valid()
    ensures store.faults >= old(store.faults)
    ensures JournalOf(store.disk, dir, plan)
    ensures Interruptible(store.disk, dir, b, kept)
    ensures plan.phase.Staging? ==> kept == b.owned.Keys
    ensures r.Stopped? || r.Lost?
    ensures r == Stopped(false) ==> Finished(store.disk, dir, b, b.owned.Keys) && kept == b.owned.Keys
    ensures r == Stopped(true) ==> store.faults > old(store.faults) && ops.recoveryRequired
  {
    hide RestUntouched, Rollbackable, Interruptible, Settled;
    var rolledBack;
    rolledBack, kept := RollbackStaged(store, dir, staged, plan, b);
    match rolledBack {
      case Recovered => r := Stopped(false);
      case Halted => r := Lost;
      case Refused =>
        ops.RequireRecovery();
        r := Stopped(true);
    }
  }

  /** The next entry may or may not have been renamed when `stage` reported an error. */
  ghost predicate PossiblyStaged(d: Disk, dir: string, plan: Plan, b: Before, staged: seq<StagedRemoval>) {
    && RestUntouched(d, dir, b)
    && HasJournal(d, dir, plan)
    && plan.phase.Staging?
    && Covers(plan.entries, dir, b)
    && |staged| < |plan.entries|
    && (forall k :: 0 <= k < |staged| ==> StagedAs(d, plan.entries[k], plan.phase, b, staged[k]))
    && (AtOriginal(d, plan.entries[|staged|], b) || AtStaged(d, plan.entries[|staged|], b))
    && (forall k :: |staged| < k < |plan.entries| ==> AtOriginal(d, plan.entries[k], b))
  }

  lemma PossiblyStagedIsInterruptible(d: Disk, dir: string, plan: Plan, b: Before, staged: seq<StagedRemoval>)
    requires PossiblyStaged(d, dir, plan, b, staged)
    ensures Interruptible(d, dir, b, b.owned.Keys)
  {
    hide RestUntouched, OnePrivate, Originals;
  }

  lemma PossiblyStagedJournal(d: Disk, dir: string, plan: Plan, b: Before, staged: seq<StagedRemoval>)
    requires PossiblyStaged(d, dir, plan, b, staged)
    ensures JournalOf(d, dir, plan)
  {
    hide RestUntouched, Lists, StagedAs, AtOriginal, AtStaged;
  }

  /** Works out whether the rename took place from where the file is now. */
  method RollbackAfterPossibleStage(store: Storage, ops: Operations, dir: string, staged: seq<StagedRemoval>,
      original: Name, stagedName: Name, size: nat, ghost plan: Plan, ghost b: Before)
    returns (r: Outcome, ghost kept: set<Name>)
    requires ops.Valid()
    requires PossiblyStaged(store.disk, dir, plan, b, staged)
    requires plan.entries[|staged|].original == original && plan.entries[|staged|].staged == stagedName
    requires plan.entries[|staged|].size == size
    modifies store`disk, store`faults, store`crashes, ops`recoveryRequired
    ensures store.crashes == old(store.crashes) + Tick(r.Lost?)
    ensures ops.Valid()
    ensures store.faults >= old(store.faults)
    ensures JournalOf(store.disk, dir, plan)
    ensures kept == b.owned.Keys && Interruptible(store.disk, dir, b, kept)
    ensures r.Stopped? || r.Lost?
    ensures r == Stopped(false) ==> Finished(store.disk, dir, b, kept)
    ensures r == Stopped(true) ==> store.faults > old(store.faults) && ops.recoveryRequired
  {
    hide RestUntouched, HasJournal, Interruptible, Settled, Originals;
    kept := b.owned.Keys;
    PossiblyStagedIsInterruptible(store.disk, dir, plan, b, staged);
    PossiblyStagedJournal(store.disk, dir, plan, b, staged);
    var first := store.Read();
    if first.Crashed? { return Lost, kept; }
    var originalExists := first.Done? && original in store.disk.files;
    var second := store.Read();
    if second.Crashed? { return Lost, kept; }
    var isStaged := second.Done? && stagedName in store.disk.files;
    if originalExists && !isStaged {
      r, kept := RollbackOrRequireRecovery(store, ops, dir, staged, plan, b);
    } else if !originalExists && isStaged && store.disk.files[stagedName].links == 1
        && store.disk.files[stagedName].size == size {
      var entry := StagedRemoval(original, stagedName, IdentityOf(store.disk.files[stagedName]));
      r, kept := RollbackOrRequireRecovery(store, ops, dir, staged + [entry], plan, b);
    } else {
      ops.RequireRecovery();
      r := Stopped(true);
    }
  }
}
