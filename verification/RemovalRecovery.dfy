/** Recovery of an interrupted asset removal, and the states a removal may be
    interrupted in. `Interruptible` is kept by every step of a removal and of a recovery,
    so any number of crashes leaves a disk from which recovery can finish. */
module RemovalRecovery {
  import opened Options
  import opened Steps
  import opened AssetDisk

  /** What a removal started from: the owned files it listed, every other file, and the
      other staging directories. */
  datatype Before = Before(owned: map<Name, File>, rest: map<Name, File>, dirs: set<string>)

  datatype Recovery = Recovered | Refused | Halted

  function Journal(dir: string): Name {
    Staged(dir, JournalFile)
  }

  predicate NormalComponent(c: string) {
    c != "" && c != "." && c != ".."
  }

  predicate SafeRelative(n: Name) {
    n.Asset? ==> n.path != [] && forall i :: 0 <= i < |n.path| ==> NormalComponent(n.path[i])
  }

  predicate EntryValid(e: Entry, phase: Phase, dir: string) {
    && SafeRelative(e.original)
    && InDir(e.staged, dir)
    && (e.staged.slot.MarkerSlot? || e.staged.slot.AssetSlot?)
    && e.size > 0
    && ValidDigest(e.digest)
    && match phase
       case Staging => e.identity.None?
       case Deleting => e.identity.Some? && e.identity.value.links == 1 && e.identity.value.size == e.size
  }

  /** A plan as a removal writes it; recovery also bounds the number of entries. */
  predicate PlanShape(plan: Plan, dir: string) {
    && plan.schemaVersion == 1
    && plan.owner == OWNER
    && plan.dir == dir
    && plan.entries != []
    && forall i :: 0 <= i < |plan.entries| ==> EntryValid(plan.entries[i], plan.phase, dir)
  }

  predicate PlanValid(plan: Plan, dir: string) {
    PlanShape(plan, dir) && |plan.entries| <= REMOVAL_RECOVERY_MAX_ENTRIES
  }

  /** The journal on the disk, if there is one, has few enough entries to be recovered. */
  predicate WithinLimit(d: Disk, dir: string) {
    Journal(dir) in d.files && d.files[Journal(dir)].body.JournalBody?
    ==> |d.files[Journal(dir)].body.plan.entries| <= REMOVAL_RECOVERY_MAX_ENTRIES
  }

  // ----- where the files of a plan are -----

  predicate AtOriginal(d: Disk, e: Entry, b: Before)
    requires e.original in b.owned
  {
    e.original in d.files && Same(d.files[e.original], b.owned[e.original]) && e.staged !in d.files
  }

  predicate AtStaged(d: Disk, e: Entry, b: Before)
    requires e.original in b.owned
  {
    && e.staged in d.files && Same(d.files[e.staged], b.owned[e.original]) && e.original !in d.files
    && d.files[e.staged].size == e.size && d.files[e.staged].links == 1
  }

  predicate InPlace(d: Disk, e: Entry, b: Before)
    requires e.original in b.owned
  {
    e.original in d.files && Same(d.files[e.original], b.owned[e.original])
  }

  /** The staged file, if it is there, is the one a Deleting journal recorded. */
  predicate StagedRecorded(d: Disk, e: Entry) {
    e.staged in d.files ==> e.identity == Some(IdentityOf(d.files[e.staged]))
  }

  ghost function Originals(entries: seq<Entry>): set<Name> {
    set i | 0 <= i < |entries| :: entries[i].original
  }

  /** The entries name exactly the owned files, each once, under distinct staged names. */
  ghost predicate Lists(entries: seq<Entry>, dir: string, b: Before) {
    && (forall i :: 0 <= i < |entries| ==>
          entries[i].original in b.owned && !InDir(entries[i].original, dir) && InDir(entries[i].staged, dir))
    && (forall i, j :: 0 <= i < j < |entries| ==>
          entries[i].original != entries[j].original && entries[i].staged != entries[j].staged)
    && Originals(entries) == b.owned.Keys
  }

  /** They also give the size of each, and none has another link. */
  ghost predicate Covers(entries: seq<Entry>, dir: string, b: Before) {
    && Lists(entries, dir, b)
    && (forall i :: 0 <= i < |entries| ==>
          b.owned[entries[i].original].size == entries[i].size && b.owned[entries[i].original].links == 1)
  }

  predicate SmallPrivate(f: File) {
    f.links == 1 && f.size <= REMOVAL_RECOVERY_MAX_BYTES
  }

  /** Inside the staging directory there is at most one private write. */
  ghost predicate OnePrivate(d: Disk, dir: string) {
    && (forall j, k :: Staged(dir, PrivateWrite(j)) in d.files && Staged(dir, PrivateWrite(k)) in d.files ==> j == k)
    && (forall k :: Staged(dir, PrivateWrite(k)) in d.files ==> SmallPrivate(d.files[Staged(dir, PrivateWrite(k))]))
  }

  /** Files the removal does not own are exactly as before. */
  ghost predicate RestUntouched(d: Disk, dir: string, b: Before) {
    && (forall n :: n in d.files && n !in b.owned && !InDir(n, dir) ==> n in b.rest && b.rest[n] == d.files[n])
    && (forall n :: n in b.rest ==> n !in b.owned && !InDir(n, dir) && n in d.files && d.files[n] == b.rest[n])
    && dir !in b.dirs
    && d.dirs - {dir} == b.dirs
    && (forall n :: n in b.owned ==> !InDir(n, dir))
  }

  // ----- the states between crashes -----

  /** No journal: the kept originals are in place, the others are gone, and the staging
      directory, if it is there, holds at most one private write. */
  ghost predicate Settled(d: Disk, dir: string, b: Before, kept: set<Name>) {
    && RestUntouched(d, dir, b)
    && (forall n :: n in b.owned ==> if n in kept then n in d.files && Same(d.files[n], b.owned[n]) else n !in d.files)
    && (forall n :: n in d.files && InDir(n, dir) ==> dir in d.dirs && n.slot.PrivateWrite?)
    && OnePrivate(d, dir)
  }

  /** The staging directory is gone as well. */
  ghost predicate Finished(d: Disk, dir: string, b: Before, kept: set<Name>) {
    Settled(d, dir, b, kept) && dir !in d.dirs
  }

  ghost predicate HasJournal(d: Disk, dir: string, plan: Plan) {
    && Journal(dir) in d.files
    && d.files[Journal(dir)].body == JournalBody(plan)
    && SmallPrivate(d.files[Journal(dir)])
    && dir in d.dirs
    && PlanShape(plan, dir)
    && (forall n :: n in d.files && InDir(n, dir) ==>
          || n.slot.PrivateWrite? || n.slot.JournalFile?
          || exists i :: 0 <= i < |plan.entries| && plan.entries[i].staged == n)
    && OnePrivate(d, dir)
  }

  ghost predicate StagingState(d: Disk, dir: string, plan: Plan, b: Before) {
    && RestUntouched(d, dir, b)
    && HasJournal(d, dir, plan)
    && plan.phase == Staging
    && Lists(plan.entries, dir, b)
    && forall i :: 0 <= i < |plan.entries| ==> AtOriginal(d, plan.entries[i], b) || AtStaged(d, plan.entries[i], b)
  }

  /** The kept originals are in place and the others are not; whatever is still staged is what
      the journal recorded. */
  ghost predicate DeletingState(d: Disk, dir: string, plan: Plan, b: Before, kept: set<Name>) {
    && RestUntouched(d, dir, b)
    && HasJournal(d, dir, plan)
    && plan.phase == Deleting
    && Lists(plan.entries, dir, b)
    && forall i :: 0 <= i < |plan.entries| ==>
         && (if plan.entries[i].original in kept then InPlace(d, plan.entries[i], b)
             else plan.entries[i].original !in d.files)
         && StagedRecorded(d, plan.entries[i])
  }

  /** A state a crash may leave, and the owned files that will still be there once
      recovery has finished. */
  ghost predicate Interruptible(d: Disk, dir: string, b: Before, kept: set<Name>) {
    if Journal(dir) in d.files then
      && d.files[Journal(dir)].body.JournalBody?
      && var plan := d.files[Journal(dir)].body.plan;
      match plan.phase
      case Staging => kept == b.owned.Keys && StagingState(d, dir, plan, b)
      case Deleting => DeletingState(d, dir, plan, b, kept)
    else
      Settled(d, dir, b, kept)
  }

  /** Recovery never touches a file outside the staging directory it was given. */
  predicate OutsideKept(before: Disk, after: Disk, dir: string) {
    forall n :: n in before.files && !InDir(n, dir) ==> n in after.files && after.files[n] == before.files[n]
  }

  // ----- what recovery refuses -----

  /** The file is under exactly one of its two names. */
  predicate OneName(d: Disk, e: Entry) {
    e.original in d.files <==> e.staged !in d.files
  }

  /** Distinct names, and originals that are in no staging directory. */
  ghost predicate NamesApart(entries: seq<Entry>) {
    && (forall i :: 0 <= i < |entries| ==> !entries[i].original.Staged? && entries[i].staged.Staged?)
    && (forall i, j :: 0 <= i < j < |entries| ==>
          entries[i].original != entries[j].original && entries[i].staged != entries[j].staged)
  }

  /** A Staging journal names a file that is under both its names or under neither. */
  ghost predicate Blocked(d: Disk, dir: string, k: nat) {
    && Journal(dir) in d.files && d.files[Journal(dir)].body.JournalBody?
    && var plan := d.files[Journal(dir)].body.plan;
       plan.phase.Staging? && NamesApart(plan.entries) && k < |plan.entries| && !OneName(d, plan.entries[k])
  }

  /** Files may have been put back, each from the one name it had. */
  ghost predicate PutBack(d: Disk, d': Disk, entries: seq<Entry>, i: nat) {
    && (forall k :: 0 <= k < |entries| && !OneName(d, entries[k]) ==> !OneName(d', entries[k]))
    && (forall k :: 0 <= k < i && k < |entries| ==> (OneName(d, entries[k]) <==> OneName(d', entries[k])))
  }

  lemma PutBackOne(d: Disk, d1: Disk, d2: Disk, entries: seq<Entry>, i: nat)
    requires NamesApart(entries) && i < |entries| && PutBack(d, d1, entries, i + 1)
    requires d2 == d1 || (OneName(d1, entries[i]) && Moved(d1, d2, entries[i].staged, entries[i].original))
    ensures PutBack(d, d2, entries, i)
  {
  }

  /** What is there was there, or is a file of `entries` that was staged. */
  ghost predicate OnlyBack(before: Disk, after: Disk, entries: seq<Entry>) {
    forall n :: n in after.files ==>
      || (n in before.files && after.files[n] == before.files[n])
      || exists i :: 0 <= i < |entries| && entries[i].original == n && entries[i].staged in before.files
  }

  lemma NothingBack(d: Disk, entries: seq<Entry>)
    ensures OnlyBack(d, d, entries)
  {
  }

  lemma BackOne(d: Disk, d1: Disk, d2: Disk, entries: seq<Entry>, i: nat)
    requires NamesApart(entries) && i < |entries| && OnlyBack(d, d1, entries)
    requires d2 == d1 || Moved(d1, d2, entries[i].staged, entries[i].original)
    ensures OnlyBack(d, d2, entries)
  {
  }

  /** The entries a start puts back: those of a Staging journal. */
  ghost function Restored(d: Disk, dir: string): seq<Entry> {
    if Journal(dir) in d.files && d.files[Journal(dir)].body.JournalBody?
       && d.files[Journal(dir)].body.plan.phase.Staging?
    then d.files[Journal(dir)].body.plan.entries
    else []
  }

  /** Nothing was written: what is there was there. */
  predicate OnlyLess(before: Disk, after: Disk) {
    forall n :: n in after.files ==> n in before.files && after.files[n] == before.files[n]
  }

  /** The journal of the directory, if there is one, is this plan's. */
  predicate JournalOf(d: Disk, dir: string, plan: Plan) {
    Journal(dir) in d.files ==> d.files[Journal(dir)].body == JournalBody(plan)
  }

  // ----- single steps -----

  lemma RestKeptByMove(d: Disk, d': Disk, dir: string, b: Before, from: Name, to: Name)
    requires RestUntouched(d, dir, b) && Moved(d, d', from, to)
    requires from in b.owned || InDir(from, dir)
    requires to in b.owned || InDir(to, dir)
    ensures RestUntouched(d', dir, b)
  {
  }

  lemma RestKeptByUnlink(d: Disk, d': Disk, dir: string, b: Before, n: Name)
    requires RestUntouched(d, dir, b) && Unlinked(d, d', n)
    requires n in b.owned || InDir(n, dir)
    ensures RestUntouched(d', dir, b)
  {
  }

  lemma JournalKept(d: Disk, d': Disk, dir: string, plan: Plan)
    requires HasJournal(d, dir, plan)
    requires forall n :: n in d'.files && InDir(n, dir) ==> n in d.files && d'.files[n] == d.files[n]
    requires Journal(dir) in d'.files && d'.dirs == d.dirs
    ensures HasJournal(d', dir, plan)
  {
  }

  lemma FrameKeptByRestore(d: Disk, d': Disk, dir: string, plan: Plan, b: Before, i: nat)
    requires RestUntouched(d, dir, b) && HasJournal(d, dir, plan) && Lists(plan.entries, dir, b)
    requires i < |plan.entries|
    requires Moved(d, d', plan.entries[i].staged, plan.entries[i].original)
    ensures RestUntouched(d', dir, b) && HasJournal(d', dir, plan)
  {
    RestKeptByMove(d, d', dir, b, plan.entries[i].staged, plan.entries[i].original);
    JournalKept(d, d', dir, plan);
  }

  lemma RestoreStep(d: Disk, d': Disk, dir: string, plan: Plan, b: Before, i: nat)
    requires StagingState(d, dir, plan, b)
    requires i < |plan.entries| && AtStaged(d, plan.entries[i], b)
    requires Moved(d, d', plan.entries[i].staged, plan.entries[i].original)
    ensures StagingState(d', dir, plan, b)
    ensures AtOriginal(d', plan.entries[i], b)
    ensures forall j ::
        0 <= j < |plan.entries| && AtOriginal(d, plan.entries[j], b) ==> AtOriginal(d', plan.entries[j], b)
  {
    hide RestUntouched, HasJournal, Originals;
    FrameKeptByRestore(d, d', dir, plan, b, i);
  }

  lemma DeleteStep(d: Disk, d': Disk, dir: string, plan: Plan, b: Before, kept: set<Name>, i: nat)
    requires DeletingState(d, dir, plan, b, kept)
    requires i < |plan.entries| && plan.entries[i].staged in d.files
    requires Unlinked(d, d', plan.entries[i].staged)
    ensures DeletingState(d', dir, plan, b, kept)
  {
    hide RestUntouched, HasJournal, Originals;
    StagedInside(d, dir, plan, i);
    RestKeptByUnlink(d, d', dir, b, plan.entries[i].staged);
    JournalKept(d, d', dir, plan);
  }

  lemma StagedInside(d: Disk, dir: string, plan: Plan, i: nat)
    requires HasJournal(d, dir, plan) && i < |plan.entries|
    ensures InDir(plan.entries[i].staged, dir) && plan.entries[i].staged != Journal(dir)
    ensures Journal(dir) in d.files
  {
  }

  lemma StagingPrivateStep(d: Disk, d': Disk, dir: string, plan: Plan, b: Before, s: Slot)
    requires StagingState(d, dir, plan, b) && s.PrivateWrite?
    requires Unlinked(d, d', Staged(dir, s))
    ensures StagingState(d', dir, plan, b)
  {
    hide RestUntouched, Originals;
    RestKeptByUnlink(d, d', dir, b, Staged(dir, s));
    JournalKept(d, d', dir, plan);
  }

  lemma DeletingPrivateStep(d: Disk, d': Disk, dir: string, plan: Plan, b: Before, kept: set<Name>, s: Slot)
    requires DeletingState(d, dir, plan, b, kept) && s.PrivateWrite?
    requires Unlinked(d, d', Staged(dir, s))
    ensures DeletingState(d', dir, plan, b, kept)
  {
    hide RestUntouched, Originals;
    RestKeptByUnlink(d, d', dir, b, Staged(dir, s));
    JournalKept(d, d', dir, plan);
  }

  lemma SettledPrivateStep(d: Disk, d': Disk, dir: string, b: Before, kept: set<Name>, s: Slot)
    requires Settled(d, dir, b, kept)
    requires Unlinked(d, d', Staged(dir, s))
    ensures Settled(d', dir, b, kept)
  {
    RestKeptByUnlink(d, d', dir, b, Staged(dir, s));
  }

  /** Unlinking a private write changes nothing that matters. */
  lemma PrivateStep(d: Disk, d': Disk, dir: string, b: Before, kept: set<Name>, s: Slot)
    requires Interruptible(d, dir, b, kept) && s.PrivateWrite?
    requires Unlinked(d, d', Staged(dir, s))
    ensures Interruptible(d', dir, b, kept)
  {
    hide StagingState, DeletingState, Settled;
    if Journal(dir) !in d.files {
      SettledPrivateStep(d, d', dir, b, kept, s);
    } else if d.files[Journal(dir)].body.plan.phase.Staging? {
      StagingPrivateStep(d, d', dir, d.files[Journal(dir)].body.plan, b, s);
    } else {
      DeletingPrivateStep(d, d', dir, d.files[Journal(dir)].body.plan, b, kept, s);
    }
  }

  lemma SettledInterruptible(d: Disk, dir: string, b: Before, kept: set<Name>)
    requires Settled(d, dir, b, kept)
    ensures Interruptible(d, dir, b, kept)
  {
    hide RestUntouched, OnePrivate;
    assert Journal(dir) !in d.files;
  }

  /** Every entry is where it will stay, so the journal has done its work. */
  ghost predicate JournalSpent(d: Disk, dir: string, b: Before, kept: set<Name>) {
    && Interruptible(d, dir, b, kept)
    && (Journal(dir) in d.files ==>
          var plan := d.files[Journal(dir)].body.plan;
          forall i :: 0 <= i < |plan.entries| ==> plan.entries[i].staged !in d.files)
  }

  lemma OriginalsDecided(d: Disk, dir: string, b: Before, kept: set<Name>, n: Name)
    requires JournalSpent(d, dir, b, kept) && Journal(dir) in d.files
    requires n in b.owned
    ensures if n in kept then n in d.files && Same(d.files[n], b.owned[n]) else n !in d.files
  {
    hide RestUntouched, OnePrivate;
    var entries := d.files[Journal(dir)].body.plan.entries;
    assert n in Originals(entries);
    var i :| 0 <= i < |entries| && entries[i].original == n;
  }

  lemma OnlyMetadataLeft(d: Disk, dir: string, b: Before, kept: set<Name>)
    requires JournalSpent(d, dir, b, kept) && Journal(dir) in d.files
    ensures forall n :: n in d.files && InDir(n, dir) ==> dir in d.dirs && (n.slot.PrivateWrite? || n == Journal(dir))
    ensures OnePrivate(d, dir) && RestUntouched(d, dir, b)
  {
    hide RestUntouched, OnePrivate, Originals, Lists;
  }

  lemma JournalStep(d: Disk, d': Disk, dir: string, b: Before, kept: set<Name>)
    requires JournalSpent(d, dir, b, kept) && Journal(dir) in d.files
    requires Unlinked(d, d', Journal(dir))
    ensures Settled(d', dir, b, kept)
  {
    hide JournalSpent;
    OnlyMetadataLeft(d, dir, b, kept);
    forall n | n in b.owned
      ensures if n in kept then n in d.files && Same(d.files[n], b.owned[n]) else n !in d.files
    {
      OriginalsDecided(d, dir, b, kept, n);
    }
    RestKeptByUnlink(d, d', dir, b, Journal(dir));
  }

  lemma DirStep(d: Disk, d': Disk, dir: string, b: Before, kept: set<Name>)
    requires Settled(d, dir, b, kept)
    requires forall n :: n in d.files ==> !InDir(n, dir)
    requires d' == d.(dirs := d.dirs - {dir})
    ensures Finished(d', dir, b, kept)
  {
  }

  // ----- the code -----

  predicate IsMetadata(s: Slot) {
    s.JournalFile? || s.JournalTmp? || s.PrivateWrite?
  }

  /** A staging directory holds its journal and at most one private write of it. */
  lemma FewMetadataNames(d: Disk, dir: string, b: Before, kept: set<Name>, names: seq<Slot>)
    requires Interruptible(d, dir, b, kept)
    requires forall s :: s in names ==> IsMetadata(s) && Staged(dir, s) in d.files
    requires forall i, j :: 0 <= i < j < |names| ==> names[i] != names[j]
    ensures |names| <= 2
  {
    if k: nat :| Staged(dir, PrivateWrite(k)) in d.files {
      DistinctWithin(names, {JournalFile, PrivateWrite(k)});
    } else {
      DistinctWithin(names, {JournalFile});
    }
  }

  lemma {:induction false} DistinctWithin(names: seq<Slot>, bound: set<Slot>)
    requires forall s :: s in names ==> s in bound
    requires forall i, j :: 0 <= i < j < |names| ==> names[i] != names[j]
    ensures |names| <= |bound|
  {
    if names != [] {
      DistinctWithin(names[1..], bound - {names[0]});
    }
  }

  method MetadataNames(store: Storage, dir: string, ghost b: Before, ghost kept: set<Name>)
    returns (r: Recovery, names: seq<Slot>)
    modifies store`faults, store`crashes
    ensures store.crashes == old(store.crashes) + Tick(r.Halted?)
    ensures store.faults >= old(store.faults)
    ensures forall s :: s in names ==> IsMetadata(s)
    ensures r.Recovered? ==>
        forall n :: n in store.disk.files && InDir(n, dir) && IsMetadata(n.slot) ==> n.slot in names
    ensures Interruptible(store.disk, dir, b, kept) && r.Refused? ==> store.faults > old(store.faults)
  {
    names := [];
    var step, slots := store.Scan(dir);
    if step.Crashed? { return Halted, names; }
    if step.Failed? { return Refused, names; }
    for i := 0 to |slots|
      invariant forall s :: s in names <==> IsMetadata(s) && s in slots[..i]
      invariant forall j, k :: 0 <= j < k < |names| ==> names[j] != names[k]
    {
      if IsMetadata(slots[i]) {
        if |names| >= REMOVAL_RECOVERY_MAX_ENTRIES {
          if Interruptible(store.disk, dir, b, kept) {
            FewMetadataNames(store.disk, dir, b, kept, names);
          }
          return Refused, names;
        }
        names := names + [slots[i]];
      }
    }
    r := Recovered;
  }

  lemma MetadataStep(d: Disk, d': Disk, dir: string, b: Before, kept: set<Name>, s: Slot)
    requires JournalSpent(d, dir, b, kept) && IsMetadata(s) && Staged(dir, s) in d.files
    requires Unlinked(d, d', Staged(dir, s))
    ensures JournalSpent(d', dir, b, kept)
  {
    if s.JournalFile? {
      JournalStep(d, d', dir, b, kept);
    } else {
      assert s.PrivateWrite?;
      PrivateStep(d, d', dir, b, kept, s);
    }
  }

  method RemoveMetadata(store: Storage, dir: string, s: Slot, ghost b: Before, ghost kept: set<Name>)
    returns (r: Recovery)
    requires IsMetadata(s)
    modifies store`disk, store`faults, store`crashes
    ensures store.crashes == old(store.crashes) + Tick(r.Halted?)
    ensures store.faults >= old(store.faults) && store.disk.dirs == old(store.disk).dirs
    ensures store.disk == old(store.disk) || Unlinked(old(store.disk), store.disk, Staged(dir, s))
    ensures r.Recovered? ==> Staged(dir, s) !in store.disk.files
    ensures JournalSpent(old(store.disk), dir, b, kept) ==>
              && JournalSpent(store.disk, dir, b, kept)
              && (r.Refused? ==> store.faults > old(store.faults))
  {
    var step := store.Read();
    if !step.Done? { return if step.Crashed? then Halted else Refused; }
    var path := Staged(dir, s);
    if path in store.disk.files {
      var file := store.disk.files[path];
      if file.links != 1 || file.size > REMOVAL_RECOVERY_MAX_BYTES { return Refused; }
      ghost var d := store.disk;
      step := store.RemoveFileDurable(path);
      if store.disk != d && JournalSpent(d, dir, b, kept) { MetadataStep(d, store.disk, dir, b, kept, s); }
      if !step.Done? { return if step.Crashed? then Halted else Refused; }
    }
    r := Recovered;
  }

  method RemoveRecoveryMetadata(store: Storage, dir: string, ghost b: Before, ghost kept: set<Name>)
    returns (r: Recovery)
    modifies store`disk, store`faults, store`crashes
    ensures store.crashes == old(store.crashes) + Tick(r.Halted?)
    ensures store.faults >= old(store.faults) && store.disk.dirs == old(store.disk).dirs
    ensures OnlyLess(old(store.disk), store.disk)
    ensures OutsideKept(old(store.disk), store.disk, dir)
    ensures JournalSpent(old(store.disk), dir, b, kept) ==>
              && JournalSpent(store.disk, dir, b, kept)
              && (r.Recovered? ==> Settled(store.disk, dir, b, kept) && store.Empty(dir))
              && (r.Refused? ==> store.faults > old(store.faults))
  {
    var names;
    r, names := MetadataNames(store, dir, b, kept);
    if !r.Recovered? { return; }
    ghost var spent := JournalSpent(store.disk, dir, b, kept);
    for i := 0 to |names|
      invariant store.faults >= old(store.faults) && store.crashes == old(store.crashes)
          && store.disk.dirs == old(store.disk).dirs
      invariant OnlyLess(old(store.disk), store.disk)
      invariant OutsideKept(old(store.disk), store.disk, dir)
      invariant spent ==> JournalSpent(store.disk, dir, b, kept)
      invariant forall s :: s in names ==> IsMetadata(s)
      invariant forall n :: n in store.disk.files && InDir(n, dir) && IsMetadata(n.slot) ==> n.slot in names[i..]
    {
      assert names[i] in names;
      r := RemoveMetadata(store, dir, names[i], b, kept);
      if !r.Recovered? { return; }
    }
    r := Recovered;
    if spent { NoMetadataLeft(store.disk, dir, b, kept); }
  }

  lemma NoMetadataLeft(d: Disk, dir: string, b: Before, kept: set<Name>)
    requires JournalSpent(d, dir, b, kept)
    requires forall n :: n in d.files && InDir(n, dir) ==> !IsMetadata(n.slot)
    ensures Settled(d, dir, b, kept)
    ensures forall n :: n in d.files ==> !InDir(n, dir)
  {
  }

  /** The entries from `i` on are back in place. */
  ghost predicate Restoring(d: Disk, dir: string, plan: Plan, b: Before, i: int) {
    && StagingState(d, dir, plan, b)
    && forall j :: 0 <= j < |plan.entries| && i <= j ==> AtOriginal(d, plan.entries[j], b)
  }

  /** Puts entry `i` of a Staging plan back under its original name. */
  method RestoreEntry(store: Storage, dir: string, plan: Plan, i: nat, ghost b: Before) returns (r: Recovery)
    requires PlanValid(plan, dir) && i < |plan.entries|
    modifies store`disk, store`faults, store`crashes
    ensures store.crashes == old(store.crashes) + Tick(r.Halted?)
    ensures store.faults >= old(store.faults) && store.disk.dirs == old(store.disk).dirs
    ensures OutsideKept(old(store.disk), store.disk, dir)
    ensures store.disk == old(store.disk) || (OneName(old(store.disk), plan.entries[i])
              && Moved(old(store.disk), store.disk, plan.entries[i].staged, plan.entries[i].original))
    ensures r.Recovered? ==> OneName(old(store.disk), plan.entries[i])
    ensures Restoring(old(store.disk), dir, plan, b, i + 1) ==>
              && Restoring(store.disk, dir, plan, b, if r.Recovered? then i else i + 1)
              && (r.Refused? ==> store.faults > old(store.faults))
  {
    hide HasJournal, RestUntouched, Originals;
    var step := store.Read();
    if !step.Done? { return if step.Crashed? then Halted else Refused; }
    var entry := plan.entries[i];
    var originalExists := entry.original in store.disk.files;
    if !originalExists && entry.staged in store.disk.files
       && store.disk.files[entry.staged].links == 1 && store.disk.files[entry.staged].size == entry.size
    {
      ghost var d := store.disk;
      step := store.RenameDurable(entry.staged, entry.original);
      if store.disk != d && Restoring(d, dir, plan, b, i + 1) { RestoreStep(d, store.disk, dir, plan, b, i); }
      if !step.Done? { return if step.Crashed? then Halted else Refused; }
    } else if originalExists && entry.staged !in store.disk.files {
    } else {
      return Refused;
    }
    r := Recovered;
  }

  method RestoreEntries(store: Storage, dir: string, plan: Plan, ghost b: Before) returns (r: Recovery)
    requires PlanValid(plan, dir)
    modifies store`disk, store`faults, store`crashes
    ensures store.crashes == old(store.crashes) + Tick(r.Halted?)
    ensures store.faults >= old(store.faults) && store.disk.dirs == old(store.disk).dirs
    ensures OutsideKept(old(store.disk), store.disk, dir)
    ensures NamesApart(plan.entries) ==>
        forall k :: 0 <= k < |plan.entries| && !OneName(old(store.disk), plan.entries[k]) ==>
              !OneName(store.disk, plan.entries[k]) && !r.Recovered?
    ensures Journal(dir) in old(store.disk).files && NamesApart(plan.entries) ==>
              Journal(dir) in store.disk.files && store.disk.files[Journal(dir)] == old(store.disk).files[Journal(dir)]
    ensures NamesApart(plan.entries) ==> OnlyBack(old(store.disk), store.disk, plan.entries)
    ensures Restoring(old(store.disk), dir, plan, b, |plan.entries|) ==>
              && StagingState(store.disk, dir, plan, b)
              && (r.Recovered? ==> Restoring(store.disk, dir, plan, b, 0))
              && (r.Refused? ==> store.faults > old(store.faults))
  {
    hide Restoring, StagingState, OneName, OnlyBack;
    ghost var d0 := store.disk;
    ghost var safe := Restoring(store.disk, dir, plan, b, |plan.entries|);
    ghost var apart := NamesApart(plan.entries);
    var i := |plan.entries|;
    if safe { RestoringIs(store.disk, dir, plan, b, i); }
    NothingBack(d0, plan.entries);
    while i > 0
      invariant 0 <= i <= |plan.entries|
      invariant store.faults >= old(store.faults) && store.crashes == old(store.crashes)
          && store.disk.dirs == old(store.disk).dirs
      invariant OutsideKept(old(store.disk), store.disk, dir)
      invariant apart ==> PutBack(d0, store.disk, plan.entries, i)
      invariant apart ==> forall k :: i <= k < |plan.entries| ==> OneName(d0, plan.entries[k])
      invariant Journal(dir) in d0.files && apart ==>
                  Journal(dir) in store.disk.files && store.disk.files[Journal(dir)] == d0.files[Journal(dir)]
      invariant apart ==> OnlyBack(d0, store.disk, plan.entries)
      invariant safe ==> Restoring(store.disk, dir, plan, b, i)
    {
      i := i - 1;
      ghost var d := store.disk;
      r := RestoreEntry(store, dir, plan, i, b);
      assert EntryValid(plan.entries[i], plan.phase, dir);
      if apart {
        PutBackOne(d0, d, store.disk, plan.entries, i);
        BackOne(d0, d, store.disk, plan.entries, i);
      }
      if safe { RestoringIs(store.disk, dir, plan, b, if r.Recovered? then i else i + 1); }
      if !r.Recovered? { return; }
    }
    if safe { RestoringIs(store.disk, dir, plan, b, 0); }
    r := Recovered;
  }

  lemma RestoringIs(d: Disk, dir: string, plan: Plan, b: Before, i: nat)
    requires Restoring(d, dir, plan, b, i)
    ensures StagingState(d, dir, plan, b)
  {
  }

  /** Unlinks entry `i` of a Deleting plan, if it is still staged under the recorded identity. */
  method DeleteEntry(store: Storage, dir: string, plan: Plan, i: nat, ghost b: Before, ghost kept: set<Name>)
    returns (r: Recovery)
    requires PlanValid(plan, dir) && i < |plan.entries|
    modifies store`disk, store`faults, store`crashes
    ensures store.crashes == old(store.crashes) + Tick(r.Halted?)
    ensures store.faults >= old(store.faults) && store.disk.dirs == old(store.disk).dirs
    ensures store.disk == old(store.disk) || Unlinked(old(store.disk), store.disk, plan.entries[i].staged)
    ensures r.Recovered? ==> plan.entries[i].staged !in store.disk.files
    ensures DeletingState(old(store.disk), dir, plan, b, kept) ==>
              && DeletingState(store.disk, dir, plan, b, kept)
              && (r.Refused? ==> store.faults > old(store.faults))
  {
    var step := store.Read();
    if !step.Done? { return if step.Crashed? then Halted else Refused; }
    var entry := plan.entries[i];
    if entry.staged !in store.disk.files { return Recovered; }
    if entry.identity != Some(IdentityOf(store.disk.files[entry.staged])) { return Refused; }
    ghost var d := store.disk;
    step := store.RemoveFileDurable(entry.staged);
    if store.disk != d && DeletingState(d, dir, plan, b, kept) { DeleteStep(d, store.disk, dir, plan, b, kept, i); }
    if !step.Done? { return if step.Crashed? then Halted else Refused; }
    r := Recovered;
  }

  method DeleteEntries(store: Storage, dir: string, plan: Plan, ghost b: Before, ghost kept: set<Name>)
    returns (r: Recovery)
    requires PlanValid(plan, dir)
    modifies store`disk, store`faults, store`crashes
    ensures store.crashes == old(store.crashes) + Tick(r.Halted?)
    ensures store.faults >= old(store.faults) && store.disk.dirs == old(store.disk).dirs
    ensures OutsideKept(old(store.disk), store.disk, dir) && OnlyLess(old(store.disk), store.disk)
    ensures r.Recovered? ==> forall j :: 0 <= j < |plan.entries| ==> plan.entries[j].staged !in store.disk.files
    ensures DeletingState(old(store.disk), dir, plan, b, kept) ==>
              && DeletingState(store.disk, dir, plan, b, kept)
              && (r.Refused? ==> store.faults > old(store.faults))
  {
    ghost var safe := DeletingState(store.disk, dir, plan, b, kept);
    for i := 0 to |plan.entries|
      invariant store.faults >= old(store.faults) && store.crashes == old(store.crashes)
          && store.disk.dirs == old(store.disk).dirs
      invariant OutsideKept(old(store.disk), store.disk, dir) && OnlyLess(old(store.disk), store.disk)
      invariant safe ==> DeletingState(store.disk, dir, plan, b, kept)
      invariant forall j :: 0 <= j < i ==> plan.entries[j].staged !in store.disk.files
    {
      r := DeleteEntry(store, dir, plan, i, b, kept);
      if !r.Recovered? { return; }
    }
    r := Recovered;
  }

  /** A staging directory without a journal holds nothing or one unpublished journal. */
  method RemoveAbandonedEmptyStaging(store: Storage, dir: string, ghost b: Before, ghost kept: set<Name>)
    returns (r: Recovery)
    modifies store`disk, store`faults, store`crashes
    ensures store.crashes == old(store.crashes) + Tick(r.Halted?)
    ensures r.Recovered? ==> store.disk.dirs == old(store.disk).dirs - {dir}
    ensures !r.Recovered? ==> store.disk.dirs == old(store.disk).dirs || store.disk.dirs == old(store.disk).dirs - {dir}
    ensures store.faults >= old(store.faults)
    ensures OutsideKept(old(store.disk), store.disk, dir) && OnlyLess(old(store.disk), store.disk)
    ensures Journal(dir) in old(store.disk).files ==> store.disk == old(store.disk) && !r.Recovered?
    ensures Settled(old(store.disk), dir, b, kept) && dir in old(store.disk).dirs ==>
              && Settled(store.disk, dir, b, kept)
              && (r.Recovered? ==> Finished(store.disk, dir, b, kept))
              && (r.Refused? ==> store.faults > old(store.faults))
  {
    hide RestUntouched;
    ghost var safe := Settled(store.disk, dir, b, kept) && dir in store.disk.dirs;
    var step, slots := store.Scan(dir);
    if !step.Done? { return if step.Crashed? then Halted else Refused; }
    if |slots| > 1 {
      if safe { OnlyOneLeft(store.disk, dir, b, kept, slots); }
      return Refused;
    }
    if |slots| == 1 {
      if !slots[0].JournalTmp? && !slots[0].PrivateWrite? { return Refused; }
      step := store.Read();
      if !step.Done? { return if step.Crashed? then Halted else Refused; }
      var file := store.disk.files[Staged(dir, slots[0])];
      if file.links != 1 || file.size > REMOVAL_RECOVERY_MAX_BYTES { return Refused; }
      ghost var d := store.disk;
      step := store.RemoveFileDurable(Staged(dir, slots[0]));
      if safe && store.disk != d { SettledPrivateStep(d, store.disk, dir, b, kept, slots[0]); }
      if !step.Done? { return if step.Crashed? then Halted else Refused; }
    }
    r := RemoveEmptyDir(store, dir, b, kept);
  }

  lemma OnlyOneLeft(d: Disk, dir: string, b: Before, kept: set<Name>, slots: seq<Slot>)
    requires Settled(d, dir, b, kept)
    requires forall s :: s in slots ==> Staged(dir, s) in d.files
    requires forall i, j :: 0 <= i < j < |slots| ==> slots[i] != slots[j]
    ensures |slots| <= 1
  {
    if k: nat :| Staged(dir, PrivateWrite(k)) in d.files {
      DistinctWithin(slots, {PrivateWrite(k)});
    } else {
      DistinctWithin(slots, {});
    }
  }

  method RemoveEmptyDir(store: Storage, dir: string, ghost b: Before, ghost kept: set<Name>) returns (r: Recovery)
    modifies store`disk, store`faults, store`crashes
    ensures store.crashes == old(store.crashes) + Tick(r.Halted?)
    ensures r.Recovered? ==> store.disk.dirs == old(store.disk).dirs - {dir}
    ensures !r.Recovered? ==> store.disk.dirs == old(store.disk).dirs || store.disk.dirs == old(store.disk).dirs - {dir}
    ensures store.faults >= old(store.faults)
    ensures store.disk.files == old(store.disk).files
    ensures Settled(old(store.disk), dir, b, kept) && dir in old(store.disk).dirs && old(store.Empty(dir)) ==>
              && Settled(store.disk, dir, b, kept)
              && (r.Recovered? ==> Finished(store.disk, dir, b, kept))
              && (r.Refused? ==> store.faults > old(store.faults))
  {
    ghost var d := store.disk;
    var step := store.RemoveDirDurable(dir);
    if Settled(d, dir, b, kept) && store.disk != d { DirStep(d, store.disk, dir, b, kept); }
    r := match step case Done => Recovered case Failed => Refused case Crashed => Halted;
  }

  predicate Allowed(plan: Plan, s: Slot, dir: string) {
    s.JournalFile? || s.JournalTmp? || s.PrivateWrite? || exists i ::
        0 <= i < |plan.entries| && plan.entries[i].staged == Staged(dir, s)
  }

  method NothingUnexpected(store: Storage, dir: string, plan: Plan) returns (r: Recovery)
    modifies store`faults, store`crashes
    ensures store.crashes == old(store.crashes) + Tick(r.Halted?)
    ensures store.faults >= old(store.faults)
    ensures HasJournal(store.disk, dir, plan) && r.Refused? ==> store.faults > old(store.faults)
  {
    var step, slots := store.Scan(dir);
    if !step.Done? { return if step.Crashed? then Halted else Refused; }
    for i := 0 to |slots| {
      assert slots[i] in slots;
      if !Allowed(plan, slots[i], dir) { return Refused; }
    }
    r := Recovered;
  }

  /** The plan's own phase: restore or delete, then the journal is spent. */
  method ApplyPlan(store: Storage, dir: string, plan: Plan, ghost b: Before, ghost kept: set<Name>)
    returns (r: Recovery)
    requires PlanValid(plan, dir)
    modifies store`disk, store`faults, store`crashes
    ensures store.crashes == old(store.crashes) + Tick(r.Halted?)
    ensures store.faults >= old(store.faults) && store.disk.dirs == old(store.disk).dirs
    ensures OutsideKept(old(store.disk), store.disk, dir)
    ensures Journal(dir) in old(store.disk).files && old(store.disk).files[Journal(dir)].body == JournalBody(plan) ==>
              && (forall k :: Blocked(old(store.disk), dir, k) ==> Blocked(store.disk, dir, k) && !r.Recovered?)
              && (NamesApart(Restored(old(store.disk), dir)) ==>
                    OnlyBack(old(store.disk), store.disk, Restored(old(store.disk), dir)))
    ensures Interruptible(old(store.disk), dir, b, kept) && HasJournal(old(store.disk), dir, plan) ==>
              && Interruptible(store.disk, dir, b, kept)
              && (r.Recovered? ==> JournalSpent(store.disk, dir, b, kept))
              && (r.Refused? ==> store.faults > old(store.faults))
  {
    hide RestUntouched, Originals, OnePrivate, Lists;
    match plan.phase {
      case Staging => r := RestoreEntries(store, dir, plan, b);
      case Deleting => r := DeleteEntries(store, dir, plan, b, kept);
    }
  }

  /** Nothing is left to restore or delete: flush, drop the journal, drop the directory. */
  method CloseStaging(store: Storage, dir: string, ghost b: Before, ghost kept: set<Name>) returns (r: Recovery)
    modifies store`disk, store`faults, store`crashes
    ensures store.crashes == old(store.crashes) + Tick(r.Halted?)
    ensures r.Recovered? ==> store.disk.dirs == old(store.disk).dirs - {dir}
    ensures !r.Recovered? ==> store.disk.dirs == old(store.disk).dirs || store.disk.dirs == old(store.disk).dirs - {dir}
    ensures store.faults >= old(store.faults)
    ensures OnlyLess(old(store.disk), store.disk)
    ensures OutsideKept(old(store.disk), store.disk, dir)
    ensures JournalSpent(old(store.disk), dir, b, kept) && dir in old(store.disk).dirs ==>
              && Interruptible(store.disk, dir, b, kept)
              && (r.Recovered? ==> Finished(store.disk, dir, b, kept))
              && (r.Refused? ==> store.faults > old(store.faults))
  {
    hide RestUntouched, StagingState, DeletingState, OnePrivate;
    var step := store.Read();
    if !step.Done? { return if step.Crashed? then Halted else Refused; }
    r := RemoveRecoveryMetadata(store, dir, b, kept);
    if !r.Recovered? { return; }
    r := RemoveEmptyDir(store, dir, b, kept);
  }

  method RecoverStagedRemoval(store: Storage, dir: string, ghost b: Before, ghost kept: set<Name>) returns (r: Recovery)
    modifies store`disk, store`faults, store`crashes
    ensures store.crashes == old(store.crashes) + Tick(r.Halted?)
    ensures store.faults >= old(store.faults)
    ensures OutsideKept(old(store.disk), store.disk, dir)
    ensures Interruptible(old(store.disk), dir, b, kept) && dir in old(store.disk).dirs ==>
              && Interruptible(store.disk, dir, b, kept)
              && (r.Recovered? ==> Finished(store.disk, dir, b, kept))
              && (r.Refused? ==> store.faults > old(store.faults) || !WithinLimit(old(store.disk), dir))
    ensures forall k :: Blocked(old(store.disk), dir, k) ==>
              Blocked(store.disk, dir, k) && !r.Recovered? && store.disk.dirs == old(store.disk).dirs
    ensures NamesApart(Restored(old(store.disk), dir)) ==>
              OnlyBack(old(store.disk), store.disk, Restored(old(store.disk), dir))
    ensures r.Recovered? ==> store.disk.dirs == old(store.disk).dirs - {dir}
    ensures !r.Recovered? ==> store.disk.dirs == old(store.disk).dirs || store.disk.dirs == old(store.disk).dirs - {dir}
    ensures Journal(dir) in old(store.disk).files
            && !(old(store.disk).files[Journal(dir)].body.JournalBody?
                && PlanValid(old(store.disk).files[Journal(dir)].body.plan, dir))
            ==> store.disk == old(store.disk) && !r.Recovered?
  {
    hide RestUntouched, Originals, OnePrivate, Lists;
    var step := store.Read();
    if !step.Done? { return if step.Crashed? then Halted else Refused; }
    if dir !in store.disk.dirs { return Refused; }
    if Journal(dir) !in store.disk.files {
      r := RemoveAbandonedEmptyStaging(store, dir, b, kept);
      return;
    }
    var file := store.disk.files[Journal(dir)];
    if file.size > REMOVAL_RECOVERY_MAX_BYTES || file.links != 1 || !file.body.JournalBody?
        || !PlanValid(file.body.plan, dir) {
      return Refused;
    }
    r := NothingUnexpected(store, dir, file.body.plan);
    if !r.Recovered? { return; }
    r := ApplyPlan(store, dir, file.body.plan, b, kept);
    if !r.Recovered? { return; }
    r := CloseStaging(store, dir, b, kept);
  }
}
