/** Removing everything an ownership marker lists, through a journalled staging directory. */
module AssetRemoval {
  import opened Options
  import opened Numerals
  import opened Steps
  import opened AssetDisk
  import opened AssetOperations
  import opened RemovalRecovery
  import opened RemovalJournal

  const STAGING_PREFIX := ".piu-removal-"

  predicate AuthorizesRemoval(m: Marker, repository: string) {
    && m.schemaVersion == 1
    && m.owner == OWNER
    && m.repository == repository
    && |m.revision| == 40
    && (forall i :: 0 <= i < |m.revision| ==> HexDigit(m.revision[i]))
    && m.files != []
    && (forall i :: 0 <= i < |m.files| ==>
          && |m.files[i].path| > 1
          && (m.files[i].path[0] == "target" || m.files[i].path[0] == "drafter")
          && (forall k :: 0 <= k < |m.files[i].path| ==> NormalComponent(m.files[i].path[k]))
          && m.files[i].size > 0
          && ValidDigest(m.files[i].digest))
    && (forall i, j :: 0 <= i < j < |m.files| ==> m.files[i].path != m.files[j].path)
  }

  // ----- the entries of a plan -----

  function AssetEntry(file: OwnedFile, index: nat, dir: string): Entry {
    Entry(Asset(file.path), Staged(dir, AssetSlot(index)), file.size, file.digest, None)
  }

  function MarkerEntry(f: File, dir: string): Entry {
    Entry(OwnershipFile, Staged(dir, MarkerSlot), f.size, f.digest, None)
  }

  /** One entry for each of the first `n` listed files that is there. */
  function PresentEntries(files: seq<OwnedFile>, present: set<Name>, dir: string, n: nat): (entries: seq<Entry>)
    requires n <= |files|
    ensures forall k :: 0 <= k < |entries| ==>
              && entries[k].staged.Staged? && entries[k].staged.slot.AssetSlot?
              && var i := entries[k].staged.slot.index;
                 i < n && entries[k] == AssetEntry(files[i], i, dir) && Asset(files[i].path) in present
    ensures forall j, k :: 0 <= j < k < |entries| ==> entries[j].staged.slot.index < entries[k].staged.slot.index
  {
    if n == 0 then [] else
      PresentEntries(files, present, dir, n - 1)
      + (if Asset(files[n - 1].path) in present then [AssetEntry(files[n - 1], n - 1, dir)] else [])
  }

  lemma {:induction false} PresentPrefix(files: seq<OwnedFile>, present: set<Name>, dir: string, m: nat, n: nat)
    requires m <= n <= |files|
    ensures PresentEntries(files, present, dir, m) <= PresentEntries(files, present, dir, n)
  {
    if m < n { PresentPrefix(files, present, dir, m, n - 1); }
  }

  /** A listed file that is there has its entry right after those of the files before it. */
  lemma PresentAt(files: seq<OwnedFile>, present: set<Name>, dir: string, i: nat)
    requires i < |files| && Asset(files[i].path) in present
    ensures var m := |PresentEntries(files, present, dir, i)|;
            var all := PresentEntries(files, present, dir, |files|);
            m < |all| && all[m] == AssetEntry(files[i], i, dir)
  {
    PresentPrefix(files, present, dir, i + 1, |files|);
  }

  function PlanEntries(marker: Marker, d: Disk, dir: string): seq<Entry>
    requires OwnershipFile in d.files
  {
    PresentEntries(marker.files, d.files.Keys, dir, |marker.files|) + [MarkerEntry(d.files[OwnershipFile], dir)]
  }

  // ----- what the removal is about -----

  /** The listed files that are there, and the marker itself. */
  ghost function OwnedNames(marker: Marker, d: Disk): set<Name> {
    (set i | 0 <= i < |marker.files| && Asset(marker.files[i].path) in d.files ::
       Asset(marker.files[i].path)) + {OwnershipFile}
  }

  ghost function BeforeOf(marker: Marker, d: Disk): Before {
    var owned := OwnedNames(marker, d);
    Before(map n | n in d.files && n in owned :: d.files[n], d.files - owned, d.dirs)
  }

  ghost predicate WellFormed(d: Disk) {
    forall n :: n in d.files && n.Staged? ==> n.dir in d.dirs
  }

  /** Every listed file that is there has the recorded size and a single link. */
  ghost predicate ListedFits(marker: Marker, d: Disk) {
    forall i :: 0 <= i < |marker.files| && Asset(marker.files[i].path) in d.files ==>
      var f := d.files[Asset(marker.files[i].path)];
      f.size == marker.files[i].size && f.links == 1
  }

  predicate MarkerUsable(d: Disk, repository: string) {
    && OwnershipFile in d.files
    && var f := d.files[OwnershipFile];
       0 < f.size <= OWNERSHIP_METADATA_MAX_BYTES && f.links == 1 && f.body.MarkerBody?
           && AuthorizesRemoval(f.body.marker, repository)
  }

  ghost predicate Checked(marker: Marker, d: Disk) {
    && OwnershipFile in d.files && d.files[OwnershipFile].links == 1 && d.files[OwnershipFile].size > 0
    && ListedFits(marker, d)
  }

  lemma PlanNamesOwned(marker: Marker, d: Disk, dir: string)
    requires OwnershipFile in d.files
    ensures Originals(PlanEntries(marker, d, dir)) == BeforeOf(marker, d).owned.Keys
  {
    var entries := PlanEntries(marker, d, dir);
    forall n | n in BeforeOf(marker, d).owned
      ensures n in Originals(entries)
    {
      if n != OwnershipFile {
        var i :| 0 <= i < |marker.files| && Asset(marker.files[i].path) in d.files && n == Asset(marker.files[i].path);
        PresentAt(marker.files, d.files.Keys, dir, i);
        assert entries[|PresentEntries(marker.files, d.files.Keys, dir, i)|].original == n;
      } else {
        assert entries[|entries| - 1].original == n;
      }
    }
  }

  lemma PlanDistinct(marker: Marker, repository: string, d: Disk, dir: string, j: nat, k: nat)
    requires AuthorizesRemoval(marker, repository) && OwnershipFile in d.files
    requires j < k < |PlanEntries(marker, d, dir)|
    ensures var entries := PlanEntries(marker, d, dir);
            entries[j].original != entries[k].original && entries[j].staged != entries[k].staged
  {
  }

  lemma PlanEntryFits(marker: Marker, repository: string, d: Disk, dir: string, k: nat)
    requires AuthorizesRemoval(marker, repository) && Checked(marker, d)
    requires k < |PlanEntries(marker, d, dir)|
    ensures var e := PlanEntries(marker, d, dir)[k];
            && EntryValid(e, Staging, dir)
            && e.original in d.files && !InDir(e.original, dir)
            && d.files[e.original].size == e.size && d.files[e.original].links == 1
  {
  }

  lemma PlanCovers(marker: Marker, repository: string, d: Disk, dir: string)
    requires AuthorizesRemoval(marker, repository) && Checked(marker, d)
    ensures Covers(PlanEntries(marker, d, dir), dir, BeforeOf(marker, d))
    ensures PlanShape(Plan(1, OWNER, Staging, dir, PlanEntries(marker, d, dir)), dir)
  {
    hide AuthorizesRemoval, PresentEntries, Originals;
    var entries := PlanEntries(marker, d, dir);
    PlanNamesOwned(marker, d, dir);
    forall k | 0 <= k < |entries|
      ensures entries[k].original in Originals(entries)
      ensures EntryValid(entries[k], Staging, dir) && entries[k].original in d.files && !InDir(entries[k].original, dir)
      ensures d.files[entries[k].original].size == entries[k].size && d.files[entries[k].original].links == 1
    {
      PlanEntryFits(marker, repository, d, dir, k);
      InOriginals(entries, k);
    }
    forall j, k | 0 <= j < k < |entries|
      ensures entries[j].original != entries[k].original && entries[j].staged != entries[k].staged
    {
      PlanDistinct(marker, repository, d, dir, j, k);
    }
  }

  lemma InOriginals(entries: seq<Entry>, k: nat)
    requires k < |entries|
    ensures entries[k].original in Originals(entries)
  {
  }

  // ----- opening the staging directory -----

  ghost predicate Planned(marker: Marker, repository: string, d: Disk, dir: string, plan: Plan) {
    && AuthorizesRemoval(marker, repository)
    && Checked(marker, d)
    && WellFormed(d)
    && dir !in d.dirs
    && plan == Plan(1, OWNER, Staging, dir, PlanEntries(marker, d, dir))
  }

  lemma Opened(marker: Marker, d: Disk, d': Disk, dir: string)
    requires OwnershipFile in d.files && WellFormed(d) && dir !in d.dirs
    requires d' == d.(dirs := d.dirs + {dir})
    ensures Settled(d', dir, BeforeOf(marker, d), BeforeOf(marker, d).owned.Keys)
    ensures NoPrivate(d', dir) && Journal(dir) !in d'.files
  {
    hide OwnedNames;
  }

  lemma JournalOpened(marker: Marker, repository: string, d: Disk, d1: Disk, d2: Disk, dir: string, plan: Plan)
    requires Planned(marker, repository, d, dir, plan)
    requires d1 == d.(dirs := d.dirs + {dir}) && WithJournal(d1, d2, dir, plan)
    ensures Rollbackable(d2, dir, plan, BeforeOf(marker, d), [])
    ensures NoPrivate(d2, dir)
  {
    PlanCovers(marker, repository, d, dir);
    Opened(marker, d, d1, dir);
    JournalAdded(d1, d2, dir, plan, BeforeOf(marker, d));
  }

  lemma JournalAdded(d: Disk, d': Disk, dir: string, plan: Plan, b: Before)
    requires Settled(d, dir, b, b.owned.Keys) && NoPrivate(d, dir) && dir in d.dirs
    requires WithJournal(d, d', dir, plan) && PlanShape(plan, dir)
    requires Covers(plan.entries, dir, b)
    ensures Rollbackable(d', dir, plan, b, [])
    ensures NoPrivate(d', dir)
  {
    hide Originals;
  }

  lemma SettledWithPrivate(d: Disk, d': Disk, dir: string, b: Before)
    requires Settled(d, dir, b, b.owned.Keys) && NoPrivate(d, dir) && dir in d.dirs
    requires WithPrivate(d, d', dir)
    ensures Settled(d', dir, b, b.owned.Keys) && Journal(dir) !in d'.files && dir in d'.dirs
  {
  }

  // ----- the code -----

  datatype Progress = Continue | Ended(outcome: Outcome)

  /** How a removal that did not get through may end: without an I/O error it has put
      everything back; in any case recovery can take over. */
  ghost predicate StoppedSafely(d: Disk, dir: string, b: Before, kept: set<Name>, r: Outcome, faulted: bool) {
    && Interruptible(d, dir, b, kept)
    && (r.Stopped? || r.Lost?)
    && (r.Stopped? && !faulted ==> r == Stopped(false) && Finished(d, dir, b, b.owned.Keys))
  }

  /** The first `m` entries are staged under a Staging journal, and no write is under way. */
  ghost predicate StagedSoFar(d: Disk, dir: string, plan: Plan, b: Before, staged: seq<StagedRemoval>) {
    && Rollbackable(d, dir, plan, b, staged)
    && plan.phase.Staging?
    && NoPrivate(d, dir)
  }

  lemma SoFarInterruptible(d: Disk, dir: string, plan: Plan, b: Before, staged: seq<StagedRemoval>)
    requires StagedSoFar(d, dir, plan, b, staged)
    ensures Interruptible(d, dir, b, b.owned.Keys)
  {
    hide Rollbackable, Interruptible, JournalSpent, NoPrivate;
    RollbackInterruptible(d, dir, plan, b, staged);
  }

  lemma SoFarJournal(d: Disk, dir: string, plan: Plan, b: Before, staged: seq<StagedRemoval>)
    requires StagedSoFar(d, dir, plan, b, staged)
    ensures JournalOf(d, dir, plan)
  {
    hide Rollbackable, NoPrivate;
    RollbackableJournal(d, dir, plan, b, staged);
  }

  /** Hashing reads the whole file, looking for cancellation between reads. */
  method HashStaged(store: Storage, ops: Operations, id: nat, n: Name)
    returns (r: Step, digest: string, identity: Identity)
    requires ops.Valid() && n in store.disk.files
    modifies store`faults, store`crashes, ops
    ensures store.crashes == old(store.crashes) + Tick(r.Crashed?)
    ensures ops.Valid() && old(ops.committed) <= ops.committed && (id in ops.committed ==> id in old(ops.committed))
    ensures store.faults >= old(store.faults)
    ensures r.Done? ==> digest == store.disk.files[n].digest && identity == IdentityOf(store.disk.files[n])
    ensures r.Failed? && store.disk.files[n].links == 1 ==> store.faults > old(store.faults) || id in ops.cancelled
  {
    var f := store.disk.files[n];
    digest, identity := f.digest, IdentityOf(f);
    if f.links != 1 { return Failed, digest, identity; }
    r := store.Read();
    if !r.Done? { return; }
    var cancelled := ops.IsCancelled(id);
    if cancelled { r := Failed; }
  }

  lemma StagedNext(d: Disk, d': Disk, dir: string, plan: Plan, b: Before, staged: seq<StagedRemoval>)
    requires StagedSoFar(d, dir, plan, b, staged) && |staged| < |plan.entries|
    requires var e := plan.entries[|staged|]; d' == d || Moved(d, d', e.original, e.staged)
    ensures PossiblyStaged(d', dir, plan, b, staged) && NoPrivate(d', dir)
    ensures d' != d ==> AtStaged(d', plan.entries[|staged|], b)
  {
    hide Originals, RestUntouched, HasJournal;
    FrameKeptByStage(d, d', dir, plan, b, |staged|);
  }

  lemma FrameKeptByStage(d: Disk, d': Disk, dir: string, plan: Plan, b: Before, i: nat)
    requires RestUntouched(d, dir, b) && HasJournal(d, dir, plan) && Covers(plan.entries, dir, b) && NoPrivate(d, dir)
    requires i < |plan.entries|
    requires d' == d || Moved(d, d', plan.entries[i].original, plan.entries[i].staged)
    ensures RestUntouched(d', dir, b) && HasJournal(d', dir, plan) && NoPrivate(d', dir)
  {
    if d' != d {
      RestKeptByMove(d, d', dir, b, plan.entries[i].original, plan.entries[i].staged);
      JournalKeptByStage(d, d', dir, plan, i);
    }
  }

  lemma JournalKeptByStage(d: Disk, d': Disk, dir: string, plan: Plan, i: nat)
    requires HasJournal(d, dir, plan) && NoPrivate(d, dir) && i < |plan.entries|
    requires !InDir(plan.entries[i].original, dir)
    requires Moved(d, d', plan.entries[i].original, plan.entries[i].staged)
    ensures HasJournal(d', dir, plan) && NoPrivate(d', dir)
  {
    assert EntryValid(plan.entries[i], plan.phase, dir);
  }

  lemma StagedPushed(d: Disk, dir: string, plan: Plan, b: Before, staged: seq<StagedRemoval>)
    requires PossiblyStaged(d, dir, plan, b, staged) && NoPrivate(d, dir)
    requires AtStaged(d, plan.entries[|staged|], b)
    ensures var e := plan.entries[|staged|];
            StagedSoFar(d, dir, plan, b, staged + [StagedRemoval(e.original, e.staged, IdentityOf(d.files[e.staged]))])
  {
    hide Originals, RestUntouched, HasJournal;
  }

  /** The next entry's file is an owned one, at its place, single-linked and of its size. */
  lemma EntryOwned(d: Disk, dir: string, plan: Plan, b: Before, staged: seq<StagedRemoval>)
    requires StagedSoFar(d, dir, plan, b, staged) && |staged| < |plan.entries|
    ensures var e := plan.entries[|staged|];
            && e.original in b.owned && b.owned[e.original].links == 1 && b.owned[e.original].size == e.size
            && e.original in d.files && Same(d.files[e.original], b.owned[e.original])
  {
    hide RestUntouched, HasJournal, Originals;
  }

  /** Stages the entry `entry`, which is the next one, and checks what was staged. */
  method StageEntry(store: Storage, ops: Operations, id: nat, dir: string, entry: Entry, staged: seq<StagedRemoval>,
      ghost plan: Plan, ghost b: Before)
    returns (p: Progress, staged': seq<StagedRemoval>, ghost kept: set<Name>)
    requires ops.Valid()
    requires StagedSoFar(store.disk, dir, plan, b, staged)
    requires |staged| < |plan.entries| && entry == plan.entries[|staged|]
    modifies store`disk, store`faults, store`crashes, ops
    ensures store.crashes == old(store.crashes) + Tick(p.Ended? && p.outcome.Lost?)
    ensures p == Ended(Stopped(true)) ==> ops.recoveryRequired
    ensures ops.Valid() && old(ops.committed) <= ops.committed && (id in ops.committed ==> id in old(ops.committed))
    ensures store.faults >= old(store.faults)
    ensures kept == b.owned.Keys
    ensures p.Continue? ==> StagedSoFar(store.disk, dir, plan, b, staged') && |staged'| == |staged| + 1
    ensures p.Continue? ==> entry.original in b.owned && b.owned[entry.original].digest == entry.digest
    ensures p.Ended? ==> StoppedSafely(store.disk, dir, b, kept, p.outcome, store.faults > old(store.faults))
    ensures p.Ended? && p.outcome.Stopped? ==>
              || store.faults > old(store.faults) || id in ops.cancelled
              || (entry.original in b.owned && b.owned[entry.original].digest != entry.digest)
    ensures p.Ended? ==> JournalOf(store.disk, dir, plan)
  {
    hide RestUntouched, HasJournal, Interruptible, Originals, Settled;
    kept, staged' := b.owned.Keys, staged;
    ghost var d := store.disk;
    var step := store.RenameDurable(entry.original, entry.staged);
    StagedNext(d, store.disk, dir, plan, b, staged);
    PossiblyStagedIsInterruptible(store.disk, dir, plan, b, staged);
    PossiblyStagedJournal(store.disk, dir, plan, b, staged);
    EntryOwned(d, dir, plan, b, staged);
    var outcome;
    if step.Crashed? { return Ended(Lost), staged', kept; }
    if step.Failed? {
      outcome, kept := RollbackAfterPossibleStage(store, ops, dir, staged, entry.original, entry.staged, entry.size,
          plan, b);
      return Ended(outcome), staged', kept;
    }
    var digest, identity;
    step, digest, identity := HashStaged(store, ops, id, entry.staged);
    if step.Crashed? { return Ended(Lost), staged', kept; }
    if step.Failed? {
      outcome, kept := RollbackAfterPossibleStage(store, ops, dir, staged, entry.original, entry.staged, entry.size,
          plan, b);
      return Ended(outcome), staged', kept;
    }
    StagedPushed(store.disk, dir, plan, b, staged);
    staged' := staged + [StagedRemoval(entry.original, entry.staged, identity)];
    if digest != entry.digest || identity.size != entry.size {
      outcome, kept := RollbackOrRequireRecovery(store, ops, dir, staged', plan, b);
      return Ended(outcome), staged', kept;
    }
    p := Continue;
  }

  /** A listed file is still there exactly when it was at the start, and is then the next entry. */
  lemma NextListed(marker: Marker, repository: string, d0: Disk, d: Disk, dir: string, plan: Plan,
      staged: seq<StagedRemoval>, i: nat)
    requires Planned(marker, repository, d0, dir, plan)
    requires StagedSoFar(d, dir, plan, BeforeOf(marker, d0), staged)
    requires i < |marker.files|
    requires |staged| == |PresentEntries(marker.files, d0.files.Keys, dir, i)|
    ensures Asset(marker.files[i].path) in d.files <==> Asset(marker.files[i].path) in d0.files
    ensures Asset(marker.files[i].path) in d.files ==>
              && |staged| < |plan.entries|
              && plan.entries[|staged|] == AssetEntry(marker.files[i], i, dir)
              && |staged| + 1 == |PresentEntries(marker.files, d0.files.Keys, dir, i + 1)|
    ensures Asset(marker.files[i].path) !in d.files ==>
              |staged| == |PresentEntries(marker.files, d0.files.Keys, dir, i + 1)|
  {
    hide HasJournal, AuthorizesRemoval, WellFormed, Originals;
    var n := Asset(marker.files[i].path);
    if n in d0.files {
      PresentAt(marker.files, d0.files.Keys, dir, i);
      assert plan.entries[|staged|] == AssetEntry(marker.files[i], i, dir);
    } else {
      assert n !in BeforeOf(marker, d0).owned;
    }
  }

  /** The listed file, if it is there, has the digest the marker records. */
  predicate VerifiedFile(marker: Marker, d: Disk, i: nat)
    requires i < |marker.files|
  {
    Asset(marker.files[i].path) in d.files ==> d.files[Asset(marker.files[i].path)].digest == marker.files[i].digest
  }

  ghost predicate Verified(marker: Marker, d: Disk) {
    forall i :: 0 <= i < |marker.files| ==> VerifiedFile(marker, d, i)
  }

  lemma ListedOwned(marker: Marker, d: Disk, i: nat)
    requires i < |marker.files| && OwnershipFile in d.files
    ensures Asset(marker.files[i].path) in d.files ==>
              && Asset(marker.files[i].path) in BeforeOf(marker, d).owned
              && BeforeOf(marker, d).owned[Asset(marker.files[i].path)] == d.files[Asset(marker.files[i].path)]
  {
  }

  /** What was checked when the removal was listed still holds: the size cannot have changed. */
  lemma ListedSize(marker: Marker, repository: string, d0: Disk, d: Disk, dir: string, plan: Plan,
      staged: seq<StagedRemoval>, i: nat)
    requires Planned(marker, repository, d0, dir, plan)
    requires StagedSoFar(d, dir, plan, BeforeOf(marker, d0), staged) && i < |marker.files|
    requires |staged| == |PresentEntries(marker.files, d0.files.Keys, dir, i)|
    ensures Asset(marker.files[i].path) in d.files ==> d.files[Asset(marker.files[i].path)].size == marker.files[i].size
  {
    hide BeforeOf, PresentEntries, HasJournal, AuthorizesRemoval, WellFormed, Originals, RestUntouched, Planned,
        StagedSoFar, PlanEntries;
    NextListed(marker, repository, d0, d, dir, plan, staged, i);
    if Asset(marker.files[i].path) in d.files {
      EntryOwned(d, dir, plan, BeforeOf(marker, d0), staged);
    }
  }

  method StageFile(store: Storage, ops: Operations, id: nat, dir: string, marker: Marker, i: nat,
      staged: seq<StagedRemoval>, ghost repository: string, ghost d0: Disk, ghost plan: Plan)
    returns (p: Progress, staged': seq<StagedRemoval>, ghost kept: set<Name>)
    requires ops.Valid()
    requires Planned(marker, repository, d0, dir, plan) && i < |marker.files|
    requires StagedSoFar(store.disk, dir, plan, BeforeOf(marker, d0), staged)
    requires |staged| == |PresentEntries(marker.files, d0.files.Keys, dir, i)|
    modifies store`disk, store`faults, store`crashes, ops
    ensures store.crashes == old(store.crashes) + Tick(p.Ended? && p.outcome.Lost?)
    ensures p == Ended(Stopped(true)) ==> ops.recoveryRequired
    ensures ops.Valid() && old(ops.committed) <= ops.committed && (id in ops.committed ==> id in old(ops.committed))
    ensures store.faults >= old(store.faults)
    ensures kept == BeforeOf(marker, d0).owned.Keys
    ensures p.Continue? ==> StagedSoFar(store.disk, dir, plan, BeforeOf(marker, d0), staged')
                            && |staged'| == |PresentEntries(marker.files, d0.files.Keys, dir, i + 1)|
    ensures p.Continue? ==> VerifiedFile(marker, d0, i)
    ensures p.Ended? ==>
        StoppedSafely(store.disk, dir, BeforeOf(marker, d0), kept, p.outcome, store.faults > old(store.faults))
    ensures p.Ended? && p.outcome.Stopped? ==>
        store.faults > old(store.faults) || id in ops.cancelled || !VerifiedFile(marker, d0, i)
    ensures p.Ended? ==> JournalOf(store.disk, dir, plan)
  {
    hide RestUntouched, HasJournal, Interruptible, Originals, Settled, BeforeOf, Rollbackable, NoPrivate, PlanEntries,
        PresentEntries;
    ghost var b := BeforeOf(marker, d0);
    kept, staged' := b.owned.Keys, staged;
    SoFarInterruptible(store.disk, dir, plan, b, staged);
    SoFarJournal(store.disk, dir, plan, b, staged);
    NextListed(marker, repository, d0, store.disk, dir, plan, staged, i);
    var outcome;
    var cancelled := ops.IsCancelled(id);
    if cancelled {
      outcome, kept := RollbackOrRequireRecovery(store, ops, dir, staged, plan, b);
      return Ended(outcome), staged', kept;
    }
    var file := marker.files[i];
    var step := store.Read();
    if step.Crashed? { return Ended(Lost), staged', kept; }
    if step.Failed? { return Ended(Stopped(false)), staged', kept; }
    if Asset(file.path) !in store.disk.files { return Continue, staged', kept; }
    if store.disk.files[Asset(file.path)].size != file.size {
      ghost var now := store.disk;
      outcome, kept := RollbackOrRequireRecovery(store, ops, dir, staged, plan, b);
      ListedSize(marker, repository, d0, now, dir, plan, staged, i);
      return Ended(outcome), staged', kept;
    }
    ListedOwned(marker, d0, i);
    p, staged', kept := StageEntry(store, ops, id, dir, AssetEntry(file, i, dir), staged, plan, b);
  }

  method StageFiles(store: Storage, ops: Operations, id: nat, dir: string, marker: Marker, ghost repository: string,
      ghost d0: Disk, ghost plan: Plan)
    returns (p: Progress, staged: seq<StagedRemoval>, ghost kept: set<Name>)
    requires ops.Valid()
    requires Planned(marker, repository, d0, dir, plan)
    requires StagedSoFar(store.disk, dir, plan, BeforeOf(marker, d0), [])
    modifies store`disk, store`faults, store`crashes, ops
    ensures store.crashes == old(store.crashes) + Tick(p.Ended? && p.outcome.Lost?)
    ensures p == Ended(Stopped(true)) ==> ops.recoveryRequired
    ensures ops.Valid() && old(ops.committed) <= ops.committed && (id in ops.committed ==> id in old(ops.committed))
    ensures store.faults >= old(store.faults)
    ensures kept == BeforeOf(marker, d0).owned.Keys
    ensures p.Continue? ==>
        StagedSoFar(store.disk, dir, plan, BeforeOf(marker, d0), staged) && |staged| + 1 == |plan.entries|
    ensures p.Continue? ==> Verified(marker, d0)
    ensures p.Ended? ==>
        StoppedSafely(store.disk, dir, BeforeOf(marker, d0), kept, p.outcome, store.faults > old(store.faults))
    ensures p.Ended? && p.outcome.Stopped? ==>
        store.faults > old(store.faults) || id in ops.cancelled || !Verified(marker, d0)
    ensures p.Ended? ==> JournalOf(store.disk, dir, plan)
  {
    hide RestUntouched, HasJournal, Interruptible, Originals, Settled, BeforeOf, StagedSoFar, AuthorizesRemoval,
        Checked, WellFormed, VerifiedFile;
    staged, kept := [], BeforeOf(marker, d0).owned.Keys;
    for i := 0 to |marker.files|
      invariant ops.Valid() && old(ops.committed) <= ops.committed && (id in ops.committed ==> id in old(ops.committed))
      invariant store.faults >= old(store.faults) && store.crashes == old(store.crashes)
      invariant kept == BeforeOf(marker, d0).owned.Keys
      invariant StagedSoFar(store.disk, dir, plan, BeforeOf(marker, d0), staged)
      invariant |staged| == |PresentEntries(marker.files, d0.files.Keys, dir, i)|
      invariant forall k :: 0 <= k < i ==> VerifiedFile(marker, d0, k)
    {
      p, staged, kept := StageFile(store, ops, id, dir, marker, i, staged, repository, d0, plan);
      if p.Ended? { return; }
    }
    p := Continue;
  }

  method StageMarker(store: Storage, ops: Operations, dir: string, entry: Entry, markerFile: File,
      staged: seq<StagedRemoval>, ghost plan: Plan, ghost b: Before)
    returns (p: Progress, staged': seq<StagedRemoval>, ghost kept: set<Name>)
    requires ops.Valid()
    requires StagedSoFar(store.disk, dir, plan, b, staged)
    requires |staged| + 1 == |plan.entries| && entry == plan.entries[|staged|]
    requires entry.original in b.owned && b.owned[entry.original].body == markerFile.body
    modifies store`disk, store`faults, store`crashes, ops`recoveryRequired
    ensures store.crashes == old(store.crashes) + Tick(p.Ended? && p.outcome.Lost?)
    ensures p == Ended(Stopped(true)) ==> ops.recoveryRequired
    ensures ops.Valid()
    ensures store.faults >= old(store.faults)
    ensures kept == b.owned.Keys
    ensures p.Continue? ==> StagedSoFar(store.disk, dir, plan, b, staged') && |staged'| == |plan.entries|
    ensures p.Ended? ==> StoppedSafely(store.disk, dir, b, kept, p.outcome, store.faults > old(store.faults))
    ensures p.Ended? && p.outcome.Stopped? ==> store.faults > old(store.faults)
    ensures p.Ended? ==> JournalOf(store.disk, dir, plan)
  {
    hide RestUntouched, HasJournal, Interruptible, Originals, Settled;
    kept, staged' := b.owned.Keys, staged;
    ghost var d := store.disk;
    var step := store.RenameDurable(entry.original, entry.staged);
    StagedNext(d, store.disk, dir, plan, b, staged);
    PossiblyStagedIsInterruptible(store.disk, dir, plan, b, staged);
    PossiblyStagedJournal(store.disk, dir, plan, b, staged);
    EntryOwned(d, dir, plan, b, staged);
    var outcome;
    if step.Crashed? { return Ended(Lost), staged', kept; }
    if step.Done? { step := store.Read(); }
    if step.Crashed? { return Ended(Lost), staged', kept; }
    if step.Failed? {
      outcome, kept := RollbackAfterPossibleStage(store, ops, dir, staged, entry.original, entry.staged, entry.size,
          plan, b);
      return Ended(outcome), staged', kept;
    }
    StagedPushed(store.disk, dir, plan, b, staged);
    var file := store.disk.files[entry.staged];
    staged' := staged + [StagedRemoval(entry.original, entry.staged, IdentityOf(file))];
    StagedStillThere(store.disk, dir, plan, b, staged');
    var sameMarker := file.body == markerFile.body;
    var matched;
    step, matched := StagedIdentitiesMatch(store, staged');
    if step.Crashed? { return Ended(Lost), staged', kept; }
    if !sameMarker || !matched {
      outcome, kept := RollbackOrRequireRecovery(store, ops, dir, staged', plan, b);
      return Ended(outcome), staged', kept;
    }
    p := Continue;
  }

  predicate StillThere(d: Disk, s: StagedRemoval) {
    s.staged in d.files && IdentityOf(d.files[s.staged]) == s.identity
  }

  method StagedIdentitiesMatch(store: Storage, staged: seq<StagedRemoval>) returns (r: Step, matched: bool)
    modifies store`faults, store`crashes
    ensures store.crashes == old(store.crashes) + Tick(r.Crashed?)
    ensures store.faults >= old(store.faults)
    ensures !r.Failed?
    ensures r.Done? && !matched && store.faults == old(store.faults) ==> exists i ::
        0 <= i < |staged| && !StillThere(store.disk, staged[i])
    ensures r.Done? && matched ==> forall i :: 0 <= i < |staged| ==> StillThere(store.disk, staged[i])
  {
    matched := true;
    for i := 0 to |staged|
      invariant store.faults >= old(store.faults) && store.crashes == old(store.crashes)
      invariant forall k :: 0 <= k < i ==> StillThere(store.disk, staged[k])
    {
      r := store.Read();
      if r.Crashed? { return; }
      if r.Failed? || !StillThere(store.disk, staged[i]) { return Done, false; }
    }
    r := Done;
  }

  lemma StagedStillThere(d: Disk, dir: string, plan: Plan, b: Before, staged: seq<StagedRemoval>)
    requires StagedSoFar(d, dir, plan, b, staged)
    ensures forall i :: 0 <= i < |staged| ==> StillThere(d, staged[i])
  {
    hide RestUntouched, HasJournal, Originals;
    assert forall i :: 0 <= i < |staged| ==> StagedAs(d, plan.entries[i], plan.phase, b, staged[i]);
  }

  // ----- the Deleting journal -----

  function FindIdentity(staged: seq<StagedRemoval>, n: Name): Option<Identity> {
    if staged == [] then None
    else if staged[0].staged == n then Some(staged[0].identity)
    else FindIdentity(staged[1..], n)
  }

  lemma {:induction false} FindIdentityAt(staged: seq<StagedRemoval>, k: nat)
    requires k < |staged|
    requires forall i, j :: 0 <= i < j < |staged| ==> staged[i].staged != staged[j].staged
    ensures FindIdentity(staged, staged[k].staged) == Some(staged[k].identity)
  {
    if k > 0 {
      assert staged[0].staged != staged[k].staged;
      FindIdentityAt(staged[1..], k - 1);
    }
  }

  function DeletingPlan(plan: Plan, staged: seq<StagedRemoval>): Plan {
    plan.(phase := Deleting,
          entries := seq(|plan.entries|, k requires 0 <= k < |plan.entries| =>
                           plan.entries[k].(identity := FindIdentity(staged, plan.entries[k].staged))))
  }

  lemma StagedNamesDistinct(d: Disk, dir: string, plan: Plan, b: Before, staged: seq<StagedRemoval>, i: nat, j: nat)
    requires Rollbackable(d, dir, plan, b, staged) && i < j < |staged|
    ensures staged[i].staged != staged[j].staged
  {
    hide RestUntouched, HasJournal, Originals;
  }

  lemma DeletingEntryFits(d: Disk, dir: string, plan: Plan, b: Before, staged: seq<StagedRemoval>, k: nat)
    requires StagedSoFar(d, dir, plan, b, staged) && k < |staged| == |plan.entries|
    ensures var e := DeletingPlan(plan, staged).entries[k];
            && e.original == plan.entries[k].original && e.staged == plan.entries[k].staged
            && e.size == plan.entries[k].size
            && e.original in b.owned
            && StagedAs(d, e, Deleting, b, staged[k])
            && EntryValid(e, Deleting, dir)
  {
    hide RestUntouched, OnePrivate, Originals;
    forall i, j | 0 <= i < j < |staged|
      ensures staged[i].staged != staged[j].staged
    {
      StagedNamesDistinct(d, dir, plan, b, staged, i, j);
    }
    assert StagedAs(d, plan.entries[k], Staging, b, staged[k]);
    assert EntryValid(plan.entries[k], Staging, dir);
    FindIdentityAt(staged, k);
  }

  lemma SameOriginals(xs: seq<Entry>, ys: seq<Entry>)
    requires |xs| == |ys| && forall k :: 0 <= k < |xs| ==> xs[k].original == ys[k].original
    ensures Originals(xs) == Originals(ys)
  {
    assert forall k :: 0 <= k < |xs| ==> xs[k].original in Originals(ys);
  }

  lemma DeletingPlanFits(d: Disk, dir: string, plan: Plan, b: Before, staged: seq<StagedRemoval>)
    requires StagedSoFar(d, dir, plan, b, staged) && |staged| == |plan.entries|
    ensures var plan' := DeletingPlan(plan, staged);
            && PlanShape(plan', dir)
            && Covers(plan'.entries, dir, b)
            && forall k :: 0 <= k < |staged| ==> StagedAs(d, plan'.entries[k], Deleting, b, staged[k])
  {
    hide RestUntouched, OnePrivate, StagedAs, EntryValid, AtOriginal, AtStaged, Originals;
    var plan' := DeletingPlan(plan, staged);
    forall k | 0 <= k < |staged|
      ensures var e := plan'.entries[k];
              && e.original == plan.entries[k].original && e.staged == plan.entries[k].staged
              && e.size == plan.entries[k].size
              && StagedAs(d, e, Deleting, b, staged[k])
              && EntryValid(e, Deleting, dir)
    {
      DeletingEntryFits(d, dir, plan, b, staged, k);
    }
    SameOriginals(plan.entries, plan'.entries);
  }

  lemma JournalReplaced(d: Disk, d': Disk, dir: string, plan: Plan, plan': Plan, b: Before, staged: seq<StagedRemoval>)
    requires StagedSoFar(d, dir, plan, b, staged) && |staged| == |plan.entries|
    requires plan' == DeletingPlan(plan, staged)
    requires WithJournal(d, d', dir, plan')
    ensures Rollbackable(d', dir, plan', b, staged)
  {
    hide FindIdentity, RestUntouched, HasJournal, OnePrivate, Originals, DeletingPlan;
    DeletingPlanFits(d, dir, plan, b, staged);
    RestKeptInDir(d, d', dir, b, Journal(dir));
    DeletingNames(plan, staged);
    JournalRewritten(d, d', dir, plan, plan');
    forall k | 0 <= k < |staged|
      ensures StagedAs(d', plan'.entries[k], Deleting, b, staged[k])
    {
      assert EntryValid(plan'.entries[k], Deleting, dir);
      assert StagedAs(d, plan'.entries[k], Deleting, b, staged[k]);
    }
  }

  lemma DeletingNames(plan: Plan, staged: seq<StagedRemoval>)
    ensures var plan' := DeletingPlan(plan, staged);
            && plan'.phase.Deleting? && |plan'.entries| == |plan.entries|
            && forall k :: 0 <= k < |plan.entries| ==>
                 && plan'.entries[k].staged == plan.entries[k].staged
                 && plan'.entries[k].original == plan.entries[k].original
  {
  }

  lemma RestKeptInDir(d: Disk, d': Disk, dir: string, b: Before, n: Name)
    requires RestUntouched(d, dir, b) && InDir(n, dir) && n in d'.files
    requires d' == d.(files := d.files[n := d'.files[n]])
    ensures RestUntouched(d', dir, b)
  {
  }

  lemma JournalRewritten(d: Disk, d': Disk, dir: string, plan: Plan, plan': Plan)
    requires HasJournal(d, dir, plan) && WithJournal(d, d', dir, plan') && PlanShape(plan', dir)
    requires |plan'.entries| == |plan.entries|
    requires forall k :: 0 <= k < |plan.entries| ==> plan'.entries[k].staged == plan.entries[k].staged
    ensures HasJournal(d', dir, plan')
  {
    forall n | n in d'.files && InDir(n, dir) && !n.slot.PrivateWrite? && !n.slot.JournalFile?
      ensures exists i :: 0 <= i < |plan'.entries| && plan'.entries[i].staged == n
    {
      var i :| 0 <= i < |plan.entries| && plan.entries[i].staged == n;
      assert plan'.entries[i].staged == n;
    }
  }

  lemma JournalWithPrivate(d: Disk, d': Disk, dir: string, plan: Plan, k: nat, f: File)
    requires HasJournal(d, dir, plan) && NoPrivate(d, dir) && SmallPrivate(f)
    requires d' == d.(files := d.files[Staged(dir, PrivateWrite(k)) := f])
    ensures HasJournal(d', dir, plan)
  {
    assert forall n :: n in d'.files && n != Staged(dir, PrivateWrite(k)) ==> n in d.files;
  }

  lemma PrivateAdded(d: Disk, d': Disk, dir: string, plan: Plan, b: Before, staged: seq<StagedRemoval>)
    requires StagedSoFar(d, dir, plan, b, staged)
    requires WithPrivate(d, d', dir)
    ensures Rollbackable(d', dir, plan, b, staged)
  {
    hide Originals, OnePrivate, RestUntouched;
    var k: nat, f: File :| SmallPrivate(f) && d' == d.(files := d.files[Staged(dir, PrivateWrite(k)) := f]);
    RestKeptInDir(d, d', dir, b, Staged(dir, PrivateWrite(k)));
    JournalWithPrivate(d, d', dir, plan, k, f);
    forall i | 0 <= i < |plan.entries|
      ensures plan.entries[i].staged != Staged(dir, PrivateWrite(k))
          && plan.entries[i].original != Staged(dir, PrivateWrite(k))
    {
      assert EntryValid(plan.entries[i], plan.phase, dir);
    }
  }

  /** What recovery keeps, by whether the Deleting journal was published and whether one of
      the two calls that publish it reported an error. */
  ghost predicate KeptRightly(kept: set<Name>, b: Before, published: bool, journalFault: bool) {
    && (!published ==> kept == b.owned.Keys)
    && (published && !journalFault ==> kept == {})
  }

  lemma AllStagedInterruptible(d: Disk, dir: string, plan: Plan, b: Before, staged: seq<StagedRemoval>)
    requires Rollbackable(d, dir, plan, b, staged) && plan.phase.Deleting? && |staged| == |plan.entries|
    ensures Interruptible(d, dir, b, {}) && DeletingState(d, dir, plan, b, {})
  {
    RollbackInterruptible(d, dir, plan, b, staged);
    hide RestUntouched, Rollbackable;
    assert KeptIfInterrupted(plan, b, |staged|) == {};
    assert Rollbackable(d, dir, plan, b, staged);
  }

  /** Publishes the Deleting journal over the Staging one, or rolls back. */
  method PublishDeleting(store: Storage, ops: Operations, id: nat, dir: string, stagingPlan: Plan,
      staged: seq<StagedRemoval>, ghost b: Before)
    returns (p: Progress, ghost kept: set<Name>)
    requires ops.Valid() && id in ops.committed && !store.deletingPublished && !store.journalFault
    requires StagedSoFar(store.disk, dir, stagingPlan, b, staged) && |staged| == |stagingPlan.entries|
    modifies store, ops
    ensures store.crashes == old(store.crashes) + Tick(p.Ended? && p.outcome.Lost?)
    ensures p == Ended(Stopped(true)) ==> ops.recoveryRequired
    ensures ops.Valid() && old(ops.committed) <= ops.committed && (id in ops.committed ==> id in old(ops.committed))
    ensures store.faults >= old(store.faults)
    ensures KeptRightly(kept, b, store.deletingPublished, store.journalFault)
    ensures p.Continue? ==>
              && store.deletingPublished && !store.journalFault
              && Rollbackable(store.disk, dir, DeletingPlan(stagingPlan, staged), b, staged)
    ensures p.Ended? ==> StoppedSafely(store.disk, dir, b, kept, p.outcome, store.faults > old(store.faults))
    ensures p.Ended? && p.outcome.Stopped? ==> store.faults > old(store.faults)
    ensures p.Ended? && !store.deletingPublished ==> JournalOf(store.disk, dir, stagingPlan)
    ensures p == Ended(Stopped(false)) ==> Finished(store.disk, dir, b, b.owned.Keys)
  {
    hide RestUntouched, HasJournal, Interruptible, Settled, Rollbackable, NoPrivate, WithJournal, WithPrivate;
    var plan := DeletingPlan(stagingPlan, staged);
    ghost var d := store.disk;
    SoFarInterruptible(d, dir, stagingPlan, b, staged);
    var step;
    ghost var published;
    step, published := WriteJournal(store, ops, id, dir, plan);
    var outcome;
    if step.Done? {
      JournalReplaced(d, store.disk, dir, stagingPlan, plan, b, staged);
      AllStagedInterruptible(store.disk, dir, plan, b, staged);
      step := store.Interrupt();               // the barrier that orders the journal first
      if step.Done? { return Continue, {}; }
      if step.Crashed? { return Ended(Lost), {}; }
      store.journalFault := true;
      outcome, kept := RollbackOrRequireRecovery(store, ops, dir, staged, plan, b);
      return Ended(outcome), kept;
    }
    ghost var planNow := if published then plan else stagingPlan;
    if published {
      JournalReplaced(d, store.disk, dir, stagingPlan, plan, b, staged);
      AllStagedInterruptible(store.disk, dir, plan, b, staged);
    } else if store.disk != d {
      PrivateAdded(d, store.disk, dir, stagingPlan, b, staged);
    }
    assert Rollbackable(store.disk, dir, planNow, b, staged);
    if step.Crashed? {
      kept := if published then {} else b.owned.Keys;
      if !published {
        StillInterruptible(store.disk, dir, stagingPlan, b, staged);
        RollbackableJournal(store.disk, dir, stagingPlan, b, staged);
      }
      return Ended(Lost), kept;
    }
    outcome, kept := RollbackOrRequireRecovery(store, ops, dir, staged, planNow, b);
    p := Ended(outcome);
  }

  lemma StillInterruptible(d: Disk, dir: string, plan: Plan, b: Before, staged: seq<StagedRemoval>)
    requires Rollbackable(d, dir, plan, b, staged) && plan.phase.Staging?
    ensures Interruptible(d, dir, b, b.owned.Keys)
  {
    hide Rollbackable, Interruptible, JournalSpent;
    RollbackInterruptible(d, dir, plan, b, staged);
  }

  // ----- deleting -----

  ghost predicate SameNames(plan: Plan, staged: seq<StagedRemoval>) {
    |staged| == |plan.entries| && forall k :: 0 <= k < |staged| ==>
        staged[k].staged == plan.entries[k].staged && Some(staged[k].identity) == plan.entries[k].identity
  }

  /** Entries from `i` on are still staged, all others are gone. */
  ghost predicate DeletingFrom(d: Disk, dir: string, plan: Plan, b: Before, staged: seq<StagedRemoval>, i: int) {
    && DeletingState(d, dir, plan, b, {})
    && SameNames(plan, staged)
    && forall k :: 0 <= k < |staged| ==> (plan.entries[k].staged in d.files <==> i <= k)
  }

  lemma DeletingStarts(d: Disk, dir: string, plan: Plan, b: Before, staged: seq<StagedRemoval>)
    requires Rollbackable(d, dir, plan, b, staged) && plan.phase.Deleting? && |staged| == |plan.entries|
    ensures DeletingFrom(d, dir, plan, b, staged, 0) && dir in d.dirs
  {
    AllStagedInterruptible(d, dir, plan, b, staged);
    hide RestUntouched, HasJournal, Originals, DeletingState;
    RollbackInterruptible(d, dir, plan, b, staged);
  }

  method DeleteStagedEntry(store: Storage, dir: string, staged: seq<StagedRemoval>, i: nat, ghost plan: Plan,
      ghost b: Before)
    returns (r: Recovery)
    requires DeletingFrom(store.disk, dir, plan, b, staged, i) && i < |staged|
    modifies store`disk, store`faults, store`crashes
    ensures store.crashes == old(store.crashes) + Tick(r.Halted?)
    ensures store.faults >= old(store.faults) && store.disk.dirs == old(store.disk).dirs
    ensures DeletingState(store.disk, dir, plan, b, {})
    ensures r.Recovered? ==> DeletingFrom(store.disk, dir, plan, b, staged, i + 1)
    ensures r.Refused? ==> store.faults > old(store.faults)
  {
    hide RestUntouched, HasJournal, Originals;
    var step := store.Read();
    if !step.Done? { return if step.Crashed? then Halted else Refused; }
    var n := staged[i].staged;
    if n !in store.disk.files || IdentityOf(store.disk.files[n]) != staged[i].identity { return Refused; }
    ghost var d := store.disk;
    step := store.RemoveFileDurable(n);
    if store.disk != d { DeleteStep(d, store.disk, dir, plan, b, {}, i); }
    r := match step case Done => Recovered case Failed => Refused case Crashed => Halted;
  }

  /** Unlinks what is staged, then the journal, then the directory. */
  method DeleteStaged(store: Storage, dir: string, staged: seq<StagedRemoval>, ghost plan: Plan, ghost b: Before)
    returns (r: Recovery)
    requires Rollbackable(store.disk, dir, plan, b, staged) && plan.phase.Deleting? && |staged| == |plan.entries|
    modifies store`disk, store`faults, store`crashes
    ensures store.crashes == old(store.crashes) + Tick(r.Halted?)
    ensures store.faults >= old(store.faults)
    ensures Interruptible(store.disk, dir, b, {})
    ensures r.Recovered? ==> Finished(store.disk, dir, b, {})
    ensures r.Refused? ==> store.faults > old(store.faults)
  {
    hide RestUntouched, Originals, DeletingState, Rollbackable, Settled, OnePrivate;
    DeletingStarts(store.disk, dir, plan, b, staged);
    for i := 0 to |staged|
      invariant store.faults >= old(store.faults) && store.crashes == old(store.crashes) && dir in store.disk.dirs
      invariant DeletingFrom(store.disk, dir, plan, b, staged, i)
    {
      r := DeleteStagedEntry(store, dir, staged, i, plan, b);
      if !r.Recovered? {
        DeletingInterruptible(store.disk, dir, plan, b);
        return;
      }
    }
    DeletingInterruptible(store.disk, dir, plan, b);
    r := CloseStaging(store, dir, b, {});
  }

  lemma DeletingInterruptible(d: Disk, dir: string, plan: Plan, b: Before)
    requires DeletingState(d, dir, plan, b, {})
    ensures Interruptible(d, dir, b, {}) && Journal(dir) in d.files && d.files[Journal(dir)].body == JournalBody(plan)
  {
    hide RestUntouched, Covers, OnePrivate;
  }

  // ----- the whole removal -----

  /** `.piu-removal-<process>-<operation>-<attempt>`. */
  function StagingName(process: string, operation: string, attempt: nat): string {
    STAGING_PREFIX + process + "-" + operation + "-" + Decimal(attempt)
  }

  predicate NamesTaken(process: string, operation: string, d: Disk) {
    forall a :: 0 <= a < 64 ==> StagingName(process, operation, a) in d.dirs
  }

  /** `made` is the directory that is there now, even if its creation was reported as failed. */
  method CreateRemovalStaging(store: Storage, process: string, operation: string)
    returns (r: Step, dir: Option<string>, ghost made: Option<string>)
    modifies store`disk, store`faults, store`crashes
    ensures store.crashes == old(store.crashes) + Tick(r.Crashed?)
    ensures store.faults >= old(store.faults)
    ensures r.Failed? ==> store.faults > old(store.faults)
    ensures dir.Some? ==> r.Done?
    ensures r.Done? ==> made == dir
    ensures r.Done? && dir.None? ==> NamesTaken(process, operation, store.disk)
    ensures match made
            case None => store.disk == old(store.disk)
            case Some(dir) =>
              && dir !in old(store.disk).dirs
              && store.disk == old(store.disk).(dirs := old(store.disk).dirs + {dir})
  {
    dir, made := None, None;
    for attempt := 0 to 64
      invariant store.faults >= old(store.faults) && store.crashes == old(store.crashes)
      invariant store.disk == old(store.disk) && made == None && dir == None
      invariant forall a :: 0 <= a < attempt ==> StagingName(process, operation, a) in store.disk.dirs
    {
      var name := StagingName(process, operation, attempt);
      ghost var d := store.disk;
      var created;
      r, created := store.CreateDir(name);
      made := if store.disk != d then Some(name) else None;
      if !r.Done? { return; }
      if created { return Done, Some(name), Some(name); }
    }
    r := Done;
  }

  method ReadMarker(store: Storage, repository: string) returns (r: Step, marker: Option<Marker>)
    modifies store`faults, store`crashes
    ensures store.crashes == old(store.crashes) + Tick(r.Crashed?)
    ensures store.faults >= old(store.faults) && (r.Failed? ==> store.faults > old(store.faults))
    ensures marker.Some? ==>
        MarkerUsable(store.disk, repository) && store.disk.files[OwnershipFile].body == MarkerBody(marker.value)
    ensures r.Done? && marker.None? ==> !MarkerUsable(store.disk, repository)
  {
    marker := None;
    r := store.Read();
    if !r.Done? || OwnershipFile !in store.disk.files { return; }
    var f := store.disk.files[OwnershipFile];
    if 0 < f.size <= OWNERSHIP_METADATA_MAX_BYTES && f.links == 1 && f.body.MarkerBody?
        && AuthorizesRemoval(f.body.marker, repository) {
      marker := Some(f.body.marker);
    }
  }

  /** One entry for every listed file that is there, under its name in no directory yet. */
  method ListPresent(store: Storage, marker: Marker) returns (r: Step, entries: Option<seq<Entry>>)
    modifies store`faults, store`crashes
    ensures store.crashes == old(store.crashes) + Tick(r.Crashed?)
    ensures store.faults >= old(store.faults) && (r.Failed? ==> store.faults > old(store.faults))
    ensures entries.Some? ==>
              entries.value == PresentEntries(marker.files, store.disk.files.Keys, "", |marker.files|)
                  && ListedFits(marker, store.disk)
    ensures r.Done? && entries.None? ==> !ListedFits(marker, store.disk)
  {
    var listed: seq<Entry> := [];
    entries := None;
    for i := 0 to |marker.files|
      invariant store.faults >= old(store.faults) && store.crashes == old(store.crashes)
      invariant listed == PresentEntries(marker.files, store.disk.files.Keys, "", i)
      invariant forall j :: 0 <= j < i && Asset(marker.files[j].path) in store.disk.files ==>
                  var f := store.disk.files[Asset(marker.files[j].path)];
                  f.size == marker.files[j].size && f.links == 1
    {
      r := store.Read();
      if !r.Done? { return; }
      var file := marker.files[i];
      if Asset(file.path) in store.disk.files {
        var f := store.disk.files[Asset(file.path)];
        if f.size != file.size || f.links != 1 { return; }
        listed := listed + [AssetEntry(file, i, "")];
      }
    }
    r, entries := Done, Some(listed);
  }

  lemma {:induction false} PresentRerooted(files: seq<OwnedFile>, present: set<Name>, dir: string, n: nat, k: nat)
    requires n <= |files|
    ensures |PresentEntries(files, present, "", n)| == |PresentEntries(files, present, dir, n)|
    ensures k < |PresentEntries(files, present, dir, n)| ==>
              var e := PresentEntries(files, present, "", n)[k];
              PresentEntries(files, present, dir, n)[k] == e.(staged := Staged(dir, e.staged.slot))
  {
    if n > 0 { PresentRerooted(files, present, dir, n - 1, k); }
  }

  lemma PlanRerooted(marker: Marker, d: Disk, dir: string, k: nat)
    requires OwnershipFile in d.files
    ensures |PlanEntries(marker, d, "")| == |PlanEntries(marker, d, dir)|
    ensures k < |PlanEntries(marker, d, "")| ==>
              var e := PlanEntries(marker, d, "")[k];
              e.staged.Staged? && PlanEntries(marker, d, dir)[k] == e.(staged := Staged(dir, e.staged.slot))
  {
    PresentRerooted(marker.files, d.files.Keys, dir, |marker.files|, k);
  }

  /** Joins the staged names onto the staging directory. */
  method Reroot(entries: seq<Entry>, dir: string, ghost marker: Marker, ghost d: Disk) returns (r: seq<Entry>)
    requires OwnershipFile in d.files && entries == PlanEntries(marker, d, "")
    ensures r == PlanEntries(marker, d, dir)
  {
    hide PlanEntries;
    PlanRerooted(marker, d, dir, 0);
    r := [];
    for k := 0 to |entries|
      invariant |r| == k
      invariant forall j :: 0 <= j < k ==> r[j] == PlanEntries(marker, d, dir)[j]
    {
      PlanRerooted(marker, d, dir, k);
      r := r + [entries[k].(staged := Staged(dir, entries[k].staged.slot))];
    }
  }

  /** Writes and orders the Staging journal, or closes the staging directory again. */
  method OpenJournal(store: Storage, ops: Operations, id: nat, dir: string, plan: Plan, ghost marker: Marker,
      ghost repository: string, ghost d0: Disk)
    returns (p: Progress, ghost kept: set<Name>)
    requires ops.Valid()
    requires Planned(marker, repository, d0, dir, plan)
    requires store.disk == d0.(dirs := d0.dirs + {dir})
    modifies store, ops
    ensures store.crashes == old(store.crashes) + Tick(p.Ended? && p.outcome.Lost?)
    ensures p == Ended(Stopped(true)) ==> ops.recoveryRequired
    ensures ops.Valid() && old(ops.committed) <= ops.committed && (id in ops.committed ==> id in old(ops.committed))
    ensures store.faults >= old(store.faults)
    ensures store.deletingPublished == old(store.deletingPublished) && store.journalFault == old(store.journalFault)
    ensures kept == BeforeOf(marker, d0).owned.Keys
    ensures p.Continue? ==> StagedSoFar(store.disk, dir, plan, BeforeOf(marker, d0), [])
    ensures p.Ended? ==>
        StoppedSafely(store.disk, dir, BeforeOf(marker, d0), kept, p.outcome, store.faults > old(store.faults))
    ensures p.Ended? && p.outcome.Stopped? ==> store.faults > old(store.faults) || id in ops.cancelled
    ensures p.Ended? ==> JournalOf(store.disk, dir, plan)
  {
    hide RestUntouched, HasJournal, BeforeOf, AuthorizesRemoval, PlanEntries, Interruptible, WithJournal,
        WithPrivate, OnePrivate;
    ghost var b := BeforeOf(marker, d0);
    kept := b.owned.Keys;
    ghost var d := store.disk;
    Opened(marker, d0, d, dir);
    var step;
    ghost var published;
    step, published := WriteJournal(store, ops, id, dir, plan);
    if published {
      JournalOpened(marker, repository, d0, d, store.disk, dir, plan);
      SoFarInterruptible(store.disk, dir, plan, b, []);
    } else if store.disk != d {
      SettledWithPrivate(d, store.disk, dir, b);
    }
    if !published { SettledInterruptible(store.disk, dir, b, kept); }
    if step.Crashed? { return Ended(Lost), kept; }
    if step.Failed? {
      var cleaned := RemoveAbandonedEmptyStaging(store, dir, b, kept);
      if !published { SettledInterruptible(store.disk, dir, b, kept); }
      match cleaned {
        case Recovered => p := Ended(Stopped(false));
        case Halted => p := Ended(Lost);
        case Refused =>
          ops.RequireRecovery();
          p := Ended(Stopped(true));
      }
      return;
    }
    step := store.Interrupt();
    if step.Crashed? { return Ended(Lost), kept; }
    if step.Failed? {
      var outcome;
      outcome, kept := RollbackOrRequireRecovery(store, ops, dir, [], plan, b);
      return Ended(outcome), kept;
    }
    p := Continue;
  }

  /** The operation is still the one the slot belongs to. */
  predicate HoldsSlot(ops: Operations, id: nat)
    reads ops
  {
    ops.active.Some? && ops.active.value.id == id && ops.active.value.kind == Kind.Removal
  }

  /** A removal that finished has freed the slot, one that was superseded does not have it, and
      after one that asks for recovery nothing starts before that. */
  predicate SlotAfter(ops: Operations, id: nat, r: Outcome)
    reads ops
  {
    match r
    case Removed => ops.active.None?
    case Superseded => ops.active.None? || ops.active.value.id != id
    case Stopped(recovery) => recovery ==> ops.recoveryRequired
    case Lost => true
  }

  lemma MarkerNext(marker: Marker, repository: string, d0: Disk, dir: string, plan: Plan, k: nat)
    requires Planned(marker, repository, d0, dir, plan) && k + 1 == |plan.entries|
    ensures plan.entries[k].original == OwnershipFile
    ensures OwnershipFile in BeforeOf(marker, d0).owned
        && BeforeOf(marker, d0).owned[OwnershipFile] == d0.files[OwnershipFile]
  {
    hide AuthorizesRemoval, WellFormed;
  }

  /** From the commit on: the marker, the Deleting journal, and the deletion. */
  method DeleteCommitted(store: Storage, ops: Operations, id: nat, dir: string, plan: Plan, markerFile: File,
      listed: seq<StagedRemoval>, ghost b: Before)
    returns (r: Outcome, ghost kept: set<Name>)
    requires ops.Valid() && id in ops.committed && !store.deletingPublished && !store.journalFault
    requires StagedSoFar(store.disk, dir, plan, b, listed) && |listed| + 1 == |plan.entries|
    requires var n := plan.entries[|listed|].original; n in b.owned && b.owned[n].body == markerFile.body
    modifies store, ops
    ensures store.crashes == old(store.crashes) + Tick(r.Lost?)
    ensures SlotAfter(ops, id, r)
    ensures ops.Valid() && id in ops.committed
    ensures store.faults >= old(store.faults)
    ensures KeptRightly(kept, b, store.deletingPublished, store.journalFault)
    ensures r.Stopped? ==> store.faults > old(store.faults)
    ensures if r.Removed? || r.Superseded?
            then store.deletingPublished && Finished(store.disk, dir, b, {}) && kept == {}
            else StoppedSafely(store.disk, dir, b, kept, r, store.faults > old(store.faults))
    ensures !store.deletingPublished ==> JournalOf(store.disk, dir, plan)
    ensures r == Stopped(false) && store.deletingPublished ==> Finished(store.disk, dir, b, b.owned.Keys)
  {
    hide RestUntouched, HasJournal, Interruptible, Settled, StagedSoFar, Rollbackable;
    var p, staged;
    p, staged, kept := StageMarker(store, ops, dir, plan.entries[|listed|], markerFile, listed, plan, b);
    if p.Ended? { return p.outcome, kept; }
    // A committed removal is not cancelled any more: the check there never undoes anything.
    var cancelled := ops.IsCancelled(id);
    assert !cancelled;
    p, kept := PublishDeleting(store, ops, id, dir, plan, staged, b);
    if p.Ended? { return p.outcome, kept; }
    kept := {};
    var deleted := DeleteStaged(store, dir, staged, DeletingPlan(plan, staged), b);
    match deleted {
      case Halted => r := Lost;
      case Refused =>
        ops.RequireRecovery();
        r := Stopped(true);
      case Recovered =>
        var held := ops.FinishRemoval(id);
        r := if held then Removed else Superseded;
    }
  }

  /** Staging, the point of no return, the Deleting journal, and the deletion. */
  method StageAndDelete(store: Storage, ops: Operations, id: nat, dir: string, marker: Marker, plan: Plan,
      markerFile: File, ghost repository: string, ghost d0: Disk)
    returns (r: Outcome, ghost kept: set<Name>)
    requires ops.Valid() && !store.deletingPublished && !store.journalFault
    requires Planned(marker, repository, d0, dir, plan) && markerFile == d0.files[OwnershipFile]
    requires StagedSoFar(store.disk, dir, plan, BeforeOf(marker, d0), [])
    modifies store, ops
    ensures store.crashes == old(store.crashes) + Tick(r.Lost?)
    ensures SlotAfter(ops, id, r)
    ensures ops.Valid()
    ensures store.faults >= old(store.faults)
    ensures KeptRightly(kept, BeforeOf(marker, d0), store.deletingPublished, store.journalFault)
    ensures store.deletingPublished ==> id in ops.committed && Verified(marker, d0)
    ensures r.Stopped? ==>
        store.faults > old(store.faults) || id in ops.cancelled || !HoldsSlot(ops, id) || !Verified(marker, d0)
    ensures if r.Removed? || r.Superseded?
            then store.deletingPublished && Finished(store.disk, dir, BeforeOf(marker, d0), {}) && kept == {}
            else StoppedSafely(store.disk, dir, BeforeOf(marker, d0), kept, r, store.faults > old(store.faults))
    ensures !store.deletingPublished ==> JournalOf(store.disk, dir, plan)
    ensures r == Stopped(false) && store.deletingPublished ==>
        Finished(store.disk, dir, BeforeOf(marker, d0), BeforeOf(marker, d0).owned.Keys)
  {
    hide RestUntouched, HasJournal, BeforeOf, AuthorizesRemoval, Checked, PlanEntries, Interruptible, Settled,
        StagedSoFar, Rollbackable, Verified;
    ghost var b := BeforeOf(marker, d0);
    var p, staged;
    p, staged, kept := StageFiles(store, ops, id, dir, marker, repository, d0, plan);
    if p.Ended? { return p.outcome, kept; }
    SoFarInterruptible(store.disk, dir, plan, b, staged);
    ops.Interleave(id);
    var committed := ops.CommitRemoval(id);
    if !committed {
      r, kept := Unstage(store, ops, dir, staged, plan, b);
      return;
    }
    MarkerNext(marker, repository, d0, dir, plan, |staged|);
    r, kept := DeleteCommitted(store, ops, id, dir, plan, markerFile, staged, b);
  }

  method Unstage(store: Storage, ops: Operations, dir: string, staged: seq<StagedRemoval>, ghost plan: Plan,
      ghost b: Before)
    returns (r: Outcome, ghost kept: set<Name>)
    requires ops.Valid() && StagedSoFar(store.disk, dir, plan, b, staged)
    modifies store`disk, store`faults, store`crashes, ops`recoveryRequired
    ensures store.crashes == old(store.crashes) + Tick(r.Lost?)
    ensures r == Stopped(true) ==> ops.recoveryRequired
    ensures ops.Valid()
    ensures store.faults >= old(store.faults)
    ensures kept == b.owned.Keys
    ensures StoppedSafely(store.disk, dir, b, kept, r, store.faults > old(store.faults))
    ensures JournalOf(store.disk, dir, plan)
  {
    hide Interruptible, Settled, Rollbackable, NoPrivate;
    r, kept := RollbackOrRequireRecovery(store, ops, dir, staged, plan, b);
  }

  /** What a removal leaves behind: nothing changed, or a staging directory it opened. */
  datatype Trace = NothingDone | Opened(dir: string, marker: Marker, kept: set<Name>)

  /** `marker` is the marker on the disk, and the removal may finish, be undone or be taken
      over by recovery as `kept` says. */
  ghost predicate Explains(trace: Trace, d0: Disk, d: Disk, r: Outcome, published: bool, journalFault: bool,
      faulted: bool) {
    match trace
    case NothingDone => d == d0 && (r == Stopped(false) || r.Lost?) && !published
    case Opened(dir, marker, kept) =>
      && OwnershipFile in d0.files && d0.files[OwnershipFile].body == MarkerBody(marker)
      && KeptRightly(kept, BeforeOf(marker, d0), published, journalFault)
      && if r.Removed? || r.Superseded?
         then published && Finished(d, dir, BeforeOf(marker, d0), {})
         else StoppedSafely(d, dir, BeforeOf(marker, d0), kept, r, faulted)
  }

  /** Without a Deleting journal the directory's is the Staging one; a removal that published
      one and stopped without requiring recovery has put everything back. */
  ghost predicate Orderly(trace: Trace, d0: Disk, d: Disk, r: Outcome, published: bool) {
    trace.Opened? ==>
      && (!published ==> StagingOnly(d, trace.dir))
      && (published && r == Stopped(false) && OwnershipFile in d0.files ==>
            var b := BeforeOf(trace.marker, d0); Finished(d, trace.dir, b, b.owned.Keys))
  }

  predicate StagingOnly(d: Disk, dir: string) {
    Journal(dir) in d.files ==>
        d.files[Journal(dir)].body.JournalBody? && d.files[Journal(dir)].body.plan.phase.Staging?
  }

  /** Why a removal may stop although no step failed. */
  ghost predicate Excused(ops: Operations, id: nat, repository: string, process: string, operation: string, d: Disk)
    reads ops
  {
    || id in ops.cancelled
    || !HoldsSlot(ops, id)
    || !MarkerUsable(d, repository)
    || !ListedFits(d.files[OwnershipFile].body.marker, d)
    || !Verified(d.files[OwnershipFile].body.marker, d)
    || NamesTaken(process, operation, d)
  }

  method PerformOwnedRemoval(store: Storage, ops: Operations, id: nat, repository: string, process: string,
      operation: string)
    returns (r: Outcome, ghost trace: Trace)
    requires ops.Valid() && WellFormed(store.disk)
    requires !store.deletingPublished && !store.journalFault
    modifies store, ops
    ensures store.crashes == old(store.crashes) + Tick(r.Lost?)
    ensures SlotAfter(ops, id, r)
    ensures ops.Valid() && store.faults >= old(store.faults)
    ensures Explains(trace, old(store.disk), store.disk, r, store.deletingPublished, store.journalFault,
        store.faults > old(store.faults))
    ensures store.deletingPublished ==>
              && id !in ops.cancelled && MarkerUsable(old(store.disk), repository)
              && Verified(old(store.disk).files[OwnershipFile].body.marker, old(store.disk))
    ensures r.Stopped? && store.faults == old(store.faults) ==>
        Excused(ops, id, repository, process, operation, old(store.disk))
    ensures Orderly(trace, old(store.disk), store.disk, r, store.deletingPublished)
  {
    hide Interruptible, Settled, WellFormed, AuthorizesRemoval, BeforeOf, StagedSoFar, PresentEntries, Verified,
        ListedFits, NamesTaken;
    trace, r := NothingDone, Stopped(false);
    ghost var d0 := store.disk;
    var cancelled := ops.IsCancelled(id);
    if cancelled { return; }
    var step, read := ReadMarker(store, repository);
    if step.Crashed? { r := Lost; return; }
    if read.None? { return; }
    var marker := read.value;
    var listed;
    step, listed := ListPresent(store, marker);
    if step.Crashed? { r := Lost; return; }
    if listed.None? { return; }
    var markerFile := store.disk.files[OwnershipFile];
    var entries := listed.value + [MarkerEntry(markerFile, "")];
    r, trace := RemoveListed(store, ops, id, repository, process, operation, marker, markerFile, entries);
  }

  method RemoveListed(store: Storage, ops: Operations, id: nat, ghost repository: string, process: string,
      operation: string, marker: Marker, markerFile: File, entries: seq<Entry>)
    returns (r: Outcome, ghost trace: Trace)
    requires ops.Valid() && WellFormed(store.disk)
    requires !store.deletingPublished && !store.journalFault
    requires AuthorizesRemoval(marker, repository) && Checked(marker, store.disk)
    requires MarkerUsable(store.disk, repository) && markerFile == store.disk.files[OwnershipFile]
    requires store.disk.files[OwnershipFile].body == MarkerBody(marker)
        && entries == PlanEntries(marker, store.disk, "")
    modifies store, ops
    ensures store.crashes == old(store.crashes) + Tick(r.Lost?)
    ensures SlotAfter(ops, id, r)
    ensures ops.Valid() && store.faults >= old(store.faults)
    ensures Explains(trace, old(store.disk), store.disk, r, store.deletingPublished, store.journalFault,
        store.faults > old(store.faults))
    ensures store.deletingPublished ==> id !in ops.cancelled && Verified(marker, old(store.disk))
    ensures r.Stopped? && store.faults == old(store.faults) ==>
        Excused(ops, id, repository, process, operation, old(store.disk))
    ensures Orderly(trace, old(store.disk), store.disk, r, store.deletingPublished)
  {
    hide Interruptible, Settled, AuthorizesRemoval, BeforeOf, PlanEntries, StagedSoFar, WellFormed, Verified,
        ListedFits, NamesTaken;
    trace, r := NothingDone, Stopped(false);
    ghost var d0 := store.disk;
    var step, staging;
    ghost var made;
    step, staging, made := CreateRemovalStaging(store, process, operation);
    if made.Some? {
      Opened(marker, d0, store.disk, made.value);
      SettledInterruptible(store.disk, made.value, BeforeOf(marker, d0), BeforeOf(marker, d0).owned.Keys);
      trace := Trace.Opened(made.value, marker, BeforeOf(marker, d0).owned.Keys);
    }
    if step.Crashed? { r := Lost; return; }
    if staging.None? { return; }
    var dir := staging.value;
    var rerooted := Reroot(entries, dir, marker, d0);
    var plan := Plan(1, OWNER, Staging, dir, rerooted);
    var p;
    ghost var kept;
    p, kept := OpenJournal(store, ops, id, dir, plan, marker, repository, d0);
    trace := Trace.Opened(dir, marker, kept);
    if p.Ended? { r := p.outcome; return; }
    r, kept := StageAndDelete(store, ops, id, dir, marker, plan, markerFile, repository, d0);
    trace := Trace.Opened(dir, marker, kept);
  }
}
