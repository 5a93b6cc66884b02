/** What a start of the application does with the staging directories it finds. */
module RemovalStarts {
  import opened Options
  import opened Steps
  import opened AssetDisk
  import opened RemovalRecovery

  /** Distinct entries covering the owned files are as many as the owned files. */
  lemma {:induction false} CountEntries(entries: seq<Entry>)
    requires forall i, j :: 0 <= i < j < |entries| ==> entries[i].original != entries[j].original
    ensures |Originals(entries)| == |entries|
  {
    if entries != [] {
      var init := entries[..|entries| - 1];
      CountEntries(init);
      var last := entries[|entries| - 1].original;
      assert last !in Originals(init);
      assert Originals(entries) == Originals(init) + {last} by {
        assert forall i :: 0 <= i < |init| ==> init[i] == entries[i];
      }
    }
  }

  /** Recovery can read the journal whenever the removal owns at most 64 files, marker included. */
  lemma LimitByOwned(d: Disk, dir: string, b: Before, kept: set<Name>)
    requires Interruptible(d, dir, b, kept)
    ensures |b.owned| <= REMOVAL_RECOVERY_MAX_ENTRIES ==> |Listed(d, dir)| <= REMOVAL_RECOVERY_MAX_ENTRIES
  {
    hide RestUntouched, OnePrivate, InPlace, AtOriginal, AtStaged, StagedRecorded, EntryValid, Originals;
    if Journal(dir) in d.files {
      CountEntries(d.files[Journal(dir)].body.plan.entries);
      assert |b.owned| == |b.owned.Keys|;
    }
  }

  lemma NoDirectory(d: Disk, dir: string, b: Before, kept: set<Name>)
    requires Interruptible(d, dir, b, kept) && dir !in d.dirs
    ensures Finished(d, dir, b, kept)
  {
    hide RestUntouched, OnePrivate, Lists;
  }

  lemma FinishedInterruptible(d: Disk, dir: string, b: Before, kept: set<Name>)
    requires Finished(d, dir, b, kept)
    ensures Interruptible(d, dir, b, kept)
  {
    hide RestUntouched, OnePrivate, Interruptible, Settled;
    SettledInterruptible(d, dir, b, kept);
  }

  // ----- directories that were left -----

  /** Inside, the directory is as a removal that stopped somewhere left it; anything may have
      happened outside since. */
  ghost predicate Left(d: Disk, dir: string) {
    && dir in d.dirs && OnePrivate(d, dir)
    && if Journal(dir) in d.files then
         && d.files[Journal(dir)].body.JournalBody?
         && var plan := d.files[Journal(dir)].body.plan;
            && HasJournal(d, dir, plan) && NamesApart(plan.entries)
            && forall i :: 0 <= i < |plan.entries| ==> StagedFits(d, plan.entries[i], plan.phase)
       else
         forall n :: n in d.files && InDir(n, dir) ==> n.slot.PrivateWrite?
  }

  /** A file still staged is the one the journal speaks of. */
  predicate StagedFits(d: Disk, e: Entry, phase: Phase) {
    match phase
    case Staging => e.staged in d.files ==> d.files[e.staged].size == e.size && d.files[e.staged].links == 1
    case Deleting => StagedRecorded(d, e)
  }

  ghost predicate AllLeft(d: Disk) {
    && (forall n :: n in d.files && n.Staged? ==> n.dir in d.dirs)
    && forall dir :: dir in d.dirs ==> Left(d, dir)
  }

  /** What the journal of a directory lists. */
  ghost function Listed(d: Disk, dir: string): seq<Entry> {
    if Journal(dir) in d.files && d.files[Journal(dir)].body.JournalBody?
    then d.files[Journal(dir)].body.plan.entries
    else []
  }

  ghost predicate NamedOnce(names: set<Name>, entries: seq<Entry>) {
    forall i :: 0 <= i < |entries| ==> (entries[i].original in names <==> entries[i].staged !in names)
  }

  /** What recovering `dir` needs: few enough entries, and each file to be put back under one
      of its names. */
  ghost predicate Settles(names: set<Name>, d: Disk, dir: string) {
    |Listed(d, dir)| <= REMOVAL_RECOVERY_MAX_ENTRIES && NamedOnce(names, Restored(d, dir))
  }

  /** The names there are once a directory has been recovered. */
  ghost function NamesAfter(names: set<Name>, dir: string, restored: seq<Entry>): set<Name> {
    (set n | n in names && !InDir(n, dir)) + Originals(restored)
  }

  /** The names there are once the directories `order` lists have been recovered. */
  ghost function NamesAfterAll(d: Disk, order: seq<string>): set<Name> {
    if order == [] then d.files.Keys
    else NamesAfter(NamesAfterAll(d, order[..|order| - 1]), order[|order| - 1], Restored(d, order[|order| - 1]))
  }

  /** Each directory in turn finds what recovering it needs. */
  ghost predicate Completes(d: Disk, order: seq<string>) {
    order == [] || (Completes(d, order[..|order| - 1])
                    && Settles(NamesAfterAll(d, order[..|order| - 1]), d, order[|order| - 1]))
  }

  ghost predicate Lossless(order: seq<string>, dirs: set<string>) {
    && (forall dir :: dir in dirs <==> dir in order)
    && (forall i, j :: 0 <= i < j < |order| ==> order[i] != order[j])
  }

  // ----- one of them -----

  /** The listed file, under whichever name it has. */
  function FileOf(d: Disk, dir: string, e: Entry): File
    requires Journal(dir) in d.files
  {
    if e.original in d.files then d.files[e.original]
    else if e.staged in d.files then d.files[e.staged]
    else d.files[Journal(dir)]                          // already deleted
  }

  ghost function FilesOf(d: Disk, dir: string, entries: seq<Entry>): (files: map<Name, File>)
    requires NamesApart(entries) && (entries == [] || Journal(dir) in d.files)
    ensures files.Keys == Originals(entries)
    ensures forall i :: 0 <= i < |entries| ==> files[entries[i].original] == FileOf(d, dir, entries[i])
  {
    map i | 0 <= i < |entries| :: entries[i].original := FileOf(d, dir, entries[i])
  }

  /** What recovering the directory is about, read off the disk. */
  ghost function BeforeAt(d: Disk, dir: string): Before
    requires NamesApart(Listed(d, dir))
  {
    Seen(d, dir, FilesOf(d, dir, Listed(d, dir)))
  }

  /** A removal of the `owned` files, on a disk where anything else is as it is. */
  ghost function Seen(d: Disk, dir: string, owned: map<Name, File>): Before {
    Before(owned, map n | n in d.files && n !in owned.Keys && !InDir(n, dir) :: d.files[n], d.dirs - {dir})
  }

  /** The listed files that will be there once the directory is recovered. */
  ghost function KeptAt(d: Disk, dir: string): set<Name> {
    if Restored(d, dir) != [] then Originals(Restored(d, dir)) else Originals(Listed(d, dir)) * d.files.Keys
  }

  lemma ListedApart(d: Disk, dir: string)
    requires Left(d, dir)
    ensures NamesApart(Listed(d, dir)) && NamesApart(Restored(d, dir))
    ensures |Listed(d, dir)| <= REMOVAL_RECOVERY_MAX_ENTRIES <==> WithinLimit(d, dir)
    ensures Listed(d, dir) != [] ==> Journal(dir) in d.files
  {
    hide HasJournal, OnePrivate;
  }

  lemma SeenRest(d: Disk, dir: string, owned: map<Name, File>)
    requires forall n :: n in owned ==> !InDir(n, dir)
    ensures RestUntouched(d, dir, Seen(d, dir, owned))
  {
  }

  lemma OwnedAre(d: Disk, dir: string)
    requires NamesApart(Listed(d, dir))
    ensures var owned, entries := BeforeAt(d, dir).owned, Listed(d, dir);
            && owned.Keys == Originals(entries)
            && (forall n :: n in owned ==> !n.Staged?)
            && (entries != [] ==> Journal(dir) in d.files)
            && forall i :: 0 <= i < |entries| ==> owned[entries[i].original] == FileOf(d, dir, entries[i])
  {
    hide NamedOnce;
    var entries := Listed(d, dir);
    assert forall n :: n in Originals(entries) ==> !n.Staged?;
  }

  /** Unless a file to be put back is under both names or under neither, the directory can be
      recovered. */
  lemma LeftInterruptible(d: Disk, dir: string)
    requires Left(d, dir) && NamesApart(Listed(d, dir)) && NamedOnce(d.files.Keys, Restored(d, dir))
    ensures Interruptible(d, dir, BeforeAt(d, dir), KeptAt(d, dir))
  {
    hide RestUntouched, OnePrivate, BeforeAt, FileOf, HasJournal, StagingState, DeletingState;
    OwnedAre(d, dir);
    SeenAt(d, dir);
    if Journal(dir) in d.files {
      var plan := d.files[Journal(dir)].body.plan;
      if plan.phase.Staging? { LeftStaging(d, dir, plan); } else { LeftDeleting(d, dir, plan); }
    }
  }

  lemma LeftStaging(d: Disk, dir: string, plan: Plan)
    requires Left(d, dir) && Journal(dir) in d.files && d.files[Journal(dir)].body == JournalBody(plan)
    requires plan.phase.Staging? && NamesApart(plan.entries) && NamedOnce(d.files.Keys, plan.entries)
    ensures StagingState(d, dir, plan, BeforeAt(d, dir)) && KeptAt(d, dir) == BeforeAt(d, dir).owned.Keys
  {
    hide RestUntouched, OnePrivate, BeforeAt;
    OwnedAre(d, dir);
    SeenAt(d, dir);
    JournalGives(d, dir, plan);
  }

  lemma LeftDeleting(d: Disk, dir: string, plan: Plan)
    requires Left(d, dir) && Journal(dir) in d.files && d.files[Journal(dir)].body == JournalBody(plan)
    requires plan.phase.Deleting? && NamesApart(plan.entries)
    ensures DeletingState(d, dir, plan, BeforeAt(d, dir), KeptAt(d, dir))
  {
    hide RestUntouched, OnePrivate, BeforeAt;
    OwnedAre(d, dir);
    SeenAt(d, dir);
    JournalGives(d, dir, plan);
  }

  lemma JournalGives(d: Disk, dir: string, plan: Plan)
    requires HasJournal(d, dir, plan)
    ensures forall i :: 0 <= i < |plan.entries| ==> EntryValid(plan.entries[i], plan.phase, dir)
  {
  }

  lemma SeenAt(d: Disk, dir: string)
    requires NamesApart(Listed(d, dir))
    ensures RestUntouched(d, dir, BeforeAt(d, dir))
  {
    hide RestUntouched, Listed;
    OwnedAre(d, dir);
    SeenRest(d, dir, BeforeAt(d, dir).owned);
  }

  // ----- one call -----

  /** What a call that recovers `dir`, finished or not, may have done. */
  ghost predicate StepAt(d: Disk, d': Disk, dir: string) {
    && OutsideKept(d, d', dir) && OnlyBack(d, d', Restored(d, dir))
    && (d'.dirs == d.dirs || d'.dirs == d.dirs - {dir})
  }

  /** Inside the other directories nothing changed, and inside `dir` there is only less. */
  lemma StepInside(d: Disk, d': Disk, dir: string)
    requires StepAt(d, d', dir) && NamesApart(Restored(d, dir))
    ensures forall n: Name :: n.Staged? && n.dir != dir ==>
              (n in d'.files <==> n in d.files) && (n in d.files ==> d'.files[n] == d.files[n])
    ensures forall n :: n in d'.files && n.Staged? ==> n in d.files && d'.files[n] == d.files[n]
  {
    hide Restored;
  }

  lemma OthersLeft(d: Disk, d': Disk, dir: string, other: string)
    requires Left(d, other) && other != dir && other in d'.dirs
    requires forall n: Name :: n.Staged? && n.dir != dir ==>
               (n in d'.files <==> n in d.files) && (n in d.files ==> d'.files[n] == d.files[n])
    ensures Left(d', other) && Listed(d', other) == Listed(d, other) && Restored(d', other) == Restored(d, other)
  {
  }

  /** With its journal in place, a directory in which there is less now is still as it was left. */
  lemma PartLeft(d: Disk, d': Disk, dir: string)
    requires Left(d, dir) && dir in d'.dirs && Journal(dir) in d'.files
    requires forall n :: n in d'.files && InDir(n, dir) ==> n in d.files && d'.files[n] == d.files[n]
    ensures Left(d', dir)
  {
  }

  /** So is one that can be recovered. */
  lemma InterruptedLeft(d: Disk, dir: string, b: Before, kept: set<Name>)
    requires Interruptible(d, dir, b, kept) && dir in d.dirs
    requires forall n :: n in b.owned ==> !n.Staged?
    ensures Left(d, dir)
  {
    hide RestUntouched, Originals, EntryValid, OnePrivate;
    if Journal(dir) in d.files {
      var plan := d.files[Journal(dir)].body.plan;
      if plan.phase.Staging? {
        forall i | 0 <= i < |plan.entries|
          ensures StagedFits(d, plan.entries[i], plan.phase)
        {
          assert AtOriginal(d, plan.entries[i], b) || AtStaged(d, plan.entries[i], b);
        }
      }
      InterruptedPrivate(d, dir, plan);
    }
  }

  lemma InterruptedPrivate(d: Disk, dir: string, plan: Plan)
    requires HasJournal(d, dir, plan)
    ensures OnePrivate(d, dir) && dir in d.dirs
    ensures forall i :: 0 <= i < |plan.entries| ==> plan.entries[i].staged.Staged?
  {
  }

  /** A call ends either with the directory recoverable as it was, or with its journal there. */
  ghost predicate EndsIn(d: Disk, d': Disk, dir: string, b: Before, kept: set<Name>) {
    || (Interruptible(d', dir, b, kept) && forall n :: n in b.owned ==> !n.Staged?)
    || (Journal(dir) in d'.files && d'.dirs == d.dirs)
  }

  lemma StepLeft(d: Disk, d': Disk, dir: string, b: Before, kept: set<Name>)
    requires AllLeft(d) && dir in d.dirs && StepAt(d, d', dir) && EndsIn(d, d', dir, b, kept)
    ensures AllLeft(d')
  {
    hide Left, Interruptible, OnlyBack, OutsideKept, Restored, Finished, NamesApart;
    LeftApart(d, dir);
    StepInside(d, d', dir);
    forall x | x in d'.dirs
      ensures Left(d', x)
    {
      if x != dir {
        OthersLeft(d, d', dir, x);
      } else if Journal(dir) in d'.files {
        PartLeft(d, d', dir);
      } else {
        InterruptedLeft(d', dir, b, kept);
      }
    }
    if dir !in d'.dirs {
      NoDirectory(d', dir, b, kept);
      Emptied(d', dir, b, kept);
    }
  }

  lemma LeftApart(d: Disk, dir: string)
    requires AllLeft(d) && dir in d.dirs
    ensures Left(d, dir) && NamesApart(Listed(d, dir)) && NamesApart(Restored(d, dir))
  {
    hide Left;
    ListedApart(d, dir);
  }

  lemma Emptied(d: Disk, dir: string, b: Before, kept: set<Name>)
    requires Finished(d, dir, b, kept)
    ensures forall n :: n in d.files ==> !InDir(n, dir)
  {
  }

  lemma RecoveredNames(d: Disk, d': Disk, dir: string, b: Before, kept: set<Name>)
    requires Interruptible(d, dir, b, kept) && Finished(d', dir, b, kept)
    ensures d'.files.Keys == NamesAfter(d.files.Keys, dir, Restored(d, dir))
  {
    hide OnePrivate, HasJournal, StagedRecorded, AtStaged, AtOriginal;
    if Journal(dir) in d.files && d.files[Journal(dir)].body.plan.phase.Deleting? {
      DeletedNames(d, dir, b, kept);
    }
    forall n
      ensures n in d'.files.Keys <==> n in NamesAfter(d.files.Keys, dir, Restored(d, dir))
    {
    }
  }

  /** Once deleting has begun, what is kept is what is there. */
  lemma DeletedNames(d: Disk, dir: string, b: Before, kept: set<Name>)
    requires Interruptible(d, dir, b, kept)
    requires Journal(dir) in d.files && d.files[Journal(dir)].body.plan.phase.Deleting?
    ensures forall n :: n in b.owned ==> (n in kept <==> n in d.files)
  {
    hide OnePrivate, HasJournal, StagedRecorded, RestUntouched;
    var entries := d.files[Journal(dir)].body.plan.entries;
    forall n | n in b.owned
      ensures n in kept <==> n in d.files
    {
      assert n in Originals(entries);
      var i :| 0 <= i < |entries| && entries[i].original == n;
    }
  }

  /** A file to be put back that is under both its names, or under neither, blocks the directory. */
  lemma NotNamedOnce(d: Disk, dir: string) returns (k: nat)
    requires Left(d, dir) && !NamedOnce(d.files.Keys, Restored(d, dir))
    ensures Blocked(d, dir, k)
  {
    hide HasJournal, OnePrivate;
    var entries := Restored(d, dir);
    k :| 0 <= k < |entries| && !(entries[k].original in d.files.Keys <==> entries[k].staged !in d.files.Keys);
    assert !OneName(d, entries[k]);
  }

  // ----- one directory among others -----

  /** The removal of the `owned` files in `dir` can be recovered, as `kept` says. */
  ghost predicate Tracked(d: Disk, dir: string, owned: map<Name, File>, kept: set<Name>) {
    Interruptible(d, dir, Seen(d, dir, owned), kept) && forall n :: n in owned ==> !n.Staged?
  }

  /** No other directory has a file that recovering it would put under one of the names. */
  ghost predicate Apart(d: Disk, dir: string, names: set<Name>) {
    forall other, i :: other in d.dirs && other != dir && 0 <= i < |Restored(d, other)| ==>
      Restored(d, other)[i].original in names ==> Restored(d, other)[i].staged !in d.files
  }

  /** Each directory can be recovered, and none is in the way of another. */
  ghost predicate Independent(d: Disk) {
    forall dir :: dir in d.dirs ==> Settles(d.files.Keys, d, dir) && Apart(d, dir, Originals(Restored(d, dir)))
  }

  lemma NoneIndependent(d: Disk)
    requires d.dirs == {}
    ensures Independent(d)
  {
  }

  lemma InterruptibleTracked(d: Disk, dir: string, b: Before, kept: set<Name>)
    requires Interruptible(d, dir, b, kept) && forall n :: n in b.owned ==> !n.Staged?
    ensures Tracked(d, dir, b.owned, kept)
  {
    hide OnePrivate, HasJournal, Originals;
    RestSame(d, dir, b, kept);
  }

  lemma RestSame(d: Disk, dir: string, b: Before, kept: set<Name>)
    requires Interruptible(d, dir, b, kept)
    ensures RestUntouched(d, dir, b) && Seen(d, dir, b.owned) == b
  {
    hide OnePrivate, HasJournal, Originals;
  }

  lemma StepRestored(d: Disk, d': Disk, dir: string, other: string)
    requires StepAt(d, d', dir) && NamesApart(Restored(d, dir))
    ensures other != dir ==> Restored(d', other) == Restored(d, other) && Listed(d', other) == Listed(d, other)
    ensures Restored(d', other) == Restored(d, other) || Restored(d', other) == []
    ensures Listed(d', other) == Listed(d, other) || Listed(d', other) == []
  {
    hide OnlyBack, NamesApart, OutsideKept;
    StepInside(d, d', dir);
  }

  lemma ApartKept(d: Disk, d': Disk, next: string, dir: string, names: set<Name>)
    requires AllLeft(d) && next in d.dirs && StepAt(d, d', next) && Apart(d, dir, names)
    ensures Apart(d', dir, names)
  {
    hide Left, OnlyBack, OutsideKept, Restored, NamesApart;
    LeftApart(d, next);
    StepInside(d, d', next);
    forall other, i | other in d'.dirs && other != dir && 0 <= i < |Restored(d', other)|
                      && Restored(d', other)[i].original in names
      ensures Restored(d', other)[i].staged !in d'.files
    {
      StepRestored(d, d', next, other);
      LeftApart(d, other);
      RestoredStaged(d, other, i);
    }
  }

  lemma RestoredStaged(d: Disk, dir: string, i: nat)
    requires NamesApart(Restored(d, dir)) && i < |Restored(d, dir)|
    ensures Restored(d, dir)[i].staged.Staged? && !Restored(d, dir)[i].original.Staged?
  {
    hide Restored;
  }

  /** Recovering one directory touches none of the files of another that is apart from it. */
  lemma OwnedSame(d: Disk, d': Disk, next: string, dir: string, names: set<Name>)
    requires next in d.dirs && next != dir && StepAt(d, d', next) && Apart(d, dir, names)
    requires forall n :: n in names ==> !n.Staged?
    ensures forall n :: n in names ==> (n in d'.files <==> n in d.files) && (n in d.files ==> d'.files[n] == d.files[n])
  {
    hide Restored;
  }

  lemma TrackedKept(d: Disk, d': Disk, next: string, dir: string, owned: map<Name, File>, kept: set<Name>)
    requires next in d.dirs && next != dir && StepAt(d, d', next) && NamesApart(Restored(d, next))
    requires Tracked(d, dir, owned, kept) && Apart(d, dir, owned.Keys)
    ensures Tracked(d', dir, owned, kept)
  {
    hide Interruptible, Restored, OnlyBack, OutsideKept, NamesApart;
    StepInside(d, d', next);
    OwnedSame(d, d', next, dir, owned.Keys);
    TrackedFrame(d, d', dir, owned, kept);
  }

  lemma TrackedFrame(d: Disk, d': Disk, dir: string, owned: map<Name, File>, kept: set<Name>)
    requires Tracked(d, dir, owned, kept) && (dir in d'.dirs <==> dir in d.dirs)
    requires forall n: Name :: n in owned || InDir(n, dir) ==>
               (n in d'.files <==> n in d.files) && (n in d.files ==> d'.files[n] == d.files[n])
    ensures Tracked(d', dir, owned, kept)
  {
    hide RestUntouched, EntryValid, Originals, Same;
    SeenRest(d', dir, owned);
  }

  /** A directory that can be recovered finds each file to be put back under one name. */
  lemma InterruptedNamed(d: Disk, dir: string, b: Before, kept: set<Name>)
    requires Interruptible(d, dir, b, kept)
    ensures NamedOnce(d.files.Keys, Restored(d, dir))
  {
    hide RestUntouched, HasJournal, Originals;
    var entries := Restored(d, dir);
    forall i | 0 <= i < |entries|
      ensures entries[i].original in d.files <==> entries[i].staged !in d.files
    {
      assert AtOriginal(d, entries[i], b) || AtStaged(d, entries[i], b);
    }
  }

  lemma OtherNamed(d: Disk, d': Disk, next: string, dir: string)
    requires AllLeft(d) && next in d.dirs && dir in d.dirs && next != dir && StepAt(d, d', next)
    requires NamedOnce(d.files.Keys, Restored(d, dir)) && Apart(d, dir, Originals(Restored(d, dir)))
    ensures NamedOnce(d'.files.Keys, Restored(d, dir))
  {
    hide Left, Restored, OnlyBack, OutsideKept, NamesApart, Apart;
    LeftApart(d, next);
    LeftApart(d, dir);
    StepInside(d, d', next);
    var entries := Restored(d, dir);
    RestoredIn(d, dir);
    OwnedSame(d, d', next, dir, Originals(entries));
    forall i | 0 <= i < |entries|
      ensures entries[i].original in d'.files <==> entries[i].staged !in d'.files
    {
      assert entries[i].original in Originals(entries);
      assert entries[i].original in d.files.Keys <==> entries[i].staged !in d.files.Keys;
    }
  }

  lemma RestoredIn(d: Disk, dir: string)
    requires Left(d, dir)
    ensures forall i :: 0 <= i < |Restored(d, dir)| ==> InDir(Restored(d, dir)[i].staged, dir)
    ensures forall n :: n in Originals(Restored(d, dir)) ==> !n.Staged?
  {
    hide OnePrivate;
  }

  lemma IndependentKept(d: Disk, d': Disk, next: string, b: Before, kept: set<Name>)
    requires AllLeft(d) && next in d.dirs && StepAt(d, d', next) && Independent(d)
    requires Interruptible(d', next, b, kept)
    ensures Independent(d')
  {
    hide Left, Restored, Listed, OnlyBack, OutsideKept, NamesApart, Apart, Interruptible, NamedOnce;
    LeftApart(d, next);
    InterruptedNamed(d', next, b, kept);
    forall x | x in d'.dirs
      ensures Settles(d'.files.Keys, d', x) && Apart(d', x, Originals(Restored(d', x)))
    {
      StepRestored(d, d', next, x);
      if x != next { OtherNamed(d, d', next, x); }
      ApartFewer(d, x, Originals(Restored(d, x)), Originals(Restored(d', x)));
      ApartKept(d, d', next, x, Originals(Restored(d', x)));
    }
  }

  lemma ApartFewer(d: Disk, dir: string, names: set<Name>, fewer: set<Name>)
    requires Apart(d, dir, names) && (fewer <= names || fewer == {})
    ensures Apart(d, dir, fewer)
  {
  }

  // ----- one call, as the loop over the directories sees it -----

  ghost predicate Advances(d: Disk, d': Disk, next: string, r: Recovery, faulted: bool) {
    && AllLeft(d') && StepAt(d, d', next)
    && (r.Recovered? ==>
          && Settles(d.files.Keys, d, next)
          && d'.files.Keys == NamesAfter(d.files.Keys, next, Restored(d, next)))
    && (r.Refused? ==> faulted || !Settles(d.files.Keys, d, next))
    && (Independent(d) ==> Independent(d'))
  }

  lemma TrackedIs(d: Disk, dir: string, owned: map<Name, File>, kept: set<Name>)
    requires Tracked(d, dir, owned, kept)
    ensures Interruptible(d, dir, Seen(d, dir, owned), kept) && Seen(d, dir, owned).owned == owned
    ensures forall n :: n in owned ==> !n.Staged?
  {
    hide Interruptible;
  }

  lemma LimitHeld(d: Disk, dir: string)
    requires Journal(dir) in d.files && d.files[Journal(dir)].body.JournalBody? ==>
               PlanValid(d.files[Journal(dir)].body.plan, dir)
    ensures |Listed(d, dir)| <= REMOVAL_RECOVERY_MAX_ENTRIES
  {
  }

  lemma Advanced(d: Disk, d': Disk, next: string, b: Before, kept: set<Name>, r: Recovery, faulted: bool)
    requires AllLeft(d) && next in d.dirs && StepAt(d, d', next)
    requires NamedOnce(d.files.Keys, Restored(d, next)) && forall n :: n in b.owned ==> !n.Staged?
    requires Interruptible(d, next, b, kept) && Interruptible(d', next, b, kept)
    requires r.Recovered? ==> Finished(d', next, b, kept) && |Listed(d, next)| <= REMOVAL_RECOVERY_MAX_ENTRIES
    requires r.Refused? ==> faulted || !WithinLimit(d, next)
    ensures Advances(d, d', next, r, faulted)
  {
    hide Interruptible, Finished, Left, Restored, StepAt, NamedOnce, Apart, Listed, NamesAfter, AllLeft, WithinLimit;
    LeftApart(d, next);
    ListedApart(d, next);
    StepLeft(d, d', next, b, kept);
    if Independent(d) { IndependentKept(d, d', next, b, kept); }
    if r.Recovered? { RecoveredNames(d, d', next, b, kept); }
  }

  lemma BlockedAdvanced(d: Disk, d': Disk, next: string, k: nat, b: Before, kept: set<Name>, r: Recovery, faulted: bool)
    requires AllLeft(d) && next in d.dirs && StepAt(d, d', next) && !NamedOnce(d.files.Keys, Restored(d, next))
    requires Blocked(d', next, k) && d'.dirs == d.dirs && !r.Recovered?
    ensures Advances(d, d', next, r, faulted)
  {
    hide Left, Restored, StepAt, NamedOnce, Apart, Listed, NamesAfter, AllLeft, OneName;
    StepLeft(d, d', next, b, kept);
  }

  method RecoverNext(store: Storage, next: string, ghost dir: string, ghost owned: map<Name, File>,
      ghost kept: set<Name>)
    returns (r: Recovery)
    requires next in store.disk.dirs
    modifies store`disk, store`faults, store`crashes
    ensures store.crashes == old(store.crashes) + Tick(r.Halted?)
    ensures store.faults >= old(store.faults)
    ensures r.Recovered? ==> store.disk.dirs == old(store.disk).dirs - {next}
    ensures AllLeft(old(store.disk)) ==>
              && Advances(old(store.disk), store.disk, next, r, store.faults > old(store.faults))
              && (Tracked(old(store.disk), dir, owned, kept) && Apart(old(store.disk), dir, owned.Keys) ==>
                    Tracked(store.disk, dir, owned, kept) && Apart(store.disk, dir, owned.Keys))
    ensures forall k :: Blocked(old(store.disk), next, k) ==>
              !r.Recovered? && Blocked(store.disk, next, k) && store.disk.dirs == old(store.disk).dirs
  {
    hide Interruptible, Finished, WithinLimit, AllLeft, Blocked, NamedOnce, NamesApart, BeforeAt, Left, KeptAt,
        Tracked, Apart, Restored, Listed, Independent, OutsideKept, OnlyBack, Seen;
    ghost var d := store.disk;
    ghost var b', kept' := Before(map[], map[], {}), {};
    ghost var left, focus := AllLeft(d), next == dir && Tracked(d, dir, owned, kept);
    ghost var named := NamedOnce(d.files.Keys, Restored(d, next));
    if left { LeftApart(d, next); }
    if focus {
      TrackedIs(d, dir, owned, kept);
      b', kept' := Seen(d, dir, owned), kept;
      InterruptedNamed(d, next, b', kept');
    } else if left && named {
      LeftInterruptible(d, next);
      OwnedAre(d, next);
      b', kept' := BeforeAt(d, next), KeptAt(d, next);
    }
    r := RecoverStagedRemoval(store, next, b', kept');
    if left {
      if named {
        if r.Recovered? { LimitHeld(d, next); }
        Advanced(d, store.disk, next, b', kept', r, store.faults > old(store.faults));
        if focus { InterruptibleTracked(store.disk, next, b', kept'); }
      } else {
        var k := NotNamedOnce(d, next);
        BlockedAdvanced(d, store.disk, next, k, b', kept', r, store.faults > old(store.faults));
      }
      if Tracked(d, dir, owned, kept) && Apart(d, dir, owned.Keys) {
        ApartKept(d, store.disk, next, dir, owned.Keys);
        if !focus { TrackedKept(d, store.disk, next, dir, owned, kept); }
      }
    }
  }

  // ----- all of them -----

  /** After `order`, the directories in `found` are still as they were left. */
  ghost predicate Going(d0: Disk, d: Disk, order: seq<string>, found: set<string>) {
    && AllLeft(d) && d.dirs == found && found <= d0.dirs
    && Lossless(order, d0.dirs - found)
    && (forall dir :: dir in found ==> Listed(d, dir) == Listed(d0, dir) && Restored(d, dir) == Restored(d0, dir))
    && Completes(d0, order) && NamesAfterAll(d0, order) == d.files.Keys
  }

  lemma GoingStart(d: Disk)
    requires AllLeft(d)
    ensures Going(d, d, [], d.dirs)
  {
    hide Left;
  }

  lemma OrderMore(d0: Disk, d: Disk, order: seq<string>, found: set<string>, next: string)
    requires Going(d0, d, order, found) && next in found
    ensures Completes(d0, order + [next]) <==> Settles(d.files.Keys, d, next)
    ensures NamesAfterAll(d0, order + [next]) == NamesAfter(d.files.Keys, next, Restored(d, next))
    ensures Lossless(order + [next], d0.dirs - (found - {next}))
  {
    hide AllLeft, NamedOnce, NamesAfter, Listed, Restored;
    assert (order + [next])[..|order|] == order;
    assert d0.dirs - (found - {next}) == d0.dirs - found + {next};
  }

  lemma GoingOn(d0: Disk, d: Disk, d': Disk, order: seq<string>, found: set<string>, next: string)
    requires Going(d0, d, order, found) && next in found
    requires Advances(d, d', next, Recovered, false) && d'.dirs == d.dirs - {next}
    ensures Going(d0, d', order + [next], found - {next})
  {
    hide NamedOnce, NamesAfter, AllLeft, Completes, NamesAfterAll, OutsideKept, OnlyBack, Listed, Restored, NamesApart,
        Settles;
    OrderMore(d0, d, order, found, next);
    LeftApart(d, next);
    forall other | other in found - {next}
      ensures Listed(d', other) == Listed(d0, other) && Restored(d', other) == Restored(d0, other)
    {
      StepRestored(d, d', next, other);
    }
  }

  /** What there is outside the staging directories was there, or is a file put back. */
  ghost predicate Since(d0: Disk, d: Disk) {
    && d.dirs <= d0.dirs
    && (forall n :: n in d.files && n.Staged? ==> n in d0.files && d.files[n] == d0.files[n])
    && (forall dir :: dir in d.dirs ==> Restored(d, dir) == Restored(d0, dir) || Restored(d, dir) == [])
    && (forall n :: n in d0.files && !n.Staged? ==> n in d.files && d.files[n] == d0.files[n])
    && (forall n :: n in d.files && !n.Staged? && n !in d0.files ==> ToBePutBack(d0, n))
  }

  ghost predicate ToBePutBack(d: Disk, n: Name) {
    exists dir, i :: dir in d.dirs && 0 <= i < |Restored(d, dir)|
      && Restored(d, dir)[i].original == n && Restored(d, dir)[i].staged in d.files
  }

  lemma SinceStep(d0: Disk, d: Disk, d': Disk, next: string)
    requires Since(d0, d) && AllLeft(d) && next in d.dirs && StepAt(d, d', next)
    ensures Since(d0, d')
  {
    hide AllLeft, Restored, Left, NamesApart;
    LeftApart(d, next);
    StepInside(d, d', next);
    forall dir | dir in d'.dirs
      ensures Restored(d', dir) == Restored(d0, dir) || Restored(d', dir) == []
    {
      StepRestored(d, d', next, dir);
    }
    forall n | n in d'.files && !n.Staged? && n !in d0.files
      ensures ToBePutBack(d0, n)
    {
      if n !in d.files {
        var i :| 0 <= i < |Restored(d, next)| && Restored(d, next)[i].original == n
                 && Restored(d, next)[i].staged in d.files;
        RestoredStaged(d, next, i);
      }
    }
  }

  lemma SinceMore(d0: Disk, d: Disk, d': Disk)
    requires Since(d0, d) && AllLeft(d) && Since(d, d')
    ensures Since(d0, d')
  {
    hide AllLeft, Restored, Left;
    forall n | n in d'.files && !n.Staged? && n !in d0.files
      ensures ToBePutBack(d0, n)
    {
      if n !in d.files {
        var dir, i :| dir in d.dirs && 0 <= i < |Restored(d, dir)|
                      && Restored(d, dir)[i].original == n && Restored(d, dir)[i].staged in d.files;
        LeftApart(d, dir);
        RestoredStaged(d, dir, i);
      }
    }
  }

  /** Distinct directories that were found. */
  ghost predicate Listing(order: seq<string>, dirs: set<string>) {
    (forall dir :: dir in order ==> dir in dirs) && forall i, j :: 0 <= i < j < |order| ==> order[i] != order[j]
  }

  /** One start of the application: it recovers every staging directory it finds, one after
      the other, as `order` lists them. It completes, errors and crashes apart, if and only if
      each of them in its turn finds what recovering it needs. */
  method RecoverStagedRemovals(store: Storage, ghost dir: string, ghost owned: map<Name, File>, ghost kept: set<Name>)
    returns (r: Recovery, ghost order: seq<string>)
    modifies store`disk, store`faults, store`crashes
    ensures store.crashes == old(store.crashes) + Tick(r.Halted?)
    ensures store.faults >= old(store.faults) && Listing(order, old(store.disk).dirs)
    ensures AllLeft(old(store.disk)) ==>
              && AllLeft(store.disk) && Since(old(store.disk), store.disk)
              && (r.Recovered? ==> Going(old(store.disk), store.disk, order, {}))
              && (r.Refused? ==>
                    || store.faults > old(store.faults) || |old(store.disk).dirs| > REMOVAL_RECOVERY_MAX_ENTRIES
                    || !Completes(old(store.disk), order))
    ensures AllLeft(old(store.disk)) && Independent(old(store.disk)) ==>
              && Independent(store.disk)
              && (r.Refused? ==>
                    store.faults > old(store.faults) || |old(store.disk).dirs| > REMOVAL_RECOVERY_MAX_ENTRIES)
    ensures AllLeft(old(store.disk)) && Tracked(old(store.disk), dir, owned, kept)
            && Apart(old(store.disk), dir, owned.Keys) ==>
              Tracked(store.disk, dir, owned, kept) && Apart(store.disk, dir, owned.Keys)
    ensures forall x, k :: old(store.disk).dirs == {x} && Blocked(old(store.disk), x, k) ==>
              !r.Recovered? && Blocked(store.disk, x, k) && store.disk.dirs == {x}
  {
    hide AllLeft, Going, Completes, Blocked, Tracked, Apart, Independent, Since, StepAt, Settles;
    ghost var d0 := store.disk;
    ghost var left := AllLeft(d0);
    ghost var focus := Tracked(d0, dir, owned, kept) && Apart(d0, dir, owned.Keys);
    order := [];
    if left { GoingStart(d0); SinceStart(d0); }
    var step := store.Read();
    if !step.Done? { return (if step.Crashed? then Halted else Refused), order; }
    var found := store.disk.dirs;
    if |found| > REMOVAL_RECOVERY_MAX_ENTRIES { return Refused, order; }
    r := Recovered;
    while found != {}
      invariant r.Recovered? && found == store.disk.dirs && found <= d0.dirs && Listing(order, d0.dirs - found)
      invariant store.faults >= old(store.faults) && store.crashes == old(store.crashes)
      invariant left ==> AllLeft(store.disk) && Going(d0, store.disk, order, found) && Since(d0, store.disk)
      invariant left && Independent(d0) ==> Independent(store.disk)
      invariant left && focus ==> Tracked(store.disk, dir, owned, kept) && Apart(store.disk, dir, owned.Keys)
      invariant forall x, k :: d0.dirs == {x} && Blocked(d0, x, k) ==> found == {x} && store.disk == d0
      decreases found
    {
      var next :| next in found;
      ghost var d := store.disk;
      r := RecoverNext(store, next, dir, owned, kept);
      if left {
        OneMore(d0, d, store.disk, order, found, next, r, store.faults > old(store.faults));
        if Independent(d) { SettlesHere(d, next); }
      }
      order := order + [next];
      if !r.Recovered? { return; }
      found := found - {next};
    }
  }

  lemma SinceStart(d: Disk)
    ensures Since(d, d)
  {
  }

  lemma SettlesHere(d: Disk, next: string)
    requires Independent(d) && next in d.dirs
    ensures Settles(d.files.Keys, d, next)
  {
    hide Settles, Apart;
  }

  lemma OneMore(d0: Disk, d: Disk, d': Disk, order: seq<string>, found: set<string>, next: string, r: Recovery,
      faulted: bool)
    requires Going(d0, d, order, found) && Since(d0, d) && next in found && Advances(d, d', next, r, faulted)
    requires r.Recovered? ==> d'.dirs == d.dirs - {next}
    ensures AllLeft(d') && Since(d0, d')
    ensures r.Recovered? ==> Going(d0, d', order + [next], found - {next})
    ensures r.Refused? ==> faulted || !Completes(d0, order + [next])
  {
    hide AllLeft, Completes, Since, StepAt, Settles, NamesAfter, NamesAfterAll, Listed, Restored, Lossless, Independent;
    OrderMore(d0, d, order, found, next);
    SinceStep(d0, d, d', next);
    if r.Recovered? { GoingOn(d0, d, d', order, found, next); }
  }

  /** However often the process dies on the way, each start picks up where the last stopped.
      Where the directories are independent, each start that does not finish met an error or a
      crash. Where a directory is blocked, none ever finishes. */
  method RecoverAcrossStarts(store: Storage, starts: nat, ghost dir: string, ghost owned: map<Name, File>,
      ghost kept: set<Name>)
    returns (r: Recovery)
    modifies store`disk, store`faults, store`crashes
    ensures store.faults >= old(store.faults) && store.crashes >= old(store.crashes)
    ensures AllLeft(old(store.disk)) ==>
              AllLeft(store.disk) && Since(old(store.disk), store.disk) && (r.Recovered? ==> store.disk.dirs == {})
    ensures AllLeft(old(store.disk)) && Independent(old(store.disk)) ==>
              && Independent(store.disk)
              && (r.Recovered? || store.faults + store.crashes >= old(store.faults + store.crashes) + starts
                  || |old(store.disk).dirs| > REMOVAL_RECOVERY_MAX_ENTRIES)
    ensures AllLeft(old(store.disk)) && Tracked(old(store.disk), dir, owned, kept)
            && Apart(old(store.disk), dir, owned.Keys) ==>
              && Tracked(store.disk, dir, owned, kept)
              && (r.Recovered? ==> Finished(store.disk, dir, Seen(store.disk, dir, owned), kept))
    ensures forall x, k :: old(store.disk).dirs == {x} && Blocked(old(store.disk), x, k) ==>
              !r.Recovered? && Blocked(store.disk, x, k) && store.disk.dirs == {x}
  {
    hide AllLeft, Since, Independent, Tracked, Apart, Blocked, Going, Completes, Finished, Seen;
    ghost var d0 := store.disk;
    ghost var left := AllLeft(d0);
    ghost var focus := left && Tracked(d0, dir, owned, kept) && Apart(d0, dir, owned.Keys);
    SinceStart(d0);
    r := Halted;
    for i := 0 to starts
      invariant store.faults >= old(store.faults) && store.crashes >= old(store.crashes) && !r.Recovered?
      invariant left ==> AllLeft(store.disk) && Since(d0, store.disk)
      invariant left && Independent(d0) ==> Independent(store.disk)
      invariant left && Independent(d0) && |d0.dirs| <= REMOVAL_RECOVERY_MAX_ENTRIES ==>
                  store.faults + store.crashes >= old(store.faults + store.crashes) + i
      invariant focus ==> Tracked(store.disk, dir, owned, kept) && Apart(store.disk, dir, owned.Keys)
      invariant forall x, k ::
          d0.dirs == {x} && Blocked(d0, x, k) ==> Blocked(store.disk, x, k) && store.disk.dirs == {x}
    {
      ghost var d := store.disk;
      ghost var order;
      r, order := RecoverStagedRemovals(store, dir, owned, kept);
      if left {
        SinceMore(d0, d, store.disk);
        FewerDirs(d0, d);
      }
      if r.Recovered? {
        if left { NoneFound(d, store.disk, order); }
        if focus { TrackedFinished(store.disk, dir, owned, kept); }
        return;
      }
    }
  }

  lemma FewerDirs(d0: Disk, d: Disk)
    requires Since(d0, d)
    ensures |d.dirs| <= |d0.dirs|
  {
    FewerOf(d.dirs, d0.dirs);
  }

  lemma {:induction false} FewerOf(few: set<string>, more: set<string>)
    requires few <= more
    ensures |few| <= |more|
  {
    if x :| x in few { FewerOf(few - {x}, more - {x}); }
  }

  lemma NoneFound(d: Disk, d': Disk, order: seq<string>)
    requires Going(d, d', order, {})
    ensures d'.dirs == {}
  {
    hide AllLeft, Completes;
  }

  lemma TrackedFinished(d: Disk, dir: string, owned: map<Name, File>, kept: set<Name>)
    requires Tracked(d, dir, owned, kept) && dir !in d.dirs
    ensures Finished(d, dir, Seen(d, dir, owned), kept)
  {
    hide Interruptible, Finished, Seen;
    NoDirectory(d, dir, Seen(d, dir, owned), kept);
  }

  /** A removal that stopped while it was staging, and whatever happened outside its directory
      since: a start recovers it if and only if every file its journal lists is under exactly
      one of its two names. */
  lemma StopRecoversIff(d: Disk, d': Disk, dir: string, plan: Plan, b: Before)
    requires StagingState(d, dir, plan, b)
    requires forall n :: n in b.owned ==> !n.Staged?
    requires dir in d'.dirs
    requires forall n: Name ::
        InDir(n, dir) ==> (n in d'.files <==> n in d.files) && (n in d.files ==> d'.files[n] == d.files[n])
    ensures Left(d', dir)
    ensures Completes(d', [dir]) <==>
              && |plan.entries| <= REMOVAL_RECOVERY_MAX_ENTRIES
              && forall i :: 0 <= i < |plan.entries| ==> OneName(d', plan.entries[i])
    ensures forall k :: 0 <= k < |plan.entries| && !OneName(d', plan.entries[k]) ==> Blocked(d', dir, k)
  {
    hide RestUntouched, Originals;
    assert [dir][..0] == [];
    assert NamesAfterAll(d', []) == d'.files.Keys && Completes(d', []);
    StopLeft(d, d', dir, plan, b);
  }

  lemma StopLeft(d: Disk, d': Disk, dir: string, plan: Plan, b: Before)
    requires StagingState(d, dir, plan, b)
    requires forall n :: n in b.owned ==> !n.Staged?
    requires dir in d'.dirs
    requires forall n: Name ::
        InDir(n, dir) ==> (n in d'.files <==> n in d.files) && (n in d.files ==> d'.files[n] == d.files[n])
    ensures Left(d', dir) && Listed(d', dir) == Restored(d', dir) == plan.entries && NamesApart(plan.entries)
    ensures Journal(dir) in d'.files && d'.files[Journal(dir)].body == JournalBody(plan) && plan.phase.Staging?
  {
    hide RestUntouched, Originals;
    InterruptedLeft(d, dir, b, b.owned.Keys);
    PartLeft(d, d', dir);
    ListedApart(d', dir);
  }

  /** A removal cut off at its Deleting journal, whatever happened outside its directory since
      and whatever directories there are beside it: nothing outside can keep a start from
      recovering it. */
  lemma DeletingSettles(d: Disk, d': Disk, dir: string, plan: Plan, b: Before, kept: set<Name>, names: set<Name>)
    requires DeletingState(d, dir, plan, b, kept)
    requires forall n :: n in b.owned ==> !n.Staged?
    requires dir in d'.dirs
    requires forall n: Name ::
        InDir(n, dir) ==> (n in d'.files <==> n in d.files) && (n in d.files ==> d'.files[n] == d.files[n])
    ensures Left(d', dir)
    ensures Settles(names, d', dir) <==> |plan.entries| <= REMOVAL_RECOVERY_MAX_ENTRIES
  {
    hide RestUntouched, Originals;
    InterruptedLeft(d, dir, b, kept);
    PartLeft(d, d', dir);
  }

  // ----- which disks a start completes on in any order -----

  /** Staged names go with their directory, the others come with it. */
  lemma {:induction false} NamesAre(d: Disk, order: seq<string>)
    requires AllLeft(d) && Listing(order, d.dirs)
    ensures forall n: Name :: n.Staged? ==> (n in NamesAfterAll(d, order) <==> n in d.files && n.dir !in order)
    ensures forall n: Name :: !n.Staged? ==>
              (n in NamesAfterAll(d, order) <==>
               n in d.files || exists k :: 0 <= k < |order| && n in Originals(Restored(d, order[k])))
  {
    hide Left, Restored, Originals;
    if order != [] {
      var init, last := order[..|order| - 1], order[|order| - 1];
      NamesAre(d, init);
      LeftApart(d, last);
      RestoredIn(d, last);
      assert order == init + [last];
    }
  }

  lemma {:induction false} AnyOrder(d: Disk, order: seq<string>)
    requires AllLeft(d) && Independent(d) && Listing(order, d.dirs)
    ensures Completes(d, order)
  {
    hide AllLeft, Listed, Restored, Apart, NamedOnce;
    if order != [] {
      var init, last := order[..|order| - 1], order[|order| - 1];
      AnyOrder(d, init);
      NamedAfter(d, init, last);
    }
  }

  lemma NamedAfter(d: Disk, order: seq<string>, dir: string)
    requires AllLeft(d) && Independent(d) && Listing(order, d.dirs) && dir in d.dirs && dir !in order
    ensures NamedOnce(NamesAfterAll(d, order), Restored(d, dir))
  {
    hide AllLeft, Left, Listed, Restored, NamesAfterAll;
    NamesAre(d, order);
    LeftApart(d, dir);
    LeftHere(d, dir);
    RestoredIn(d, dir);
    var entries, names := Restored(d, dir), NamesAfterAll(d, order);
    forall i | 0 <= i < |entries|
      ensures entries[i].original in names <==> entries[i].staged !in names
    {
      assert entries[i].original in Originals(entries);
      if entries[i].original in names && entries[i].original !in d.files {
        assert false;
      }
    }
  }

  lemma LeftHere(d: Disk, dir: string)
    requires AllLeft(d) && dir in d.dirs
    ensures Left(d, dir)
  {
    hide Left;
  }

  /** Where two directories would put a file under the same name, the second one does not settle. */
  lemma InTheWay(d: Disk, dir: string, other: string, i: nat, j: nat)
    requires AllLeft(d) && dir in d.dirs && other in d.dirs && dir != other
    requires i < |Restored(d, dir)| && j < |Restored(d, other)|
    requires Restored(d, other)[j].original == Restored(d, dir)[i].original
    requires Settles(d.files.Keys, d, dir) && Settles(d.files.Keys, d, other) && Restored(d, other)[j].staged in d.files
    ensures !Completes(d, [other, dir])
  {
    hide AllLeft, Left, Listed, Restored;
    var order := [other, dir];
    assert order[..1] == [other] && [other][..0] == [];
    LeftApart(d, dir);
    LeftHere(d, dir);
    RestoredIn(d, dir);
    NamesAre(d, [other]);
    var n, names := Restored(d, dir)[i].original, NamesAfterAll(d, [other]);
    assert n in Originals(Restored(d, [other][0]));
    assert Restored(d, other)[j].original !in d.files.Keys;
    assert n in names && Restored(d, dir)[i].staged in names;
  }

  /** Directories are independent exactly when a start completes in whatever order it finds them. */
  lemma IndependentIff(d: Disk)
    requires AllLeft(d)
    ensures Independent(d) <==> forall order :: Listing(order, d.dirs) ==> Completes(d, order)
  {
    hide AllLeft, Listed, Restored, NamedOnce, Completes, Settles;
    if Independent(d) {
      forall order | Listing(order, d.dirs)
        ensures Completes(d, order)
      {
        AnyOrder(d, order);
      }
    } else if forall order :: Listing(order, d.dirs) ==> Completes(d, order) {
      forall dir | dir in d.dirs
        ensures Settles(d.files.Keys, d, dir)
      {
        assert Listing([dir], d.dirs);
        FirstSettles(d, dir);
      }
      forall dir, other, j | dir in d.dirs && other in d.dirs && other != dir && 0 <= j < |Restored(d, other)|
                             && Restored(d, other)[j].original in Originals(Restored(d, dir))
        ensures Restored(d, other)[j].staged !in d.files
      {
        if Restored(d, other)[j].staged in d.files {
          var i :| 0 <= i < |Restored(d, dir)| && Restored(d, dir)[i].original == Restored(d, other)[j].original;
          assert Listing([other, dir], d.dirs);
          InTheWay(d, dir, other, i, j);
          assert false;
        }
      }
      assert false;
    }
  }

  lemma FirstSettles(d: Disk, dir: string)
    requires Completes(d, [dir])
    ensures Settles(d.files.Keys, d, dir)
  {
    hide Settles;
    assert [dir][..0] == [];
  }
}
