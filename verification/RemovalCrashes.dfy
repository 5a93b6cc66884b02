/** Whole runs: a removal interrupted anywhere, then recoveries interrupted anywhere. */
module RemovalCrashes {
  import opened Options
  import opened Steps
  import opened Numerals
  import opened AssetDisk
  import opened AssetOperations
  import opened RemovalRecovery
  import opened RemovalJournal
  import opened AssetRemoval
  import opened RemovalStarts

  /** The exact condition: the journal a removal writes is one recovery accepts just when no
      more than 64 files are owned. The code writes and uses it either way. */
  lemma JournalAcceptedIff(marker: Marker, repository: string, d: Disk, dir: string, plan: Plan)
    requires Planned(marker, repository, d, dir, plan)
    ensures PlanValid(plan, dir) <==> |BeforeOf(marker, d).owned| <= REMOVAL_RECOVERY_MAX_ENTRIES
  {
    hide AuthorizesRemoval, WellFormed, PlanEntries, OwnedNames, EntryValid, Originals, BeforeOf;
    PlanCovers(marker, repository, d, dir);
    CountEntries(plan.entries);
    var b := BeforeOf(marker, d);
    assert |b.owned| == |b.owned.Keys|;
  }

  /** A marker that lists `n` files. */
  function ListingOf(n: nat): Marker {
    Marker(1, OWNER, "r", seq(40, i => '0'),
           seq(n, i requires 0 <= i < n => OwnedFile(["target", Decimal(i)], 1, ZERO_DIGEST)))
  }

  lemma {:induction false} AllPresent(files: seq<OwnedFile>, present: set<Name>, dir: string, n: nat)
    requires n <= |files| && forall i :: 0 <= i < n ==> Asset(files[i].path) in present
    ensures |PresentEntries(files, present, dir, n)| == n
  {
    if n > 0 { AllPresent(files, present, dir, n - 1); }
  }

  lemma {:induction false} ListingAuthorized(n: nat)
    requires n > 0
    ensures AuthorizesRemoval(ListingOf(n), "r")
  {
    var m := ListingOf(n);
    forall i | 0 <= i < n
      ensures NormalComponent(m.files[i].path[0]) && NormalComponent(m.files[i].path[1])
      ensures |m.files[i].path| == 2 && ValidDigest(m.files[i].digest)
    {
      DecimalRoundTrip(i);
    }
    forall i, j | 0 <= i < j < n
      ensures m.files[i].path != m.files[j].path
    {
      DecimalRoundTrip(i);
      DecimalRoundTrip(j);
      assert m.files[i].path[1] == Decimal(i) && m.files[j].path[1] == Decimal(j);
    }
  }

  lemma ListingChecked(n: nat) returns (d: Disk)
    ensures OwnershipFile in d.files && Checked(ListingOf(n), d) && WellFormed(d) && d.dirs == {}
    ensures forall i :: 0 <= i < n ==> Asset(ListingOf(n).files[i].path) in d.files.Keys
  {
    hide ValidDigest;
    var m := ListingOf(n);
    var f := File(1, 1, 1, 0, ZERO_DIGEST, Opaque);
    d := Disk((map i | 0 <= i < n :: Asset(m.files[i].path) := f)[OwnershipFile := f.(body := MarkerBody(m))], {});
  }

  /** For any number of files there is a removal that lists them and the marker; from 64 files
      on, recovery does not accept the journal it writes. */
  lemma {:induction false} ManyOwned(n: nat) returns (d: Disk, plan: Plan)
    requires n > 0
    ensures Planned(ListingOf(n), "r", d, "x", plan) && |BeforeOf(ListingOf(n), d).owned| == n + 1
    ensures PlanValid(plan, "x") <==> n < 64
  {
    hide AuthorizesRemoval, Checked, WellFormed, ListingOf, BeforeOf, PlanShape, Originals, PresentEntries;
    var m := ListingOf(n);
    ListingAuthorized(n);
    d := ListingChecked(n);
    plan := Plan(1, OWNER, Staging, "x", PlanEntries(m, d, "x"));
    ListingPresent(n, d);
    PlanCovers(m, "r", d, "x");
    CountEntries(plan.entries);
    JournalAcceptedIff(m, "r", d, "x", plan);
    assert |BeforeOf(m, d).owned| == |BeforeOf(m, d).owned.Keys|;
  }

  lemma ListingPresent(n: nat, d: Disk)
    requires OwnershipFile in d.files
    requires forall i :: 0 <= i < n ==> Asset(ListingOf(n).files[i].path) in d.files.Keys
    ensures |PlanEntries(ListingOf(n), d, "x")| == n + 1
  {
    AllPresent(ListingOf(n).files, d.files.Keys, "x", n);
  }

  /** A state says on its own what recovery will keep of it. */
  lemma KeptDetermined(d: Disk, dir: string, b: Before, kept: set<Name>, kept': set<Name>)
    requires kept <= b.owned.Keys && kept' <= b.owned.Keys
    requires Interruptible(d, dir, b, kept) && Interruptible(d, dir, b, kept')
    ensures kept == kept'
  {
    hide RestUntouched, OnePrivate, HasJournal;
    forall n | n in b.owned
      ensures n in kept <==> n in kept'
    {
      if Journal(dir) in d.files {
        var entries := d.files[Journal(dir)].body.plan.entries;
        if d.files[Journal(dir)].body.plan.phase.Deleting? {
          assert n in Originals(entries);
          var i :| 0 <= i < |entries| && entries[i].original == n;
        }
      }
    }
  }

  // ----- all or nothing -----

  ghost predicate AllOrNothing(kept: set<Name>, b: Before) {
    kept == b.owned.Keys || kept == {}
  }

  /** A rollback that stops half way leaves something recovery completes to all or nothing
      exactly when the journal is still the Staging one, or nothing or everything was put back. */
  lemma HalfRolledBack(d: Disk, dir: string, plan: Plan, b: Before, staged: seq<StagedRemoval>)
    requires Rollbackable(d, dir, plan, b, staged)
    ensures AllOrNothing(KeptIfInterrupted(plan, b, |staged|), b)
            <==> plan.phase.Staging? || staged == [] || |staged| == |plan.entries|
  {
    hide RestUntouched, HasJournal, StagedAs, AtOriginal;
    var kept := KeptIfInterrupted(plan, b, |staged|);
    if plan.phase.Deleting? {
      if 0 < |staged| < |plan.entries| {
        TailOriginals(plan, dir, b, |staged|, 0);
        TailOriginals(plan, dir, b, |staged|, |staged|);
      } else if staged == [] {
        assert plan.entries[0..] == plan.entries;
      } else {
        assert plan.entries[|staged|..] == [];
      }
    }
  }

  const ZERO_DIGEST: Digest := seq(64, i => '0')

  /** The steps of a removal of one file: staging directory, Staging journal, both files
      staged, Deleting journal, and, that call having reported an error, the marker put back. */
  ghost predicate MixedRun(run: seq<Disk>, first: Plan, plan: Plan) {
    && |run| == 7 && |first.entries| == 2
    && run[0].dirs == {} && run[1] == run[0].(dirs := {"x"})
    && WithJournal(run[1], run[2], "x", first)
    && Moved(run[2], run[3], first.entries[0].original, first.entries[0].staged)
    && Moved(run[3], run[4], first.entries[1].original, first.entries[1].staged)
    && (forall i :: 0 <= i < 2 ==> first.entries[i].staged in run[4].files)
    && plan == DeletingPlan(first, [Taken(run[4], first.entries[0]), Taken(run[4], first.entries[1])])
    && WithJournal(run[4], run[5], "x", plan)
    && Moved(run[5], run[6], first.entries[1].staged, first.entries[1].original)
  }

  function Taken(d: Disk, e: Entry): StagedRemoval
    requires e.staged in d.files
  {
    StagedRemoval(e.original, e.staged, IdentityOf(d.files[e.staged]))
  }

  /** Such a state is reached: a Deleting journal, one file still staged, the marker put back. */
  lemma MixedState()
    returns (d: Disk, plan: Plan, b: Before, staged: seq<StagedRemoval>, kept: set<Name>, run: seq<Disk>, first: Plan)
    ensures MixedRun(run, first, plan) && d == run[6]
    ensures Rollbackable(d, "x", plan, b, staged) && plan.phase.Deleting?
    ensures Interruptible(d, "x", b, kept) && !AllOrNothing(kept, b)
  {
    hide Rollbackable, Interruptible, AllOrNothing, ValidDigest, KeptIfInterrupted, MixedRun;
    var asset, slot := Asset(["target", "model"]), Staged("x", AssetSlot(0));
    var markerSlot := Staged("x", MarkerSlot);
    var weights := File(1, 1, 5, 0, ZERO_DIGEST, Opaque);
    var marker := File(2, 1, 7, 0, ZERO_DIGEST, Opaque);
    plan := Plan(1, OWNER, Deleting, "x",
                 [Entry(asset, slot, 5, ZERO_DIGEST, Some(IdentityOf(weights))),
                  Entry(OwnershipFile, markerSlot, 7, ZERO_DIGEST, Some(IdentityOf(marker)))]);
    var journal := File(3, 1, 9, 0, ZERO_DIGEST, JournalBody(plan));
    d := Disk(map[slot := weights, OwnershipFile := marker, Journal("x") := journal], {"x"});
    b := Before(map[asset := weights, OwnershipFile := marker], map[], {});
    staged := [StagedRemoval(asset, slot, IdentityOf(weights))];
    kept := KeptIfInterrupted(plan, b, 1);
    MixedRollbackable(d, plan, b, staged, asset, slot, weights, marker, journal);
    MixedKept(d, plan, b, staged);
    first := Plan(1, OWNER, Staging, "x", [Entry(asset, slot, 5, ZERO_DIGEST, None),
                                           Entry(OwnershipFile, markerSlot, 7, ZERO_DIGEST, None)]);
    run := MixedSteps(first, plan, weights, marker, journal);
  }

  lemma MixedSteps(first: Plan, plan: Plan, weights: File, marker: File, journal: File) returns (run: seq<Disk>)
    requires weights == File(1, 1, 5, 0, ZERO_DIGEST, Opaque) && marker == File(2, 1, 7, 0, ZERO_DIGEST, Opaque)
    requires journal == File(3, 1, 9, 0, ZERO_DIGEST, JournalBody(plan))
    requires var asset, slot := Asset(["target", "model"]), Staged("x", AssetSlot(0));
             var markerSlot := Staged("x", MarkerSlot);
             && first == Plan(1, OWNER, Staging, "x", [Entry(asset, slot, 5, ZERO_DIGEST, None),
                                                       Entry(OwnershipFile, markerSlot, 7, ZERO_DIGEST, None)])
             && plan == Plan(1, OWNER, Deleting, "x",
                             [Entry(asset, slot, 5, ZERO_DIGEST, Some(IdentityOf(weights))),
                              Entry(OwnershipFile, markerSlot, 7, ZERO_DIGEST, Some(IdentityOf(marker)))])
    ensures MixedRun(run, first, plan)
    ensures run[6] == Disk(map[Staged("x", AssetSlot(0)) := weights, OwnershipFile := marker,
        Journal("x") := journal], {"x"})
  {
    hide ValidDigest, DeletingPlan, Moved, WithJournal;
    var asset, slot, markerSlot := Asset(["target", "model"]), Staged("x", AssetSlot(0)), Staged("x", MarkerSlot);
    var opening := journal.(body := JournalBody(first));
    var d0 := Disk(map[asset := weights, OwnershipFile := marker], {});
    var d1 := d0.(dirs := {"x"});
    var d2 := d1.(files := d1.files[Journal("x") := opening]);
    var d3 := d2.(files := (d2.files - {asset})[slot := weights]);
    var d4 := d3.(files := (d3.files - {OwnershipFile})[markerSlot := marker]);
    var d5 := d4.(files := d4.files[Journal("x") := journal]);
    var d6 := d5.(files := (d5.files - {markerSlot})[OwnershipFile := marker]);
    run := [d0, d1, d2, d3, d4, d5, d6];
    JournalStep(d1, "x", first, opening);
    MoveStep(d2, asset, slot);
    MoveStep(d3, OwnershipFile, markerSlot);
    JournalStep(d4, "x", plan, journal);
    MoveStep(d5, markerSlot, OwnershipFile);
    MixedPlan(first, plan, Taken(d4, first.entries[0]), Taken(d4, first.entries[1]));
    assert d6.files == map[slot := weights, OwnershipFile := marker, Journal("x") := journal];
  }

  lemma MoveStep(d: Disk, from: Name, slot: Name)
    requires from in d.files && from != slot
    ensures Moved(d, d.(files := (d.files - {from})[slot := d.files[from]]), from, slot)
  {
  }

  lemma JournalStep(d: Disk, dir: string, plan: Plan, journal: File)
    requires journal.body == JournalBody(plan) && SmallPrivate(journal)
    ensures WithJournal(d, d.(files := d.files[Journal(dir) := journal]), dir, plan)
  {
  }

  lemma MixedPlan(first: Plan, plan: Plan, asset: StagedRemoval, marker: StagedRemoval)
    requires |first.entries| == 2 && |plan.entries| == 2 && asset.staged != marker.staged
    requires first.entries[0].staged == asset.staged && first.entries[1].staged == marker.staged
    requires plan == first.(phase := Deleting, entries := [first.entries[0].(identity := Some(asset.identity)),
                                                           first.entries[1].(identity := Some(marker.identity))])
    ensures plan == DeletingPlan(first, [asset, marker])
  {
    var both := [asset, marker];
    assert both[1..] == [marker];
    assert FindIdentity(both, asset.staged) == Some(asset.identity);
    assert FindIdentity(both, marker.staged) == Some(marker.identity);
    assert DeletingPlan(first, both).entries == plan.entries;
  }

  lemma MixedRollbackable(d: Disk, plan: Plan, b: Before, staged: seq<StagedRemoval>, asset: Name, slot: Name,
      weights: File, marker: File, journal: File)
    requires asset == Asset(["target", "model"]) && slot == Staged("x", AssetSlot(0))
    requires weights == File(1, 1, 5, 0, ZERO_DIGEST, Opaque) && marker == File(2, 1, 7, 0, ZERO_DIGEST, Opaque)
    requires plan == Plan(1, OWNER, Deleting, "x",
                          [Entry(asset, slot, 5, ZERO_DIGEST, Some(IdentityOf(weights))),
                           Entry(OwnershipFile, Staged("x", MarkerSlot), 7, ZERO_DIGEST, Some(IdentityOf(marker)))])
    requires journal == File(3, 1, 9, 0, ZERO_DIGEST, JournalBody(plan))
    requires d == Disk(map[slot := weights, OwnershipFile := marker, Journal("x") := journal], {"x"})
    requires b == Before(map[asset := weights, OwnershipFile := marker], map[], {})
    requires staged == [StagedRemoval(asset, slot, IdentityOf(weights))]
    ensures Rollbackable(d, "x", plan, b, staged)
  {
    hide ValidDigest, Covers;
    MixedCovers(plan.entries, b, asset, slot);
    assert PlanShape(plan, "x");
    assert plan.entries[0].staged == slot;
    assert HasJournal(d, "x", plan);
  }

  lemma MixedCovers(entries: seq<Entry>, b: Before, asset: Name, slot: Name)
    requires |entries| == 2 && asset.Asset? && InDir(slot, "x") && slot != Staged("x", MarkerSlot)
    requires entries[0].original == asset && entries[0].staged == slot && entries[0].size == 5
    requires entries[1].original == OwnershipFile && entries[1].staged == Staged("x", MarkerSlot)
        && entries[1].size == 7
    requires b.owned.Keys == {asset, OwnershipFile}
    requires b.owned[asset].size == 5 && b.owned[asset].links == 1
    requires b.owned[OwnershipFile].size == 7 && b.owned[OwnershipFile].links == 1
    ensures Covers(entries, "x", b)
  {
    assert Originals(entries) == {asset, OwnershipFile} by {
      assert entries[0].original == asset && entries[1].original == OwnershipFile;
    }
  }

  lemma MixedKept(d: Disk, plan: Plan, b: Before, staged: seq<StagedRemoval>)
    requires Rollbackable(d, "x", plan, b, staged) && plan.phase.Deleting? && 0 < |staged| < |plan.entries|
    ensures Interruptible(d, "x", b, KeptIfInterrupted(plan, b, |staged|))
    ensures !AllOrNothing(KeptIfInterrupted(plan, b, |staged|), b)
  {
    hide Rollbackable, Interruptible;
    RollbackInterruptible(d, "x", plan, b, staged);
    HalfRolledBack(d, "x", plan, b, staged);
  }

  // ----- a removal that stopped and what came after -----

  /** A removal lost the metadata of the second file it lists and stopped with the first one
      staged. What a second removal then leaves, the marker gone, and what a download then
      leaves, the first file back, no start recovers any more. */
  lemma StoppedThenBlocked() returns (d: Disk, plan: Plan, b: Before, removed: Disk, downloaded: Disk)
    ensures StagingState(d, "x", plan, b) && d.dirs == {"x"} && OwnershipFile in d.files
    ensures removed == d.(files := d.files - {OwnershipFile}) && Blocked(removed, "x", 1)
    ensures downloaded.dirs == {"x"} && downloaded.files - {plan.entries[0].original} == d.files
    ensures plan.entries[0].original in downloaded.files && Blocked(downloaded, "x", 0)
  {
    hide ValidDigest, RestUntouched, HasJournal, Lists;
    var asset, slot := Asset(["target", "model"]), Staged("x", AssetSlot(0));
    var markerSlot := Staged("x", MarkerSlot);
    var weights := File(1, 1, 5, 0, ZERO_DIGEST, Opaque);
    var marker := File(2, 1, 7, 0, ZERO_DIGEST, Opaque);
    plan := Plan(1, OWNER, Staging, "x", [Entry(asset, slot, 5, ZERO_DIGEST, None),
                                          Entry(OwnershipFile, markerSlot, 7, ZERO_DIGEST, None)]);
    var journal := File(3, 1, 9, 0, ZERO_DIGEST, JournalBody(plan));
    d := Disk(map[slot := weights, OwnershipFile := marker, Journal("x") := journal], {"x"});
    b := Before(map[asset := weights, OwnershipFile := marker], map[], {});
    MixedCovers(plan.entries, b, asset, slot);
    StoppedFrame(d, plan, b, asset, slot, weights, marker, journal);
    assert AtStaged(d, plan.entries[0], b) && AtOriginal(d, plan.entries[1], b);
    removed := d.(files := d.files - {OwnershipFile});
    downloaded := d.(files := d.files[asset := weights]);
    assert downloaded.files - {asset} == d.files;
  }

  lemma StoppedFrame(d: Disk, plan: Plan, b: Before, asset: Name, slot: Name, weights: File, marker: File,
      journal: File)
    requires asset.Asset? && slot == Staged("x", AssetSlot(0)) && journal.links == 1 && journal.size == 9
    requires |plan.entries| == 2 && plan.entries[0].staged == slot && PlanShape(plan, "x")
    requires journal.body == JournalBody(plan)
    requires d == Disk(map[slot := weights, OwnershipFile := marker, Journal("x") := journal], {"x"})
    requires b == Before(map[asset := weights, OwnershipFile := marker], map[], {})
    ensures RestUntouched(d, "x", b) && HasJournal(d, "x", plan)
  {
  }

  // ----- several operations in one process -----

  lemma OwnedOutside(marker: Marker, d: Disk)
    requires OwnershipFile in d.files
    ensures forall n :: n in BeforeOf(marker, d).owned ==> !n.Staged?
    ensures forall n :: n in d.files && n.Staged? ==>
              n in BeforeOf(marker, d).rest && BeforeOf(marker, d).rest[n] == d.files[n]
    ensures forall n :: n in BeforeOf(marker, d).rest ==> n in d.files && BeforeOf(marker, d).rest[n] == d.files[n]
  {
  }

  lemma OthersAsBefore(d0: Disk, d: Disk, dir: string, marker: Marker)
    requires OwnershipFile in d0.files && RestUntouched(d, dir, BeforeOf(marker, d0))
    ensures d.dirs - {dir} == d0.dirs && dir !in d0.dirs
    ensures forall n: Name :: n.Staged? && n.dir != dir ==>
              (n in d.files <==> n in d0.files) && (n in d0.files ==> d.files[n] == d0.files[n])
  {
    hide BeforeOf;
    OwnedOutside(marker, d0);
    BeforeDirs(marker, d0);
  }

  /** A removal leaves every staging directory, its own and the others, as a start expects it,
      wherever it stopped. */
  lemma RemovalLeaves(d0: Disk, d: Disk, trace: Trace, r: Outcome, published: bool, journalFault: bool, faulted: bool)
    requires AllLeft(d0) && Explains(trace, d0, d, r, published, journalFault, faulted)
    ensures AllLeft(d)
  {
    hide BeforeOf, Interruptible, Finished, Left;
    if trace.Opened? {
      var b := BeforeOf(trace.marker, d0);
      if r.Removed? || r.Superseded? {
        FinishedInterruptible(d, trace.dir, b, {});
        AddedLeft(d0, d, trace.dir, trace.marker, {});
      } else {
        AddedLeft(d0, d, trace.dir, trace.marker, trace.kept);
      }
    }
  }

  /** What a removal that can be recovered does to the directories. */
  lemma AddedLeft(d0: Disk, d: Disk, dir: string, marker: Marker, kept: set<Name>)
    requires AllLeft(d0) && OwnershipFile in d0.files && Interruptible(d, dir, BeforeOf(marker, d0), kept)
    ensures AllLeft(d) && Tracked(d, dir, BeforeOf(marker, d0).owned, kept)
  {
    hide BeforeOf, Interruptible, Finished, Left, RestUntouched, Tracked;
    var b := BeforeOf(marker, d0);
    OwnedOutside(marker, d0);
    InterruptibleTracked(d, dir, b, kept);
    RestSame(d, dir, b, kept);
    OthersAsBefore(d0, d, dir, marker);
    forall other | other in d.dirs
      ensures Left(d, other)
    {
      if other == dir { InterruptedLeft(d, dir, b, kept); } else { OthersLeft(d0, d, dir, other); }
    }
    if dir !in d.dirs {
      NoDirectory(d, dir, b, kept);
      Emptied(d, dir, b, kept);
    }
    forall n | n in d.files && n.Staged?
      ensures n.dir in d.dirs
    {
      if n.dir != dir { assert n in d0.files; } else { assert InDir(n, dir); }
    }
  }

  lemma ElsewhereLeft(d: Disk, d': Disk)
    requires AllLeft(d) && SameStaging(d, d')
    ensures AllLeft(d')
  {
    hide Left;
    forall dir | dir in d'.dirs
      ensures Left(d', dir)
    {
      LeftInside(d, d', dir);
    }
  }

  lemma LeftInside(d: Disk, d': Disk, dir: string)
    requires Left(d, dir) && SameStaging(d, d')
    ensures Left(d', dir)
  {
  }

  ghost predicate SameStaging(d: Disk, d': Disk) {
    && d.dirs == d'.dirs
    && forall n: Name :: n.Staged? ==> (n in d'.files <==> n in d.files) && (n in d.files ==> d'.files[n] == d.files[n])
  }

  /** Whatever downloads and their installation do: no name in a staging directory is theirs. */
  method Elsewhere(store: Storage)
    modifies store`disk
    ensures SameStaging(old(store.disk), store.disk)
  {
    var rounds: nat :| true;
    for i := 0 to rounds
      invariant SameStaging(old(store.disk), store.disk)
    {
      var n: Name, f: File, gone: bool := *, *, *;
      if !n.Staged? {
        store.disk := store.disk.(files := if gone then store.disk.files - {n} else store.disk.files[n := f]);
      }
    }
  }

  /** One request to remove: the slot was taken, or a removal ran. */
  datatype Turn =
    | Away(holder: Active)
    | Ran(before: Disk, after: Disk, trace: Trace, outcome: Outcome, published: bool, journalFault: bool, faulted: bool)

  /** Each removal ran as its outcome says, and between them no staging directory changed. */
  ghost predicate Chained(start: Disk, turns: seq<Turn>, end: Disk) {
    if turns == [] then SameStaging(start, end)
    else
      match turns[|turns| - 1]
      case Away(_) => Chained(start, turns[..|turns| - 1], end)
      case Ran(before, after, trace, r, published, journalFault, faulted) =>
        && Chained(start, turns[..|turns| - 1], before) && SameStaging(after, end)
        && Explains(trace, before, after, r, published, journalFault, faulted)
        && Orderly(trace, before, after, r, published)
  }

  /** The process goes on: it did not die, and no recovery is required. */
  predicate GoesOn(turn: Turn) {
    turn.Ran? ==> !turn.outcome.Lost? && turn.outcome != Stopped(true)
  }

  lemma {:induction false} ChainedOn(start: Disk, turns: seq<Turn>, d: Disk, d': Disk)
    requires Chained(start, turns, d) && SameStaging(d, d')
    ensures Chained(start, turns, d')
  {
    hide Explains, Orderly;
    if turns != [] && turns[|turns| - 1].Away? { ChainedOn(start, turns[..|turns| - 1], d, d'); }
  }

  lemma ChainedTurn(start: Disk, turns: seq<Turn>, d: Disk, turn: Turn, d': Disk)
    requires Chained(start, turns, d)
    requires match turn
             case Away(_) => d' == d
             case Ran(before, after, trace, r, published, journalFault, faulted) =>
               && before == d && after == d'
               && Explains(trace, before, after, r, published, journalFault, faulted)
               && Orderly(trace, before, after, r, published)
    ensures Chained(start, turns + [turn], d')
  {
    hide Explains, Orderly;
    assert (turns + [turn])[..|turns|] == turns;
  }

  /** Removals one after the other in one process, with anything outside the staging
      directories in between, until recovery is required or the process dies. */
  method RemoveRepeatedly(store: Storage, ops: Operations, repository: string, process: string, names: seq<string>)
    returns (ghost turns: seq<Turn>)
    requires ops.Valid() && AllLeft(store.disk)
    modifies store, ops
    ensures ops.Valid() && store.faults >= old(store.faults) && store.crashes >= old(store.crashes)
    ensures AllLeft(store.disk) && Chained(old(store.disk), turns, store.disk)
    ensures forall i :: 0 <= i < |turns| - 1 ==> GoesOn(turns[i])
    ensures || |turns| == |names| || ops.recoveryRequired
            || (turns != [] && !GoesOn(turns[|turns| - 1]))
    ensures turns != [] && turns[|turns| - 1].Ran? ==>
              && (turns[|turns| - 1].outcome.Lost? ==> store.crashes > old(store.crashes))
              && (turns[|turns| - 1].outcome == Stopped(true) ==> store.faults > old(store.faults))
  {
    hide AllLeft, Explains, Orderly, SameStaging, Chained;
    turns := [];
    ghost var d0 := store.disk;
    ChainedStart(d0);
    for i := 0 to |names|
      invariant ops.Valid() && store.faults >= old(store.faults) && store.crashes >= old(store.crashes)
      invariant AllLeft(store.disk) && Chained(d0, turns, store.disk)
      invariant |turns| == i && forall k :: 0 <= k < i ==> GoesOn(turns[k])
    {
      ghost var d := store.disk;
      Elsewhere(store);
      ElsewhereLeft(d, store.disk);
      ChainedOn(d0, turns, d, store.disk);
      if ops.recoveryRequired { return; }          // it is reconciled first, as by a start
      d := store.disk;
      ghost var turn;
      var begun, r;
      begun, r, turn := RemoveOnce(store, ops, repository, process, names[i]);
      ChainedTurn(d0, turns, d, turn, store.disk);
      turns := turns + [turn];
      if begun.Started? {
        if r.Lost? || r == Stopped(true) { return; }
        if r.Stopped? { ops.PublishOperationFailure(begun.id); }
      }
    }
  }

  lemma ChainedStart(d: Disk)
    ensures Chained(d, [], d)
  {
  }

  /** One request to remove; a removal that stops without an error has its reason. */
  method RemoveOnce(store: Storage, ops: Operations, repository: string, process: string, operation: string)
    returns (begun: Begun, r: Outcome, ghost turn: Turn)
    requires ops.Valid() && AllLeft(store.disk)
    modifies store, ops
    ensures ops.Valid() && store.faults >= old(store.faults) && store.crashes >= old(store.crashes)
    ensures AllLeft(store.disk) && turn.Ran? == begun.Started? && (begun.Started? <==> old(ops.active).None?)
    ensures begun.Started? ==> SlotAfter(ops, begun.id, r)
    ensures begun.Started? && r.Stopped? && store.faults == old(store.faults) ==>
              Excused(ops, begun.id, repository, process, operation, old(store.disk))
    ensures match turn
            case Away(holder) => store.disk == old(store.disk) && old(ops.active) == Some(holder)
            case Ran(before, after, trace, outcome, published, journalFault, faulted) =>
              && before == old(store.disk) && after == store.disk && outcome == r
              && Explains(trace, before, after, r, published, journalFault, faulted)
              && Orderly(trace, before, after, r, published)
              && (r.Lost? ==> store.crashes > old(store.crashes))
              && (faulted ==> store.faults > old(store.faults))
              && (r == Stopped(true) ==> faulted)
  {
    hide AllLeft, Explains, Orderly, Excused;
    begun := ops.BeginRemoval();
    r := Stopped(false);
    if !begun.Started? { return begun, r, Away(old(ops.active.value)); }
    store.deletingPublished, store.journalFault := false, false;
    ghost var d := store.disk;
    AllLeftWellFormed(d);
    ghost var trace;
    r, trace := PerformOwnedRemoval(store, ops, begun.id, repository, process, operation);
    ghost var faulted := store.faults > old(store.faults);
    RemovalLeaves(d, store.disk, trace, r, store.deletingPublished, store.journalFault, faulted);
    RequiredByFault(d, store.disk, trace, r, store.deletingPublished, store.journalFault, faulted);
    turn := Ran(d, store.disk, trace, r, store.deletingPublished, store.journalFault, faulted);
  }

  /** Only a failed step makes a removal require recovery. */
  lemma RequiredByFault(d0: Disk, d: Disk, trace: Trace, r: Outcome, published: bool, journalFault: bool, faulted: bool)
    requires Explains(trace, d0, d, r, published, journalFault, faulted)
    ensures r == Stopped(true) ==> faulted
  {
    hide BeforeOf, Interruptible, Finished;
  }

  lemma AllLeftWellFormed(d: Disk)
    requires AllLeft(d)
    ensures WellFormed(d)
  {
    hide Left;
  }

  /** The start after that: it completes, errors and crashes apart, if and only if each
      directory in its turn finds what recovering it needs. */
  method RemovalsThenStart(store: Storage, ops: Operations, repository: string, process: string, names: seq<string>)
    returns (r: Recovery, ghost turns: seq<Turn>, ghost found: Disk, ghost order: seq<string>)
    requires ops.Valid() && AllLeft(store.disk)
    modifies store, ops
    ensures AllLeft(found) && Chained(old(store.disk), turns, found)
    ensures Listing(order, found.dirs) && AllLeft(store.disk) && Since(found, store.disk)
    ensures r.Recovered? ==> Going(found, store.disk, order, {}) && Completes(found, order)
    ensures r.Halted? ==> store.crashes > old(store.crashes)
    ensures r.Refused? && store.faults == old(store.faults) ==>
              |found.dirs| > REMOVAL_RECOVERY_MAX_ENTRIES || !Completes(found, order)
  {
    hide AllLeft, Completes, Since, Chained, SameStaging;
    turns := RemoveRepeatedly(store, ops, repository, process, names);
    found := store.disk;
    r, order := RecoverStagedRemovals(store, "", map[], {});
  }

  /** After a removal that finished the next operation starts, a download or another removal. */
  method RemoveThenBegin(store: Storage, ops: Operations, repository: string, process: string, operation: string,
      again: bool)
    returns (r: Outcome, next: Begun)
    requires ops.Valid() && AllLeft(store.disk)
    modifies store, ops
    ensures ops.Valid() && AllLeft(store.disk)
    ensures r.Removed? ==>
              next.Started? && ops.active == Some(Active(next.id, if again then Kind.Removal else Download, true))
    ensures r == Stopped(true) ==> ops.recoveryRequired
  {
    hide AllLeft, Explains, Orderly, Excused;
    var begun;
    ghost var turn;
    begun, r, turn := RemoveOnce(store, ops, repository, process, operation);
    if !begun.Started? { return Stopped(false), begun; }
    if again { next := ops.BeginRemoval(); } else { next := ops.BeginDownload(Incomplete); }
  }

  // ----- runs -----

  /** No other directory's journal has a file of these names to put back. */
  ghost predicate Clear(d: Disk, names: set<Name>) {
    forall other :: other in d.dirs ==> Originals(Restored(d, other)) !! names
  }

  /** What there may be outside the staging directories after a removal and some starts. */
  ghost predicate RestSince(d0: Disk, d: Disk, owned: set<Name>) {
    && (forall n :: n in d0.files && !n.Staged? && n !in owned ==> n in d.files && d.files[n] == d0.files[n])
    && (forall n :: n in d.files && !n.Staged? && n !in d0.files ==> ToBePutBack(d0, n))
  }

  /** A removal and everything that follows it, beside whatever directories earlier removals
      left. If a recovery completes, the staging directories are gone, files the marker does not
      list are as they were, and of the listed ones all are left if no Deleting journal was
      published, and none if one was and the two calls that publish it reported no error. */
  method RemoveAcrossCrashes(store: Storage, ops: Operations, id: nat, repository: string, process: string,
      operation: string, starts: nat)
    returns (outcome: Outcome, r: Recovery, ghost trace: Trace)
    requires ops.Valid() && AllLeft(store.disk)
    requires !store.deletingPublished && !store.journalFault
    modifies store, ops
    ensures AllLeft(store.disk) && (r.Recovered? ==> store.disk.dirs == {})
    ensures outcome.Stopped? && store.faults == old(store.faults) ==>
              Excused(ops, id, repository, process, operation, old(store.disk))
    ensures outcome.Lost? ==> store.crashes > old(store.crashes)
    ensures SlotAfter(ops, id, outcome)
    ensures outcome.Removed? || outcome.Superseded? ==>
              trace.Opened? && trace.kept == {} && store.deletingPublished
    ensures trace.NothingDone? ==> Since(old(store.disk), store.disk) && !store.deletingPublished
    ensures trace.Opened? ==>
        OwnershipFile in old(store.disk).files && old(store.disk).files[OwnershipFile].body == MarkerBody(trace.marker)
    ensures trace.Opened? ==>
              var b := BeforeOf(trace.marker, old(store.disk));
              && KeptRightly(trace.kept, b, store.deletingPublished, store.journalFault)
              && RestSince(old(store.disk), store.disk, b.owned.Keys)
    ensures trace.Opened? && Independent(old(store.disk)) ==>
              var b := BeforeOf(trace.marker, old(store.disk));
              && Tracked(store.disk, trace.dir, b.owned, trace.kept)
              && (r.Recovered? ==>
                    Finished(store.disk, trace.dir, Seen(store.disk, trace.dir, b.owned), trace.kept))
    ensures trace.Opened? && old(store.disk).dirs == {} ==>
              var b := BeforeOf(trace.marker, old(store.disk));
              && Interruptible(store.disk, trace.dir, b, trace.kept)
              && (r.Recovered? ==> Finished(store.disk, trace.dir, b, trace.kept))
    ensures || r.Recovered? || store.faults + store.crashes >= old(store.faults + store.crashes) + starts
            || !Independent(old(store.disk)) || |old(store.disk).dirs| >= REMOVAL_RECOVERY_MAX_ENTRIES
            || (trace.Opened?
                && var owned := BeforeOf(trace.marker, old(store.disk)).owned;
                   |owned| > REMOVAL_RECOVERY_MAX_ENTRIES || !Clear(old(store.disk), owned.Keys))
    ensures store.deletingPublished ==>
              && id !in ops.cancelled && MarkerUsable(old(store.disk), repository)
              && Verified(old(store.disk).files[OwnershipFile].body.marker, old(store.disk))
  {
    hide Interruptible, Settled, Finished, BeforeOf, Verified, AllLeft, Independent, Tracked, Apart, Clear, Since,
        RestSince, Seen, Excused, MarkerUsable, Orderly, Left, SlotAfter;
    ghost var d0 := store.disk;
    AllLeftWellFormed(d0);
    if d0.dirs == {} { NoneIndependent(d0); }
    outcome, trace := PerformOwnedRemoval(store, ops, id, repository, process, operation);
    ghost var found := store.disk;
    ghost var dir, owned, kept := "", map[], {};
    RemovalLeaves(d0, found, trace, outcome, store.deletingPublished, store.journalFault,
                  store.faults > old(store.faults));
    if trace.Opened? {
      dir, owned, kept := trace.dir, BeforeOf(trace.marker, d0).owned, trace.kept;
      if outcome.Removed? || outcome.Superseded? {
        kept := {};
        FinishedInterruptible(found, dir, BeforeOf(trace.marker, d0), kept);
        trace := Trace.Opened(dir, trace.marker, kept);
      }
      AddedLeft(d0, found, dir, trace.marker, kept);
      AddedApart(d0, found, dir, trace.marker, kept);
    }
    r := RecoverAcrossStarts(store, starts, dir, owned, kept);
    if trace.Opened? {
      AddedSince(d0, found, store.disk, dir, trace.marker, kept);
      if d0.dirs == {} { AloneOutcome(d0, store.disk, dir, trace.marker, kept, r); }
    }
  }

  lemma AloneOutcome(d0: Disk, d: Disk, dir: string, marker: Marker, kept: set<Name>, r: Recovery)
    requires BeforeOf(marker, d0) == Seen(d, dir, BeforeOf(marker, d0).owned)
    requires Tracked(d, dir, BeforeOf(marker, d0).owned, kept) && (r.Recovered? ==> d.dirs == {})
    ensures Interruptible(d, dir, BeforeOf(marker, d0), kept)
    ensures r.Recovered? ==> Finished(d, dir, BeforeOf(marker, d0), kept)
  {
    hide Interruptible, Finished, BeforeOf, Seen;
    if r.Recovered? { NoDirectory(d, dir, BeforeOf(marker, d0), kept); }
  }

  /** Around a removal that can be recovered: the other directories, and the files it does not own. */
  lemma Around(d0: Disk, d: Disk, dir: string, marker: Marker, kept: set<Name>)
    requires AllLeft(d0) && OwnershipFile in d0.files && Interruptible(d, dir, BeforeOf(marker, d0), kept)
    ensures d.dirs - {dir} == d0.dirs && dir !in d0.dirs
    ensures forall n: Name :: n.Staged? && n.dir != dir ==>
              (n in d.files <==> n in d0.files) && (n in d0.files ==> d.files[n] == d0.files[n])
    ensures forall n: Name :: !n.Staged? && n !in BeforeOf(marker, d0).owned ==>
              (n in d.files <==> n in d0.files) && (n in d0.files ==> d.files[n] == d0.files[n])
    ensures forall other :: other in d0.dirs ==>
              Listed(d, other) == Listed(d0, other) && Restored(d, other) == Restored(d0, other)
    ensures BeforeOf(marker, d0).owned.Keys <= d0.files.Keys
    ensures Originals(Restored(d, dir)) <= BeforeOf(marker, d0).owned.Keys
  {
    hide BeforeOf, Interruptible, Left, Restored, Listed;
    var b := BeforeOf(marker, d0);
    OwnedOutside(marker, d0);
    RestIs(marker, d0);
    RestSame(d, dir, b, kept);
    OthersAsBefore(d0, d, dir, marker);
    RestoredOwned(d, dir, b, kept);
    forall other | other in d0.dirs
      ensures Listed(d, other) == Listed(d0, other) && Restored(d, other) == Restored(d0, other)
    {
      LeftHere(d0, other);
      OthersLeft(d0, d, dir, other);
    }
  }

  lemma RestIs(marker: Marker, d: Disk)
    requires OwnershipFile in d.files
    ensures var b := BeforeOf(marker, d);
            && b.owned.Keys <= d.files.Keys
            && (forall n :: n in d.files && n !in b.owned ==> n in b.rest && b.rest[n] == d.files[n])
            && (forall n :: n in b.rest ==> n in d.files && n !in b.owned)
  {
  }

  lemma RestoredOwned(d: Disk, dir: string, b: Before, kept: set<Name>)
    requires Interruptible(d, dir, b, kept)
    ensures Originals(Restored(d, dir)) <= b.owned.Keys
  {
    hide RestUntouched, HasJournal, OnePrivate;
  }

  /** Beside independent directories the removal is apart from them, and independent itself if
      none of them lists one of its files. */
  lemma AddedApart(d0: Disk, d: Disk, dir: string, marker: Marker, kept: set<Name>)
    requires AllLeft(d0) && OwnershipFile in d0.files && Interruptible(d, dir, BeforeOf(marker, d0), kept)
    ensures var owned := BeforeOf(marker, d0).owned;
            && (Independent(d0) ==> Apart(d, dir, owned.Keys))
            && (Independent(d0) && Clear(d0, owned.Keys) && |owned| <= REMOVAL_RECOVERY_MAX_ENTRIES ==> Independent(d))
    ensures |d.dirs| <= |d0.dirs| + 1
  {
    hide BeforeOf, Interruptible, AllLeft, Restored, Listed, Apart, Independent, Clear;
    Around(d0, d, dir, marker, kept);
    var owned := BeforeOf(marker, d0).owned;
    FewerOf(d.dirs, d0.dirs + {dir});
    if Independent(d0) {
      ApartFromAll(d0, d, dir, owned.Keys);
      if Clear(d0, owned.Keys) && |owned| <= REMOVAL_RECOVERY_MAX_ENTRIES {
        InterruptedNamed(d, dir, BeforeOf(marker, d0), kept);
        LimitByOwned(d, dir, BeforeOf(marker, d0), kept);
        AddedIndependent(d0, d, dir, owned.Keys);
      }
    }
  }

  lemma ApartFromAll(d0: Disk, d: Disk, dir: string, names: set<Name>)
    requires AllLeft(d0) && Independent(d0) && d.dirs - {dir} == d0.dirs && names <= d0.files.Keys
    requires forall n: Name :: n.Staged? && n.dir != dir ==> (n in d.files <==> n in d0.files)
    requires forall other :: other in d0.dirs ==> Restored(d, other) == Restored(d0, other)
    ensures Apart(d, dir, names)
  {
    hide AllLeft, Left, Listed, Restored, Apart;
    forall other, i | other in d.dirs && other != dir && 0 <= i < |Restored(d, other)|
                      && Restored(d, other)[i].original in names
      ensures Restored(d, other)[i].staged !in d.files
    {
      LeftHere(d0, other);
      RestoredIn(d0, other);
      var e := Restored(d0, other)[i];
      assert Settles(d0.files.Keys, d0, other);
      assert e.original in d0.files.Keys && e.staged !in d0.files.Keys;
    }
    ApartIs(d, dir, names);
  }

  lemma ApartIs(d: Disk, dir: string, names: set<Name>)
    requires forall other, i :: other in d.dirs && other != dir && 0 <= i < |Restored(d, other)| ==>
               Restored(d, other)[i].original in names ==> Restored(d, other)[i].staged !in d.files
    ensures Apart(d, dir, names)
  {
    hide Restored;
  }

  lemma AddedIndependent(d0: Disk, d: Disk, dir: string, names: set<Name>)
    requires AllLeft(d0) && Independent(d0) && d.dirs - {dir} == d0.dirs && dir !in d0.dirs
    requires forall n: Name :: n.Staged? && n.dir != dir ==> (n in d.files <==> n in d0.files)
    requires forall n: Name :: !n.Staged? && n !in names ==> (n in d.files <==> n in d0.files)
    requires forall other :: other in d0.dirs ==>
               Listed(d, other) == Listed(d0, other) && Restored(d, other) == Restored(d0, other)
    requires Originals(Restored(d, dir)) <= names && Clear(d0, names) && Apart(d, dir, names)
    requires Settles(d.files.Keys, d, dir)
    ensures Independent(d)
  {
    hide AllLeft, Left, Listed, Restored;
    forall x | x in d.dirs
      ensures Settles(d.files.Keys, d, x) && Apart(d, x, Originals(Restored(d, x)))
    {
      if x == dir {
        ApartFewer(d, dir, names, Originals(Restored(d, dir)));
      } else {
        StillNamed(d0, d, dir, x, names);
        StillApart(d0, d, dir, x, names);
      }
    }
  }

  lemma StillNamed(d0: Disk, d: Disk, dir: string, x: string, names: set<Name>)
    requires AllLeft(d0) && Independent(d0) && x in d0.dirs && x != dir && Clear(d0, names)
    requires forall n: Name :: n.Staged? && n.dir != dir ==> (n in d.files <==> n in d0.files)
    requires forall n: Name :: !n.Staged? && n !in names ==> (n in d.files <==> n in d0.files)
    requires Listed(d, x) == Listed(d0, x) && Restored(d, x) == Restored(d0, x)
    ensures Settles(d.files.Keys, d, x)
  {
    hide AllLeft, Left, Listed, Restored, Apart;
    LeftHere(d0, x);
    RestoredIn(d0, x);
    SettlesHere(d0, x);
    var entries := Restored(d0, x);
    forall i | 0 <= i < |entries|
      ensures entries[i].original in d.files <==> entries[i].staged !in d.files
    {
      assert entries[i].original in Originals(entries);
      assert entries[i].original in d0.files.Keys <==> entries[i].staged !in d0.files.Keys;
    }
  }

  lemma StillApart(d0: Disk, d: Disk, dir: string, x: string, names: set<Name>)
    requires AllLeft(d0) && Independent(d0) && x in d0.dirs && x != dir && Clear(d0, names)
    requires d.dirs - {dir} == d0.dirs
    requires forall n: Name :: n.Staged? && n.dir != dir ==> (n in d.files <==> n in d0.files)
    requires forall other :: other in d0.dirs ==> Restored(d, other) == Restored(d0, other)
    requires Originals(Restored(d, dir)) <= names
    ensures Apart(d, x, Originals(Restored(d, x)))
  {
    hide AllLeft, Left, Listed, Restored, Settles;
    forall other, i | other in d.dirs && other != x && 0 <= i < |Restored(d, other)|
                      && Restored(d, other)[i].original in Originals(Restored(d, x))
      ensures Restored(d, other)[i].staged !in d.files
    {
      assert Restored(d, other)[i].original in Originals(Restored(d, other));
      assert Apart(d0, x, Originals(Restored(d0, x)));
      assert other != dir;
      LeftHere(d0, other);
      RestoredIn(d0, other);
    }
  }

  lemma AddedSince(d0: Disk, d: Disk, d': Disk, dir: string, marker: Marker, kept: set<Name>)
    requires AllLeft(d0) && OwnershipFile in d0.files && Interruptible(d, dir, BeforeOf(marker, d0), kept)
    requires AllLeft(d) && Since(d, d')
    ensures RestSince(d0, d', BeforeOf(marker, d0).owned.Keys)
    ensures d0.dirs == {} ==> BeforeOf(marker, d0) == Seen(d', dir, BeforeOf(marker, d0).owned)
  {
    hide BeforeOf, Interruptible, Left, Restored, Originals, Seen, Since;
    Around(d0, d, dir, marker, kept);
    BroughtSince(d0, d, d', dir, BeforeOf(marker, d0).owned.Keys);
    if d0.dirs == {} { AloneSeen(d0, d, d', dir, marker); }
  }

  lemma BroughtSince(d0: Disk, d: Disk, d': Disk, dir: string, names: set<Name>)
    requires AllLeft(d0) && Since(d, d') && d.dirs - {dir} == d0.dirs && names <= d0.files.Keys
    requires forall n: Name :: n.Staged? && n.dir != dir ==> (n in d.files <==> n in d0.files)
    requires forall n: Name :: !n.Staged? && n !in names ==>
               (n in d.files <==> n in d0.files) && (n in d0.files ==> d.files[n] == d0.files[n])
    requires forall x :: x in d0.dirs ==> Restored(d, x) == Restored(d0, x)
    requires Originals(Restored(d, dir)) <= names
    ensures RestSince(d0, d', names)
  {
    hide AllLeft, Restored, Originals;
    forall n | n in d'.files && !n.Staged? && n !in d0.files
      ensures ToBePutBack(d0, n)
    {
      assert n !in d.files;
      var other, i :| other in d.dirs && 0 <= i < |Restored(d, other)|
                      && Restored(d, other)[i].original == n && Restored(d, other)[i].staged in d.files;
      RestoredFrom(d0, d, dir, other, i, names);
    }
  }

  /** With no other directory, what there is besides is what there was. */
  lemma AloneSeen(d0: Disk, d: Disk, d': Disk, dir: string, marker: Marker)
    requires AllLeft(d0) && OwnershipFile in d0.files && d0.dirs == {} && d.dirs <= {dir}
    requires AllLeft(d) && Since(d, d') && RestSince(d0, d', BeforeOf(marker, d0).owned.Keys)
    ensures BeforeOf(marker, d0) == Seen(d', dir, BeforeOf(marker, d0).owned)
  {
    hide BeforeOf, AllLeft, Restored, Seen;
    StagedIn(d0, {});
    StagedIn(d, {dir});
    RestIs(marker, d0);
    BeforeDirs(marker, d0);
    SeenIs(d', dir, BeforeOf(marker, d0));
  }

  lemma StagedIn(d: Disk, dirs: set<string>)
    requires AllLeft(d) && d.dirs <= dirs
    ensures forall n :: n in d.files && n.Staged? ==> n.dir in dirs
  {
    hide Left;
  }

  lemma SeenIs(d: Disk, dir: string, b: Before)
    requires forall n :: n in d.files && n !in b.owned && !InDir(n, dir) ==> n in b.rest
    requires forall n :: n in b.rest ==> n in d.files && d.files[n] == b.rest[n] && n !in b.owned && !InDir(n, dir)
    requires d.dirs - {dir} == b.dirs
    ensures b == Seen(d, dir, b.owned)
  {
    assert b.rest == Seen(d, dir, b.owned).rest;
  }

  lemma RestoredFrom(d0: Disk, d: Disk, dir: string, other: string, i: nat, names: set<Name>)
    requires AllLeft(d0) && d.dirs - {dir} == d0.dirs && other in d.dirs && i < |Restored(d, other)|
    requires forall n: Name :: n.Staged? && n.dir != dir ==> (n in d.files <==> n in d0.files)
    requires forall x :: x in d0.dirs ==> Restored(d, x) == Restored(d0, x)
    requires Originals(Restored(d, dir)) <= names
    requires Restored(d, other)[i].original !in names && Restored(d, other)[i].staged in d.files
    ensures ToBePutBack(d0, Restored(d, other)[i].original)
  {
    hide AllLeft, Left, Restored;
    assert Restored(d, other)[i].original in Originals(Restored(d, other));
    assert other != dir;
    LeftHere(d0, other);
    RestoredIn(d0, other);
  }

  lemma BeforeDirs(marker: Marker, d: Disk)
    requires OwnershipFile in d.files
    ensures BeforeOf(marker, d).dirs == d.dirs
  {
  }
}
