/** Resumable downloads of one asset. What has arrived is kept under the partial's name and,
    while a transfer runs, under an operation-private name that a record binds to the pinned
    revision. Every file-system step is atomic; a crash may fall before or after any of them. */
module AssetDownloads {
  import opened Options
  import opened Bytes
  import opened Steps
  import opened AssetDisk
  import opened RemovalRecovery

  const PRIVATE_WRITE_MAX_ENTRIES: nat := 64

  /** What a partial belongs to: the pinned manifest entry. */
  datatype Metadata = Metadata(repository: string, revision: string, path: string, size: nat, digest: string)

  datatype Record = Record(schemaVersion: nat, owner: string, temporary: nat, partial: Metadata)

  datatype Content = Content(inode: nat, bytes: seq<Byte>)

  /** The names of one asset: the installed file, the partial, its metadata, the record of a
      private transfer, private transfers by id, and unpublished writes of the record. */
  datatype Files = Files(final: Option<Content>, partial: Option<Content>, metadata: Option<Metadata>,
                         record: Option<Record>, work: map<nat, Content>, strays: set<nat>)

  function Size(c: Option<Content>): nat {
    if c.Some? then |c.value.bytes| else 0
  }

  /** The private transfer the record speaks of. */
  function Planned(f: Files): Option<Content> {
    if f.record.Some? && f.record.value.temporary in f.work then Some(f.work[f.record.value.temporary]) else None
  }

  /** The longest prefix on disk that can be resumed. */
  function Best(f: Files): Option<Content> {
    if Size(Planned(f)) > Size(f.partial) then Planned(f) else f.partial
  }

  /** The bytes are the first ones of that revision, and no more than its pinned size. */
  ghost predicate PrefixOf(bytes: seq<Byte>, meta: Metadata, served: Metadata -> seq<Byte>) {
    bytes <= served(meta) && |bytes| <= meta.size
  }

  /** Bytes of a revision are found only under that revision's metadata or record. */
  ghost predicate Sound(f: Files, served: Metadata -> seq<Byte>) {
    && (f.partial.Some? ==> f.metadata.Some? && PrefixOf(f.partial.value.bytes, f.metadata.value, served))
    && (f.record.Some? ==>
        f.metadata == Some(f.record.value.partial) && f.record.value.schemaVersion == 1
        && f.record.value.owner == OWNER)
    && (Planned(f).Some? ==> PrefixOf(Planned(f).value.bytes, f.record.value.partial, served))
    && (forall id :: id in f.work && !(f.record.Some? && f.record.value.temporary == id) ==> f.work[id].bytes == [])
  }

  ghost predicate Clean(f: Files) {
    f.work == map[] && f.record.None? && f.strays == {}
  }

  /** What the code checks before it trusts what it finds. */
  predicate Recoverable(f: Files, expected: Metadata) {
    && |f.work| <= PRIVATE_WRITE_MAX_ENTRIES && |f.strays| <= PRIVATE_WRITE_MAX_ENTRIES
    && (f.record.Some? ==> f.record.value.partial == expected)
  }

  /** The steps a recovery is made of; none of them loses a resumable byte. */
  ghost predicate Recovering(before: Files, after: Files, served: Metadata -> seq<Byte>) {
    && Sound(after, served)
    && after.final == before.final && after.metadata == before.metadata
    && Best(after) == Best(before)
    && after.work.Keys <= before.work.Keys && after.strays <= before.strays
    && (after.record == before.record || after.record.None?)
  }

  lemma RecoveringTrans(a: Files, b: Files, c: Files, served: Metadata -> seq<Byte>)
    requires Recovering(a, b, served) && Recovering(b, c, served)
    ensures Recovering(a, c, served)
  {
  }

  lemma DropStray(f: Files, id: nat, served: Metadata -> seq<Byte>)
    requires Sound(f, served)
    ensures Recovering(f, f.(strays := f.strays - {id}), served)
  {
    var g := f.(strays := f.strays - {id});
    assert Planned(g) == Planned(f);
  }

  /** A private transfer may go when it is empty or no longer than the partial. */
  lemma DropWork(f: Files, id: nat, served: Metadata -> seq<Byte>)
    requires Sound(f, served) && id in f.work
    requires |f.work[id].bytes| <= Size(f.partial)
    ensures Recovering(f, f.(work := f.work - {id}), served)
  {
    var g := f.(work := f.work - {id});
    assert Planned(g) == if f.record.Some? && f.record.value.temporary == id then None else Planned(f);
  }

  lemma KeepWork(f: Files, served: Metadata -> seq<Byte>)
    requires Sound(f, served) && Planned(f).Some? && Size(Planned(f)) > Size(f.partial)
    ensures Recovering(f, f.(work := f.work - {f.record.value.temporary}, partial := Planned(f)), served)
  {
    var g := f.(work := f.work - {f.record.value.temporary}, partial := Planned(f));
    assert Planned(g) == None;
  }

  lemma DropRecord(f: Files, served: Metadata -> seq<Byte>)
    requires Sound(f, served) && Planned(f).None?
    ensures Recovering(f, f.(record := None), served)
  {
  }

  /** A recorded transfer is under way with these bytes. */
  predicate Transferring(f: Files, id: nat, handle: nat, bytes: seq<Byte>) {
    && f.record.Some? && f.record.value.temporary == id
    && f.work == map[id := Content(handle, bytes)]
  }

  function Published(f: Files, id: nat): Files
    requires id in f.work
  {
    f.(partial := Some(f.work[id]), work := f.work - {id})
  }

  lemma AdoptSound(f: Files, id: nat, served: Metadata -> seq<Byte>)
    requires Sound(f, served) && f.record.Some? && f.record.value.temporary == id
    requires id in f.work && f.work.Keys == {id} && f.work[id].bytes == [] && f.partial.Some?
        && f.partial.value.bytes != []
    ensures var g := f.(partial := None, work := map[id := f.partial.value]);
            Sound(g, served) && Best(g) == Best(f)
    ensures Sound(f.(work := map[]), served) && Best(f.(work := map[])) == Best(f)
  {
    var g := f.(partial := None, work := map[id := f.partial.value]);
    assert Planned(g) == f.partial;
    assert Planned(f.(work := map[])) == None;
  }

  /** Bytes that continue what is there, up to the pinned size. */
  lemma AppendSound(f: Files, id: nat, handle: nat, expected: Metadata, have: seq<Byte>, body: seq<Byte>, to: nat,
      served: Metadata -> seq<Byte>)
    requires Sound(f, served) && f.record.Some? && f.record.value.partial == expected
    requires have + body == served(expected) && to <= |body| && |have| + to <= expected.size
    requires f.record.value.temporary == id && f.work.Keys == {id}
    ensures Sound(f.(work := map[id := Content(handle, have + body[..to])]), served)
  {
    var g := f.(work := map[id := Content(handle, have + body[..to])]);
    assert Planned(g) == Some(Content(handle, have + body[..to]));
    assert (have + body)[..|have| + to] == have + body[..to];
  }

  lemma PublishSound(f: Files, id: nat, served: Metadata -> seq<Byte>)
    requires Sound(f, served) && f.record.Some? && f.record.value.temporary == id && f.work.Keys == {id}
    ensures Sound(Published(f, id), served) && Planned(Published(f, id)).None?
  {
    assert Planned(f) == Some(f.work[id]);
  }

  /** The status of an answer: 200, 206 with the first byte it starts at, another 2xx, or any other. */
  datatype Answer = WholeFile | RangeFrom(start: nat) | OtherSuccess | Refusal

  /** What the body of an answer is: the file, or the rest of it from where the range starts. */
  function BodyOf(answer: Answer, file: seq<Byte>): seq<Byte> {
    match answer
    case WholeFile => file
    case RangeFrom(start) => if start <= |file| then file[start..] else []
    case OtherSuccess => file
    case Refusal => []
  }

  datatype Attempt = Finished | Stopped | Died | Going

  /** The installed file: the pinned size and digest, and bytes the server has. */
  ghost predicate Installed(final: Option<Content>, expected: Metadata, served: Metadata -> seq<Byte>,
      digest: seq<Byte> -> string) {
    && final.Some? && |final.value.bytes| == expected.size && digest(final.value.bytes) == expected.digest
    && final.value.bytes <= served(expected)
  }

  /** The server has the pinned entry: its size, not zero, and its digest. */
  predicate Serves(expected: Metadata, served: Metadata -> seq<Byte>, digest: seq<Byte> -> string) {
    expected.size > 0 && |served(expected)| == expected.size && digest(served(expected)) == expected.digest
  }

  /** The server's bytes up to the pinned size do not have the pinned digest. */
  predicate Mispinned(expected: Metadata, served: Metadata -> seq<Byte>, digest: seq<Byte> -> string) {
    expected.size <= |served(expected)| && digest(served(expected)[..expected.size]) != expected.digest
  }

  /** What was on disk is of another revision. */
  predicate OtherRevision(f: Files, expected: Metadata) {
    f.metadata.Some? && f.metadata != Some(expected)
  }

  lemma ServesPinned(expected: Metadata, served: Metadata -> seq<Byte>, digest: seq<Byte> -> string)
    requires Serves(expected, served, digest)
    ensures !Mispinned(expected, served, digest)
  {
    assert served(expected)[..expected.size] == served(expected);
  }

  /** The partial is what the server has up to its size. */
  lemma PartialIsPrefix(f: Files, expected: Metadata, served: Metadata -> seq<Byte>)
    requires Sound(f, served) && f.metadata == Some(expected)
    ensures Size(f.partial) <= |served(expected)|
    ensures f.partial.Some? ==> f.partial.value.bytes == served(expected)[..Size(f.partial)]
  {
  }

  /** A transfer that grows is what can be resumed, if it was no shorter than the partial. */
  lemma Appended(before: Files, after: Files, id: nat)
    requires before.record.Some? && before.record.value.temporary == id && before.work.Keys == {id}
    requires after == before.(work := after.work) && after.work.Keys == {id}
    requires |after.work[id].bytes| >= |before.work[id].bytes|
    ensures Planned(after) == Some(after.work[id]) && Planned(before) == Some(before.work[id])
    ensures Size(Best(after)) >= Size(Best(before))
  {
  }

  lemma BestClean(f: Files)
    requires Clean(f)
    ensures Best(f) == f.partial
  {
  }

  class Downloads {
    var files: Files
    ghost var faults: nat
    ghost var crashes: nat
    /** How often the server answered a request for the rest with the whole file. */
    ghost var restarts: nat
    /** What the server holds for each revision, and how contents are hashed. */
    const served: Metadata -> seq<Byte>
    const digest: seq<Byte> -> string

    constructor (files: Files, served: Metadata -> seq<Byte>, digest: seq<Byte> -> string)
      ensures this.files == files && faults == crashes == restarts == 0 && this.served == served
          && this.digest == digest
    {
      this.files, this.served, this.digest := files, served, digest;
      faults, crashes, restarts := 0, 0, 0;
    }

    method Interrupt() returns (r: Step)
      modifies `faults, `crashes
      ensures faults == old(faults) + Tick(r.Failed?) && crashes == old(crashes) + Tick(r.Crashed?)
    {
      r := AnyStep();
      faults, crashes := faults + Tick(r.Failed?), crashes + Tick(r.Crashed?);
    }

    /** A cancellation, or something the server or the network did; counted as a fault too. */
    method Trouble() returns (t: bool)
      modifies `faults
      ensures if t then faults > old(faults) else faults == old(faults)
    {
      t := *;
      if t { faults := faults + 1; }
    }

    // ----- atomic changes -----

    method Change(after: Files) returns (r: Step)
      modifies `files, `faults, `crashes
      ensures crashes == old(crashes) + Tick(r.Crashed?)
      ensures files == old(files) || files == after
      ensures r.Done? ==> files == after
      ensures r.Failed? ==> faults > old(faults)
      ensures faults >= old(faults)
    {
      r := Interrupt();
      if !r.Done? { return; }
      files := after;
      r := Interrupt();
    }

    // ----- recovery -----

    method RemoveStrays() returns (r: Recovery)
      modifies `files, `faults, `crashes
      ensures crashes == old(crashes) + Tick(r.Halted?)
      ensures faults >= old(faults)
      ensures files == old(files).(strays := files.strays)
      ensures old(Sound(files, served)) ==>
                && Recovering(old(files), files, served)
                && (r.Recovered? ==> files.strays == {})
                && (r.Refused? ==> faults > old(faults))
    {
      hide Best, Planned;
      ghost var sound := Sound(files, served);
      if sound { StartRecovering(files, served); }
      var left := files.strays;
      while left != {}
        invariant faults >= old(faults) && crashes == old(crashes) && left == files.strays
        invariant files == old(files).(strays := files.strays)
        invariant sound ==> Recovering(old(files), files, served)
        decreases left
      {
        var id :| id in left;
        if sound {
          DropStray(files, id, served);
          RecoveringTrans(old(files), files, files.(strays := files.strays - {id}), served);
        }
        var step := Change(files.(strays := files.strays - {id}));
        if !step.Done? { return if step.Crashed? then Halted else Refused; }
        left := left - {id};
      }
      r := Recovered;
    }

    /** Unrecorded private transfers are removed if they are empty. */
    method RemoveUnrecorded() returns (r: Recovery)
      modifies `files, `faults, `crashes
      ensures crashes == old(crashes) + Tick(r.Halted?)
      ensures faults >= old(faults)
      ensures files == old(files).(work := files.work)
      ensures old(Sound(files, served)) ==>
                && Recovering(old(files), files, served)
                && (r.Recovered? ==>
                      forall id :: id in files.work ==> files.record.Some? && files.record.value.temporary == id)
                && (r.Refused? ==> faults > old(faults))
    {
      hide Best, Planned;
      ghost var sound := Sound(files, served);
      if sound { StartRecovering(files, served); }
      var left := files.work.Keys - if files.record.Some? then {files.record.value.temporary} else {};
      while left != {}
        invariant faults >= old(faults) && crashes == old(crashes)
        invariant files == old(files).(work := files.work)
        invariant left == files.work.Keys - if files.record.Some? then {files.record.value.temporary} else {}
        invariant sound ==> Recovering(old(files), files, served)
        decreases left
      {
        var id :| id in left;
        if files.work[id].bytes != [] {
          if sound { UnrecordedEmpty(files, id, served); }
          return Refused;
        }
        if sound {
          DropWork(files, id, served);
          RecoveringTrans(old(files), files, files.(work := files.work - {id}), served);
        }
        var step := Change(files.(work := files.work - {id}));
        if !step.Done? { return if step.Crashed? then Halted else Refused; }
        left := left - {id};
      }
      assert forall id ::
          id in files.work.Keys ==> id in left || (files.record.Some? && files.record.value.temporary == id);
      r := Recovered;
    }

    /** The recorded transfer becomes the partial if it holds more, and goes otherwise. */
    method SettlePlanned(expected: Metadata) returns (r: Recovery)
      requires files.record.Some?
      modifies `files, `faults, `crashes
      ensures crashes == old(crashes) + Tick(r.Halted?)
      ensures faults >= old(faults)
      ensures files == old(files).(work := files.work, partial := files.partial)
      ensures old(Sound(files, served)) && old(files).record.value.partial == expected ==>
                && Recovering(old(files), files, served)
                && (r.Recovered? ==> old(files).record.value.temporary !in files.work)
                && (r.Refused? ==> faults > old(faults))
    {
      ghost var sound := Sound(files, served) && files.record.value.partial == expected;
      if sound { StartRecovering(files, served); }
      var id := files.record.value.temporary;
      if id in files.work {
        var size := |files.work[id].bytes|;
        if size > expected.size { return Refused; }
        var bound := files.partial.Some? && |files.partial.value.bytes| <= expected.size
            && files.metadata == Some(expected);
        if files.partial.Some? && !bound { return Refused; }
        var after := files.(work := files.work - {id});
        if size == 0 || (bound && |files.partial.value.bytes| >= size) {
          if sound { DropWork(files, id, served); }
        } else {
          if sound { KeepWork(files, served); }
          after := after.(partial := Some(files.work[id]));
        }
        var step := Change(after);
        if !step.Done? { return if step.Crashed? then Halted else Refused; }
      }
      r := Recovered;
    }

    method RecoverPrivateWrite(expected: Metadata) returns (r: Recovery)
      modifies `files, `faults, `crashes
      ensures crashes == old(crashes) + Tick(r.Halted?)
      ensures faults >= old(faults)
      ensures files.final == old(files).final && files.metadata == old(files).metadata
      ensures old(Sound(files, served)) ==>
                && Recovering(old(files), files, served)
                && (r.Recovered? ==> Clean(files) && files.partial == Best(old(files)))
                && (r.Refused? ==> faults > old(faults) || !Recoverable(old(files), expected))
      ensures !Recoverable(old(files), expected) ==> !r.Recovered? && !Recoverable(files, expected)
    {
      hide Best, Planned, Recovering, Sound, Clean;
      ghost var d0 := files;
      ghost var sound := Sound(files, served);
      if sound { StartRecovering(files, served); }
      var step := Interrupt();
      if !step.Done? { return if step.Crashed? then Halted else Refused; }
      if |files.work| > PRIVATE_WRITE_MAX_ENTRIES || |files.strays| > PRIVATE_WRITE_MAX_ENTRIES { return Refused; }
      r := RemoveStrays();
      if sound { SoundAfter(d0, files, served); }
      if !r.Recovered? { return; }
      if files.record.Some? {
        var record := files.record.value;
        if record.schemaVersion != 1 || record.owner != OWNER || record.partial != expected {
          if sound { RecordKept(d0, files, served); }
          return Refused;
        }
      }
      ghost var d1 := files;
      r := RemoveUnrecorded();
      if sound { RecoveringTrans(d0, d1, files, served); SoundAfter(d0, files, served); }
      if !r.Recovered? || files.record.None? {
        if r.Recovered? && sound { NothingLeft(d0, files, served); }
        return;
      }
      ghost var d2 := files;
      r := SettlePlanned(expected);
      if sound { RecoveringTrans(d0, d2, files, served); SoundAfter(d0, files, served); }
      if !r.Recovered? { return; }
      ghost var d3 := files;
      if sound { NothingPlanned(d2, d3); DropRecord(d3, served); }
      step := Change(files.(record := None));
      if sound {
        if files != d3 { RecoveringTrans(d0, d3, files, served); }
        SoundAfter(d0, files, served);
      }
      if !step.Done? { return if step.Crashed? then Halted else Refused; }
      r := Recovered;
      if sound { NothingLeft(d0, files, served); }
    }

    // ----- one attempt -----

    /** Removes the partial, then its metadata. */
    method ResetPartial() returns (r: Step)
      requires Sound(files, served) && files.record.None?
      modifies `files, `faults, `crashes
      ensures files.metadata == old(files).metadata || files.metadata.None?
      ensures crashes == old(crashes) + Tick(r.Crashed?)
      ensures faults >= old(faults) && (r.Failed? ==> faults > old(faults))
      ensures Sound(files, served)
      ensures files == old(files).(partial := files.partial, metadata := files.metadata)
      ensures files.partial.None? || files.partial == old(files).partial
      ensures r.Done? ==> files.partial.None? && files.metadata.None?
    {
      r := Change(files.(partial := None));
      if !r.Done? { return; }
      r := Change(files.(metadata := None));
    }

    method WriteMetadata(expected: Metadata) returns (r: Step)
      requires Sound(files, served) && files.record.None?
      requires files.partial.Some? ==> files.metadata == Some(expected)
      modifies `files, `faults, `crashes
      ensures crashes == old(crashes) + Tick(r.Crashed?)
      ensures faults >= old(faults) && (r.Failed? ==> faults > old(faults))
      ensures Sound(files, served)
      ensures files == old(files).(metadata := files.metadata)
      ensures files.metadata == old(files).metadata || files.metadata == Some(expected)
      ensures r.Done? ==> files.metadata == Some(expected)
    {
      var cancelled := Trouble();
      if cancelled { return Failed; }
      r := Change(files.(metadata := Some(expected)));
    }

    /** An empty private transfer under an unused id. */
    method CreateWork() returns (r: Step, id: nat, inode: nat)
      requires Sound(files, served) && Clean(files)
      modifies `files, `faults, `crashes
      ensures crashes == old(crashes) + Tick(r.Crashed?)
      ensures faults >= old(faults) && (r.Failed? ==> faults > old(faults))
      ensures Sound(files, served)
      ensures files == old(files).(work := files.work)
      ensures files.work == map[] || files.work == map[id := Content(inode, [])]
      ensures files.partial.Some? ==> files.partial.value.inode != inode
      ensures r.Done? ==> files.work == map[id := Content(inode, [])]
    {
      id, inode := *, *;
      if files.partial.Some? && files.partial.value.inode == inode { inode := inode + 1; }
      r := Change(files.(work := map[id := Content(inode, [])]));
    }

    /** The record is written under a private name first; a failure may leave that name. */
    method WriteRecord(record: Record) returns (r: Step)
      requires Sound(files, served) && files.record.None? && files.strays == {}
      requires files.work.Keys == {record.temporary} && files.work[record.temporary].bytes == []
      requires record.schemaVersion == 1 && record.owner == OWNER && files.metadata == Some(record.partial)
      modifies `files, `faults, `crashes
      ensures crashes == old(crashes) + Tick(r.Crashed?)
      ensures faults >= old(faults) && (r.Failed? ==> faults > old(faults))
      ensures Sound(files, served)
      ensures files == old(files).(record := files.record, strays := files.strays)
      ensures files.record.None? || files.record == Some(record)
      ensures r.Done? ==> files.record == Some(record) && files.strays == {}
    {
      var cancelled := Trouble();
      if cancelled { return Failed; }
      var stray: nat := *;
      ghost var f := files;
      r := Change(files.(strays := {stray}));
      assert Planned(files) == Planned(f);
      if !r.Done? { return; }
      cancelled := Trouble();
      if cancelled {
        r := Change(files.(strays := {}));
        assert Planned(files) == Planned(f);
        return if r.Crashed? then Crashed else Failed;
      }
      r := Change(files.(strays := {}, record := Some(record)));
    }

    /** Removes the private transfer unless another file has taken its name. */
    method Discard(id: nat, handle: nat) returns (r: Step)
      requires Sound(files, served)
      modifies `files, `faults, `crashes
      ensures crashes == old(crashes) + Tick(r.Crashed?)
      ensures faults >= old(faults)
      ensures Sound(files, served)
      ensures files == old(files) || (id in old(files).work && old(files).work[id].inode == handle
                                      && files == old(files).(work := old(files).work - {id}))
      ensures r.Done? ==> id !in files.work
    {
      r := Interrupt();
      if !r.Done? { return; }
      if id !in files.work { return; }
      if files.work[id].inode != handle { return Failed; }
      ghost var f := files;
      r := Change(files.(work := files.work - {id}));
      assert files != f ==>
          Planned(files) == if f.record.Some? && f.record.value.temporary == id then None else Planned(f);
    }

    method RemoveRecord() returns (r: Step)
      requires Sound(files, served) && Planned(files).None?
      modifies `files, `faults, `crashes
      ensures crashes == old(crashes) + Tick(r.Crashed?)
      ensures faults >= old(faults) && (r.Failed? ==> faults > old(faults))
      ensures Sound(files, served)
      ensures files == old(files) || files == old(files).(record := None)
      ensures r.Done? ==> files.record.None?
    {
      if files.record.None? { return Done; }
      r := Change(files.(record := None));
    }

    /** The partial becomes the private transfer. If the handle file is not the expected one
        it is put back. */
    method Adopt(id: nat, handle: nat) returns (r: Step, inode: nat)
      requires Sound(files, served) && Transferring(files, id, handle, [])
      requires files.partial.Some? && files.partial.value.bytes != []
      modifies `files, `faults, `crashes
      ensures crashes == old(crashes) + Tick(r.Crashed?)
      ensures faults >= old(faults) && (r.Failed? ==> faults > old(faults))
      ensures Sound(files, served) && Best(files) == Best(old(files))
      ensures files == old(files).(partial := files.partial, work := files.work)
      ensures r.Done? ==> Transferring(files, id, inode, old(files).partial.value.bytes) && files.partial.None?
      ensures !r.Done? ==>
                || files == old(files)
                || files == old(files).(partial := None, work := map[id := old(files).partial.value])
                || files == old(files).(work := map[])
    {
      var content := files.partial.value;
      inode := content.inode;
      var before := files;
      AdoptSound(before, id, served);
      r := Change(before.(partial := None, work := map[id := content]));
      if !r.Done? { return; }
      r := Interrupt();
      if r.Failed? {
        var back := Change(before.(work := map[]));
        if back.Crashed? { r := Crashed; }
      }
    }

    /** One chunk of the body, behind what has been written of it. */
    method WriteChunk(id: nat, expected: Metadata, chunk: seq<Byte>, ghost have: seq<Byte>, ghost body: seq<Byte>,
        ghost written: nat)
      returns (r: Step)
      requires Sound(files, served) && files.record.Some? && files.record.value.temporary == id
      requires files.record.value.partial == expected && files.work.Keys == {id}
      requires have + body == served(expected) && written + |chunk| <= |body|
      requires files.work[id].bytes == have + body[..written]
      requires body[written..written + |chunk|] == chunk
      requires |have| + written + |chunk| <= expected.size
      modifies `files, `faults, `crashes
      ensures crashes == old(crashes) + Tick(r.Crashed?)
      ensures faults >= old(faults) && (r.Failed? ==> faults > old(faults))
      ensures Sound(files, served)
      ensures var after := old(files).(work :=
                map[id := Content(old(files).work[id].inode, have + body[..written + |chunk|])]);
              (files == old(files) || files == after) && (r.Done? ==> files == after)
    {
      var content := files.work[id].(bytes := files.work[id].bytes + chunk);
      AppendSound(files, id, content.inode, expected, have, body, written + |chunk|, served);
      assert body[..written] + chunk == body[..written + |chunk|];
      assert content.bytes == have + body[..written + |chunk|];
      r := Change(files.(work := map[id := content]));
    }

    /** Writes the body behind what is there, one chunk at a time, as long as it fits the pinned
        size. `arrived` is how much of it was written. */
    method Transfer(id: nat, handle: nat, expected: Metadata, start: nat, body: seq<Byte>)
      returns (r: Step, complete: bool, ghost arrived: nat)
      requires Sound(files, served) && start <= expected.size && start <= |served(expected)|
      requires Transferring(files, id, handle, served(expected)[..start]) && files.record.value.partial == expected
      requires served(expected)[..start] + body == served(expected)
      modifies `files, `faults, `crashes
      ensures crashes == old(crashes) + Tick(r.Crashed?)
      ensures faults >= old(faults)
      ensures Sound(files, served) && !r.Failed? && arrived <= |body|
      ensures files == old(files).(work := map[id := Content(handle, served(expected)[..start] + body[..arrived])])
      ensures complete ==> r.Done? && start + arrived == expected.size && arrived == |body|
      ensures r.Done? && !complete ==> faults > old(faults) || start + |body| != expected.size
    {
      hide Sound, PrefixOf;
      ghost var have := served(expected)[..start];
      var fileBytes := start;
      complete, arrived := false, 0;
      assert have + body[..0] == have;
      while true
        invariant fileBytes == start + arrived <= expected.size && arrived <= |body|
        invariant faults >= old(faults) && crashes == old(crashes) && Sound(files, served)
        invariant files == old(files).(work := map[id := Content(handle, have + body[..arrived])])
        decreases expected.size - fileBytes
      {
        var stopped := Trouble();            // cancelled, timed out, or cut off
        if stopped { return Done, false, arrived; }
        var written := fileBytes - start;
        if written == |body| { return Done, fileBytes == expected.size, arrived; }
        var chunk: int := *;
        if !(0 < chunk <= |body| - written) { chunk := 1; }
        if chunk > expected.size - fileBytes { return Done, false, arrived; }
        ghost var before := files;
        r := WriteChunk(id, expected, body[written..written + chunk], have, body, written);
        if files != before { arrived := written + chunk; }
        if r.Crashed? { return; }
        if r.Failed? { return Done, false, arrived; }
        arrived := written + chunk;
        fileBytes := fileBytes + chunk;
      }
    }

    /** The private transfer becomes the partial. */
    method Publish(id: nat, handle: nat) returns (r: Step)
      requires Sound(files, served) && files.record.Some? && files.record.value.temporary == id
      requires files.work.Keys == {id} && files.work[id].inode == handle
      modifies `files, `faults, `crashes
      ensures crashes == old(crashes) + Tick(r.Crashed?)
      ensures faults >= old(faults) && (r.Failed? ==> faults > old(faults))
      ensures Sound(files, served)
      ensures files == old(files) || files == Published(old(files), id)
      ensures r.Done? ==> files == Published(old(files), id)
    {
      PublishSound(files, id, served);
      r := Change(Published(files, id));
    }

    method Install(expected: Metadata) returns (r: Step)
      requires Sound(files, served) && Clean(files) && files.partial.Some? && files.metadata == Some(expected)
      modifies `files, `faults, `crashes
      ensures files.metadata == old(files).metadata || files.metadata.None?
      ensures crashes == old(crashes) + Tick(r.Crashed?)
      ensures faults >= old(faults) && (r.Failed? ==> faults > old(faults))
      ensures Sound(files, served) && Clean(files)
      ensures files == old(files) || (files.final == old(files).partial && files.partial.None?)
      ensures r.Done? ==> files.final == old(files).partial && files.partial.None? && files.metadata.None?
    {
      r := Change(files.(final := files.partial, partial := None));
      if !r.Done? { return; }
      r := Change(files.(metadata := None));
    }

    // ----- a whole attempt -----

    /** What the code trusts from an earlier attempt; anything else is reset. */
    method Prepare(expected: Metadata) returns (r: Step, offset: nat, ghost reset: bool)
      requires Sound(files, served) && Clean(files)
      modifies `files, `faults, `crashes
      ensures files.metadata == old(files).metadata || files.metadata.None? || files.metadata == Some(expected)
      ensures crashes == old(crashes) + Tick(r.Crashed?)
      ensures faults >= old(faults) && (r.Failed? ==> faults > old(faults))
      ensures Sound(files, served) && Clean(files) && files.final == old(files).final
      ensures !reset ==> files == old(files).(metadata := files.metadata)
      ensures reset ==> old(files).metadata.Some? && old(files).metadata != Some(expected)
      ensures r.Done? ==> files.metadata == Some(expected) && offset == Size(files.partial)
    {
      var safe := files.partial.Some? && files.metadata == Some(expected)
          && |files.partial.value.bytes| <= expected.size;
      offset, reset := 0, false;
      if safe {
        offset := |files.partial.value.bytes|;
      } else if files.partial.Some? || files.metadata.Some? {
        reset := files.metadata != Some(expected);
        r := ResetPartial();
        if !r.Done? { return; }
      }
      r := Done;
      if offset == 0 {
        r := WriteMetadata(expected);
      }
    }

    /** The private transfer, its record, and what the partial already holds. */
    method OpenTransfer(expected: Metadata, offset: nat) returns (r: Step, id: nat, handle: nat)
      requires Sound(files, served) && Clean(files)
      requires files.metadata == Some(expected) && (offset > 0 ==> offset == Size(files.partial))
      modifies `files, `faults, `crashes
      ensures files.metadata == old(files).metadata
      ensures crashes == old(crashes) + Tick(r.Crashed?)
      ensures faults >= old(faults) && (r.Failed? ==> faults > old(faults))
      ensures Sound(files, served) && files.final == old(files).final
      ensures Size(Best(files)) >= Size(Best(old(files)))
      ensures r.Done? ==>
                && Transferring(files, id, handle, served(expected)[..offset]) && files.record.value.partial == expected
                && files.metadata == Some(expected) && files.strays == {}
                && offset <= |served(expected)| && offset <= expected.size
    {
      r, id, handle := CreateWork();
      if !r.Done? { return; }
      ghost var f := files;
      r := WriteRecord(Record(1, OWNER, id, expected));
      if r.Crashed? { return; }
      if r.Failed? {
        var cleanup := Discard(id, handle);
        return if cleanup.Crashed? then Crashed else Failed, id, handle;
      }
      assert served(expected)[..0] == [];
      if offset > 0 {
        assert files.partial.value.bytes == served(expected)[..offset];
        var adopted;
        r, adopted := AdoptPartial(id, handle);
        handle := adopted;
      }
    }

    method AdoptPartial(id: nat, handle: nat) returns (r: Step, adopted: nat)
      requires Sound(files, served) && Transferring(files, id, handle, [])
      requires files.partial.Some? && files.partial.value.bytes != [] && files.partial.value.inode != handle
      modifies `files, `faults, `crashes
      ensures files.metadata == old(files).metadata
      ensures crashes == old(crashes) + Tick(r.Crashed?)
      ensures faults >= old(faults) && (r.Failed? ==> faults > old(faults))
      ensures Sound(files, served) && files.final == old(files).final
      ensures Best(files) == Best(old(files))
      ensures r.Done? ==> Transferring(files, id, adopted, old(files).partial.value.bytes)
                          && files == old(files).(partial := None, work := files.work)
    {
      ghost var before := files;
      r, adopted := Adopt(id, handle);
      if !r.Failed? { return; }
      AdoptSound(before, id, served);
      assert before.work - {id} == map[];
      var cleanup := Discard(id, handle);
      if cleanup.Done? {
        assert files.work == map[] && Planned(files) == None;
        cleanup := RemoveRecord();
        assert Planned(files) == None;
      }
      r := if cleanup.Crashed? then Crashed else Failed;
    }

    /** Publishes what arrived, whether the transfer completed or not. */
    method CloseTransfer(id: nat, handle: nat) returns (r: Step)
      requires Sound(files, served) && files.record.Some? && files.record.value.temporary == id
      requires files.work.Keys == {id} && files.work[id].inode == handle
      modifies `files, `faults, `crashes
      ensures files.metadata == old(files).metadata
      ensures crashes == old(crashes) + Tick(r.Crashed?)
      ensures faults >= old(faults) && (r.Failed? ==> faults > old(faults))
      ensures Sound(files, served) && files.final == old(files).final
      ensures Size(Best(files)) >= Size(Planned(old(files)))
      ensures Size(Planned(old(files))) >= Size(old(files).partial) ==> Size(Best(files)) >= Size(Best(old(files)))
      ensures r.Done? ==> files == Published(old(files), id).(record := None)
    {
      ghost var before := files;
      assert Planned(before) == Some(before.work[id]);
      r := Publish(id, handle);
      if files != before { PublishSound(before, id, served); }
      if !r.Done? { return; }
      r := RemoveRecord();
      assert Planned(files) == None;
    }

    /** A complete partial is installed if its digest is the pinned one, and reset otherwise. */
    method Verify(expected: Metadata) returns (r: Step, installed: bool)
      requires Sound(files, served) && Clean(files)
      requires files.metadata == Some(expected) && files.partial.Some?
      modifies `files, `faults, `crashes
      ensures files.metadata == old(files).metadata || files.metadata.None?
      ensures crashes == old(crashes) + Tick(r.Crashed?)
      ensures faults >= old(faults) && (r.Failed? ==> faults > old(faults))
      ensures Sound(files, served) && Clean(files)
      ensures files.final == old(files).final || (files.final == old(files).partial
          && digest(files.final.value.bytes) == expected.digest)
      ensures installed ==> r.Done? && files.final == old(files).partial && files.partial.None? && files.metadata.None?
                            && digest(files.final.value.bytes) == expected.digest
      ensures digest(old(files).partial.value.bytes) == expected.digest ==>
          files.partial == old(files).partial || files.final == old(files).partial
      ensures r.Done? && !installed ==>
          files.partial.None? && files.metadata.None? && digest(old(files).partial.value.bytes) != expected.digest
    {
      installed := false;
      r := Interrupt();
      if !r.Done? { return; }
      if digest(files.partial.value.bytes) == expected.digest {
        var cancelled := Trouble();
        if cancelled { return Failed, false; }
        r := Install(expected);
        installed := r.Done?;
      } else {
        r := ResetPartial();
      }
    }

    /** The answer to a request for everything, or for the bytes from `offset` on: the whole
        file, or the range that was asked for. Anything else is trouble; without a range in
        the request there is none in the answer (section 15.3.7 of RFC 9110). */
    method Request(expected: Metadata, offset: nat) returns (r: Step, answer: Answer, body: seq<Byte>)
      modifies `faults, `crashes, `restarts
      ensures crashes == old(crashes) + Tick(r.Crashed?)
      ensures faults >= old(faults) && (r.Failed? ==> faults > old(faults))
      ensures restarts == old(restarts) + Tick(r.Done? && answer.WholeFile? && offset > 0)
      ensures offset == 0 ==> !answer.RangeFrom?
      ensures answer.Refusal? || (offset > 0 && !answer.WholeFile? && answer != RangeFrom(offset)) ==>
          faults > old(faults)
      ensures body == BodyOf(answer, served(expected))
    {
      r := Interrupt();
      var choice: int, start: nat := *, *;
      answer := if offset == 0 then (if choice == 0 then OtherSuccess else WholeFile)
                else (if choice == 0 then WholeFile else RangeFrom(offset));
      var trouble := Trouble();
      if trouble {
        answer := if offset == 0 || choice == 1 then Refusal
                  else if choice == 2 then OtherSuccess else RangeFrom(start);
      }
      body := BodyOf(answer, served(expected));
      restarts := restarts + Tick(r.Done? && answer.WholeFile? && offset > 0);
    }

    /** Fetches what is missing after `offset`. `restarted`: the server sent everything again.
        `arrived` is how much of the answer was written; once it is closed, the partial is what
        there was, or nothing if everything was sent again, and that much of the answer. */
    method Fetch(expected: Metadata, offset: nat)
      returns (r: Step, complete: bool, ghost restarted: bool, ghost body: seq<Byte>, ghost arrived: nat)
      requires Sound(files, served) && Clean(files)
      requires files.metadata == Some(expected) && offset == Size(files.partial)
      modifies `files, `faults, `crashes, `restarts
      ensures files.metadata == old(files).metadata
      ensures crashes == old(crashes) + Tick(r.Crashed?)
      ensures faults >= old(faults) && (r.Failed? ==> faults > old(faults))
      ensures Sound(files, served) && files.final == old(files).final
      ensures !restarted ==> Size(Best(files)) >= Size(Best(old(files)))
      ensures restarts == old(restarts) + Tick(restarted)
      ensures r.Done? ==>
                && offset <= |served(expected)|
                && body == (if restarted then served(expected) else served(expected)[offset..])
                && arrived <= |body| && Clean(files) && files.partial.Some?
                && files.partial.value.bytes
                   == (if restarted || offset == 0 then [] else old(files).partial.value.bytes) + body[..arrived]
                && (complete ==> arrived == |body|)
      ensures r.Done? && !complete ==> faults > old(faults) || |served(expected)| != expected.size
      ensures complete ==> r.Done? && Clean(files) && files.metadata == Some(expected)
                           && files.partial.Some? && |files.partial.value.bytes| == expected.size
    {
      hide Planned, Sound;
      complete, restarted, arrived := false, false, 0;
      BestClean(files);
      var answer, content;
      r, answer, content := Request(expected, offset);
      body := content;
      if !r.Done? { return; }
      var start := offset;
      match answer {
        case WholeFile =>
          start := 0;
          restarted := offset > 0;
        case RangeFrom(from) => if from != offset { return Failed, false, false, body, 0; }
        case OtherSuccess => if offset > 0 { return Failed, false, false, body, 0; }
        case Refusal => return Failed, false, false, body, 0;
      }
      PartialIsPrefix(files, expected, served);
      assert served(expected)[..start] + content == served(expected);
      r, complete, arrived := Receive(expected, start, content);
    }

    /** Opens the transfer, receives the body behind the first `start` bytes and closes it. */
    method Receive(expected: Metadata, start: nat, body: seq<Byte>)
      returns (r: Step, complete: bool, ghost arrived: nat)
      requires Sound(files, served) && Clean(files) && files.metadata == Some(expected)
      requires start > 0 ==> start == Size(files.partial)
      requires start <= |served(expected)| && served(expected)[..start] + body == served(expected)
      modifies `files, `faults, `crashes
      ensures files.metadata == old(files).metadata
      ensures crashes == old(crashes) + Tick(r.Crashed?)
      ensures faults >= old(faults) && (r.Failed? ==> faults > old(faults))
      ensures Sound(files, served) && files.final == old(files).final
      ensures start == Size(old(files).partial) ==> Size(Best(files)) >= Size(Best(old(files)))
      ensures r.Done? ==>
                && arrived <= |body| && Clean(files) && files.partial.Some?
                && files.partial.value.bytes == served(expected)[..start] + body[..arrived]
      ensures r.Done? && !complete ==> faults > old(faults) || |served(expected)| != expected.size
      ensures complete ==> r.Done? && start + arrived == expected.size && arrived == |body|
    {
      hide Planned, Sound;
      complete, arrived := false, 0;
      BestClean(files);
      var id, handle;
      r, id, handle := OpenTransfer(expected, start);
      if !r.Done? { return; }
      ghost var f := files;
      r, complete, arrived := Transfer(id, handle, expected, start, body);
      Appended(f, files, id);
      if r.Crashed? { return; }
      var finished := complete;
      complete := false;
      r := CloseTransfer(id, handle);
      if !r.Done? { return; }
      complete := finished;
    }

    /** One call of the download of one file. Short of errors, crashes and trouble it installs
        what the server has, if that is the pinned entry. */
    method DownloadFile(expected: Metadata) returns (r: Attempt)
      requires Sound(files, served)
      modifies `files, `faults, `crashes, `restarts
      ensures crashes == old(crashes) + Tick(r.Died?)
      ensures faults >= old(faults) && restarts >= old(restarts)
      ensures Sound(files, served)
      ensures files.final == old(files).final || Installed(files.final, expected, served, digest)
      ensures files.metadata == old(files).metadata || files.metadata.None? || files.metadata == Some(expected)
      ensures r.Finished? ==>
          Clean(files) && files.partial.None? && files.metadata.None?
          && Installed(files.final, expected, served, digest)
      ensures || Installed(files.final, expected, served, digest) || Size(Best(files)) >= Size(Best(old(files)))
              || restarts > old(restarts) || Mispinned(expected, served, digest) || OtherRevision(old(files), expected)
      ensures !r.Going?
      ensures !Recoverable(old(files), expected) ==>
          !r.Finished? && files.final == old(files).final && !Recoverable(files, expected)
      ensures r.Stopped? && faults == old(faults) ==>
          !Recoverable(old(files), expected) || !Serves(expected, served, digest)
    {
      hide Best, Planned, Recovering;
      ghost var d0 := files;
      var recovery := RecoverPrivateWrite(expected);
      SoundAfter(d0, files, served);
      if !recovery.Recovered? { return if recovery.Halted? then Died else Stopped; }
      BestClean(files);
      ghost var reset;
      var step, offset;
      step, offset, reset := Prepare(expected);
      BestClean(files);
      if !step.Done? { return if step.Crashed? then Died else Stopped; }
      if offset == expected.size {
        r := VerifyComplete(expected);
        BestClean(files);
        if !r.Going? { return; }
        offset := 0;
      }
      r := FetchAndVerify(expected, offset);
    }

    /** A partial that is complete already; one with the wrong digest is started over. */
    method VerifyComplete(expected: Metadata) returns (r: Attempt)
      requires Sound(files, served) && Clean(files)
      requires files.metadata == Some(expected) && Size(files.partial) == expected.size
      modifies `files, `faults, `crashes
      ensures crashes == old(crashes) + Tick(r.Died?)
      ensures faults >= old(faults)
      ensures Sound(files, served) && Clean(files)
      ensures files.final == old(files).final || Installed(files.final, expected, served, digest)
      ensures files.metadata.None? || files.metadata == Some(expected)
      ensures r.Finished? ==>
          files.partial.None? && files.metadata.None? && Installed(files.final, expected, served, digest)
      ensures r.Stopped? && faults == old(faults) ==> expected.size == 0
      ensures r.Going? ==>
          Mispinned(expected, served, digest) && files.metadata == Some(expected) && files.partial.None?
      ensures || Installed(files.final, expected, served, digest) || files.partial == old(files).partial
              || Mispinned(expected, served, digest)
    {
      if files.partial.None? { return Stopped; }
      var partial := files.partial.value;
      CompleteIsPinned(files, expected, served);
      var step, installed := Verify(expected);
      if installed { return Finished; }
      if step.Done? { step := WriteMetadata(expected); }
      r := if step.Done? then Going else if step.Crashed? then Died else Stopped;
    }

    method FetchAndVerify(expected: Metadata, offset: nat) returns (r: Attempt)
      requires Sound(files, served) && Clean(files)
      requires files.metadata == Some(expected) && offset == Size(files.partial)
      modifies `files, `faults, `crashes, `restarts
      ensures crashes == old(crashes) + Tick(r.Died?)
      ensures faults >= old(faults) && restarts >= old(restarts)
      ensures Sound(files, served)
      ensures files.final == old(files).final || Installed(files.final, expected, served, digest)
      ensures files.metadata.None? || files.metadata == Some(expected)
      ensures r.Finished? ==>
          Clean(files) && files.partial.None? && files.metadata.None?
          && Installed(files.final, expected, served, digest)
      ensures || Installed(files.final, expected, served, digest) || Size(Best(files)) >= Size(Best(old(files)))
              || restarts > old(restarts) || Mispinned(expected, served, digest)
      ensures r.Stopped? && faults == old(faults) ==> !Serves(expected, served, digest)
      ensures !r.Going?
    {
      hide Best, Planned;
      var step, complete;
      ghost var restarted, body, arrived;
      step, complete, restarted, body, arrived := Fetch(expected, offset);
      if !complete { return if step.Crashed? then Died else Stopped; }
      ghost var f := files;
      CompleteIsPinned(f, expected, served);
      var installed;
      step, installed := Verify(expected);
      BestClean(f);
      BestClean(files);
      if installed { return Finished; }
      r := if step.Crashed? then Died else Stopped;
    }

    /** Any number of attempts, each possibly cut off by a crash and each by an application
        that pins whatever revision it pins. While they pin one entry, the server has it, and
        the server honours ranges, what can be resumed never gets shorter before it is installed.
        While the disk is one the pinned entry cannot be recovered on, nothing is installed. */
    method DownloadAcrossStarts(pinned: seq<Metadata>)
      requires Sound(files, served)
      modifies `files, `faults, `crashes, `restarts
      ensures Sound(files, served)
      ensures files.final == old(files).final || exists i ::
          0 <= i < |pinned| && Installed(files.final, pinned[i], served, digest)
      ensures restarts >= old(restarts)
      ensures forall expected ::
                restarts == old(restarts) && Steady(pinned, expected)
                && Reliable(old(files), expected, served, digest) ==>
                Installed(files.final, expected, served, digest) || Size(Best(files)) >= Size(Best(old(files)))
      ensures forall expected :: Steady(pinned, expected) && !Recoverable(old(files), expected) ==>
                files.final == old(files).final && !Recoverable(files, expected)
    {
      hide Best, Planned, Mispinned, Serves, Installed, Recoverable;
      ghost var d0 := files;
      for i := 0 to |pinned|
        invariant Sound(files, served) && restarts >= old(restarts)
        invariant files.final == d0.final || exists k :: 0 <= k < i && Installed(files.final, pinned[k], served, digest)
        invariant forall expected ::
                    restarts == old(restarts) && Steady(pinned, expected) && Reliable(d0, expected, served, digest) ==>
                    && !OtherRevision(files, expected)
                    && (Installed(files.final, expected, served, digest) || Size(Best(files)) >= Size(Best(d0)))
        invariant forall expected :: Steady(pinned, expected) && !Recoverable(d0, expected) ==>
                    files.final == d0.final && !Recoverable(files, expected)
      {
        ghost var f := files;
        var r := DownloadFile(pinned[i]);
        if Serves(pinned[i], served, digest) { ServesPinned(pinned[i], served, digest); }
        assert forall expected :: Steady(pinned, expected) ==> pinned[i] == expected;
      }
    }
  }

  /** The server has the pinned entry, and what is on disk belongs to no other. */
  predicate Reliable(f: Files, expected: Metadata, served: Metadata -> seq<Byte>, digest: seq<Byte> -> string) {
    Serves(expected, served, digest) && !OtherRevision(f, expected)
  }

  /** The application pins one and the same entry at every start. */
  ghost predicate Steady(pinned: seq<Metadata>, expected: Metadata) {
    forall i :: 0 <= i < |pinned| ==> pinned[i] == expected
  }

  // ----- what the contracts come to -----

  /** A disk no download of the pinned entry gets past: the record of another revision's transfer. */
  lemma OtherRecordStays(served: Metadata -> seq<Byte>, pinned: Metadata, other: Metadata) returns (f: Files)
    requires pinned != other
    ensures Sound(f, served) && f.metadata == Some(other) && f.work == map[] && f.strays == {}
    ensures !Recoverable(f, pinned) && Recoverable(f, other)
  {
    f := Files(None, None, Some(other), Some(Record(1, OWNER, 0, other)), map[], {});
  }

  /** Recovery keeps the longer of the partial and the recorded transfer, to the byte, and a
      second one has nothing to do. */
  lemma RecoveredIsBest(before: Files, after: Files, served: Metadata -> seq<Byte>)
    requires Sound(before, served) && Recovering(before, after, served) && Clean(after)
    ensures after.partial == Best(before)
    ensures Size(after.partial) == if Size(Planned(before)) > Size(before.partial) then Size(Planned(before))
        else Size(before.partial)
    ensures forall again: Files :: Recovering(after, again, served) && Clean(again) ==> again == after
  {
    assert Planned(after).None?;
    forall again: Files | Recovering(after, again, served) && Clean(again)
      ensures again == after
    {
      assert Planned(again).None?;
    }
  }

  /** Publishing a transfer shortens what can be resumed exactly when the transfer holds less
      than the partial it replaces, as after a restart that was cut off. */
  lemma PublishShrinksIff(f: Files, served: Metadata -> seq<Byte>)
    requires Sound(f, served) && Planned(f).Some? && f.work.Keys == {f.record.value.temporary}
    ensures var g := Published(f, f.record.value.temporary);
            && Best(g) == Planned(f)
            && (Size(Best(g)) < Size(Best(f)) <==> Size(Planned(f)) < Size(f.partial))
  {
    var g := Published(f, f.record.value.temporary);
    PublishSound(f, f.record.value.temporary, served);
  }

  /** A complete partial with the bytes of the pinned revision is the whole of its pinned size. */
  lemma CompleteIsPinned(f: Files, expected: Metadata, served: Metadata -> seq<Byte>)
    requires Sound(f, served) && f.partial.Some? && f.metadata == Some(expected)
    requires |f.partial.value.bytes| == expected.size
    ensures expected.size <= |served(expected)| && f.partial.value.bytes == served(expected)[..expected.size]
    ensures expected.size == |served(expected)| ==> f.partial.value.bytes == served(expected)
  {
  }

  lemma StartRecovering(f: Files, served: Metadata -> seq<Byte>)
    requires Sound(f, served)
    ensures Recovering(f, f, served)
  {
  }

  lemma SoundAfter(before: Files, after: Files, served: Metadata -> seq<Byte>)
    requires Recovering(before, after, served)
    ensures Sound(after, served) && Best(after) == Best(before)
  {
  }

  lemma UnrecordedEmpty(f: Files, id: nat, served: Metadata -> seq<Byte>)
    requires Sound(f, served) && id in f.work && !(f.record.Some? && f.record.value.temporary == id)
    ensures f.work[id].bytes == []
  {
  }

  lemma RecordKept(before: Files, after: Files, served: Metadata -> seq<Byte>)
    requires Sound(before, served) && Recovering(before, after, served) && after.record.Some?
    ensures before.record == after.record && after.record.value.schemaVersion == 1 && after.record.value.owner == OWNER
  {
  }

  lemma NothingPlanned(before: Files, after: Files)
    requires before.record.Some? && after == before.(work := after.work, partial := after.partial)
    requires before.record.value.temporary !in after.work
    ensures Planned(after).None?
  {
  }

  lemma NothingLeft(before: Files, after: Files, served: Metadata -> seq<Byte>)
    requires Recovering(before, after, served) && after.record.None?
    ensures after.partial == Best(before)
    ensures (forall id :: id !in after.work) && after.strays == {} ==> Clean(after)
  {
  }
}
