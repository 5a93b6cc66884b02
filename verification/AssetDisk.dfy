/** The file system under the managed model root, as the asset store sees it.

    A disk is a map from names to files plus the set of removal staging directories.
    Every operation is atomic; before or after any of them the machine may stop
    (`Crashed`), and any of them may report an I/O error (`Failed`), with or without
    its effect. Hashing is abstract: a file carries the digest of its contents. */
module AssetDisk {
  import opened Options
  import opened Steps

  const OWNER := "ch.emin.piu"
  const OWNERSHIP_METADATA_MAX_BYTES: nat := 64 * 1024
  const REMOVAL_RECOVERY_MAX_BYTES: nat := 128 * 1024
  const REMOVAL_RECOVERY_MAX_ENTRIES: nat := 64

  /** Names inside a staging directory. */
  datatype Slot =
    | AssetSlot(index: nat)       // asset-<index>
    | MarkerSlot                  // ownership-marker
    | JournalFile                 // recovery.json
    | JournalTmp                  // recovery.json.tmp
    | PrivateWrite(id: nat)       // .recovery.json.piu-write-<process>-<id>
    | Foreign(name: string)

  datatype Name =
    | Asset(path: seq<string>)    // components of a path under the model root
    | OwnershipFile
    | Staged(dir: string, slot: Slot)

  predicate HexDigit(c: char) {
    '0' <= c <= '9' || 'a' <= c <= 'f' || 'A' <= c <= 'F'
  }

  predicate ValidDigest(digest: string) {
    |digest| == 64 && forall i :: 0 <= i < |digest| ==> HexDigit(digest[i])
  }

  type Digest = s: string | ValidDigest(s) witness seq(64, i => '0')

  datatype Identity = Identity(inode: nat, size: nat, links: nat, changed: int)

  datatype Phase = Staging | Deleting

  datatype Entry = Entry(original: Name, staged: Name, size: nat, digest: string, identity: Option<Identity>)

  datatype Plan = Plan(schemaVersion: nat, owner: string, phase: Phase, dir: string, entries: seq<Entry>)

  datatype OwnedFile = OwnedFile(path: seq<string>, size: nat, digest: string)

  datatype Marker = Marker(schemaVersion: nat, owner: string, repository: string, revision: string,
      files: seq<OwnedFile>)

  datatype Body = Opaque | MarkerBody(marker: Marker) | JournalBody(plan: Plan)

  /** `changed` is the inode change time, which a rename may move. */
  datatype File = File(inode: nat, links: nat, size: nat, changed: int, digest: Digest, body: Body)

  datatype Disk = Disk(files: map<Name, File>, dirs: set<string>)

  function IdentityOf(f: File): Identity {
    Identity(f.inode, f.size, f.links, f.changed)
  }

  /** The same file up to its change time. */
  predicate Same(f: File, g: File) {
    f == g.(changed := f.changed)
  }

  predicate InDir(n: Name, dir: string) {
    n.Staged? && n.dir == dir
  }

  /** `to` now names the file `from` named; nothing else changed. */
  predicate Moved(before: Disk, after: Disk, from: Name, to: Name) {
    && from in before.files
    && to in after.files
    && after.dirs == before.dirs
    && Same(after.files[to], before.files[from])
    && after.files == (before.files - {from})[to := after.files[to]]
  }

  predicate Unlinked(before: Disk, after: Disk, n: Name) {
    after == before.(files := before.files - {n})
  }

  /** The storage the asset operations work through. The ghost fields record what went
      wrong so far and whether a Deleting journal has reached its final name. */
  class Storage {
    var disk: Disk
    ghost var faults: nat
    ghost var crashes: nat
    ghost var deletingPublished: bool
    ghost var journalFault: bool

    constructor (disk: Disk)
      ensures this.disk == disk && faults == crashes == 0
      ensures !deletingPublished && !journalFault
    {
      this.disk := disk;
      faults, crashes := 0, 0;
      deletingPublished, journalFault := false, false;
    }

    /** Some step of the environment: progress, an I/O error or a crash. */
    method Interrupt() returns (r: Step)
      modifies `faults, `crashes
      ensures faults == old(faults) + Tick(r.Failed?) && crashes == old(crashes) + Tick(r.Crashed?)
    {
      r := AnyStep();
      faults, crashes := faults + Tick(r.Failed?), crashes + Tick(r.Crashed?);
    }

    method RenameDurable(from: Name, to: Name) returns (r: Step)
      modifies `disk, `faults, `crashes
      ensures crashes == old(crashes) + Tick(r.Crashed?)
      ensures disk == old(disk) || Moved(old(disk), disk, from, to)
      ensures r.Done? ==> Moved(old(disk), disk, from, to)
      ensures r.Failed? && from in old(disk).files ==> faults > old(faults)
      ensures faults >= old(faults)
    {
      r := Interrupt();
      if !r.Done? { return; }
      if from !in disk.files { return Failed; }
      var changed: int := *;
      var file := disk.files[from].(changed := changed);
      disk := disk.(files := (disk.files - {from})[to := file]);
      r := Interrupt();
    }

    method RemoveFileDurable(n: Name) returns (r: Step)
      modifies `disk, `faults, `crashes
      ensures crashes == old(crashes) + Tick(r.Crashed?)
      ensures disk == old(disk) || Unlinked(old(disk), disk, n)
      ensures r.Done? ==> n in old(disk).files && Unlinked(old(disk), disk, n)
      ensures r.Failed? && n in old(disk).files ==> faults > old(faults)
      ensures faults >= old(faults)
    {
      r := Interrupt();
      if !r.Done? { return; }
      if n !in disk.files { return Failed; }
      disk := disk.(files := disk.files - {n});
      r := Interrupt();
    }

    predicate Empty(dir: string)
      reads `disk
    {
      forall n :: n in disk.files ==> !InDir(n, dir)
    }

    method RemoveDirDurable(dir: string) returns (r: Step)
      modifies `disk, `faults, `crashes
      ensures crashes == old(crashes) + Tick(r.Crashed?)
      ensures disk == old(disk) || (old(Empty(dir)) && disk == old(disk).(dirs := old(disk).dirs - {dir}))
      ensures r.Done? ==> dir in old(disk).dirs && old(Empty(dir)) && disk == old(disk).(dirs := old(disk).dirs - {dir})
      ensures r.Failed? && dir in old(disk).dirs && old(Empty(dir)) ==> faults > old(faults)
      ensures faults >= old(faults)
    {
      r := Interrupt();
      if !r.Done? { return; }
      if dir !in disk.dirs || !Empty(dir) { return Failed; }
      disk := disk.(dirs := disk.dirs - {dir});
      r := Interrupt();
    }

    /** A read of metadata or contents; the caller looks at `disk` when it is `Done`. */
    method Read() returns (r: Step)
      modifies `faults, `crashes
      ensures crashes == old(crashes) + Tick(r.Crashed?)
      ensures r.Failed? ==> faults > old(faults)
      ensures faults >= old(faults)
    {
      r := Interrupt();
    }

    /** The names in a directory, in whatever order the file system lists them. */
    method Scan(dir: string) returns (r: Step, slots: seq<Slot>)
      modifies `faults, `crashes
      ensures crashes == old(crashes) + Tick(r.Crashed?)
      ensures r.Failed? ==> faults > old(faults)
      ensures faults >= old(faults)
      ensures forall s :: s in slots <==> Staged(dir, s) in disk.files
      ensures forall i, j :: 0 <= i < j < |slots| ==> slots[i] != slots[j]
    {
      slots := [];
      var left := disk.files.Keys;
      while left != {}
        invariant left <= disk.files.Keys
        invariant forall s :: s in slots <==> Staged(dir, s) in disk.files.Keys - left
        invariant forall i, j :: 0 <= i < j < |slots| ==> slots[i] != slots[j]
        decreases left
      {
        var n :| n in left;
        if InDir(n, dir) {
          slots := slots + [n.slot];
        }
        left := left - {n};
      }
      r := Interrupt();
    }

    /** Not `created`: a directory of that name was there already. */
    method CreateDir(dir: string) returns (r: Step, created: bool)
      modifies `disk, `faults, `crashes
      ensures crashes == old(crashes) + Tick(r.Crashed?)
      ensures disk == old(disk) || (dir !in old(disk).dirs && disk == old(disk).(dirs := old(disk).dirs + {dir}))
      ensures r.Done? && created ==> dir !in old(disk).dirs && disk == old(disk).(dirs := old(disk).dirs + {dir})
      ensures r.Done? && !created ==> dir in old(disk).dirs && disk == old(disk)
      ensures r.Failed? ==> faults > old(faults)
      ensures faults >= old(faults)
    {
      created := false;
      r := Interrupt();
      if !r.Done? || dir in disk.dirs { return; }
      disk := disk.(dirs := disk.dirs + {dir});
      created := true;
      r := Interrupt();
    }

    /** Creates an empty file under a name nothing uses, as an open with `create_new` does. */
    method CreateNew(n: Name) returns (r: Step)
      requires n !in disk.files
      modifies `disk, `faults, `crashes
      ensures crashes == old(crashes) + Tick(r.Crashed?)
      ensures disk == old(disk) || (exists f: File :: Fresh(f) && disk == old(disk).(files := old(disk).files[n := f]))
      ensures r.Done? ==> n in disk.files
      ensures r.Failed? ==> faults > old(faults)
      ensures faults >= old(faults)
    {
      r := Interrupt();
      if !r.Done? { return; }
      var inode: nat, changed: int := *, *;
      var digest: Digest := *;
      var f := File(inode, 1, 0, changed, digest, Opaque);
      assert Fresh(f);
      disk := disk.(files := disk.files[n := f]);
      r := Interrupt();
    }
  }

  predicate Fresh(f: File) {
    f.links == 1 && f.size == 0 && f.body == Opaque
  }
}
