/** Backup and restore as ordered effects on a file system that other processes use too. */
module Admin {
  import opened Wrappers
  import opened HashChain
  import opened Audit

  type Bytes = string

  /** A database file, or a ZIP archive as its list of members. */
  datatype File = Plain(bytes: Bytes) | Zip(members: seq<(string, Bytes)>)

  /** A name users see, or a name inside the staging directory. */
  datatype Path = Named(name: string) | Staged(name: string)

  /** How a database file reads: whether SQLite finds it intact, and its event table. */
  datatype Reader = Reader(intact: Bytes -> bool, events: Bytes -> Table, hasher: Hasher, checksum: Bytes -> string)

  datatype AdminError =
    | SidecarExists(suffix: string)
    | NoSuchFile
    | NotAnArchive
    | UnexpectedContents
    | ChecksumMismatch
    | NotIntact
    | BadChain(error: VerifyError)
    | NameTaken
    | IoError

  const DB_MEMBER := "memory.db"
  const SUM_MEMBER := "memory.db.sha256"
  const SUFFIXES := ["-wal", "-shm", "-journal"]

  // ---------------------------------------------------------------- the disk

  /** One effect of ours, before and after; other processes act in between. */
  datatype Effect = Effect(before: map<Path, File>, after: map<Path, File>)

  class Disk {
    var files: map<Path, File>
    var effects: seq<Effect>

    constructor (files: map<Path, File>)
      ensures this.files == files && effects == []
    {
      this.files, effects := files, [];
    }

    /** Other processes create, change and delete whatever is not in our staging directory. */
    method Others()
      modifies `files
      ensures forall p: Path | p.Staged? :: (p in files <==> p in old(files)) && (p in files ==> files[p] == old(files)[p])
    {
    }

    /** Writes a staged file; an I/O error may leave it half written. */
    method Write(name: string, file: File, working: bool) returns (ok: bool)
      modifies this
      ensures ok == working
      ensures Staged(name) in files && files == old(files)[Staged(name) := files[Staged(name)]]
      ensures ok ==> files[Staged(name)] == file
      ensures effects == old(effects) + [Effect(old(files), files)]
    {
      ok := working;
      var before := files;
      var half := if file.Plain? then Plain("") else Zip([]);
      files := files[Staged(name) := if ok then file else half];
      effects := effects + [Effect(before, files)];
    }

    /** Hard-links a staged file to a new name, atomically, unless the name exists. */
    method Link(name: string, to: string) returns (ok: bool)
      requires Staged(name) in files
      modifies this
      ensures ok <==> Named(to) !in old(files)
      ensures files == if ok then old(files)[Named(to) := old(files)[Staged(name)]] else old(files)
      ensures effects == old(effects) + [Effect(old(files), files)]
    {
      ok := Named(to) !in files;
      var before := files;
      if ok {
        files := files[Named(to) := files[Staged(name)]];
      }
      effects := effects + [Effect(before, files)];
    }

    /** Removes the staging directory. */
    method Clean()
      modifies this
      ensures files == map p | p in old(files) && p.Named? :: old(files)[p]
      ensures effects == old(effects) + [Effect(old(files), files)]
    {
      var before := files;
      files := map p | p in files && p.Named? :: files[p];
      effects := effects + [Effect(before, files)];
    }
  }

  // ---------------------------------------------------------------- what is safe to publish

  /** `_check_database`. */
  ghost function CheckResult(rd: Reader, bytes: Bytes): Result<(nat, string), AdminError> {
    if !rd.intact(bytes) then Err(NotIntact)
    else
      match Verdict(rd.hasher, rd.events(bytes), None)
      case Ok(v) => Ok(v)
      case Err(e) => Err(BadChain(e))
  }

  /** An intact database with the chain columns whose events are well linked. */
  ghost predicate Sound(rd: Reader, bytes: Bytes) {
    && rd.intact(bytes)
    && "prev_hash" in rd.events(bytes).columns && "event_hash" in rd.events(bytes).columns
    && Linked(rd.hasher, rd.events(bytes).rows)
  }

  /** The checks pass exactly on sound databases, report the number of events and the head, and look for damage first. */
  lemma ChecksPassIff(rd: Reader, bytes: Bytes)
    ensures CheckResult(rd, bytes).Ok? <==> Sound(rd, bytes)
    ensures CheckResult(rd, bytes).Ok? ==>
              var (count, head) := CheckResult(rd, bytes).value;
              count == |rd.events(bytes).rows| && Some(head) == Head(rd.events(bytes).rows)
    ensures !rd.intact(bytes) <==> CheckResult(rd, bytes) == Err(NotIntact)
  {
    if Linked(rd.hasher, rd.events(bytes).rows) {
      LinkedHead(rd.hasher, rd.events(bytes).rows);
    }
  }

  function SumText(rd: Reader, bytes: Bytes): Bytes {
    rd.checksum(bytes) + "\n"
  }

  /** The complete archive of a snapshot that passed its checks. */
  ghost predicate GoodArchive(rd: Reader, snapshot: Option<Bytes>, f: File) {
    snapshot.Some? && CheckResult(rd, snapshot.value).Ok? && f == ArchiveOf(rd, snapshot.value)
  }

  /** The database of an archive that passed its checks: members, checksum, integrity and chain. */
  ghost predicate GoodDatabase(rd: Reader, files: map<Path, File>, archive: string, f: File) {
    ArchiveFault(rd, files, archive).None? && f == Plain(MemberNamed(files[Named(archive)].members, DB_MEMBER))
  }

  /** One effect changes no user-visible name but `name`, never changes or removes that one, and creates it only as a good file. */
  ghost predicate Safe(e: Effect, name: string, good: File -> bool) {
    && (forall p: Path | p.Named? && p != Named(name) ::
          (p in e.after <==> p in e.before) && (p in e.after ==> e.after[p] == e.before[p]))
    && (Named(name) in e.before ==> Named(name) in e.after && e.after[Named(name)] == e.before[Named(name)])
    && (Named(name) in e.after && Named(name) !in e.before ==> good(e.after[Named(name)]))
  }

  /** Every effect since `base` is safe, so a crash after any of them leaves nothing half published. */
  ghost predicate AllSafe(effects: seq<Effect>, base: seq<Effect>, name: string, good: File -> bool) {
    && IsPrefix(base, effects)
    && forall i | |base| <= i < |effects| :: Safe(effects[i], name, good)
  }

  /** At one of our effects since `base` the name existed already. */
  ghost predicate Taken(effects: seq<Effect>, base: seq<Effect>, name: string) {
    exists i :: |base| <= i < |effects| && Named(name) in effects[i].before
  }

  /** The effect brings the name into being. */
  predicate Creates(e: Effect, name: string) {
    Named(name) !in e.before && Named(name) in e.after
  }

  /** Every file that these effects bring into being under the name is as it should be. */
  ghost predicate CreatesOnly(effects: seq<Effect>, base: seq<Effect>, name: string, right: File -> bool) {
    forall i | |base| <= i < |effects| && Creates(effects[i], name) :: right(effects[i].after[Named(name)])
  }

  /** The archive of sound bytes, written out. */
  ghost predicate IsSoundArchive(rd: Reader, bytes: Bytes, f: File) {
    f == Zip([("memory.db", bytes), ("memory.db.sha256", rd.checksum(bytes) + "\n")]) && Sound(rd, bytes)
  }

  lemma AllSafeNext(effects: seq<Effect>, base: seq<Effect>, e: Effect, name: string, good: File -> bool)
    requires AllSafe(effects, base, name, good) && Safe(e, name, good)
    ensures AllSafe(effects + [e], base, name, good)
  {
  }

  // ---------------------------------------------------------------- backup and restore

  method CheckDatabase(rd: Reader, bytes: Bytes) returns (r: Result<(nat, string), AdminError>)
    ensures r == CheckResult(rd, bytes)
  {
    if !rd.intact(bytes) {
      return Err(NotIntact);
    }
    var v := Verify(rd.hasher, rd.events(bytes), None);
    match v {
      case Ok(value) => return Ok(value);
      case Err(e) => return Err(BadChain(e));
    }
  }

  /** Writes a file into the staging directory, after whatever other processes did. */
  method Stage(disk: Disk, staged: string, file: File, working: bool, ghost base: seq<Effect>, ghost name: string, ghost good: File -> bool)
    returns (ok: bool)
    requires AllSafe(disk.effects, base, name, good)
    modifies disk
    ensures AllSafe(disk.effects, base, name, good) && ok == working
    ensures ok ==> Staged(staged) in disk.files && disk.files[Staged(staged)] == file
  {
    disk.Others();
    ghost var before, effects := disk.files, disk.effects;
    ok := disk.Write(staged, file, working);
    AllSafeNext(effects, base, Effect(before, disk.files), name, good);
  }

  /** `_publish`: flushes the staged file and links it to its name, which must be free. */
  method Publish(disk: Disk, staged: string, name: string, working: bool, ghost base: seq<Effect>, ghost good: File -> bool)
    returns (error: Option<AdminError>)
    requires AllSafe(disk.effects, base, name, good)
    requires Staged(staged) in disk.files && good(disk.files[Staged(staged)])
    modifies disk
    ensures AllSafe(disk.effects, base, name, good)
    ensures error.None? ==> Named(name) in disk.files && disk.files[Named(name)] == old(disk.files)[Staged(staged)]
    ensures error.Some? ==> error == Some(if working then NameTaken else IoError)
    ensures !working ==> error.Some?
    ensures error == Some(NameTaken) ==> Taken(disk.effects, base, name)
  {
    if !working {
      return Some(IoError);
    }
    disk.Others();
    ghost var before, effects := disk.files, disk.effects;
    var linked := disk.Link(staged, name);
    AllSafeNext(effects, base, Effect(before, disk.files), name, good);
    assert disk.effects[|effects|].before == before;
    return if linked then None else Some(NameTaken);
  }

  /** Leaves the staging directory: it disappears whatever happened. */
  method Leave(disk: Disk, ghost base: seq<Effect>, ghost name: string, ghost good: File -> bool)
    requires AllSafe(disk.effects, base, name, good)
    modifies disk
    ensures AllSafe(disk.effects, base, name, good)
    ensures forall p | p in disk.files :: p.Named?
    ensures forall p: Path | p.Named? :: (p in disk.files <==> p in old(disk.files)) && (p in disk.files ==> disk.files[p] == old(disk.files)[p])
    ensures Taken(old(disk.effects), base, name) ==> Taken(disk.effects, base, name)
  {
    ghost var before, effects := disk.files, disk.effects;
    disk.Clean();
    AllSafeNext(effects, base, Effect(before, disk.files), name, good);
    if Taken(effects, base, name) {
      var i :| |base| <= i < |effects| && Named(name) in effects[i].before;
      assert disk.effects[i] == effects[i];
    }
  }

  function ArchiveOf(rd: Reader, bytes: Bytes): File {
    Zip([(DB_MEMBER, bytes), (SUM_MEMBER, SumText(rd, bytes))])
  }

  /** Which of the disk operations succeed. */
  datatype Luck = Luck(first: bool, second: bool, third: bool, last: bool)

  /** Why `backup` failed: the snapshot's own fault, the disk, or a name that was taken. */
  ghost predicate BackupRefused(rd: Reader, snapshot: Option<Bytes>, luck: Luck, error: AdminError) {
    if snapshot.None? then error == NoSuchFile
    else if !luck.first then error == IoError
    else if CheckResult(rd, snapshot.value).Err? then error == CheckResult(rd, snapshot.value).error
    else error == if luck.second && luck.third && luck.last then NameTaken else IoError
  }

  /**
   `backup`. `snapshot` is the copy SQLite makes of one committed state of the source, None if it
   cannot be read. Success means the archive now holds exactly that copy and its checksum, and the
   copy passed its checks; failure has the first cause there is. Whatever happens, no effect ever
   changes an existing file or publishes anything unchecked.
   */
  method Backup(disk: Disk, rd: Reader, snapshot: Option<Bytes>, archive: string, luck: Luck)
    returns (r: Result<(nat, string), AdminError>)
    modifies disk
    ensures AllSafe(disk.effects, old(disk.effects), archive, f => GoodArchive(rd, snapshot, f))
    ensures r.Ok? ==>
              && snapshot.Some? && r == CheckResult(rd, snapshot.value)
              && Named(archive) in disk.files && disk.files[Named(archive)] == ArchiveOf(rd, snapshot.value)
    ensures r.Err? ==> BackupRefused(rd, snapshot, luck, r.error)
    ensures r == Err(NameTaken) ==> Taken(disk.effects, old(disk.effects), archive)
    ensures CreatesOnly(disk.effects, old(disk.effects), archive, (f: File) => snapshot.Some? && IsSoundArchive(rd, snapshot.value, f))
    ensures r.Ok? ==>
              && snapshot.Some? && Sound(rd, snapshot.value)
              && r.value.0 == |rd.events(snapshot.value).rows| && Some(r.value.1) == Head(rd.events(snapshot.value).rows)
    ensures snapshot.Some? && !rd.intact(snapshot.value) ==> r == Err(if luck.first then NotIntact else IoError)
    ensures forall p | p in disk.files :: p.Named?
  {
    ghost var base, good := disk.effects, (f: File) => GoodArchive(rd, snapshot, f);
    r := BackupSteps(disk, rd, snapshot, archive, luck, base, good);
    if snapshot.Some? {
      ChecksPassIff(rd, snapshot.value);
    }
    Leave(disk, base, archive, good);
  }

  /** The body of the `with` block. */
  method BackupSteps(disk: Disk, rd: Reader, snapshot: Option<Bytes>, archive: string, luck: Luck,
                     ghost base: seq<Effect>, ghost good: File -> bool)
    returns (r: Result<(nat, string), AdminError>)
    requires AllSafe(disk.effects, base, archive, good)
    requires forall f: File :: good(f) <==> GoodArchive(rd, snapshot, f)
    modifies disk
    ensures AllSafe(disk.effects, base, archive, good)
    ensures r.Ok? ==>
              && snapshot.Some? && r == CheckResult(rd, snapshot.value)
              && Named(archive) in disk.files && disk.files[Named(archive)] == ArchiveOf(rd, snapshot.value)
    ensures r.Err? ==> BackupRefused(rd, snapshot, luck, r.error)
    ensures r == Err(NameTaken) ==> Taken(disk.effects, base, archive)
  {
    if snapshot.None? {
      return Err(NoSuchFile);
    }
    var bytes := snapshot.value;
    var ok := Stage(disk, "memory.db", Plain(bytes), luck.first, base, archive, good);
    if !ok {
      return Err(IoError);
    }
    r := CheckDatabase(rd, bytes);
    if r.Err? {
      return;
    }
    ok := Stage(disk, "backup.zip", Zip([(DB_MEMBER, bytes)]), luck.second, base, archive, good);
    if !ok {
      return Err(IoError);
    }
    ok := Stage(disk, "backup.zip", ArchiveOf(rd, bytes), luck.third, base, archive, good);
    if !ok {
      return Err(IoError);
    }
    var failed := Publish(disk, "backup.zip", archive, luck.last, base, good);
    if failed.Some? {
      r := Err(failed.value);
    }
  }

  /** An archive must hold exactly the database and its checksum, in either order. */
  predicate ExpectedMembers(members: seq<(string, Bytes)>) {
    && |members| == 2
    && ((members[0].0 == DB_MEMBER && members[1].0 == SUM_MEMBER) || (members[0].0 == SUM_MEMBER && members[1].0 == DB_MEMBER))
  }

  function MemberNamed(members: seq<(string, Bytes)>, name: string): Bytes
    requires ExpectedMembers(members)
  {
    if members[0].0 == name then members[0].1 else members[1].1
  }

  /** As much of the checksum member as is read: one byte more than a checksum and its line end. */
  function FirstBytes(bytes: Bytes): Bytes {
    if |bytes| <= 66 then bytes else bytes[..66]
  }

  /** The first of these suffixes with which the destination's name is taken. */
  function FirstTaken(files: map<Path, File>, destination: string, suffixes: seq<string>): Option<string> {
    if suffixes == [] then None
    else if Named(destination + suffixes[0]) in files then Some(suffixes[0])
    else FirstTaken(files, destination, suffixes[1..])
  }

  function FirstSidecar(files: map<Path, File>, destination: string): Option<string> {
    FirstTaken(files, destination, SUFFIXES)
  }

  /** The check for sidecars, one suffix after another. */
  method FindSidecar(disk: Disk, destination: string) returns (sidecar: Option<string>)
    ensures sidecar == FirstSidecar(disk.files, destination)
    ensures sidecar.None? <==>
              && Named(destination + "-wal") !in disk.files && Named(destination + "-shm") !in disk.files
              && Named(destination + "-journal") !in disk.files
    ensures sidecar.Some? ==> Named(destination + sidecar.value) in disk.files
  {
    assert SUFFIXES[0] == "-wal" && SUFFIXES[1] == "-shm" && SUFFIXES[2] == "-journal" && |SUFFIXES| == 3;
    for i := 0 to |SUFFIXES|
      invariant forall j | 0 <= j < i :: Named(destination + SUFFIXES[j]) !in disk.files
      invariant FirstSidecar(disk.files, destination) == FirstTaken(disk.files, destination, SUFFIXES[i..])
    {
      if Named(destination + SUFFIXES[i]) in disk.files {
        return Some(SUFFIXES[i]);
      }
      assert SUFFIXES[i..][1..] == SUFFIXES[i + 1..];
    }
    return None;
  }

  /** What is wrong with an archive, if anything. */
  ghost function ArchiveFault(rd: Reader, files: map<Path, File>, archive: string): Option<AdminError> {
    if Named(archive) !in files then Some(NoSuchFile)
    else if files[Named(archive)].Plain? then Some(NotAnArchive)
    else
      var members := files[Named(archive)].members;
      if !ExpectedMembers(members) then Some(UnexpectedContents)
      else
        var bytes := MemberNamed(members, DB_MEMBER);
        if FirstBytes(MemberNamed(members, SUM_MEMBER)) != SumText(rd, bytes) then Some(ChecksumMismatch)
        else if CheckResult(rd, bytes).Err? then Some(CheckResult(rd, bytes).error)
        else None
  }

  /** The archive holds these bytes and their checksum under the two expected names, and nothing else. */
  ghost predicate ArchiveHolds(rd: Reader, files: map<Path, File>, archive: string, bytes: Bytes) {
    && Named(archive) in files && files[Named(archive)].Zip?
    && var members := files[Named(archive)].members;
       && |members| == 2
       && exists i :: 0 <= i < 2 && members[i] == ("memory.db", bytes) && members[1 - i].0 == "memory.db.sha256"
                      && StartsAsSum(members[1 - i].1, rd.checksum(bytes) + "\n")
  }

  /** Of a longer checksum member only the first 66 bytes count. */
  predicate StartsAsSum(read: Bytes, sum: Bytes) {
    read == sum || (|read| > 66 && read[..66] == sum)
  }

  lemma NamesDiffer()
    ensures "memory.db" != "memory.db.sha256"
  {
    assert |"memory.db"| == 9 && |"memory.db.sha256"| == 16;
  }

  /** An archive is without fault exactly if it holds a sound database and its checksum. */
  lemma NoFaultIff(rd: Reader, files: map<Path, File>, archive: string, bytes: Bytes)
    requires |rd.checksum(bytes)| == 64
    ensures ArchiveFault(rd, files, archive).None? && GoodDatabase(rd, files, archive, Plain(bytes))
       <==> ArchiveHolds(rd, files, archive, bytes) && Sound(rd, bytes)
  {
    NamesDiffer();
    ChecksPassIff(rd, bytes);
    if Named(archive) in files && files[Named(archive)].Zip? {
      var members := files[Named(archive)].members;
      if ExpectedMembers(members) {
        var i := if members[0].0 == DB_MEMBER then 0 else 1;
        assert members[i] == (DB_MEMBER, MemberNamed(members, DB_MEMBER));
        assert members[1 - i] == (SUM_MEMBER, MemberNamed(members, SUM_MEMBER));
      }
    }
  }

  /** Which fault is found first. */
  lemma FaultsSpelledOut(rd: Reader, files: map<Path, File>, archive: string)
    ensures Named(archive) !in files <==> ArchiveFault(rd, files, archive) == Some(NoSuchFile)
    ensures Named(archive) in files && files[Named(archive)].Plain? <==> ArchiveFault(rd, files, archive) == Some(NotAnArchive)
    ensures ArchiveFault(rd, files, archive) == Some(ChecksumMismatch) ==>
              Named(archive) in files && files[Named(archive)].Zip? && |files[Named(archive)].members| == 2
    ensures Named(archive) in files && files[Named(archive)].Zip? && |files[Named(archive)].members| != 2 ==>
              ArchiveFault(rd, files, archive) == Some(UnexpectedContents)
  {
  }

  /** The body of the `with` block. */
  method RestoreSteps(disk: Disk, rd: Reader, archive: string, destination: string, luck: Luck,
                      ghost base: seq<Effect>, ghost good: File -> bool)
    returns (r: Result<(nat, string), AdminError>)
    requires AllSafe(disk.effects, base, destination, good)
    requires forall f: File :: good(f) <==> GoodDatabase(rd, disk.files, archive, f)
    modifies disk
    ensures AllSafe(disk.effects, base, destination, good)
    ensures
      var fault := ArchiveFault(rd, old(disk.files), archive);
      && (fault.Some? ==> r == Err(fault.value) || r == Err(IoError))
      && (fault.None? ==>
            var bytes := MemberNamed(old(disk.files)[Named(archive)].members, DB_MEMBER);
            if r.Ok? then r == CheckResult(rd, bytes) && Named(destination) in disk.files && disk.files[Named(destination)] == Plain(bytes)
            else r == Err(IoError) || r == Err(NameTaken))
      && (luck.first && luck.last ==> r != Err(IoError))
      && (r == Err(NameTaken) ==> Taken(disk.effects, base, destination))
  {
    if Named(archive) !in disk.files {
      return Err(NoSuchFile);
    }
    var bundle := disk.files[Named(archive)];
    if bundle.Plain? {
      return Err(NotAnArchive);
    }
    if !ExpectedMembers(bundle.members) {
      return Err(UnexpectedContents);
    }
    var expected := FirstBytes(MemberNamed(bundle.members, SUM_MEMBER));
    var bytes := MemberNamed(bundle.members, DB_MEMBER);
    var ok := Stage(disk, "memory.db", Plain(bytes), luck.first, base, destination, good);
    if !ok {
      return Err(IoError);
    }
    if expected != SumText(rd, bytes) {
      return Err(ChecksumMismatch);
    }
    r := CheckDatabase(rd, bytes);
    if r.Err? {
      return;
    }
    var failed := Publish(disk, "memory.db", destination, luck.last, base, good);
    if failed.Some? {
      r := Err(failed.value);
    }
  }

  /**
   `restore`. Success means that nothing was wrong with the archive and the destination, which was
   free, now holds its database byte for byte. A faulty archive is always refused, with its fault
   unless a sidecar or the disk got in the way first; whatever happens, no effect ever changes an
   existing file or publishes anything unchecked.
   */
  method Restore(disk: Disk, rd: Reader, archive: string, destination: string, luck: Luck)
    returns (r: Result<(nat, string), AdminError>)
    modifies disk
    ensures AllSafe(disk.effects, old(disk.effects), destination, f => GoodDatabase(rd, old(disk.files), archive, f))
    ensures
      var fault := ArchiveFault(rd, old(disk.files), archive);
      var sidecar := FirstSidecar(old(disk.files), destination);
      && (sidecar.Some? ==> r == Err(SidecarExists(sidecar.value)))
      && (sidecar.None? && fault.Some? ==> r == Err(fault.value) || r == Err(IoError))
      && (sidecar.None? && fault.None? ==>
            var bytes := MemberNamed(old(disk.files)[Named(archive)].members, DB_MEMBER);
            if r.Ok? then r == CheckResult(rd, bytes) && Named(destination) in disk.files && disk.files[Named(destination)] == Plain(bytes)
            else r == Err(IoError) || r == Err(NameTaken))
      && (luck.first && luck.last ==> r != Err(IoError))
      && (r == Err(NameTaken) ==> Taken(disk.effects, old(disk.effects), destination))
    ensures (forall b :: |rd.checksum(b)| == 64) ==>
              CreatesOnly(disk.effects, old(disk.effects), destination,
                          (f: File) => f.Plain? && ArchiveHolds(rd, old(disk.files), archive, f.bytes) && Sound(rd, f.bytes))
    ensures Named(destination + "-wal") in old(disk.files) ==> r == Err(SidecarExists("-wal"))
    ensures Named(destination + "-shm") in old(disk.files) || Named(destination + "-journal") in old(disk.files) ==>
              r.Err? && r.error.SidecarExists?
    ensures r.Ok? ==> Named(destination) in disk.files && disk.files[Named(destination)].Plain?
                      && Sound(rd, disk.files[Named(destination)].bytes)
                      && r.value.0 == |rd.events(disk.files[Named(destination)].bytes).rows|
  {
    var sidecar := FindSidecar(disk, destination);
    if sidecar.Some? {
      return Err(SidecarExists(sidecar.value));
    }
    ghost var before, base := disk.files, disk.effects;
    ghost var good := (f: File) => GoodDatabase(rd, before, archive, f);
    r := RestoreSteps(disk, rd, archive, destination, luck, base, good);
    forall f: File | GoodDatabase(rd, before, archive, f)
      ensures Sound(rd, f.bytes) && CheckResult(rd, f.bytes).Ok? && CheckResult(rd, f.bytes).value.0 == |rd.events(f.bytes).rows|
      ensures |rd.checksum(f.bytes)| == 64 ==> ArchiveHolds(rd, before, archive, f.bytes)
    {
      ChecksPassIff(rd, f.bytes);
      if |rd.checksum(f.bytes)| == 64 {
        NoFaultIff(rd, before, archive, f.bytes);
      }
    }
    Leave(disk, base, destination, good);
  }

  /**
   Restore undoes backup. Once a backup has succeeded, restoring its archive to a name that is
   free, with no sidecars, on a working disk publishes the very bytes of the snapshot and reports the
   count and head the backup reported; only losing the name to another process can stop it.
   */
  method BackupThenRestore(disk: Disk, rd: Reader, snapshot: Option<Bytes>, archive: string, destination: string, luck: Luck)
    returns (saved: Result<(nat, string), AdminError>, restored: Result<(nat, string), AdminError>)
    requires forall b :: |rd.checksum(b)| == 64
    modifies disk
    ensures saved.Ok? && restored.Ok? ==>
              && restored == saved && snapshot.Some?
              && Named(destination) in disk.files && disk.files[Named(destination)] == Plain(snapshot.value)
    ensures saved.Ok? && restored.Err? ==>
              restored.error.SidecarExists? || (restored.error == NameTaken && Taken(disk.effects, old(disk.effects), destination))
  {
    saved := Backup(disk, rd, snapshot, archive, luck);
    restored := Err(NoSuchFile);
    if saved.Ok? {
      ghost var members := ArchiveOf(rd, snapshot.value).members;
      assert DB_MEMBER != SUM_MEMBER by {
        assert |DB_MEMBER| != |SUM_MEMBER|;
      }
      restored := Restore(disk, rd, archive, destination, Luck(true, true, true, true));
      assert FirstBytes(SumText(rd, snapshot.value)) == SumText(rd, snapshot.value);
    }
  }
}
