/** Update, Load and Migrate as one process runs them, with every file operation free to fail. */
module StoreCalls {
  import opened Prelude
  import opened Records
  import opened Normalization
  import opened LockedStore

  datatype Attempt = Taken | Busy | Broken

  datatype StoreError = LockFailed | LockTimedOut | Unreadable(load: LoadError) | HandlerFailed(code: ErrorCode) | WriteFailed
                      | BackupFailed

  // The points at which writing the temporary file or replacing the metadata file can fail.
  datatype WriteFaults = WriteFaults(open: bool, write: bool, replace: bool)

  // The copy of a version 1 file: its creation and its filling are separate.
  datatype Backup = CutOff | Whole(content: Stored)

  // How making the copy ends: not created, left incomplete by an error, a crash or a loss of power,
  // complete although the call failed to sync or close it, or kept. Only the last goes on to the rewriting.
  datatype BackupOutcome = NotCreated | CutShort | Unsynced | Kept

  // lookFails: looking for the backup fails for another reason than that there is none.
  datatype MigrationFaults = MigrationFaults(lookFails: bool, backup: BackupOutcome, write: WriteFaults)

  // What Migrate reads and writes.
  datatype Files = Files(file: Option<Stored>, backup: Option<Backup>)

  datatype Migration = Migration(files: Files, error: Option<StoreError>)

  /** The handle of the lock file; releasing twice is the same as releasing once. */
  class FileLock {
    var held: bool

    constructor ()
      ensures held
    {
      held := true;
    }

    method Release()
      modifies this
      ensures !held
    {
      if !held {
        return;
      }
      held := false;
    }
  }

  /** Tries until the lock is free, an attempt breaks, or the deadline has passed after a busy attempt. */
  method AcquireFileLock(attempts: seq<Attempt>, deadline: nat) returns (r: Result<FileLock, StoreError>, tried: nat)
    requires |attempts| > deadline
    ensures tried <= deadline && forall k :: 0 <= k < tried ==> attempts[k] == Busy
    ensures r.Ok? ==> attempts[tried] == Taken && fresh(r.value) && r.value.held
    ensures r.Err? ==> match r.error
                       case LockTimedOut => tried == deadline && attempts[tried] == Busy
                       case LockFailed => attempts[tried] == Broken
                       case _ => false
  {
    tried := 0;
    while true
      invariant tried <= deadline && forall k :: 0 <= k < tried ==> attempts[k] == Busy
      decreases deadline - tried
    {
      match attempts[tried] {
        case Broken => return Err(LockFailed), tried;
        case Taken =>
          var lock := new FileLock();
          return Ok(lock), tried;
        case Busy =>
          if tried >= deadline {
            return Err(LockTimedOut), tried;
          }
      }
      tried := tried + 1;
    }
  }

  // ---- one migration ----

  predicate Faultless(faults: WriteFaults) {
    !faults.open && !faults.write && !faults.replace
  }

  // A backup is made only when looking for one says there is none; what is found there is not read.
  predicate MakesBackup(f: Files, faults: MigrationFaults) {
    f.backup.None? && !faults.lookFails
  }

  function BackupAfter(f: Files, content: Stored, faults: MigrationFaults): Option<Backup> {
    if !MakesBackup(f, faults) then f.backup
    else match faults.backup
      case NotCreated => None
      case CutShort => Some(CutOff)
      case Unsynced => Some(Whole(content))
      case Kept => Some(Whole(content))
  }

  function Migrated(f: Files, faults: MigrationFaults): Migration {
    if f.file.None? then Migration(f, None)
    else
      var content := f.file.value;
      if content.version < 1 || content.version > CURRENT_VERSION then Migration(f, Some(Unreadable(UnsupportedVersion)))
      else if content.version != 1 then Migration(f, None)
      else
        var g := f.(backup := BackupAfter(f, content, faults));
        if MakesBackup(f, faults) && faults.backup != Kept then Migration(g, Some(BackupFailed))
        else match Normalize(f.file)
          case Err(error) => Migration(g, Some(Unreadable(error)))
          case Ok(db) =>
            if !Faultless(faults.write) then Migration(g, Some(WriteFailed))
            else Migration(g.(file := Some(Stored(CURRENT_VERSION, db))), None)
  }

  /** Every load answers after a migration what it answered before, however the migration ended. */
  lemma MigrationIsInvisible(f: Files, faults: MigrationFaults)
    ensures Normalize(Migrated(f, faults).files.file) == Normalize(f.file)
    ensures Migrated(f, faults).error.None? && f.file.Some?
            ==> Migrated(f, faults).files.file.Some? && Migrated(f, faults).files.file.value.version == CURRENT_VERSION
  {
    if Normalize(f.file).Ok? {
      NormalizationIsIdempotent(f.file);
    }
  }

  // The backup is there, or this call makes it.
  predicate BackupServes(f: Files, faults: MigrationFaults) {
    MakesBackup(f, faults) ==> faults.backup == Kept
  }

  /** When a migration succeeds, and what each error means; only a success rewrites the file. */
  lemma MigratesExactly(f: Files, faults: MigrationFaults)
    ensures var m := Migrated(f, faults);
            && (m.error == Some(Unreadable(UnsupportedVersion)) <==> f.file.Some? && f.file.value.version !in {1, 2})
            && (m.files.file != f.file ==> m.error.None? && f.file.Some? && f.file.value.version == 1)
            && (f.file.None? || f.file.value.version != 1 ==> m.files == f)
    ensures f.file.Some? && f.file.value.version == 1 ==>
              var m := Migrated(f, faults);
              && (m.error == Some(BackupFailed) <==> !BackupServes(f, faults))
              && (m.error == Some(WriteFailed) <==>
                    BackupServes(f, faults) && Normalize(f.file).Ok? && !Faultless(faults.write))
              && (m.error.None? <==> BackupServes(f, faults) && Normalize(f.file).Ok? && Faultless(faults.write))
              && (m.error.None? ==> m.files.file == Some(Stored(CURRENT_VERSION, Normalize(f.file).value)))
    ensures f.backup.Some? ==> Migrated(f, faults).files.backup == f.backup
  {
  }

  /** Rewriting a version 1 file leaves its content in the backup exactly in these cases. */
  lemma RewritingKeepsContentExactly(f: Files, faults: MigrationFaults)
    requires f.file.Some? && Migrated(f, faults).files.file != f.file
    ensures f.file.value.version == 1
    ensures Migrated(f, faults).files.backup == Some(Whole(f.file.value))
            <==> f.backup == Some(Whole(f.file.value)) || MakesBackup(f, faults)
  {
  }

  // ---- any number of migrations ----

  function MigrateAll(f: Files, calls: seq<MigrationFaults>): Files {
    if calls == [] then f
    else Migrated(MigrateAll(f, calls[..|calls| - 1]), calls[|calls| - 1]).files
  }

  // The content is still to be had from one of the two files.
  predicate Holds(f: Files, content: Stored) {
    f.file == Some(content) || f.backup == Some(Whole(content))
  }

  // A call that leaves half a backup, or goes on without having found out whether there is one.
  predicate Careless(faults: MigrationFaults) {
    faults.lookFails || faults.backup == CutShort
  }

  predicate Careful(calls: seq<MigrationFaults>) {
    forall i :: 0 <= i < |calls| ==> !Careless(calls[i])
  }

  predicate Migratable(content: Stored) {
    content.version == 1 && Normalize(Some(content)).Ok?
  }

  const FAULTLESS := MigrationFaults(false, Kept, WriteFaults(false, false, false))

  predicate NoOtherBackup(f: Files, content: Stored) {
    f.backup == None || f.backup == Some(Whole(content))
  }

  lemma {:induction false} CarefulCallsKeep(f: Files, content: Stored, calls: seq<MigrationFaults>)
    requires f.file == Some(content) && NoOtherBackup(f, content) && Careful(calls)
    ensures Holds(MigrateAll(f, calls), content) && NoOtherBackup(MigrateAll(f, calls), content)
  {
    if calls == [] {
    } else {
      var before := calls[..|calls| - 1];
      CarefulCallsKeep(f, content, before);
      assert !Careless(calls[|calls| - 1]);
    }
  }

  /** Over any number of calls, failing in any other way, the old content is kept exactly from these backups. */
  lemma CarefulCallsKeepContentExactly(f: Files, content: Stored)
    requires f.file == Some(content) && Migratable(content)
    ensures (forall calls :: Careful(calls) ==> Holds(MigrateAll(f, calls), content)) <==> NoOtherBackup(f, content)
  {
    if NoOtherBackup(f, content) {
      forall calls | Careful(calls) ensures Holds(MigrateAll(f, calls), content) {
        CarefulCallsKeep(f, content, calls);
      }
    } else {
      assert Careful([FAULTLESS]);
      FaultlessCall(f);
      assert !Holds(MigrateAll(f, [FAULTLESS]), content);
    }
  }

  lemma FaultlessCall(f: Files)
    ensures MigrateAll(f, [FAULTLESS]) == Migrated(f, FAULTLESS).files
  {
    assert [FAULTLESS][..0] == [];
  }

  /** After a call stopped while it wrote the backup, or one that could not look for it, the content can be gone. */
  lemma CarelessCallCanLoseContent(f: Files, content: Stored, faults: MigrationFaults)
    requires f.file == Some(content) && Migratable(content) && f.backup == None
    ensures Holds(MigrateAll(f, [faults, FAULTLESS]), content)
            <==> !(faults.lookFails && Faultless(faults.write)) && !(!faults.lookFails && faults.backup == CutShort)
  {
    assert [faults, FAULTLESS][..1] == [faults] && [faults][..0] == [];
    assert MigrateAll(f, [faults]) == Migrated(f, faults).files;
  }

  class DurableStore {
    var file: Option<Stored>
    var temp: Option<Temp>
    var backup: Option<Backup>

    ghost function Contents(): Files
      reads this
    {
      Files(file, backup)
    }

    constructor (file: Option<Stored>)
      ensures this.file == file && temp == None && backup == None
    {
      this.file := file;
      temp, backup := None, None;
    }

    method WriteAtomic(db: Database, faults: WriteFaults) returns (ok: bool)
      requires temp == None
      modifies this`file, this`temp
      ensures ok <==> Faultless(faults)
      ensures temp == None && file == if ok then Some(Stored(CURRENT_VERSION, db)) else old(file)
    {
      if faults.open {
        return false;
      }
      temp := Some(Partial);
      if faults.write {
        temp := None;
        return false;
      }
      temp := Some(Complete(db));
      if faults.replace {
        temp := None;
        return false;
      }
      file := Some(Stored(CURRENT_VERSION, temp.value.db));
      temp := None;
      ok := true;
    }

    /** One transaction: it commits as the atomic step, or reports an error and leaves the file alone. */
    method Update(update: Transaction, attempts: seq<Attempt>, deadline: nat, faults: WriteFaults)
      returns (r: Option<StoreError>, lock: Result<FileLock, StoreError>)
      requires temp == None && |attempts| > deadline
      modifies this`file, this`temp
      ensures temp == None && (lock.Ok? ==> fresh(lock.value) && !lock.value.held)
      ensures r.None? ==> && file == AtomicStep(old(file), update) && Normalize(old(file)).Ok?
                          && update(Normalize(old(file)).value).Ok?
                          && file == Some(Stored(CURRENT_VERSION, update(Normalize(old(file)).value).value))
      ensures r.Some? ==> file == old(file)
      ensures r.None? <==> && lock.Ok? && Normalize(old(file)).Ok? && update(Normalize(old(file)).value).Ok?
                           && Faultless(faults)
    {
      var tried;
      lock, tried := AcquireFileLock(attempts, deadline);
      if lock.Err? {
        return Some(lock.error), lock;
      }
      var db := LoadUnlocked(file);
      if db.Err? {
        lock.value.Release();
        return Some(Unreadable(db.error)), lock;
      }
      var result := update(db.value);
      if result.Err? {
        lock.value.Release();
        return Some(HandlerFailed(result.error)), lock;
      }
      var ok := WriteAtomic(result.value, faults);
      lock.value.Release();
      r := if ok then None else Some(WriteFailed);
    }

    /**
     * Migrate: a version 1 file is rewritten as what every load already made of it, after its original
     * content was copied unless a backup, of whatever content, seemed to be there.
     */
    method Migrate(attempts: seq<Attempt>, deadline: nat, faults: MigrationFaults)
      returns (r: Option<StoreError>, lock: Result<FileLock, StoreError>)
      requires temp == None && |attempts| > deadline
      modifies this
      ensures temp == None && (lock.Ok? ==> fresh(lock.value) && !lock.value.held)
      ensures lock.Err? ==> r == Some(lock.error) && Contents() == old(Contents())
      ensures lock.Ok? ==> Migration(Contents(), r) == Migrated(old(Contents()), faults)
      ensures Normalize(file) == Normalize(old(file))
    {
      MigrationIsInvisible(Contents(), faults);
      var tried;
      lock, tried := AcquireFileLock(attempts, deadline);
      if lock.Err? {
        return Some(lock.error), lock;
      }
      if file.None? {
        lock.value.Release();
        return None, lock;
      }
      var version := file.value.version;
      if version < 1 || version > CURRENT_VERSION {
        lock.value.Release();
        return Some(Unreadable(UnsupportedVersion)), lock;
      }
      if version == 1 {
        if backup.None? && !faults.lookFails {
          var made := WriteBackup(file.value, faults.backup);
          if !made {
            lock.value.Release();
            return Some(BackupFailed), lock;
          }
        }
        var db := LoadUnlocked(file);
        if db.Err? {
          lock.value.Release();
          return Some(Unreadable(db.error)), lock;
        }
        var ok := WriteAtomic(db.value, faults.write);
        if !ok {
          lock.value.Release();
          return Some(WriteFailed), lock;
        }
      }
      lock.value.Release();
      r := None;
    }

    method WriteBackup(content: Stored, outcome: BackupOutcome) returns (made: bool)
      requires backup == None
      modifies this`backup
      ensures made <==> outcome == Kept
      ensures backup == match outcome
                        case NotCreated => None
                        case CutShort => Some(CutOff)
                        case Unsynced => Some(Whole(content))
                        case Kept => Some(Whole(content))
    {
      if outcome == NotCreated {
        return false;
      }
      backup := Some(CutOff);
      if outcome == CutShort {
        return false;
      }
      backup := Some(Whole(content));
      made := outcome != Unsynced;
    }
  }
}
