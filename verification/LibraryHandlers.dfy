/** Certificate import, deletion and deletion recovery, with the directory operations between the writes. */
module LibraryHandlers {
  import opened Prelude
  import opened Records
  import opened Environment
  import opened ReferenceSafety
  import opened CertificateSpec
  import opened CertificateRules
  import opened DeletionProtocol
  import opened MetadataFile
  import opened Transactions
  import opened TrustHandlers

  /** The certificate directory tree: one directory per certificate, one staged directory per deletion. */
  class Directories {
    var home: map<Id, Dir>
    var staged: map<Id, Dir>

    constructor ()
      ensures home == map[] && staged == map[]
    {
      home, staged := map[], map[];
    }

    // The directories as the deletion protocol sees them.
    ghost function Tree(): Files
      reads this
    {
      Files(home, staged, map[], map[], map[], {})
    }

    method Place(id: Id, f: Fingerprint, ok: bool) returns (placed: bool)
      modifies this`home
      ensures placed <==> ok && id !in old(home)
      ensures home == if placed then Placed(old(Tree()), id, f).home else old(home)
    {
      placed := ok && id !in home;
      if placed {
        home := home[id := Some(f)];
      }
    }

    // The rename into staging; None when there is nothing to rename.
    method Stage(id: Id, op: Id, ok: bool) returns (moved: Option<bool>)
      modifies this
      ensures moved == if id !in old(home) then None else Some(ok)
      ensures Tree() == if moved == Some(true) then MovedToStaging(old(Tree()), op, id) else old(Tree())
    {
      if id !in home {
        return None;
      }
      if ok {
        home, staged := home - {id}, staged[op := home[id]];
      }
      moved := Some(ok);
    }

    method Unstage(id: Id, op: Id, ok: bool) returns (moved: bool)
      modifies this
      ensures moved <==> ok && op in old(staged) && id !in old(home)
      ensures Tree() == if moved then MovedHome(old(Tree()), op, id) else old(Tree())
    {
      moved := ok && op in staged && id !in home;
      if moved {
        home, staged := home[id := staged[op]], staged - {op};
      }
    }

    // os.RemoveAll: gone, or what is left of the directory after a failure.
    method WipeHome(id: Id, ok: bool)
      modifies this`home
      ensures Tree() == if ok then HomeWiped(old(Tree()), id) else AfterFailedWipe(old(Tree()), id)
    {
      if ok {
        home := home - {id};
      } else if id in home {
        home := home[id := None];
      }
    }

    method WipeStaged(op: Id, ok: bool)
      modifies this`staged
      ensures Tree() == if ok then StagedWiped(old(Tree()), op) else AfterFailedPurge(old(Tree()), op)
    {
      if ok {
        staged := staged - {op};
      } else if op in staged {
        staged := staged[op := None];
      }
    }
  }

  method ValidateDeletion(db: Database, id: Id, allowed: Id) returns (error: Option<ErrorCode>)
    ensures error == DeletableIn(db, id, allowed)
    ensures error == Some(NOT_FOUND) <==> forall c :: c in db.certificates ==> c.id != id
    ensures var i := CertificateAt(db.certificates, id);
            i != -1 ==>
              var c := db.certificates[i];
              var named := exists x :: x in db.deletionOps && x.certificateId == id && x.operationId != allowed;
              && (error.None? <==> !Busy(c) && !c.installedByScopeNest && !named && !CertificateUsed(db, id))
              && (error == Some(CERTIFICATE_DELETE_OPERATION_PENDING) <==> !Busy(c) && !c.installedByScopeNest && named)
              && (error == Some(CERTIFICATE_REFERENCE_IN_USE) <==>
                    !Busy(c) && !c.installedByScopeNest && !named && CertificateUsed(db, id))
  {
    var i := CertificatePosition(db.certificates, id);
    if i != -1 {
      DeletableExactly(db.certificates[i], OtherTomb(db, id, allowed), CertificateUsed(db, id));
      assert db.certificates[i] in db.certificates;
    }
    if i == -1 {
      return Some(NOT_FOUND);
    }
    var c := db.certificates[i];
    if c.trustState == Installing || c.trustState == Removing {
      return Some(CERTIFICATE_TRUST_MUST_BE_REMOVED_FIRST);
    }
    if c.installedByScopeNest {
      return Some(CERTIFICATE_TRUST_MUST_BE_REMOVED_FIRST);
    }
    if c.trusted && c.installedByScopeNest {
      return Some(CERTIFICATE_TRUST_MUST_BE_REMOVED_FIRST);
    }
    if c.operationId != "" {
      return Some(CERTIFICATE_TRUST_OPERATION_PENDING);
    }
    for k := 0 to |db.deletionOps|
      invariant forall j :: 0 <= j < k && db.deletionOps[j].operationId != allowed ==> db.deletionOps[j].certificateId != id
    {
      var x := db.deletionOps[k];
      if x.operationId == allowed {
        continue;
      }
      if x.certificateId == id {
        return Some(CERTIFICATE_DELETE_OPERATION_PENDING);
      }
    }
    var used := CertificateReferenced(db, id);
    error := if used then Some(CERTIFICATE_REFERENCE_IN_USE) else None;
  }

  lemma RemovedAt<T>(s: seq<T>, i: nat, k: nat)
    requires i < |s| && k < |s| - 1
    ensures RemoveAt(s, i)[k] == if k < i then s[k] else s[k + 1]
  {
  }

  lemma RemovedStaysDistinct(cs: seq<Certificate>, i: nat)
    requires i < |cs| && forall j, k :: 0 <= j < k < |cs| ==> cs[j].id != cs[k].id
    ensures var ds := RemoveAt(cs, i); forall j, k :: 0 <= j < k < |ds| ==> ds[j].id != ds[k].id
    ensures forall k :: 0 <= k < |cs| - 1 ==> RemoveAt(cs, i)[k].id != cs[i].id
  {
    var ds := RemoveAt(cs, i);
    forall k | 0 <= k < |ds| ensures ds[k] == if k < i then cs[k] else cs[k + 1] {
      RemovedAt(cs, i, k);
    }
  }

  lemma StillListed(cs: seq<Certificate>, i: nat, id: Id)
    requires i < |cs| && Listed(cs, id) && id != cs[i].id
    ensures Listed(RemoveAt(cs, i), id)
  {
    var k :| 0 <= k < |cs| && cs[k].id == id;
    RemovedAt(cs, i, if k < i then k else k - 1);
    assert RemoveAt(cs, i)[if k < i then k else k - 1].id == id;
  }

  lemma RemoveRecord(db: Database, m: CertificateMap, i: nat)
    requires Represents(db.certificates, m) && i < |db.certificates|
    ensures Represents(RemoveAt(db.certificates, i), m - {db.certificates[i].id})
  {
    var ds := db.certificates;
    var cs := RemoveAt(ds, i);
    RemovedStaysDistinct(ds, i);
    forall k | 0 <= k < |cs| ensures Maps(m, cs[k]) {
      RemovedAt(ds, i, k);
      assert Maps(m, ds[if k < i then k else k + 1]);
    }
    forall id | id in m && id != ds[i].id ensures Listed(cs, id) {
      StillListed(ds, i, id);
    }
  }

  lemma AppendRecord(cs: seq<Certificate>, m: CertificateMap, c: Certificate)
    requires Represents(cs, m) && c.id !in m
    ensures Represents(cs + [c], m[c.id := c])
  {
    forall k | 0 <= k < |cs| ensures cs[k].id != c.id && Maps(m[c.id := c], cs[k]) {
      assert Maps(m, cs[k]);
    }
    forall id | id in m ensures Listed(cs + [c], id) {
      assert Listed(cs, id);
      var k :| 0 <= k < |cs| && cs[k].id == id;
      assert (cs + [c])[k].id == id;
    }
    assert (cs + [c])[|cs|].id == c.id;
  }

  // Which of the file and directory operations of one command succeed.
  // loaded and recorded concern recovery only: its load, and its second attempt at marking a tombstone.
  datatype Faults = Faults(marked: bool, rename: bool, written: bool, undo: bool, purge: bool, untombed: bool,
                           loaded: bool, recorded: bool)

  predicate AllSucceed(f: Faults) {
    f.marked && f.rename && f.written && f.purge && f.untombed
  }

  // Why the first transaction of a deletion leaves no tombstone.
  function MarkRefusal(db: Database, id: Id, written: bool): Option<ErrorCode> {
    var error := DeletableIn(db, id, "");
    if error.None? && !written then Some(INTERNAL_ERROR) else error
  }

  // Every other directory is as it was.
  ghost predicate Spares(before: map<Id, Dir>, after: map<Id, Dir>, key: Id) {
    forall k :: k != key && k in before ==> k in after && after[k] == before[k]
  }

  // Every tombstone of this operation is in the deletion_error state.
  predicate MarkedFailed(ops: seq<DeletionOp>, op: Id) {
    forall x :: x in ops && x.operationId == op ==> x.failed
  }

  // No tombstone of another operation is new or changed.
  predicate SameButFor(before: seq<DeletionOp>, after: seq<DeletionOp>, op: Id) {
    forall x :: x in after && x.operationId != op ==> x in before
  }

  // How the last part ends, once the record is dropped: the staged directory goes, then the tombstone.
  function FinalError(renamed: bool, f: Faults): Option<ErrorCode> {
    if renamed && !f.purge then Some(DELETE_FAILED) else if f.untombed then None else Some(INTERNAL_ERROR)
  }

  class Library {
    const store: Store
    const dirs: Directories

    constructor (store: Store, dirs: Directories)
      ensures this.store == store && this.dirs == dirs
    {
      this.store := store;
      this.dirs := dirs;
    }

    ghost predicate Valid(m: CertificateMap)
      reads store
    {
      Represents(store.file.certificates, m) && DistinctOps(store.file)
    }

    /** CommitImport: the directory is placed before the record is written, and taken back when that fails. */
    method CommitImport(c: Certificate, f: Faults, ghost m: CertificateMap) returns (ok: bool)
      requires Valid(m) && c.id !in m
      modifies store, dirs`home
      ensures ok <==> && (forall d :: d in old(store.file).certificates ==> d.fingerprint != c.fingerprint)
                      && f.rename && c.id !in old(dirs.home) && f.written
      ensures ok ==> && ImportIn(old(store.file), c) == Ok(store.file) && Valid(m[c.id := c])
                     && dirs.home == old(dirs.home)[c.id := Some(c.fingerprint)]
      ensures !ok ==> store.file == old(store.file)
                      && (dirs.home == old(dirs.home)
                          || (!f.undo && c.id !in old(dirs.home) && dirs.home == old(dirs.home)[c.id := None]))
      ensures old(DbInv(store.file)) ==> DbInv(store.file)
    {
      var db := store.file;
      for i := 0 to |db.certificates|
        invariant forall k :: 0 <= k < i ==> db.certificates[k].fingerprint != c.fingerprint
      {
        if db.certificates[i].fingerprint == c.fingerprint {
          assert db.certificates[i] in db.certificates;
          return false;
        }
      }
      var placed := dirs.Place(c.id, c.fingerprint, f.rename);
      if !placed {
        return false;
      }
      if !f.written {
        dirs.WipeHome(c.id, f.undo);
        return false;
      }
      store.file := db.(certificates := db.certificates + [c]);
      AppendRecord(db.certificates, m, c);
      forall d | d in db.certificates ensures d.id != c.id {
        var k :| 0 <= k < |db.certificates| && db.certificates[k] == d;
        assert Maps(m, db.certificates[k]);
      }
      if DbInv(db) {
        MutationKeepsInv(db, AddCertificate(c), store.file);
      }
      ok := true;
    }

    method RemoveTombstone(op: Id, written: bool)
      requires DistinctOps(store.file)
      modifies store
      ensures if written then UntombIn(old(store.file), op) == Ok(store.file) else store.file == old(store.file)
      ensures DistinctOps(store.file) && store.file == old(store.file).(deletionOps := store.file.deletionOps)
      ensures forall x :: x in store.file.deletionOps <==>
                            x in old(store.file).deletionOps && !(written && x.operationId == op)
      ensures old(DbInv(store.file)) ==> DbInv(store.file)
    {
      var db := store.file;
      for i := 0 to |db.deletionOps|
        invariant forall k :: 0 <= k < i ==> db.deletionOps[k].operationId != op
      {
        if db.deletionOps[i].operationId == op {
          if written {
            store.file := db.(deletionOps := RemoveAt(db.deletionOps, i));
            OpRemoved(db, i);
          }
          return;
        }
      }
    }

    method MarkDeletionError(op: Id, message: string, written: bool)
      requires DistinctOps(store.file)
      modifies store
      ensures if written then MarkTombIn(old(store.file), op, message) == Ok(store.file) else store.file == old(store.file)
      ensures DistinctOps(store.file) && store.file == old(store.file).(deletionOps := store.file.deletionOps)
      ensures forall id, o :: HasTomb(store.file, id, o) <==> HasTomb(old(store.file), id, o)
      ensures written ==> MarkedFailed(store.file.deletionOps, op)
      ensures SameButFor(old(store.file).deletionOps, store.file.deletionOps, op)
      ensures old(DbInv(store.file)) ==> DbInv(store.file)
    {
      var db := store.file;
      for i := 0 to |db.deletionOps|
        invariant forall k :: 0 <= k < i ==> db.deletionOps[k].operationId != op
      {
        var x := db.deletionOps[i];
        if x.operationId == op {
          if written {
            store.file := db.(deletionOps := db.deletionOps[i := x.(failed := true, error := message)]);
            OpMarked(db, i, message);
          }
          return;
        }
      }
    }

    // The transaction that drops the record, after checking everything again.
    method DropRecord(id: Id, op: Id, written: bool, ghost m: CertificateMap) returns (error: Option<ErrorCode>)
      requires Valid(m)
      modifies store
      ensures store.file == if written then After(DropIn(old(store.file), id, op), old(store.file)) else old(store.file)
      ensures error == match DeletableIn(old(store.file), id, op)
                       case Some(e) => Some(e)
                       case None => if written then None else Some(INTERNAL_ERROR)
      ensures error.None? ==> && store.file == old(store.file).(certificates := store.file.certificates)
                              && Represents(store.file.certificates, m - {id})
      ensures error.Some? ==> store.file == old(store.file)
      ensures old(DbInv(store.file)) ==> DbInv(store.file)
    {
      var db := store.file;
      error := ValidateDeletion(db, id, op);
      if error.Some? {
        return;
      }
      var i := CertificatePosition(db.certificates, id);
      if !written {
        return Some(INTERNAL_ERROR);
      }
      RemoveRecord(db, m, i);
      store.file := db.(certificates := RemoveAt(db.certificates, i));
      if DbInv(db) {
        MutationKeepsInv(db, DropCertificate(i), store.file);
      }
    }

    // The first transaction: the checks, and the tombstone.
    method MarkForDeletion(id: Id, op: Id, written: bool) returns (error: Option<ErrorCode>)
      requires DistinctOps(store.file) && forall x :: x in store.file.deletionOps ==> x.operationId != op
      modifies store
      ensures error == MarkRefusal(old(store.file), id, written)
      ensures store.file == if written then After(TombstoneIn(old(store.file), id, op), old(store.file)) else old(store.file)
      ensures error.None? ==> DistinctOps(store.file) && HasTomb(store.file, id, op)
      ensures old(DbInv(store.file)) ==> DbInv(store.file)
    {
      var db := store.file;
      error := ValidateDeletion(db, id, "");
      if error.Some? {
        return;
      }
      if !written {
        return Some(INTERNAL_ERROR);
      }
      var x := DeletionOp(id, op, false, "");
      store.file := db.(deletionOps := db.deletionOps + [x]);
      assert x in store.file.deletionOps;
      forall k | 0 <= k < |db.deletionOps| ensures db.deletionOps[k].operationId != op {
        assert db.deletionOps[k] in db.deletionOps;
      }
      if DbInv(db) {
        MutationKeepsInv(db, SetDeletionOps(store.file.deletionOps), store.file);
      }
    }

    // The record is still stored; its bytes are where they were, or staged under the tombstone.
    ghost predicate StillStored(m: CertificateMap, home: map<Id, Dir>, id: Id, op: Id)
      reads store, dirs
    {
      && Represents(store.file.certificates, m)
      && (id in home ==> (id in dirs.home && dirs.home[id] == home[id])
                         || (op in dirs.staged && dirs.staged[op] == home[id] && HasTomb(store.file, id, op)))
    }

    // The record is gone, and a directory that is left is named by the tombstone.
    ghost predicate RecordGone(m: CertificateMap, id: Id, op: Id)
      reads store, dirs
    {
      Represents(store.file.certificates, m - {id}) && id !in dirs.home
      && (op in dirs.staged ==> HasTomb(store.file, id, op))
    }

    // Everything after the tombstone is written.
    method CarryOutDeletion(id: Id, op: Id, f: Faults, ghost m: CertificateMap) returns (r: Option<ErrorCode>)
      requires Valid(m) && op !in dirs.staged && HasTomb(store.file, id, op)
      modifies store, dirs
      ensures r.None? ==> RecordGone(m, id, op) && op !in dirs.staged && !HasTomb(store.file, id, op)
      ensures StillStored(m, old(dirs.home), id, op) || RecordGone(m, id, op)
      ensures r == if id in old(dirs.home) && !f.rename then Some(DELETE_FAILED)
                   else match DeletableIn(old(store.file), id, op)
                     case Some(e) => Some(e)
                     case None => if f.written then FinalError(id in old(dirs.home), f) else Some(INTERNAL_ERROR)
      ensures id in old(dirs.home) && !f.rename && f.untombed ==> MarkedFailed(store.file.deletionOps, op)
      ensures Spares(old(dirs.home), dirs.home, id)
      ensures Spares(old(dirs.staged), dirs.staged, op)
      ensures old(DbInv(store.file)) ==> DbInv(store.file)
    {
      ghost var home := dirs.home;
      var moved := dirs.Stage(id, op, f.rename);
      if moved == Some(false) {
        MarkDeletionError(op, "could not be staged", f.untombed);
        return Some(DELETE_FAILED);
      }
      r := DropAndFinalize(id, op, moved.Some?, f, m, home);
    }

    // The second transaction, and what follows from its outcome.
    method DropAndFinalize(id: Id, op: Id, renamed: bool, f: Faults, ghost m: CertificateMap, ghost home: map<Id, Dir>)
      returns (r: Option<ErrorCode>)
      requires Valid(m) && id !in dirs.home && (renamed <==> op in dirs.staged) && HasTomb(store.file, id, op)
      requires (id in home <==> renamed) && (renamed ==> dirs.staged[op] == home[id])
      modifies store, dirs
      ensures r.None? ==> RecordGone(m, id, op) && op !in dirs.staged && !HasTomb(store.file, id, op)
      ensures || RecordGone(m, id, op)
              || (Represents(store.file.certificates, m)
                  && if !renamed then dirs.Tree() == old(dirs.Tree())
                     else if f.undo then dirs.Tree() == MovedHome(old(dirs.Tree()), op, id)
                     else dirs.Tree() == old(dirs.Tree()) && HasTomb(store.file, id, op))
      ensures StillStored(m, home, id, op) || RecordGone(m, id, op)
      ensures r == match DeletableIn(old(store.file), id, op)
                   case Some(e) => Some(e)
                   case None => if f.written then FinalError(renamed, f) else Some(INTERNAL_ERROR)
      ensures Spares(old(dirs.home), dirs.home, id)
      ensures Spares(old(dirs.staged), dirs.staged, op)
      ensures old(DbInv(store.file)) ==> DbInv(store.file)
    {
      r := DropRecord(id, op, f.written, m);
      if r.Some? {
        if renamed {
          Restore(id, op, f);
        }
        return;
      }
      r := Finalize(id, op, renamed, f);
    }

    // The record is gone: the staged directory goes, then the tombstone.
    method Finalize(id: Id, op: Id, renamed: bool, f: Faults) returns (r: Option<ErrorCode>)
      requires DistinctOps(store.file) && HasTomb(store.file, id, op) && (!renamed ==> op !in dirs.staged)
      modifies store, dirs`staged
      ensures DistinctOps(store.file) && store.file == old(store.file).(deletionOps := store.file.deletionOps)
      ensures r.None? ==> op !in dirs.staged && !HasTomb(store.file, id, op)
      ensures r == FinalError(renamed, f) && (r == Some(DELETE_FAILED) && f.untombed ==> MarkedFailed(store.file.deletionOps, op))
      ensures op in dirs.staged ==> HasTomb(store.file, id, op)
      ensures Spares(old(dirs.staged), dirs.staged, op)
      ensures old(DbInv(store.file)) ==> DbInv(store.file)
    {
      if renamed {
        dirs.WipeStaged(op, f.purge);
        if !f.purge {
          MarkDeletionError(op, "could not be finalized", f.untombed);
          return Some(DELETE_FAILED);
        }
      }
      RemoveTombstone(op, f.untombed);
      r := if f.untombed then None else Some(INTERNAL_ERROR);
    }

    /** delete_certificate with nothing else going on, and any of its steps failing. */
    method DeleteCertificate(id: Id, op: Id, f: Faults, ghost m: CertificateMap) returns (r: Option<ErrorCode>)
      requires Valid(m) && op !in dirs.staged && forall x :: x in store.file.deletionOps ==> x.operationId != op
      modifies store, dirs
      ensures MarkRefusal(old(store.file), id, f.marked).Some? ==>
                && r == MarkRefusal(old(store.file), id, f.marked) && store.file == old(store.file)
                && dirs.home == old(dirs.home) && dirs.staged == old(dirs.staged)
      ensures MarkRefusal(old(store.file), id, f.marked).None? ==>
                r == if id in old(dirs.home) && !f.rename then Some(DELETE_FAILED)
                     else match DeletableIn(TombstoneIn(old(store.file), id, op).value, id, op)
                       case Some(e) => Some(e)
                       case None => if !f.written then Some(INTERNAL_ERROR)
                                    else if id in old(dirs.home) && !f.purge then Some(DELETE_FAILED)
                                    else if !f.untombed then Some(INTERNAL_ERROR) else None
      ensures r.None? ==> RecordGone(m, id, op) && op !in dirs.staged && !HasTomb(store.file, id, op)
      ensures StillStored(m, old(dirs.home), id, op) || RecordGone(m, id, op)
      ensures (DeletableIn(old(store.file), id, "").None? && AllSucceed(f)
               && (forall x :: x in old(store.file).deletionOps ==> x.operationId != "")) ==> r.None?
      ensures Spares(old(dirs.home), dirs.home, id)
      ensures Spares(old(dirs.staged), dirs.staged, op)
      ensures old(DbInv(store.file)) ==> DbInv(store.file)
    {
      r := MarkForDeletion(id, op, f.marked);
      if r.Some? {
        return;
      }
      r := CarryOutDeletion(id, op, f, m);
    }

    // The record could not be dropped: its directory goes back, or the tombstone keeps naming it.
    method Restore(id: Id, op: Id, f: Faults)
      requires DistinctOps(store.file) && op in dirs.staged && id !in dirs.home && HasTomb(store.file, id, op)
      modifies store, dirs
      ensures DistinctOps(store.file) && store.file == old(store.file).(deletionOps := store.file.deletionOps)
      ensures dirs.Tree() == if f.undo then MovedHome(old(dirs.Tree()), op, id) else old(dirs.Tree())
      ensures !f.undo ==> HasTomb(store.file, id, op)
      ensures Spares(old(dirs.home), dirs.home, id) && Spares(old(dirs.staged), dirs.staged, op)
      ensures old(DbInv(store.file)) ==> DbInv(store.file)
    {
      var restored := dirs.Unstage(id, op, f.undo);
      if !restored {
        MarkDeletionError(op, "could not be restored", f.untombed);
      } else {
        RemoveTombstone(op, f.untombed);
      }
    }

    ghost predicate HoldsBytes(m: CertificateMap, id: Id, op: Id)
      reads dirs
    {
      id in m && (Matches(dirs.home, id, Some(m[id].fingerprint)) || Matches(dirs.staged, op, Some(m[id].fingerprint)))
    }

    /**
     * Recovery of one tombstone, whatever state the two directories are in. It never loses bytes that
     * match the record. A tombstone it does not clear is marked, unless it reports the failure itself.
     */
    method ReconcileDeletion(id: Id, op: Id, f: Faults, ghost m: CertificateMap) returns (cleared: bool, failed: bool)
      requires Valid(m)
      modifies store, dirs
      ensures Valid(m) && store.file == old(store.file).(deletionOps := store.file.deletionOps)
      ensures var record := if id in m then Some(m[id].fingerprint) else None;
              var repair := RepairFor(id in m, id in old(dirs.home), op in old(dirs.staged),
                                      Matches(old(dirs.home), id, record), Matches(old(dirs.staged), op, record));
              cleared <==> f.loaded && f.untombed && Repairable(repair, f)
      ensures failed <==> !f.loaded || !f.untombed
      ensures !failed ==> MarkedFailed(store.file.deletionOps, op)
      ensures SameButFor(old(store.file).deletionOps, store.file.deletionOps, op)
      ensures old(HoldsBytes(m, id, op)) ==> HoldsBytes(m, id, op)
      ensures cleared ==> op !in dirs.staged && !HasTomb(store.file, id, op)
      ensures cleared && id in m ==> id in dirs.home
      ensures cleared && old(HoldsBytes(m, id, op)) ==> Matches(dirs.home, id, Some(m[id].fingerprint))
      ensures id !in m ==> dirs.home == old(dirs.home)
      ensures id in m && Matches(old(dirs.home), id, Some(m[id].fingerprint)) ==> Matches(dirs.home, id, Some(m[id].fingerprint))
      ensures OnlyTouches(old(dirs.home), dirs.home, id) && OnlyTouches(old(dirs.staged), dirs.staged, op)
      ensures forall i, o :: HasTomb(store.file, i, o) ==> HasTomb(old(store.file), i, o)
      ensures old(DbInv(store.file)) ==> DbInv(store.file)
    {
      if !f.loaded {
        return false, true;
      }
      var i := CertificatePosition(store.file.certificates, id);
      PositionRepresents(store.file.certificates, m, id);
      var fingerprint := if i == -1 then None else Some(store.file.certificates[i].fingerprint);
      var done := RepairDirectories(id, op, fingerprint, f);
      if done {
        RemoveTombstone(op, f.untombed);
        cleared := f.untombed;
      } else {
        MarkDeletionError(op, "could not be reconciled", f.untombed);
        cleared := false;
      }
      failed := !f.untombed;
    }

    // One round of the recovery loop: a failure is recorded in the tombstone, if it can be, and reported.
    method ReconcileAndRecord(x: DeletionOp, f: Faults, ghost m: CertificateMap) returns (failed: bool)
      requires Valid(m)
      modifies store, dirs
      ensures Valid(m) && store.file == old(store.file).(deletionOps := store.file.deletionOps)
      ensures failed <==> !f.loaded || !f.untombed
      ensures !failed || f.recorded ==> MarkedFailed(store.file.deletionOps, x.operationId)
      ensures SameButFor(old(store.file).deletionOps, store.file.deletionOps, x.operationId)
      ensures forall id, o :: HasTomb(store.file, id, o) ==> HasTomb(old(store.file), id, o)
      ensures forall id, op :: (op == x.operationId ==> id == x.certificateId) && old(HoldsBytes(m, id, op))
                ==> HoldsBytes(m, id, op)
      ensures old(DbInv(store.file)) ==> DbInv(store.file)
    {
      var cleared;
      cleared, failed := ReconcileDeletion(x.certificateId, x.operationId, f, m);
      if failed {
        MarkDeletionError(x.operationId, "could not be reconciled", f.recorded);
      }
      forall id, op | (op == x.operationId ==> id == x.certificateId) && old(HoldsBytes(m, id, op))
        ensures HoldsBytes(m, id, op)
      {
        BytesHeld(old(dirs.home), dirs.home, old(dirs.staged), dirs.staged,
                  x.certificateId, x.operationId, id, op, Some(m[id].fingerprint));
      }
    }

    /**
     * reconcileCertificateDeletions: every loaded tombstone is tried, a failed one does not keep the
     * later ones from being tried, and no record's bytes are lost. A tombstone that is left is marked;
     * only one whose failure was reported and could not be recorded either may be as it was.
     */
    method ReconcileDeletions(f: Id -> Faults, ghost m: CertificateMap) returns (failed: set<Id>)
      requires Valid(m)
      modifies store, dirs
      ensures Valid(m) && store.file == old(store.file).(deletionOps := store.file.deletionOps)
      ensures forall op :: op in failed ==> !f(op).loaded || !f(op).untombed
      ensures forall x :: x in old(store.file).deletionOps && (!f(x.operationId).loaded || !f(x.operationId).untombed)
                ==> x.operationId in failed
      ensures forall x :: x in store.file.deletionOps
                ==> x.failed || (x.operationId in failed && !f(x.operationId).recorded)
      ensures forall id, op :: HasTomb(store.file, id, op) ==> HasTomb(old(store.file), id, op)
      ensures forall id, op :: old(HasTomb(store.file, id, op)) && old(HoldsBytes(m, id, op)) ==> HoldsBytes(m, id, op)
      ensures old(DbInv(store.file)) ==> DbInv(store.file)
    {
      var loaded := store.file.deletionOps;
      failed := {};
      for i := 0 to |loaded|
        invariant Valid(m) && store.file == old(store.file).(deletionOps := store.file.deletionOps)
        invariant forall op :: op in failed ==> !f(op).loaded || !f(op).untombed
        invariant forall k :: 0 <= k < i && (!f(loaded[k].operationId).loaded || !f(loaded[k].operationId).untombed)
                    ==> loaded[k].operationId in failed
        invariant forall x, k :: x in store.file.deletionOps && 0 <= k < i && x.operationId == loaded[k].operationId
                    ==> x.failed || (x.operationId in failed && !f(x.operationId).recorded)
        invariant forall id, op :: HasTomb(store.file, id, op) ==> HasTomb(old(store.file), id, op)
        invariant forall id, op :: old(HasTomb(store.file, id, op)) && old(HoldsBytes(m, id, op)) ==> HoldsBytes(m, id, op)
        invariant old(DbInv(store.file)) ==> DbInv(store.file)
      {
        var x := loaded[i];
        var broken := ReconcileAndRecord(x, f(x.operationId), m);
        if broken {
          failed := failed + {x.operationId};
        }
        forall id, op | old(HasTomb(store.file, id, op)) && old(HoldsBytes(m, id, op)) ensures HoldsBytes(m, id, op) {
          OneTombEach(old(store.file), i, id, op);
        }
      }
      forall x | x in store.file.deletionOps ensures x.failed || (x.operationId in failed && !f(x.operationId).recorded) {
        assert HasTomb(store.file, x.certificateId, x.operationId);
        var y :| y in loaded && y.operationId == x.operationId && y.certificateId == x.certificateId;
        var k :| 0 <= k < |loaded| && loaded[k] == y;
      }
    }

    // The directory part of recovery; the record's fingerprint is None when there is no record.
    method RepairDirectories(id: Id, op: Id, record: Option<Fingerprint>, f: Faults) returns (done: bool)
      modifies dirs
      ensures done <==> Repairable(RepairFor(record.Some?, id in old(dirs.home), op in old(dirs.staged),
                                             Matches(old(dirs.home), id, record),
                                             Matches(old(dirs.staged), op, record)), f)
      ensures record.Some? && (Matches(old(dirs.home), id, record) || Matches(old(dirs.staged), op, record)) ==>
                if done then Matches(dirs.home, id, record)
                else Matches(dirs.home, id, record) || Matches(dirs.staged, op, record)
      ensures record.Some? && Matches(old(dirs.home), id, record) ==> Matches(dirs.home, id, record)
      ensures OnlyTouches(old(dirs.home), dirs.home, id) && OnlyTouches(old(dirs.staged), dirs.staged, op)
      ensures done ==> op !in dirs.staged && (record.Some? ==> id in dirs.home)
      ensures record.None? ==> dirs.home == old(dirs.home)
    {
      var source, staged := id in dirs.home, op in dirs.staged;
      done := false;
      if record.Some? && staged && !source {
        done := dirs.Unstage(id, op, f.rename);
      } else if record.None? && staged {
        dirs.WipeStaged(op, f.purge);
        done := f.purge;
      } else if record.Some? && source && !staged {
        done := true;
      } else if record.Some? && source && staged {
        if Matches(dirs.home, id, record) {
          dirs.WipeStaged(op, f.purge);
          done := f.purge;
        } else if Matches(dirs.staged, op, record) {
          dirs.WipeHome(id, f.undo);
          if f.undo {
            done := dirs.Unstage(id, op, f.rename);
          }
        }
      }
    }
  }

  // Recovery of one tombstone leaves the bytes that others lead to alone.
  lemma BytesHeld(home: map<Id, Dir>, homeAfter: map<Id, Dir>, staged: map<Id, Dir>, stagedAfter: map<Id, Dir>,
                  id: Id, op: Id, other: Id, otherOp: Id, f: Option<Fingerprint>)
    requires OnlyTouches(home, homeAfter, id) && OnlyTouches(staged, stagedAfter, op)
    requires Matches(home, other, f) || Matches(staged, otherOp, f)
    requires other == id && Matches(home, other, f) ==> Matches(homeAfter, other, f)
    requires otherOp == op ==> other == id
    requires otherOp == op && other == id ==> Matches(homeAfter, other, f) || Matches(stagedAfter, otherOp, f)
    ensures Matches(homeAfter, other, f) || Matches(stagedAfter, otherOp, f)
  {
  }

  lemma OneTombEach(db: Database, i: nat, id: Id, op: Id)
    requires DistinctOps(db) && i < |db.deletionOps| && HasTomb(db, id, op)
    ensures db.deletionOps[i].operationId == op ==> db.deletionOps[i].certificateId == id
  {
    var x :| x in db.deletionOps && x.operationId == op && x.certificateId == id;
    var k :| 0 <= k < |db.deletionOps| && db.deletionOps[k] == x;
  }

  ghost predicate OnlyTouches(before: map<Id, Dir>, after: map<Id, Dir>, key: Id) {
    forall k :: k != key ==> (k in after <==> k in before) && (k in after ==> after[k] == before[k])
  }

  // The directory operations the repair needs all succeed.
  predicate Repairable(repair: Repair, f: Faults) {
    match repair
    case Restore => f.rename
    case Purge => f.purge
    case Forget => true
    case DropStaged => f.purge
    case ReplaceSource => f.undo && f.rename
    case Report => false
  }

  lemma RemovedOp(ops: seq<DeletionOp>, i: nat)
    requires i < |ops| && forall j, k :: 0 <= j < k < |ops| ==> ops[j].operationId != ops[k].operationId
    ensures forall x :: x in RemoveAt(ops, i) <==> x in ops && x.operationId != ops[i].operationId
  {
    forall x ensures x in RemoveAt(ops, i) <==> x in ops && x.operationId != ops[i].operationId {
      if x in ops {
        var k :| 0 <= k < |ops| && ops[k] == x;
        if k != i {
          assert RemoveAt(ops, i)[if k < i then k else k - 1] == x;
        }
      }
      if x in RemoveAt(ops, i) {
        var k :| 0 <= k < |ops| - 1 && RemoveAt(ops, i)[k] == x;
        assert x == ops[if k < i then k else k + 1];
      }
    }
  }

  lemma OpRemoved(db: Database, i: nat)
    requires DistinctOps(db) && i < |db.deletionOps|
    ensures var t := db.(deletionOps := RemoveAt(db.deletionOps, i)); DistinctOps(t) && (DbInv(db) ==> DbInv(t))
    ensures forall x :: x in RemoveAt(db.deletionOps, i)
                        <==> x in db.deletionOps && x.operationId != db.deletionOps[i].operationId
  {
    RemovedOp(db.deletionOps, i);
    if DbInv(db) {
      var t := db.(deletionOps := RemoveAt(db.deletionOps, i));
      MutationKeepsInv(db, SetDeletionOps(t.deletionOps), t);
    }
  }

  lemma OpMarked(db: Database, i: nat, message: string)
    requires DistinctOps(db) && i < |db.deletionOps|
    ensures var t := db.(deletionOps := db.deletionOps[i := db.deletionOps[i].(failed := true, error := message)]);
            && DistinctOps(t) && (DbInv(db) ==> DbInv(t)) && (forall id, o :: HasTomb(t, id, o) <==> HasTomb(db, id, o))
            && MarkedFailed(t.deletionOps, db.deletionOps[i].operationId)
            && SameButFor(db.deletionOps, t.deletionOps, db.deletionOps[i].operationId)
  {
    var t := db.(deletionOps := db.deletionOps[i := db.deletionOps[i].(failed := true, error := message)]);
    MarkedOp(db, t, i);
    forall x | x in t.deletionOps && x.operationId != db.deletionOps[i].operationId ensures x in db.deletionOps {
      var k :| 0 <= k < |t.deletionOps| && t.deletionOps[k] == x;
      assert x == db.deletionOps[k];
    }
    if DbInv(db) {
      MutationKeepsInv(db, SetDeletionOps(t.deletionOps), t);
    }
  }

  lemma MarkedOp(db: Database, file: Database, i: nat)
    requires i < |db.deletionOps| && |file.deletionOps| == |db.deletionOps|
    requires forall k :: 0 <= k < |db.deletionOps| && k != i ==> file.deletionOps[k] == db.deletionOps[k]
    requires file.deletionOps[i].operationId == db.deletionOps[i].operationId
    requires file.deletionOps[i].certificateId == db.deletionOps[i].certificateId
    ensures forall id, o :: HasTomb(file, id, o) <==> HasTomb(db, id, o)
  {
    forall id, o ensures HasTomb(file, id, o) <==> HasTomb(db, id, o) {
      if x :| x in db.deletionOps && x.operationId == o && x.certificateId == id {
        var k :| 0 <= k < |db.deletionOps| && db.deletionOps[k] == x;
        assert file.deletionOps[k] in file.deletionOps;
      }
      if x :| x in file.deletionOps && x.operationId == o && x.certificateId == id {
        var k :| 0 <= k < |file.deletionOps| && file.deletionOps[k] == x;
        assert db.deletionOps[k] in db.deletionOps;
      }
    }
  }
}
