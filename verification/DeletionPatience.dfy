/**
 * Recoveries that take their second look at the right time. Then no directory is brought home for a
 * record that is gone or about to go, so every step is orderly; and after every hasty look there is a
 * way to a directory without a record.
 */
module DeletionPatience {
  import opened Prelude
  import opened Records
  import opened CertificateSpec
  import opened DeletionProtocol
  import opened DeletionSteps
  import opened DeletionSafety
  import opened DeletionOverlap

  // A deletion that has yet to drop its record still has the directory staged.
  predicate PatientDeletion(m: CertificateMap, f: Files, op: Id, x: Deletion) {
    && x.phase != Skipped
    && (x.phase == InStaging ==> op in f.staged && x.cert in m)
    && (x.phase == Restoring && op in f.staged ==> x.cert in m)
  }

  // This recovery will bring home whatever is staged.
  predicate WillRestore(x: Recovery) {
    x.look == Looking && x.record.Some? && x.source == Some(false) && x.staged == Some(true)
  }

  predicate PatientRecovery(m: CertificateMap, d: Disk, x: Recovery) {
    && (x.staged == Some(true) ==> !AtPhase(d, x.op, Marked))
    && (WillRestore(x) && x.op in d.files.staged && x.op in d.files.target ==>
          d.files.target[x.op] in m && !AtPhase(d, x.op, InStaging))
    && (SeesBoth(x) ==> !Matches(d.files.staged, x.op, x.record))
    && (x.look.Compared? ==> !x.look.stagedMatches) && x.look != Replacing
  }

  ghost predicate PatientInv(m: CertificateMap, d: Disk) {
    && (forall op :: op in d.dels ==> PatientDeletion(m, d.files, op, d.dels[op]))
    && (forall k :: k in d.recs ==> PatientRecovery(m, d, d.recs[k]))
  }

  // ---- patient steps are orderly ----

  lemma PatientDeletes(m: CertificateMap, d: Disk, e: DeleteEvent, n: CertificateMap, w: Disk)
    requires DiskInv(m, d) && PatientInv(m, d) && DeleteNext(m, d, e, n, w)
    ensures !LateDrop(m, d, OfDelete(e))
    ensures e.RestoreRename? && e.done ==> d.dels[e.op].cert == d.files.target[e.op] && d.dels[e.op].cert in m
  {
    if e.op in d.dels {
      assert DeletionInv(m, d.files, e.op, d.dels[e.op]) && PatientDeletion(m, d.files, e.op, d.dels[e.op]);
    }
  }

  lemma PatientReturns(m: CertificateMap, d: Disk, e: DiskEvent, n: CertificateMap, w: Disk, op: Id)
    requires DiskInv(m, d) && PatientInv(m, d) && DiskNext(m, d, e, n, w)
    requires e.OfRecover? && op in d.files.target && BringsHome(d, e, op)
    ensures d.files.target[op] in m
  {
    assert RecoveryInv(m, d, d.recs[e.r.k]) && PatientRecovery(m, d, d.recs[e.r.k]);
    assert WillRestore(d.recs[e.r.k]);
  }

  /** While every recovery is patient, nothing is brought home or dropped too late. */
  lemma PatientIsOrderly(m: CertificateMap, d: Disk, e: DiskEvent, n: CertificateMap, w: Disk)
    requires DiskInv(m, d) && PatientInv(m, d) && DiskNext(m, d, e, n, w) && Patient(m, d, e)
    ensures Orderly(m, d, e)
  {
    match e
    case OfImport(_) =>
    case OfDelete(x) => PatientDeletes(m, d, x, n, w);
    case OfRecover(r) =>
      forall op | op in d.files.target && BringsHome(d, e, op) ensures d.files.target[op] in m {
        PatientReturns(m, d, e, n, w, op);
      }
  }

  // ---- what a step does to the recoveries that do not move ----

  ghost predicate PhasesFollow(d: Disk, w: Disk) {
    forall q :: q in d.files.target && AtPhase(w, q, InStaging) ==> AtPhase(d, q, InStaging) || AtPhase(d, q, Marked)
  }

  // What is staged keeps its bytes or loses them.
  ghost predicate BytesShrink(d: Disk, w: Disk) {
    forall q :: q in d.files.target && q in w.files.staged && !AtPhase(d, q, Marked) ==>
      q in d.files.staged && (w.files.staged[q] == d.files.staged[q] || w.files.staged[q] == None)
  }

  // The record of a staged directory goes only by the deletion that staged it.
  ghost predicate RecordsStay(m: CertificateMap, d: Disk, n: CertificateMap) {
    forall q :: q in d.files.target && q in d.files.staged && d.files.target[q] in m && !AtPhase(d, q, InStaging) ==>
      d.files.target[q] in n
  }

  ghost predicate Steady(m: CertificateMap, d: Disk, n: CertificateMap, w: Disk) {
    Continues(m, d, n, w) && PhasesFollow(d, w) && BytesShrink(d, w) && RecordsStay(m, d, n)
  }

  lemma SteadyRecovery(m: CertificateMap, d: Disk, n: CertificateMap, w: Disk, x: Recovery)
    requires Steady(m, d, n, w) && RecoveryInv(m, d, x) && PatientRecovery(m, d, x)
    ensures PatientRecovery(n, w, x)
  {
  }

  lemma SteadyDeletion(m: CertificateMap, d: Disk, n: CertificateMap, w: Disk, q: Id, x: Deletion)
    requires Steady(m, d, n, w) && DeletionInv(m, d.files, q, x) && PatientDeletion(m, d.files, q, x)
    requires q in d.dels && d.dels[q] == x && (x.phase == InStaging ==> q in w.files.staged && x.cert in n)
    ensures PatientDeletion(n, w.files, q, x)
  {
  }

  lemma PatientImports(m: CertificateMap, d: Disk, e: ImportEvent, n: CertificateMap, w: Disk)
    requires DiskInv(m, d) && PatientInv(m, d) && ImportNext(m, d, e, n, w)
    ensures PatientInv(n, w)
  {
    ImportMoves(m, d, e, n, w);
    assert Steady(m, d, n, w);
    forall q | q in w.dels ensures PatientDeletion(n, w.files, q, w.dels[q]) {
      assert DeletionInv(m, d.files, q, d.dels[q]) && PatientDeletion(m, d.files, q, d.dels[q]);
    }
    forall k | k in w.recs ensures PatientRecovery(n, w, w.recs[k]) {
      assert RecoveryInv(m, d, d.recs[k]) && PatientRecovery(m, d, d.recs[k]);
      SteadyRecovery(m, d, n, w, d.recs[k]);
    }
  }

  // A staged directory is named by its tombstone, and only one tombstone names a certificate.
  lemma OneStaged(f: Files, op: Id, q: Id)
    requires TombsInv(f) && op in f.staged && q in f.staged && f.target[op] == f.target[q]
    ensures op == q
  {
  }

  lemma DropSteady(m: CertificateMap, d: Disk, op: Id, referenced: bool, written: bool, n: CertificateMap, w: Disk)
    requires DiskInv(m, d) && PatientInv(m, d) && DropNext(m, d, op, referenced, written, n, w)
    ensures PhasesFollow(d, w) && BytesShrink(d, w) && w.files == d.files
    ensures forall q :: q in d.files.staged && q != op && d.files.target[q] in m ==> d.files.target[q] in n
    ensures d.dels[op].phase == InStaging
  {
    assert DeletionInv(m, d.files, op, d.dels[op]) && PatientDeletion(m, d.files, op, d.dels[op]);
    forall q | q in d.files.staged && q != op && d.files.target[q] in m ensures d.files.target[q] in n {
      if d.files.target[q] == d.files.target[op] {
        OneStaged(d.files, op, q);
      }
    }
  }

  lemma DeletePhasesFollow(m: CertificateMap, d: Disk, e: DeleteEvent, n: CertificateMap, w: Disk)
    requires DeleteNext(m, d, e, n, w) && !e.DropStep?
    ensures PhasesFollow(d, w)
  {
  }

  lemma DeleteBytesShrink(m: CertificateMap, d: Disk, e: DeleteEvent, n: CertificateMap, w: Disk)
    requires DeleteNext(m, d, e, n, w) && !e.DropStep?
    ensures BytesShrink(d, w)
  {
  }

  lemma DeleteStaged(m: CertificateMap, d: Disk, e: DeleteEvent, n: CertificateMap, w: Disk)
    requires DeleteNext(m, d, e, n, w) && !e.DropStep?
    ensures n == m && forall q :: q != e.op && q in d.files.staged ==> q in w.files.staged
  {
  }

  // A marked deletion has its directory at home, so staging does not skip it.
  lemma MarkedIsHome(m: CertificateMap, d: Disk, op: Id)
    requires DiskInv(m, d) && AtPhase(d, op, Marked)
    ensures d.dels[op].cert in m && d.dels[op].cert in d.files.home
  {
    assert DeletionInv(m, d.files, op, d.dels[op]) && Kept(m, d.files, d.dels[op].cert);
    OnlyTomb(m, d.files, op, d.dels[op].cert);
  }

  lemma PatientDeletionMoved(m: CertificateMap, d: Disk, e: DeleteEvent, n: CertificateMap, w: Disk)
    requires DiskInv(m, d) && PatientInv(m, d) && DeleteNext(m, d, e, n, w) && e.op in w.dels
    ensures PatientDeletion(n, w.files, e.op, w.dels[e.op])
  {
    if e.op in d.dels {
      assert DeletionInv(m, d.files, e.op, d.dels[e.op]) && PatientDeletion(m, d.files, e.op, d.dels[e.op]);
    }
    if e.StageRename? {
      MarkedIsHome(m, d, e.op);
    }
  }

  lemma PatientDeletionSteps(m: CertificateMap, d: Disk, e: DeleteEvent, n: CertificateMap, w: Disk)
    requires DiskInv(m, d) && PatientInv(m, d) && DeleteNext(m, d, e, n, w)
    ensures PatientInv(n, w)
  {
    if e.DropStep? {
      DropSteady(m, d, e.op, e.referenced, e.written, n, w);
      DropMoves(m, d, e.op, e.referenced, e.written, n, w);
    } else {
      DeletePhasesFollow(m, d, e, n, w);
      DeleteBytesShrink(m, d, e, n, w);
      DeleteStaged(m, d, e, n, w);
      DeleteMoves(m, d, e, n, w);
    }
    forall q | q in w.dels ensures PatientDeletion(n, w.files, q, w.dels[q]) {
      if q == e.op {
        PatientDeletionMoved(m, d, e, n, w);
      } else {
        assert DeletionInv(m, d.files, q, d.dels[q]) && PatientDeletion(m, d.files, q, d.dels[q]);
        SteadyDeletion(m, d, n, w, q, d.dels[q]);
      }
    }
    forall k | k in w.recs ensures PatientRecovery(n, w, w.recs[k]) {
      assert RecoveryInv(m, d, d.recs[k]) && PatientRecovery(m, d, d.recs[k]);
      SteadyRecovery(m, d, n, w, d.recs[k]);
    }
  }

  // ---- recoveries ----

  lemma ActBytesShrink(d: Disk, k: nat, done: bool, w: Disk)
    requires ActNext(d, k, done, w)
    ensures BytesShrink(d, w)
  {
  }

  // A recovery takes no staged directory from a deletion that has yet to drop its record.
  lemma ActLeavesStaged(m: CertificateMap, d: Disk, k: nat, done: bool, w: Disk)
    requires DiskInv(m, d) && PatientInv(m, d) && ActNext(d, k, done, w)
    ensures forall q :: AtPhase(d, q, InStaging) && q in d.files.staged ==> q in w.files.staged
  {
    var x := d.recs[k];
    ActSpares(d, k, done, w);
    assert RecoveryInv(m, d, x) && PatientRecovery(m, d, x);
    DecidedRight(m, d, x);
    assert RepairOf(x) == Restore ==> WillRestore(x);
    if AtPhase(d, x.op, InStaging) {
      assert DeletionInv(m, d.files, x.op, d.dels[x.op]) && PatientDeletion(m, d.files, x.op, d.dels[x.op]);
    }
  }

  lemma PatientActMoved(m: CertificateMap, d: Disk, k: nat, done: bool, w: Disk)
    requires ActNext(d, k, done, w) && PatientRecovery(m, d, d.recs[k])
    ensures PatientRecovery(m, w, w.recs[k])
  {
    ActBytesShrink(d, k, done, w);
  }

  lemma LookLeavesStaged(m: CertificateMap, d: Disk, e: RecoverEvent, n: CertificateMap, w: Disk)
    requires RecoverNext(m, d, e, n, w) && !e.Act? && (e.k in d.recs ==> PatientRecovery(m, d, d.recs[e.k]))
    ensures w.files.staged == d.files.staged
  {
  }

  lemma PatientLookMoved(m: CertificateMap, d: Disk, e: RecoverEvent, n: CertificateMap, w: Disk)
    requires DiskInv(m, d) && PatientInv(m, d) && RecoverNext(m, d, e, n, w) && !e.Act? && e.k in w.recs
    requires Patient(m, d, OfRecover(e))
    ensures PatientRecovery(n, w, w.recs[e.k])
  {
    if e.k in d.recs {
      assert RecoveryInv(m, d, d.recs[e.k]) && PatientRecovery(m, d, d.recs[e.k]);
      MarkedSays(m, d, d.recs[e.k].op);
    }
  }

  lemma PatientRecoverySteps(m: CertificateMap, d: Disk, e: RecoverEvent, n: CertificateMap, w: Disk)
    requires DiskInv(m, d) && PatientInv(m, d) && RecoverNext(m, d, e, n, w) && Patient(m, d, OfRecover(e))
    ensures PatientInv(n, w)
  {
    RecoverMoves(m, d, e, n, w);
    assert e.k in d.recs ==> PatientRecovery(m, d, d.recs[e.k]);
    if e.Act? {
      ActBytesShrink(d, e.k, e.done, w);
      ActLeavesStaged(m, d, e.k, e.done, w);
    } else {
      LookLeavesStaged(m, d, e, n, w);
    }
    forall q | q in w.dels ensures PatientDeletion(n, w.files, q, w.dels[q]) {
      assert DeletionInv(m, d.files, q, d.dels[q]) && PatientDeletion(m, d.files, q, d.dels[q]);
      assert d.dels[q].phase == InStaging ==> AtPhase(d, q, InStaging);
      SteadyDeletion(m, d, n, w, q, d.dels[q]);
    }
    forall k | k in w.recs ensures PatientRecovery(n, w, w.recs[k]) {
      if k != e.k {
        assert RecoveryInv(m, d, d.recs[k]) && PatientRecovery(m, d, d.recs[k]);
        SteadyRecovery(m, d, n, w, d.recs[k]);
      } else if e.Act? {
        PatientActMoved(m, d, k, e.done, w);
      } else {
        PatientLookMoved(m, d, e, n, w);
      }
    }
  }

  lemma PatientNextKeepsInv(m: CertificateMap, d: Disk, e: DiskEvent, n: CertificateMap, w: Disk)
    requires DiskInv(m, d) && PatientInv(m, d) && DiskNext(m, d, e, n, w) && Patient(m, d, e)
    ensures PatientInv(n, w)
  {
    match e
    case OfImport(i) => PatientImports(m, d, i, n, w);
    case OfDelete(x) => PatientDeletionSteps(m, d, x, n, w);
    case OfRecover(r) => PatientRecoverySteps(m, d, r, n, w);
  }
}
