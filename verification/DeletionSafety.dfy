/**
 * What import, deletion and any number of overlapping recoveries keep as long as no recovery looks
 * carelessly: every record keeps its bytes. In orderly runs nothing is left behind either.
 */
module DeletionSafety {
  import opened Prelude
  import opened Records
  import opened CertificateSpec
  import opened DeletionProtocol
  import opened DeletionSteps

  predicate DeletionInv(m: CertificateMap, f: Files, op: Id, x: Deletion) {
    && op in f.target && x.cert == f.target[op]
    && (x.phase == Marked ==> op in f.tombs && op !in f.staged && x.cert in m)
    && (x.phase == Untombing ==> op !in f.staged)
    && (x.phase == Dropped ==> x.cert !in m)
  }

  // Seeing the certificate's own directory and no staged one means that there is none and will be none.
  predicate RecoveryInv(m: CertificateMap, d: Disk, x: Recovery) {
    && x.op in d.files.target
    && var id := d.files.target[x.op];
    && (x.record.None? ==> id !in m)
    && (x.record.Some? && id in m ==> x.record.value == m[id].fingerprint)
    && (x.look == Clearing || (x.source == Some(true) && x.staged == Some(false)) ==>
          x.op !in d.files.staged && !AtPhase(d, x.op, Marked))
    && (id in m ==> !(x.source == Some(true) && x.staged == Some(true)) && x.look != Replacing)
    && (x.look.Comparing? || x.look.Compared? || x.look == Replacing ==> SeesBoth(x))
  }

  ghost predicate DelsInv(m: CertificateMap, d: Disk) {
    forall op :: op in d.dels ==> DeletionInv(m, d.files, op, d.dels[op])
  }

  ghost predicate RecsInv(m: CertificateMap, d: Disk) {
    forall k :: k in d.recs ==> RecoveryInv(m, d, d.recs[k])
  }

  ghost predicate DiskInv(m: CertificateMap, d: Disk) {
    Sound(m, d.files) && DelsInv(m, d) && RecsInv(m, d)
  }

  // ---- what a step does to the deletions and recoveries that do not move ----

  // Tombstones keep their certificates, no deleted record comes back, and only a marked deletion stages.
  ghost predicate Continues(m: CertificateMap, d: Disk, n: CertificateMap, w: Disk) {
    && (forall op :: op in d.files.target ==> op in w.files.target && w.files.target[op] == d.files.target[op])
    && (forall op :: op in d.files.target && d.files.target[op] in n ==>
          d.files.target[op] in m && n[d.files.target[op]].fingerprint == m[d.files.target[op]].fingerprint)
    && (forall op :: op in d.files.target && op in w.files.staged ==> op in d.files.staged || AtPhase(d, op, Marked))
    && (forall op :: op in d.files.target && AtPhase(w, op, Marked) ==> AtPhase(d, op, Marked))
  }

  // Only the deletion `op` and the recovery `k` move.
  ghost predicate Moves(d: Disk, w: Disk, op: Id, k: Option<nat>) {
    && (forall q :: q in w.dels && q != op ==> q in d.dels && w.dels[q] == d.dels[q])
    && (forall j :: j in w.recs && Some(j) != k ==> j in d.recs && w.recs[j] == d.recs[j])
  }

  // A marked deletion that does not move keeps its tombstone, its directory and its record.
  ghost predicate LeavesMarked(d: Disk, n: CertificateMap, w: Disk, op: Id) {
    forall q :: q != op && AtPhase(d, q, Marked) ==>
      q in w.files.tombs && q !in w.files.staged && d.dels[q].cert in n
  }

  // All others are as they were.
  lemma RestKept(m: CertificateMap, d: Disk, n: CertificateMap, w: Disk, op: Id, k: Option<nat>)
    requires DelsInv(m, d) && RecsInv(m, d) && Continues(m, d, n, w) && Moves(d, w, op, k) && LeavesMarked(d, n, w, op)
    requires op in w.dels ==> DeletionInv(n, w.files, op, w.dels[op])
    requires k.Some? && k.value in w.recs ==> RecoveryInv(n, w, w.recs[k.value])
    ensures DelsInv(n, w) && RecsInv(n, w)
  {
    forall q | q in w.dels ensures DeletionInv(n, w.files, q, w.dels[q]) {
      if q != op {
        assert DeletionInv(m, d.files, q, d.dels[q]);
        assert d.dels[q].phase == Marked ==> AtPhase(d, q, Marked);
      }
    }
    forall j | j in w.recs ensures RecoveryInv(n, w, w.recs[j]) {
      if Some(j) != k {
        assert RecoveryInv(m, d, d.recs[j]);
      }
    }
  }

  lemma MarkedStay(m: CertificateMap, d: Disk, n: CertificateMap, w: Disk, op: Id)
    requires DelsInv(m, d)
    requires forall q :: q != op && q in d.dels && q in d.files.tombs ==> q in w.files.tombs
    requires forall q :: q != op && q in w.files.staged ==> q in d.files.staged
    requires forall q :: q != op && q in d.dels && q in d.files.tombs && d.dels[q].cert in m ==> d.dels[q].cert in n
    ensures LeavesMarked(d, n, w, op)
  {
    forall q | q != op && AtPhase(d, q, Marked) ensures q in w.files.tombs && q !in w.files.staged && d.dels[q].cert in n {
      assert DeletionInv(m, d.files, q, d.dels[q]);
    }
  }

  lemma DeletionsAreNamed(m: CertificateMap, d: Disk)
    requires DelsInv(m, d)
    ensures d.dels.Keys <= d.files.target.Keys
  {
    forall q | q in d.dels ensures q in d.files.target {
      assert DeletionInv(m, d.files, q, d.dels[q]);
    }
  }

  // ---- the files ----

  lemma ImportSound(m: CertificateMap, d: Disk, e: ImportEvent, n: CertificateMap, w: Disk)
    requires Sound(m, d.files) && ImportNext(m, d, e, n, w)
    ensures Sound(n, w.files)
  {
    match e
    case Place(id, x) => PlacedKeeps(m, d.files, id, x);
    case ImportStep(id, now) => ImportedKeeps(m, d.files, id, now);
    case Rollback(id, done) =>
      if done {
        RolledBackKeeps(m, d.files, id);
      } else {
        HalfRolledBackKeeps(m, d.files, id);
      }
    case ImportVanish(id) => ImportStoppedKeeps(m, d.files, id);
  }

  lemma DeleteSound(m: CertificateMap, d: Disk, e: DeleteEvent, n: CertificateMap, w: Disk)
    requires Sound(m, d.files) && DeleteNext(m, d, e, n, w)
    requires !e.MarkStep? ==> DeletionInv(m, d.files, e.op, d.dels[e.op])
    ensures Sound(n, w.files)
  {
    match e
    case MarkStep(id, op, referenced) => TombedKeeps(m, d.files, op, id);
    case StageRename(op, done) =>
      if d.dels[op].cert in d.files.home && done {
        StagedKeeps(m, d.files, op, d.dels[op].cert);
      }
    case DropStep(op, referenced, written) => DroppedKeeps(m, d.files, d.dels[op].cert);
    case RestoreRename(op, done) =>
      if done {
        ReturnedKeeps(m, d.files, op, d.dels[op].cert);
      }
    case PurgeDir(op, done) =>
      if done {
        WipedKeeps(m, d.files, op);
      } else {
        HalfWipedKeeps(m, d.files, op);
      }
    case UntombStep(op) => UntombedKeeps(m, d.files, op);
    case AbortStep(op) => ReportedKeeps(m, d.files, op);
    case DeleteVanish(_) =>
  }

  lemma ReturnSound(m: CertificateMap, d: Disk, k: nat, done: bool, w: Disk)
    requires Sound(m, d.files) && k in d.recs && d.recs[k].op in d.files.target && ReturnNext(d, k, done, w)
    ensures Sound(m, w.files)
  {
    if done {
      ReturnedKeeps(m, d.files, d.recs[k].op, d.files.target[d.recs[k].op]);
    }
  }

  lemma PurgeSound(m: CertificateMap, d: Disk, k: nat, done: bool, w: Disk)
    requires Sound(m, d.files) && k in d.recs && PurgeNext(d, k, done, w)
    requires d.recs[k].op in d.files.target && d.files.target[d.recs[k].op] !in m
    ensures Sound(m, w.files)
  {
    if done {
      WipedKeeps(m, d.files, d.recs[k].op);
    } else {
      HalfWipedKeeps(m, d.files, d.recs[k].op);
    }
  }

  // What a decision says about the record it was taken for.
  lemma DecidedRight(m: CertificateMap, d: Disk, x: Recovery)
    requires RecoveryInv(m, d, x) && Decided(x)
    ensures RepairOf(x) in {Purge, DropStaged, ReplaceSource} ==> d.files.target[x.op] !in m
    ensures RepairOf(x) == Forget ==> x.op !in d.files.staged && !AtPhase(d, x.op, Marked)
    ensures RepairOf(x) == Restore ==> x.source == Some(false)
    ensures RepairOf(x) == Purge ==> x.staged == Some(true)
    ensures RepairOf(x) in {DropStaged, ReplaceSource} ==> SeesBoth(x)
  {
  }

  /** What recovery decides from stale looks is still right when it acts. */
  lemma ActSound(m: CertificateMap, d: Disk, k: nat, done: bool, w: Disk)
    requires Sound(m, d.files) && ActNext(d, k, done, w) && RecoveryInv(m, d, d.recs[k])
    ensures Sound(m, w.files)
  {
    DecidedRight(m, d, d.recs[k]);
    match RepairOf(d.recs[k])
    case Restore => ReturnSound(m, d, k, done, w);
    case Purge => PurgeSound(m, d, k, done, w);
    case DropStaged => PurgeSound(m, d, k, done, w);
    case ReplaceSource => HomeWipedKeeps(m, d.files, d.recs[k].op, d.files.target[d.recs[k].op]);
    case _ => assert w.files == d.files;
  }

  lemma RecoverSound(m: CertificateMap, d: Disk, e: RecoverEvent, n: CertificateMap, w: Disk)
    requires Sound(m, d.files) && RecoverNext(m, d, e, n, w)
    requires e.k in d.recs ==> RecoveryInv(m, d, d.recs[e.k])
    ensures Sound(n, w.files)
  {
    match e
    case Act(k, done) => ActSound(m, d, k, done, w);
    case Replace(k, done) => ReturnSound(m, d, k, done, w);
    case ClearStep(k) => UntombedKeeps(m, d.files, d.recs[k].op);
    case ReportStep(k) => ReportedKeeps(m, d.files, d.recs[k].op);
    case _ => assert w.files == d.files;
  }

  // ---- the deletions and recoveries ----

  lemma ImportMoves(m: CertificateMap, d: Disk, e: ImportEvent, n: CertificateMap, w: Disk)
    requires DirsInv(m, d.files) && ImportNext(m, d, e, n, w)
    ensures Continues(m, d, n, w) && w.dels == d.dels && w.recs == d.recs && m.Keys <= n.Keys
    ensures w.files.tombs == d.files.tombs && w.files.staged == d.files.staged && w.files.target == d.files.target
  {
  }

  lemma ImportRest(m: CertificateMap, d: Disk, e: ImportEvent, n: CertificateMap, w: Disk)
    requires FilesInv(m, d.files) && DelsInv(m, d) && RecsInv(m, d) && ImportNext(m, d, e, n, w)
    ensures DelsInv(n, w) && RecsInv(n, w)
  {
    ImportMoves(m, d, e, n, w);
    DeletionsAreNamed(m, d);
    MarkedStay(m, d, n, w, "");
    RestKept(m, d, n, w, "", None);
  }

  lemma DropMoves(m: CertificateMap, d: Disk, op: Id, referenced: bool, written: bool, n: CertificateMap, w: Disk)
    requires DropNext(m, d, op, referenced, written, n, w)
    ensures Continues(m, d, n, w) && Moves(d, w, op, None) && w.files == d.files
    ensures n == m || (n == m - {d.dels[op].cert} && !Named(d.files, d.dels[op].cert, op))
  {
  }

  // What the deletion `op` may do to the files.
  ghost predicate OwnFiles(d: Disk, w: Disk, op: Id) {
    && (forall q :: q in d.files.target ==> q in w.files.target && w.files.target[q] == d.files.target[q])
    && (forall q :: q != op && q in d.files.tombs ==> q in w.files.tombs)
    && (forall q :: q != op && q in w.files.staged ==> q in d.files.staged)
    && (op in w.files.staged ==> op in d.files.staged || AtPhase(d, op, Marked))
  }

  lemma DeleteFiles(m: CertificateMap, d: Disk, e: DeleteEvent, n: CertificateMap, w: Disk)
    requires DeleteNext(m, d, e, n, w) && !e.DropStep?
    ensures OwnFiles(d, w, e.op) && n == m
  {
  }

  lemma DeletePhases(m: CertificateMap, d: Disk, e: DeleteEvent, n: CertificateMap, w: Disk)
    requires DeleteNext(m, d, e, n, w) && !e.DropStep?
    ensures Moves(d, w, e.op, None)
    ensures forall q :: q in d.files.target && AtPhase(w, q, Marked) ==> AtPhase(d, q, Marked)
  {
  }

  lemma DeleteMoves(m: CertificateMap, d: Disk, e: DeleteEvent, n: CertificateMap, w: Disk)
    requires DeleteNext(m, d, e, n, w) && !e.DropStep?
    ensures Continues(m, d, n, w) && Moves(d, w, e.op, None) && OwnFiles(d, w, e.op) && n == m
  {
    DeleteFiles(m, d, e, n, w);
    DeletePhases(m, d, e, n, w);
  }

  lemma DeletionMoved(m: CertificateMap, d: Disk, e: DeleteEvent, n: CertificateMap, w: Disk)
    requires DeleteNext(m, d, e, n, w) && e.op in w.dels && TombsInv(d.files)
    requires e.op in d.dels ==> DeletionInv(m, d.files, e.op, d.dels[e.op])
    ensures DeletionInv(n, w.files, e.op, w.dels[e.op])
  {
  }

  // Another deletion's tombstone for the same certificate keeps the record from going.
  lemma OthersKeepRecords(m: CertificateMap, d: Disk, e: DeleteEvent, n: CertificateMap, q: Id)
    requires TombsInv(d.files) && DelsInv(m, d) && q != e.op && q in d.dels && q in d.files.tombs && d.dels[q].cert in m
    requires n == m || (e.DropStep? && e.op in d.dels
                        && n == m - {d.dels[e.op].cert} && !Named(d.files, d.dels[e.op].cert, e.op))
    ensures d.dels[q].cert in n
  {
    assert DeletionInv(m, d.files, q, d.dels[q]);
  }

  lemma DeleteRest(m: CertificateMap, d: Disk, e: DeleteEvent, n: CertificateMap, w: Disk)
    requires TombsInv(d.files) && DelsInv(m, d) && RecsInv(m, d) && DeleteNext(m, d, e, n, w)
    ensures DelsInv(n, w) && RecsInv(n, w)
  {
    assert e.op in d.dels ==> DeletionInv(m, d.files, e.op, d.dels[e.op]);
    if e.DropStep? {
      DropMoves(m, d, e.op, e.referenced, e.written, n, w);
    } else {
      DeleteMoves(m, d, e, n, w);
    }
    if e.op in w.dels {
      DeletionMoved(m, d, e, n, w);
    }
    forall q | q != e.op && q in d.dels && q in d.files.tombs && d.dels[q].cert in m ensures d.dels[q].cert in n {
      OthersKeepRecords(m, d, e, n, q);
    }
    MarkedStay(m, d, n, w, e.op);
    RestKept(m, d, n, w, e.op, None);
  }

  // A marked deletion has nothing staged yet, and its certificate a record.
  lemma MarkedSays(m: CertificateMap, d: Disk, op: Id)
    requires DelsInv(m, d)
    ensures AtPhase(d, op, Marked) ==> op !in d.files.staged && op in d.files.target && d.files.target[op] in m
  {
    assert AtPhase(d, op, Marked) ==> DeletionInv(m, d.files, op, d.dels[op]);
  }

  // Recovery leaves the deletions where they are, and stages nothing.
  ghost predicate OnlyRecovers(d: Disk, w: Disk) {
    w.files.target == d.files.target && w.dels == d.dels && forall q :: q in w.files.staged ==> q in d.files.staged
  }

  lemma RecoveringContinues(m: CertificateMap, d: Disk, w: Disk)
    requires OnlyRecovers(d, w)
    ensures Continues(m, d, m, w)
  {
  }

  lemma ActRecovers(d: Disk, k: nat, done: bool, w: Disk)
    requires ActNext(d, k, done, w)
    ensures OnlyRecovers(d, w) && w.files.tombs == d.files.tombs
  {
  }

  lemma ActMovesOne(d: Disk, k: nat, done: bool, w: Disk)
    requires ActNext(d, k, done, w)
    ensures Moves(d, w, "", Some(k))
  {
  }

  lemma LookRecovers(m: CertificateMap, d: Disk, e: RecoverEvent, n: CertificateMap, w: Disk)
    requires RecoverNext(m, d, e, n, w) && !e.Act?
    ensures n == m && OnlyRecovers(d, w)
    ensures forall q :: q in d.files.tombs && q !in w.files.tombs ==>
              e.k in d.recs && d.recs[e.k].op == q && d.recs[e.k].look == Clearing
  {
  }

  lemma LookMovesOne(m: CertificateMap, d: Disk, e: RecoverEvent, n: CertificateMap, w: Disk)
    requires RecoverNext(m, d, e, n, w) && !e.Act?
    ensures Moves(d, w, "", Some(e.k))
  {
  }

  lemma RecoverMoves(m: CertificateMap, d: Disk, e: RecoverEvent, n: CertificateMap, w: Disk)
    requires RecoverNext(m, d, e, n, w)
    ensures n == m && Continues(m, d, n, w) && Moves(d, w, "", Some(e.k)) && w.dels == d.dels
    ensures forall q :: q in w.files.staged ==> q in d.files.staged
    ensures forall q :: q in d.files.tombs && q !in w.files.tombs ==>
              e.k in d.recs && d.recs[e.k].op == q && d.recs[e.k].look == Clearing
  {
    if e.Act? {
      ActRecovers(d, e.k, e.done, w);
      ActMovesOne(d, e.k, e.done, w);
    } else {
      LookRecovers(m, d, e, n, w);
      LookMovesOne(m, d, e, n, w);
    }
    RecoveringContinues(m, d, w);
  }

  // The recovery that moves sees no more than is so.
  lemma ActMoved(m: CertificateMap, d: Disk, k: nat, done: bool, w: Disk)
    requires ActNext(d, k, done, w) && RecoveryInv(m, d, d.recs[k])
    requires AtPhase(d, d.recs[k].op, Marked) ==> d.recs[k].op !in d.files.staged && d.files.target[d.recs[k].op] in m
    ensures RecoveryInv(m, w, w.recs[k])
  {
    DecidedRight(m, d, d.recs[k]);
  }

  lemma RecoveryMoved(m: CertificateMap, d: Disk, e: RecoverEvent, n: CertificateMap, w: Disk)
    requires RecoverNext(m, d, e, n, w) && !e.Act? && !CarelessLook(m, d, OfRecover(e)) && e.k in w.recs
    requires e.k in d.recs ==>
               && RecoveryInv(m, d, d.recs[e.k])
               && (AtPhase(d, d.recs[e.k].op, Marked) ==>
                     d.recs[e.k].op !in d.files.staged && d.files.target[d.recs[e.k].op] in m)
    ensures RecoveryInv(n, w, w.recs[e.k])
  {
  }

  lemma RecoverRest(m: CertificateMap, d: Disk, e: RecoverEvent, n: CertificateMap, w: Disk)
    requires TombsInv(d.files) && DelsInv(m, d) && RecsInv(m, d) && RecoverNext(m, d, e, n, w)
    requires !CarelessLook(m, d, OfRecover(e))
    ensures DelsInv(n, w) && RecsInv(n, w)
  {
    RecoverMoves(m, d, e, n, w);
    if e.k in d.recs {
      assert RecoveryInv(m, d, d.recs[e.k]);
      MarkedSays(m, d, d.recs[e.k].op);
    }
    if e.Act? {
      ActMoved(m, d, e.k, e.done, w);
    } else if e.k in w.recs {
      RecoveryMoved(m, d, e, n, w);
    }
    DeletionsAreNamed(m, d);
    forall q | AtPhase(d, q, Marked) ensures q in w.files.tombs && q !in w.files.staged && d.dels[q].cert in n {
      assert DeletionInv(m, d.files, q, d.dels[q]);
    }
    RestKept(m, d, n, w, "", Some(e.k));
  }

  /** Every step without a careless look keeps every record's bytes, whatever overlaps. */
  lemma DiskNextKeepsInv(m: CertificateMap, d: Disk, e: DiskEvent, n: CertificateMap, w: Disk)
    requires DiskInv(m, d) && DiskNext(m, d, e, n, w) && !CarelessLook(m, d, e)
    ensures DiskInv(n, w)
  {
    match e
    case OfImport(i) =>
      ImportSound(m, d, i, n, w);
      ImportRest(m, d, i, n, w);
    case OfDelete(x) =>
      assert !x.MarkStep? ==> DeletionInv(m, d.files, x.op, d.dels[x.op]);
      DeleteSound(m, d, x, n, w);
      DeleteRest(m, d, x, n, w);
    case OfRecover(r) =>
      assert r.k in d.recs ==> RecoveryInv(m, d, d.recs[r.k]);
      RecoverSound(m, d, r, n, w);
      RecoverRest(m, d, r, n, w);
  }

  /** Writes of trust fields do not matter to the directories. */
  lemma TrustWritesKeepDisk(m: CertificateMap, d: Disk, n: CertificateMap)
    requires DiskInv(m, d) && n.Keys == m.Keys && forall id :: id in n ==> n[id].fingerprint == m[id].fingerprint
    ensures DiskInv(n, d) && (NoRemains(m, d.files) ==> NoRemains(n, d.files))
  {
    BytesKeptThrough(m, d.files, n, d.files);
    forall k | k in d.recs ensures RecoveryInv(n, d, d.recs[k]) {
      assert RecoveryInv(m, d, d.recs[k]);
    }
    forall op | op in d.dels ensures DeletionInv(n, d.files, op, d.dels[op]) {
      assert DeletionInv(m, d.files, op, d.dels[op]);
    }
  }

  // ---- nothing is left behind ----

  lemma ImportLeavesNothing(m: CertificateMap, d: Disk, e: ImportEvent, n: CertificateMap, w: Disk)
    requires DirsInv(m, d.files) && NoRemains(m, d.files) && ImportNext(m, d, e, n, w)
    ensures NoRemains(n, w.files)
  {
  }

  lemma DeletionLeavesNothing(m: CertificateMap, d: Disk, e: DeleteEvent, n: CertificateMap, w: Disk)
    requires NoRemains(m, d.files) && DeleteNext(m, d, e, n, w)
    requires e.op in d.dels && !e.MarkStep? ==> DeletionInv(m, d.files, e.op, d.dels[e.op])
    requires e.RestoreRename? && e.done ==> d.dels[e.op].cert in m
    requires !LateDrop(m, d, OfDelete(e))
    ensures NoRemains(n, w.files)
  {
  }

  lemma ActLeavesNothing(m: CertificateMap, d: Disk, k: nat, done: bool, w: Disk)
    requires NoRemains(m, d.files) && ActNext(d, k, done, w)
    requires done && RepairOf(d.recs[k]) == Restore ==> d.files.target[d.recs[k].op] in m
    ensures NoRemains(m, w.files)
  {
  }

  lemma RecoveryLeavesNothing(m: CertificateMap, d: Disk, e: RecoverEvent, n: CertificateMap, w: Disk)
    requires NoRemains(m, d.files) && RecoverNext(m, d, e, n, w) && !LateReturn(m, d, OfRecover(e))
    ensures NoRemains(n, w.files)
  {
    if e.Act? {
      assert e.done && RepairOf(d.recs[e.k]) == Restore ==> BringsHome(d, OfRecover(e), d.recs[e.k].op);
      ActLeavesNothing(m, d, e.k, e.done, w);
    } else if e.Replace? && e.done {
      assert BringsHome(d, OfRecover(e), d.recs[e.k].op);
    }
  }

  /** In an orderly step no directory of a deleted certificate is left, or comes back, in its own place. */
  lemma DiskNextLeavesNothing(m: CertificateMap, d: Disk, e: DiskEvent, n: CertificateMap, w: Disk)
    requires DiskInv(m, d) && NoRemains(m, d.files) && DiskNext(m, d, e, n, w)
    requires !LateReturn(m, d, e) && !LateDrop(m, d, e)
    ensures NoRemains(n, w.files)
  {
    match e
    case OfImport(i) => ImportLeavesNothing(m, d, i, n, w);
    case OfDelete(x) =>
      assert x.op in d.dels ==> DeletionInv(m, d.files, x.op, d.dels[x.op]);
      if x.RestoreRename? && x.done {
        assert BringsHome(d, e, x.op);
      }
      DeletionLeavesNothing(m, d, x, n, w);
    case OfRecover(r) => RecoveryLeavesNothing(m, d, r, n, w);
  }

  // ---- what a finished deletion or recovery leaves ----

  lemma DeletionRemoves(m: CertificateMap, d: Disk, e: DeleteEvent, n: CertificateMap, w: Disk, op: Id)
    requires DeleteNext(m, d, e, n, w) && op in d.files.tombs && op !in w.files.tombs
    ensures n == m && w.files == Untombed(d.files, op) && AtPhase(d, op, Untombing)
  {
  }

  lemma RecoveryRemoves(m: CertificateMap, d: Disk, e: RecoverEvent, n: CertificateMap, w: Disk, op: Id)
    requires RecoverNext(m, d, e, n, w) && op in d.files.tombs && op !in w.files.tombs
    ensures n == m && w.files == Untombed(d.files, op)
    ensures e.k in d.recs && d.recs[e.k].op == op && d.recs[e.k].look == Clearing
  {
    RecoverMoves(m, d, e, n, w);
  }

  lemma UntombedIsDone(m: CertificateMap, f: Files, op: Id)
    requires Sound(m, f) && NoRemains(m, f) && op in f.tombs && op !in f.staged
    ensures var id := f.tombs[op].cert; if id in m then AtHome(m, f, id) else id !in f.home
  {
    var id := f.tombs[op].cert;
    if id in m {
      assert Kept(m, f, id);
      OnlyTomb(m, f, op, id);
    }
  }

  /** Whoever removes a tombstone leaves the record with its bytes at home and nothing staged, or neither. */
  lemma TombstoneLeavesNothingOpen(m: CertificateMap, d: Disk, e: DiskEvent, n: CertificateMap, w: Disk, op: Id)
    requires DiskInv(m, d) && NoRemains(m, d.files) && DiskNext(m, d, e, n, w)
    requires op in d.files.tombs && op !in w.files.tombs
    ensures op !in w.files.staged
    ensures var id := d.files.tombs[op].cert;
            if id in n then AtHome(n, w.files, id) else id !in w.files.home
  {
    match e
    case OfImport(i) => ImportMoves(m, d, i, n, w);
    case OfDelete(x) =>
      DeletionRemoves(m, d, x, n, w, op);
      assert DeletionInv(m, d.files, op, d.dels[op]);
      UntombedIsDone(m, d.files, op);
    case OfRecover(r) =>
      RecoveryRemoves(m, d, r, n, w, op);
      assert RecoveryInv(m, d, d.recs[r.k]);
      UntombedIsDone(m, d.files, op);
  }

  // ---- the tombstone that stays ----

  /** Record and directories are gone, the tombstone is not, and nobody is about to remove it. */
  ghost predicate Stuck(m: CertificateMap, d: Disk, op: Id) {
    && op in d.files.tombs && op !in d.dels && op !in d.files.staged && op in d.files.target && d.files.target[op] !in m
    && forall k :: k in d.recs && d.recs[k].op == op ==>
         d.recs[k].look in {Looking, Reporting} && d.recs[k].staged != Some(true) && d.recs[k].record.None?
  }

  /** A crash between removing the staged directory and removing the tombstone leaves a stuck one. */
  lemma CrashAfterPurgeSticks(m: CertificateMap, d: Disk, op: Id, n: CertificateMap, w: Disk)
    requires DiskInv(m, d) && AtPhase(d, op, Untombing) && d.dels[op].cert !in m && op in d.files.tombs
    requires forall k :: k in d.recs ==> d.recs[k].op != op
    requires DiskNext(m, d, OfDelete(DeleteVanish(op)), n, w)
    ensures Stuck(n, w, op)
  {
    assert DeletionInv(m, d.files, op, d.dels[op]);
  }

  lemma StuckThroughImport(m: CertificateMap, d: Disk, e: ImportEvent, n: CertificateMap, w: Disk, op: Id)
    requires ImportNext(m, d, e, n, w) && Stuck(m, d, op) && d.files.target[op] !in d.files.imports
    ensures Stuck(n, w, op)
  {
  }

  lemma StuckThroughDeletion(m: CertificateMap, d: Disk, e: DeleteEvent, n: CertificateMap, w: Disk, op: Id)
    requires DeleteNext(m, d, e, n, w) && Stuck(m, d, op)
    ensures Stuck(n, w, op)
  {
  }

  lemma StuckThroughRepair(m: CertificateMap, d: Disk, k: nat, done: bool, w: Disk, op: Id)
    requires ActNext(d, k, done, w) && Stuck(m, d, op)
    ensures Stuck(m, w, op)
  {
    if d.recs[k].op == op {
      assert RepairOf(d.recs[k]) == Report;
    }
  }

  lemma StuckThroughLook(m: CertificateMap, d: Disk, e: RecoverEvent, n: CertificateMap, w: Disk, op: Id)
    requires RecoverNext(m, d, e, n, w) && !e.Act? && Stuck(m, d, op)
    ensures Stuck(n, w, op)
  {
  }

  /** No later step, recovery included, ever removes it; it can only be marked as failed. */
  lemma StuckStays(m: CertificateMap, d: Disk, e: DiskEvent, n: CertificateMap, w: Disk, op: Id)
    requires DiskNext(m, d, e, n, w) && Stuck(m, d, op) && d.files.target[op] !in d.files.imports
    ensures Stuck(n, w, op)
  {
    match e
    case OfImport(i) => StuckThroughImport(m, d, i, n, w, op);
    case OfDelete(x) => StuckThroughDeletion(m, d, x, n, w, op);
    case OfRecover(r) =>
      if r.Act? {
        StuckThroughRepair(m, d, r.k, r.done, w, op);
      } else {
        StuckThroughLook(m, d, r, n, w, op);
      }
  }
}
