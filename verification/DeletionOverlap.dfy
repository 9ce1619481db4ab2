/**
 * Which overlaps of a recovery with a deletion do harm. A recovery that keeps apart from its own
 * deletion is orderly; a careless look can be continued until a record's bytes are lost; and a late
 * return or a late drop leaves a directory without a record at once.
 */
module DeletionOverlap {
  import opened Prelude
  import opened Records
  import opened CertificateSpec
  import opened DeletionProtocol
  import opened DeletionSteps
  import opened DeletionSafety

  // ---- recovery apart from its own deletion ----

  predicate ApartDeletion(m: CertificateMap, f: Files, op: Id, x: Deletion) {
    && op in f.tombs
    && (x.phase in {InStaging, Restoring} ==> op in f.staged)
    && (x.phase in {Marked, Skipped, InStaging, Restoring} ==> x.cert in m)
    && (x.phase == Skipped ==> x.cert !in f.home)
  }

  predicate ApartRecovery(m: CertificateMap, d: Disk, x: Recovery) {
    && x.op !in d.dels
    && (x.source == Some(true) ==> x.op !in d.files.staged)
    && (x.record.Some? && x.op in d.files.tombs && x.op in d.files.target ==> d.files.target[x.op] in m)
  }

  ghost predicate ApartInv(m: CertificateMap, d: Disk) {
    && (forall op :: op in d.dels ==> ApartDeletion(m, d.files, op, d.dels[op]))
    && (forall k :: k in d.recs ==> ApartRecovery(m, d, d.recs[k]))
  }

  lemma ApartIsNoLateDrop(m: CertificateMap, d: Disk, e: DeleteEvent, n: CertificateMap, w: Disk)
    requires DiskInv(m, d) && ApartInv(m, d) && DeleteNext(m, d, e, n, w)
    ensures !LateDrop(m, d, OfDelete(e))
    ensures e.RestoreRename? ==> d.dels[e.op].cert == d.files.target[e.op] && d.dels[e.op].cert in m
  {
    if e.op in d.dels {
      assert DeletionInv(m, d.files, e.op, d.dels[e.op]) && ApartDeletion(m, d.files, e.op, d.dels[e.op]);
    }
  }

  // A recovery that brings a directory home has loaded the record, which is still there.
  lemma ApartReturnsInTime(m: CertificateMap, d: Disk, e: DiskEvent, n: CertificateMap, w: Disk, op: Id)
    requires DiskInv(m, d) && ApartInv(m, d) && DiskNext(m, d, e, n, w)
    requires e.OfRecover? && op in d.files.target && BringsHome(d, e, op)
    ensures d.files.target[op] in m
  {
    assert RecoveryInv(m, d, d.recs[e.r.k]) && ApartRecovery(m, d, d.recs[e.r.k]);
  }

  /** A recovery that begins only when its deletion is not under way is orderly throughout. */
  lemma ApartIsOrderly(m: CertificateMap, d: Disk, e: DiskEvent, n: CertificateMap, w: Disk)
    requires DiskInv(m, d) && ApartInv(m, d) && DiskNext(m, d, e, n, w)
    ensures Orderly(m, d, e)
  {
    match e
    case OfImport(_) =>
    case OfDelete(x) =>
      ApartIsNoLateDrop(m, d, x, n, w);
    case OfRecover(r) =>
      assert r.k in d.recs ==> ApartRecovery(m, d, d.recs[r.k]);
      forall op | op in d.files.target && BringsHome(d, e, op) ensures d.files.target[op] in m {
        ApartReturnsInTime(m, d, e, n, w, op);
      }
  }

  lemma ApartThroughImport(m: CertificateMap, d: Disk, e: ImportEvent, n: CertificateMap, w: Disk)
    requires DiskInv(m, d) && ApartInv(m, d) && ImportNext(m, d, e, n, w)
    ensures ApartInv(n, w)
  {
    forall op | op in w.dels ensures ApartDeletion(n, w.files, op, w.dels[op]) {
      assert DeletionInv(m, d.files, op, d.dels[op]) && ApartDeletion(m, d.files, op, d.dels[op]);
    }
    forall k | k in w.recs ensures ApartRecovery(n, w, w.recs[k]) {
      assert ApartRecovery(m, d, d.recs[k]);
    }
  }

  lemma ApartDeletionMoved(m: CertificateMap, d: Disk, e: DeleteEvent, n: CertificateMap, w: Disk)
    requires TombsInv(d.files) && DeleteNext(m, d, e, n, w) && e.op in w.dels
    requires e.op in d.dels ==> DeletionInv(m, d.files, e.op, d.dels[e.op]) && ApartDeletion(m, d.files, e.op, d.dels[e.op])
    ensures ApartDeletion(n, w.files, e.op, w.dels[e.op])
  {
  }

  lemma ApartDeletionStays(m: CertificateMap, d: Disk, e: DeleteEvent, n: CertificateMap, w: Disk, op: Id)
    requires TombsInv(d.files) && DeleteNext(m, d, e, n, w) && op in w.dels && op != e.op && op in d.dels
    requires DeletionInv(m, d.files, op, d.dels[op]) && ApartDeletion(m, d.files, op, d.dels[op])
    requires e.op in d.dels ==> DeletionInv(m, d.files, e.op, d.dels[e.op]) && ApartDeletion(m, d.files, e.op, d.dels[e.op])
    ensures w.dels[op] == d.dels[op] && ApartDeletion(n, w.files, op, w.dels[op])
  {
  }

  lemma ApartRecoveryStays(m: CertificateMap, d: Disk, e: DeleteEvent, n: CertificateMap, w: Disk, k: nat)
    requires TombsInv(d.files) && DeleteNext(m, d, e, n, w) && k in d.recs && ApartRecovery(m, d, d.recs[k])
    requires d.recs[k].op in d.files.target
    requires e.op in d.dels ==> DeletionInv(m, d.files, e.op, d.dels[e.op]) && ApartDeletion(m, d.files, e.op, d.dels[e.op])
    ensures ApartRecovery(n, w, d.recs[k])
  {
  }

  lemma ApartThroughDeletion(m: CertificateMap, d: Disk, e: DeleteEvent, n: CertificateMap, w: Disk)
    requires DiskInv(m, d) && ApartInv(m, d) && DeleteNext(m, d, e, n, w)
    ensures ApartInv(n, w)
  {
    assert e.op in d.dels ==> DeletionInv(m, d.files, e.op, d.dels[e.op]) && ApartDeletion(m, d.files, e.op, d.dels[e.op]);
    forall op | op in w.dels ensures ApartDeletion(n, w.files, op, w.dels[op]) {
      if op == e.op {
        ApartDeletionMoved(m, d, e, n, w);
      } else {
        assert DeletionInv(m, d.files, op, d.dels[op]) && ApartDeletion(m, d.files, op, d.dels[op]);
        ApartDeletionStays(m, d, e, n, w, op);
      }
    }
    forall k | k in w.recs ensures ApartRecovery(n, w, w.recs[k]) {
      assert RecoveryInv(m, d, d.recs[k]) && ApartRecovery(m, d, d.recs[k]);
      ApartRecoveryStays(m, d, e, n, w, k);
    }
  }

  // Away from its own tombstone a recovery leaves the files alone; it fills a place only from staging.
  ghost predicate Spares(f: Files, g: Files, op: Id) {
    && (forall q :: q != op ==> (q in g.tombs <==> q in f.tombs) && (q in g.staged <==> q in f.staged))
    && (op in g.tombs ==> op in f.tombs) && (op in g.staged ==> op in f.staged)
    && (forall id :: id in g.home && id !in f.home ==> op in f.staged && op in f.target && id == f.target[op])
    && g.target == f.target
  }

  lemma ActSpares(d: Disk, k: nat, done: bool, w: Disk)
    requires ActNext(d, k, done, w)
    ensures Spares(d.files, w.files, d.recs[k].op)
    ensures k in w.recs && w.recs[k] == d.recs[k].(look := w.recs[k].look)
  {
  }

  lemma RecoverySpares(m: CertificateMap, d: Disk, e: RecoverEvent, n: CertificateMap, w: Disk)
    requires RecoverNext(m, d, e, n, w)
    ensures n == m && w.dels == d.dels
    ensures Spares(d.files, w.files, if e.k in d.recs then d.recs[e.k].op else "")
  {
    if e.Act? {
      ActSpares(d, e.k, e.done, w);
    }
  }

  lemma SparedDeletion(m: CertificateMap, f: Files, g: Files, op: Id, q: Id, x: Deletion)
    requires TombsInv(f) && Spares(f, g, op) && q != op && q in f.target && x.cert == f.target[q]
    requires ApartDeletion(m, f, q, x)
    ensures ApartDeletion(m, g, q, x)
  {
  }

  lemma ApartActMoved(m: CertificateMap, d: Disk, k: nat, done: bool, w: Disk)
    requires ActNext(d, k, done, w) && ApartRecovery(m, d, d.recs[k])
    ensures ApartRecovery(m, w, w.recs[k])
  {
    ActSpares(d, k, done, w);
    assert w.dels == d.dels;
  }

  lemma ApartRecoveryMoved(m: CertificateMap, d: Disk, e: RecoverEvent, n: CertificateMap, w: Disk)
    requires FilesInv(m, d.files) && RecoverNext(m, d, e, n, w) && Apart(d, OfRecover(e)) && e.k in w.recs && !e.Act?
    requires e.k in d.recs ==> ApartRecovery(m, d, d.recs[e.k])
    ensures ApartRecovery(n, w, w.recs[e.k])
  {
  }

  lemma ApartThroughRecovery(m: CertificateMap, d: Disk, e: RecoverEvent, n: CertificateMap, w: Disk)
    requires DiskInv(m, d) && ApartInv(m, d) && RecoverNext(m, d, e, n, w) && Apart(d, OfRecover(e))
    ensures ApartInv(n, w)
  {
    RecoverySpares(m, d, e, n, w);
    DeletionsAreNamed(m, d);
    assert e.k in d.recs ==> ApartRecovery(m, d, d.recs[e.k]);
    var own := if e.k in d.recs then d.recs[e.k].op else "";
    forall op | op in w.dels ensures ApartDeletion(n, w.files, op, w.dels[op]) {
      assert DeletionInv(m, d.files, op, d.dels[op]) && ApartDeletion(m, d.files, op, d.dels[op]);
      SparedDeletion(m, d.files, w.files, own, op, d.dels[op]);
    }
    RecoverMoves(m, d, e, n, w);
    forall k | k in w.recs ensures ApartRecovery(n, w, w.recs[k]) {
      if k == e.k {
        if e.Act? {
          ApartActMoved(m, d, k, e.done, w);
        } else {
          ApartRecoveryMoved(m, d, e, n, w);
        }
      } else {
        assert ApartRecovery(m, d, d.recs[k]);
      }
    }
  }

  lemma ApartNextKeepsInv(m: CertificateMap, d: Disk, e: DiskEvent, n: CertificateMap, w: Disk)
    requires DiskInv(m, d) && ApartInv(m, d) && DiskNext(m, d, e, n, w) && Apart(d, e)
    ensures ApartInv(n, w)
  {
    match e
    case OfImport(i) => ApartThroughImport(m, d, i, n, w);
    case OfDelete(x) => ApartThroughDeletion(m, d, x, n, w);
    case OfRecover(r) => ApartThroughRecovery(m, d, r, n, w);
  }

  // ---- courses of events over unchanged records ----

  // Neither too early nor too late.
  ghost predicate TimelyStep(m: CertificateMap, d: Disk, e: DiskEvent, w: Disk) {
    DiskNext(m, d, e, m, w) && Orderly(m, d, e) && Patient(m, d, e)
  }

  ghost predicate DiskCourse(m: CertificateMap, path: seq<Disk>, course: seq<DiskEvent>) {
    && |path| == |course| + 1 && forall i: nat :: i < |course| ==> TimelyStep(m, path[i], course[i], path[i + 1])
  }

  // A step of a recovery that brings no directory home and looks at no staged one.
  lemma PlainStep(m: CertificateMap, d: Disk, e: RecoverEvent, w: Disk)
    requires RecoverNext(m, d, e, m, w) && !e.LookStaged? && !e.Replace?
    requires e.Act? && RepairOf(d.recs[e.k]) == Restore ==> d.files.target[d.recs[e.k].op] in m
    ensures TimelyStep(m, d, OfRecover(e), w)
  {
  }

  lemma Joined(m: CertificateMap, path: seq<Disk>, course: seq<DiskEvent>, more: seq<Disk>, after: seq<DiskEvent>)
    requires DiskCourse(m, path, course) && DiskCourse(m, more, after) && more[0] == path[|course|]
    ensures DiskCourse(m, path + more[1..], course + after)
    ensures (path + more[1..])[0] == path[0] && (path + more[1..])[|course + after|] == more[|after|]
  {
    var all, events := path + more[1..], course + after;
    forall i: nat | i < |events| ensures TimelyStep(m, all[i], events[i], all[i + 1]) {
      if i >= |course| {
        assert all[i] == more[i - |course|] && all[i + 1] == more[i + 1 - |course|];
      }
    }
  }

  function Start(m: CertificateMap, f: Files, op: Id): Recovery
    requires op in f.target
  {
    Recovery(op, if f.target[op] in m then Some(m[f.target[op]].fingerprint) else None, None, None, Looking)
  }

  // What a recovery of this tombstone knows after both looks, taken at one time.
  function Seen2(m: CertificateMap, f: Files, op: Id): Recovery
    requires op in f.target
  {
    Start(m, f, op).(source := Some(f.target[op] in f.home), staged := Some(op in f.staged))
  }

  function LookCourse(k: nat, op: Id): seq<DiskEvent> {
    [OfRecover(Load(k, op)), OfRecover(LookSource(k)), OfRecover(LookStaged(k))]
  }

  // A recovery begins and looks for the certificate's own directory.
  lemma CanBegin(m: CertificateMap, d: Disk, k: nat, op: Id) returns (a: Disk, b: Disk)
    requires op in d.files.target && k !in d.recs
    ensures TimelyStep(m, d, OfRecover(Load(k, op)), a) && TimelyStep(m, a, OfRecover(LookSource(k)), b)
    ensures b == d.(recs := d.recs[k := Start(m, d.files, op).(source := Some(d.files.target[op] in d.files.home))])
  {
    var x := Start(m, d.files, op);
    a := d.(recs := d.recs[k := x]);
    b := a.(recs := a.recs[k := x.(source := Some(d.files.target[op] in d.files.home))]);
    PlainStep(m, d, Load(k, op), a);
    PlainStep(m, a, LookSource(k), b);
  }

  lemma CanLook(m: CertificateMap, d: Disk, k: nat, op: Id) returns (path: seq<Disk>)
    requires FilesInv(m, d.files) && op in d.files.target && k !in d.recs
    requires !AtPhase(d, op, Marked) && !AtPhase(d, op, InStaging)
    ensures DiskCourse(m, path, LookCourse(k, op)) && path[0] == d
    ensures path[3] == d.(recs := d.recs[k := Seen2(m, d.files, op)])
  {
    var a, b := CanBegin(m, d, k, op);
    var c := b.(recs := b.recs[k := Seen2(m, d.files, op)]);
    LookStep(m, b, k, op, c);
    path := [d, a, b, c];
  }

  lemma LookStep(m: CertificateMap, d: Disk, k: nat, op: Id, w: Disk)
    requires RecoverNext(m, d, LookStaged(k), m, w) && d.recs[k].op == op && op in d.files.target
    requires d.recs[k].source == Some(d.files.target[op] in d.files.home)
    requires d.recs[k].record.Some? <==> d.files.target[op] in m
    requires FilesInv(m, d.files) && !AtPhase(d, op, Marked) && !AtPhase(d, op, InStaging)
    ensures TimelyStep(m, d, OfRecover(LookStaged(k)), w)
  {
  }

  // ---- recovery with nobody in its way ----

  function ClearCourse(k: nat): seq<DiskEvent> {
    [OfRecover(Act(k, true)), OfRecover(ClearStep(k))]
  }

  lemma ActsRight(m: CertificateMap, d: Disk, k: nat, op: Id, w: Disk)
    requires FilesInv(m, d.files) && k in d.recs && op in d.files.target && d.recs[k] == Seen2(m, d.files, op)
    requires d.files.target[op] in m ==> d.files.target[op] in d.files.home || op in d.files.staged
    requires d.files.target[op] in m || op in d.files.staged
    requires var f, id := d.files, d.files.target[op];
             w == Seen(d, k, Clearing).(files := if id !in m then StagedWiped(f, op)
                                                 else if op in f.staged then MovedHome(f, op, id) else f)
    ensures TimelyStep(m, d, OfRecover(Act(k, true)), w)
  {
    PlainStep(m, d, Act(k, true), w);
  }

  lemma CanClear(m: CertificateMap, d: Disk, k: nat, op: Id) returns (path: seq<Disk>)
    requires Sound(m, d.files) && k in d.recs && op in d.files.target && d.recs[k] == Seen2(m, d.files, op)
    requires op in d.files.tombs && (d.files.target[op] in m || op in d.files.staged)
    ensures DiskCourse(m, path, ClearCourse(k)) && path[0] == d && op !in path[2].files.tombs
  {
    var f, id, x := d.files, d.files.target[op], d.recs[k];
    if id in m {
      assert Kept(m, f, id);
      OnlyTomb(m, f, op, id);
    }
    var g := if id !in m then StagedWiped(f, op) else if op in f.staged then MovedHome(f, op, id) else f;
    var acted := Seen(d, k, Clearing).(files := g);
    var cleared := Left(acted, k).(files := Untombed(g, op));
    ActsRight(m, d, k, op, acted);
    PlainStep(m, acted, ClearStep(k), cleared);
    path := [d, acted, cleared];
  }

  /** A recovery whose steps all succeed, with no deletion under way, clears every tombstone that is not stuck. */
  lemma RecoveryClearsUnlessStuck(m: CertificateMap, d: Disk, k: nat, op: Id) returns (path: seq<Disk>)
    requires DiskInv(m, d) && op in d.files.tombs && op !in d.dels && forall j :: j in d.recs ==> d.recs[j].op != op
    requires k !in d.recs
    ensures !Stuck(m, d, op) ==>
              DiskCourse(m, path, LookCourse(k, op) + ClearCourse(k)) && path[0] == d && op !in path[5].files.tombs
  {
    path := [];
    if !Stuck(m, d, op) {
      var look := CanLook(m, d, k, op);
      var clear := CanClear(m, look[3], k, op);
      Joined(m, look, LookCourse(k, op), clear, ClearCourse(k));
      path := look + clear[1..];
    }
  }

  // ---- what a careless look can lead to ----

  function ForgetCourse(k: nat, op: Id): seq<DiskEvent> {
    [OfRecover(Act(k, true)), OfDelete(StageRename(op, true)), OfRecover(ClearStep(k))]
  }

  // The bytes are staged, and the tombstone that led to them is gone.
  lemma UntombedStagedIsLost(m: CertificateMap, f: Files, op: Id, id: Id)
    requires TombsInv(f) && op in f.tombs && f.tombs[op].cert == id && id in m && id in f.home
    ensures !Kept(m, Untombed(MovedToStaging(f, op, id), op), id)
  {
    forall q ensures !StagedFor(m, Untombed(MovedToStaging(f, op, id), op), id, q) {
    }
  }

  // The deletion had still to stage: recovery forgets the tombstone, and the staged directory with it.
  lemma ForgettingLoses(m: CertificateMap, d: Disk, k: nat, op: Id, id: Id, f: Fingerprint) returns (path: seq<Disk>)
    requires TombsInv(d.files) && op in d.files.tombs && d.files.tombs[op].cert == id && id in m && id in d.files.home
    requires k in d.recs && d.recs[k] == Recovery(op, Some(f), Some(true), Some(false), Looking)
    requires op in d.dels && d.dels[op] == Deletion(id, Marked)
    ensures DiskCourse(m, path, ForgetCourse(k, op)) && path[0] == d && !Kept(m, path[3].files, id)
  {
    var a := Seen(d, k, Clearing);
    var b := At(a, op, InStaging).(files := MovedToStaging(d.files, op, id));
    var c := Left(b, k).(files := Untombed(b.files, op));
    PlainStep(m, d, Act(k, true), a);
    assert TimelyStep(m, a, OfDelete(StageRename(op, true)), b);
    PlainStep(m, b, ClearStep(k), c);
    path := [d, a, b, c];
    UntombedStagedIsLost(m, d.files, op, id);
  }

  function CompareCourse(k: nat): seq<DiskEvent> {
    [OfRecover(CompareHome(k)), OfRecover(CompareStaged(k))]
  }

  lemma CanCompare(m: CertificateMap, d: Disk, k: nat, op: Id, id: Id, f: Fingerprint) returns (path: seq<Disk>)
    requires op in d.files.target && d.files.target[op] == id && id !in d.files.home
    requires op in d.files.staged && d.files.staged[op] == Some(f)
    requires k in d.recs && d.recs[k] == Recovery(op, Some(f), Some(true), Some(true), Looking)
    ensures DiskCourse(m, path, CompareCourse(k)) && path[0] == d && path[2] == Seen(d, k, Compared(false, true))
  {
    var a, b := Seen(d, k, Comparing(false)), Seen(d, k, Compared(false, true));
    assert Seen(a, k, Compared(false, true)).recs == b.recs;
    PlainStep(m, d, CompareHome(k), a);
    PlainStep(m, a, CompareStaged(k), b);
    path := [d, a, b];
  }

  function ReplaceCourse(j: nat, k: nat): seq<DiskEvent> {
    [OfRecover(Act(j, true)), OfRecover(Act(k, true))]
  }

  // A second recovery brings the directory home, and the first one wipes it to make room.
  lemma ReplacingLoses(m: CertificateMap, d: Disk, j: nat, k: nat, op: Id, id: Id, f: Fingerprint) returns (path: seq<Disk>)
    requires FilesInv(m, d.files) && op in d.files.target && d.files.target[op] == id && op in d.files.staged && id in m
    requires j in d.recs && d.recs[j] == Recovery(op, Some(f), Some(false), Some(true), Looking)
    requires k in d.recs && d.recs[k] == Recovery(op, Some(f), Some(true), Some(true), Compared(false, true))
    ensures DiskCourse(m, path, ReplaceCourse(j, k)) && path[0] == d && !Kept(m, path[2].files, id)
  {
    var a := Seen(d, j, Clearing).(files := MovedHome(d.files, op, id));
    var b := Seen(a, k, Replacing).(files := HomeWiped(a.files, id));
    PlainStep(m, d, Act(j, true), a);
    PlainStep(m, a, Act(k, true), b);
    path := [d, a, b];
    forall q ensures !StagedFor(m, b.files, id, q) {
    }
  }

  // The deletion stops, and then its directory can be brought home again.
  lemma CanStop(m: CertificateMap, d: Disk, op: Id) returns (path: seq<Disk>, course: seq<DiskEvent>)
    ensures DiskCourse(m, path, course) && path[0] == d
    ensures path[|course|] == d.(dels := d.dels - {op})
  {
    if op in d.dels {
      var w := d.(dels := d.dels - {op});
      assert TimelyStep(m, d, OfDelete(DeleteVanish(op)), w);
      path, course := [d, w], [OfDelete(DeleteVanish(op))];
    } else {
      path, course := [d], [];
    }
  }

  lemma BothSeenLoses(m: CertificateMap, d: Disk, k: nat, op: Id, id: Id, f: Fingerprint)
    returns (path: seq<Disk>, course: seq<DiskEvent>)
    requires FilesInv(m, d.files) && op in d.files.target && d.files.target[op] == id && id in m && id !in d.files.home
    requires op in d.files.staged && d.files.staged[op] == Some(f) && m[id].fingerprint == f
    requires k in d.recs && d.recs[k] == Recovery(op, Some(f), Some(true), Some(true), Looking)
    ensures DiskCourse(m, path, course) && path[0] == d && !BytesKept(m, path[|course|].files)
  {
    var j := Above(d.recs.Keys);
    path, course := CanStop(m, d, op);
    var compare := CanCompare(m, path[|course|], k, op, id, f);
    var look := CanLook(m, compare[2], j, op);
    var replace := ReplacingLoses(m, look[3], j, k, op, id, f);
    Joined(m, path, course, compare, CompareCourse(k));
    path, course := path + compare[1..], course + CompareCourse(k);
    assert path[|course|] == compare[2];
    Joined(m, path, course, look, LookCourse(j, op));
    path, course := path + look[1..], course + LookCourse(j, op);
    assert path[|course|] == look[3];
    Joined(m, path, course, replace, ReplaceCourse(j, k));
    path, course := path + replace[1..], course + ReplaceCourse(j, k);
    assert path[|course|] == replace[2];
  }

  // ---- put together ----

  /** From every careless look there is an orderly course after which a record has lost its bytes. */
  lemma CarelessLookLosesBytes(m: CertificateMap, d: Disk, k: nat, w: Disk)
    returns (path: seq<Disk>, course: seq<DiskEvent>)
    requires DiskInv(m, d) && CarelessLook(m, d, OfRecover(LookStaged(k)))
    requires RecoverNext(m, d, LookStaged(k), m, w)
    ensures DiskCourse(m, path, course) && path[0] == w && !BytesKept(m, path[|course|].files)
  {
    var op := d.recs[k].op;
    var id := d.files.target[op];
    assert RecoveryInv(m, d, d.recs[k]) && Kept(m, d.files, id);
    if AtPhase(d, op, Marked) {
      assert DeletionInv(m, d.files, op, d.dels[op]);
      OnlyTomb(m, d.files, op, id);
      course := ForgetCourse(k, op);
      path := ForgettingLoses(m, w, k, op, id, m[id].fingerprint);
    } else {
      OnlyTomb(m, d.files, op, id);
      path, course := BothSeenLoses(m, w, k, op, id, m[id].fingerprint);
    }
  }

  lemma LateDropLeavesRemains(m: CertificateMap, d: Disk, e: DeleteEvent, n: CertificateMap, w: Disk)
    requires DiskInv(m, d) && DeleteNext(m, d, e, n, w) && LateDrop(m, d, OfDelete(e))
    ensures !NoRemains(n, w.files)
  {
    assert DeletionInv(m, d.files, e.op, d.dels[e.op]);
    assert w.files.target[e.op] == d.dels[e.op].cert;
  }

  lemma LateReturnLeavesRemains(m: CertificateMap, d: Disk, e: DiskEvent, n: CertificateMap, w: Disk)
    requires DiskInv(m, d) && DiskNext(m, d, e, n, w) && LateReturn(m, d, e)
    ensures !NoRemains(n, w.files)
  {
    var op :| op in d.files.target && BringsHome(d, e, op) && d.files.target[op] !in m;
    assert e.OfDelete? ==> DeletionInv(m, d.files, op, d.dels[op]);
    assert w.files.target[op] == d.files.target[op];
  }

  /** A late return or a late drop leaves a directory without a record at once. */
  lemma LateStepLeavesRemains(m: CertificateMap, d: Disk, e: DiskEvent, n: CertificateMap, w: Disk)
    requires DiskInv(m, d) && DiskNext(m, d, e, n, w) && (LateReturn(m, d, e) || LateDrop(m, d, e))
    ensures !NoRemains(n, w.files)
  {
    if LateReturn(m, d, e) {
      LateReturnLeavesRemains(m, d, e, n, w);
    } else {
      LateDropLeavesRemains(m, d, e.d, n, w);
    }
  }
}
