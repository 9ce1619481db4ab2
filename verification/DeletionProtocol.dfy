/**
 * Import, deletion and deletion recovery over the certificate directory tree. A record's bytes
 * live in its own directory, or, during a deletion, in the staged directory of a tombstone.
 * Renames happen or do not happen, a removal can stop half way, and every actor can stop
 * between any two effects. Several recovery passes may run at once.
 */
module DeletionProtocol {
  import opened Prelude
  import opened Records
  import opened CertificateSpec

  // What certificate.der in a directory hashes to; None when it is missing or damaged.
  type Dir = Option<Fingerprint>

  datatype Tomb = Tomb(cert: Id, failed: bool)

  datatype Phase = Marked | Skipped | InStaging | Dropped | Restoring | Untombing | Aborting

  datatype Deletion = Deletion(cert: Id, phase: Phase)

  datatype Look =
    | Looking
    | Comparing(homeMatches: bool)
    | Compared(homeMatches: bool, stagedMatches: bool)
    | Replacing | Clearing | Reporting

  // One pass over one tombstone: the record it loaded, then whether it saw each directory, and, when
  // it saw both, whether each matched the record.
  datatype Recovery = Recovery(op: Id, record: Option<Fingerprint>, source: Option<bool>, staged: Option<bool>, look: Look)

  // home and staged are the directories there are; target and issued remember every ID ever used.
  datatype Files = Files(
    home: map<Id, Dir>,
    staged: map<Id, Dir>,
    tombs: map<Id, Tomb>,
    target: map<Id, Id>,
    imports: map<Id, Fingerprint>,
    issued: set<Id>)

  datatype Disk = Disk(files: Files, dels: map<Id, Deletion>, recs: map<nat, Recovery>)

  datatype ImportEvent =
    | Place(id: Id, fingerprint: Fingerprint)
    | ImportStep(id: Id, now: Time)
    | Rollback(id: Id, done: bool)
    | ImportVanish(id: Id)

  datatype DeleteEvent =
    | MarkStep(id: Id, op: Id, referenced: bool)
    | StageRename(op: Id, done: bool)
    | DropStep(op: Id, referenced: bool, written: bool)
    | RestoreRename(op: Id, done: bool)
    | PurgeDir(op: Id, done: bool)
    | UntombStep(op: Id)
    | AbortStep(op: Id)
    | DeleteVanish(op: Id)

  datatype RecoverEvent =
    | Load(k: nat, op: Id)
    | LookSource(k: nat)
    | LookStaged(k: nat)
    | CompareHome(k: nat)
    | CompareStaged(k: nat)
    | Act(k: nat, done: bool)
    | Replace(k: nat, done: bool)
    | ClearStep(k: nat)
    | ReportStep(k: nat)
    | RecoverVanish(k: nat)

  datatype DiskEvent = OfImport(i: ImportEvent) | OfDelete(d: DeleteEvent) | OfRecover(r: RecoverEvent)

  // ---- effects on the files ----

  predicate Named(f: Files, id: Id, except: Id) {
    exists op :: op in f.tombs && op != except && f.tombs[op].cert == id
  }

  function Placed(f: Files, id: Id, x: Fingerprint): Files {
    f.(home := f.home[id := Some(x)], imports := f.imports[id := x], issued := f.issued + {id})
  }

  function ImportEnded(f: Files, id: Id): Files {
    f.(imports := f.imports - {id})
  }

  function HomeWiped(f: Files, id: Id): Files {
    f.(home := f.home - {id})
  }

  function HomeDamaged(f: Files, id: Id): Files
    requires id in f.home
  {
    f.(home := f.home[id := None])
  }

  function Tombed(f: Files, op: Id, id: Id): Files {
    f.(tombs := f.tombs[op := Tomb(id, false)], target := f.target[op := id])
  }

  function Untombed(f: Files, op: Id): Files {
    f.(tombs := f.tombs - {op})
  }

  function TombFailed(f: Files, op: Id): Files
    requires op in f.tombs
  {
    f.(tombs := f.tombs[op := f.tombs[op].(failed := true)])
  }

  function MovedToStaging(f: Files, op: Id, id: Id): Files
    requires id in f.home
  {
    f.(home := f.home - {id}, staged := f.staged[op := f.home[id]])
  }

  function MovedHome(f: Files, op: Id, id: Id): Files
    requires op in f.staged
  {
    f.(home := f.home[id := f.staged[op]], staged := f.staged - {op})
  }

  // os.RemoveAll succeeds on nothing and can stop half way.
  function StagedWiped(f: Files, op: Id): Files {
    f.(staged := f.staged - {op})
  }

  function StagedDamaged(f: Files, op: Id): Files
    requires op in f.staged
  {
    f.(staged := f.staged[op := None])
  }

  function AfterFailedPurge(f: Files, op: Id): Files {
    if op in f.staged then StagedDamaged(f, op) else f
  }

  function AfterReport(f: Files, op: Id): Files {
    if op in f.tombs then TombFailed(f, op) else f
  }

  function AfterFailedWipe(f: Files, id: Id): Files {
    if id in f.home then HomeDamaged(f, id) else f
  }

  // ---- steps ----

  function At(d: Disk, op: Id, phase: Phase): Disk
    requires op in d.dels
  {
    d.(dels := d.dels[op := d.dels[op].(phase := phase)])
  }

  function Ended(d: Disk, op: Id): Disk {
    d.(dels := d.dels - {op})
  }

  function Seen(d: Disk, k: nat, look: Look): Disk
    requires k in d.recs
  {
    d.(recs := d.recs[k := d.recs[k].(look := look)])
  }

  function Left(d: Disk, k: nat): Disk {
    d.(recs := d.recs - {k})
  }

  ghost predicate ImportNext(m: CertificateMap, d: Disk, e: ImportEvent, n: CertificateMap, w: Disk) {
    var f := d.files;
    match e
    case Place(id, x) => id !in f.issued && n == m && w == d.(files := Placed(f, id, x))
    case ImportStep(id, now) =>
      && id in f.imports && (forall k :: k in m ==> m[k].fingerprint != f.imports[id])
      && n == m[id := ImportedCertificate(id, f.imports[id], now)] && w == d.(files := ImportEnded(f, id))
    case Rollback(id, done) =>
      && id in f.imports && n == m
      && w == d.(files := ImportEnded(if done then HomeWiped(f, id) else AfterFailedWipe(f, id), id))
    case ImportVanish(id) => id in f.imports && n == m && w == d.(files := ImportEnded(f, id))
  }

  ghost predicate MarkNext(m: CertificateMap, d: Disk, id: Id, op: Id, referenced: bool, n: CertificateMap, w: Disk) {
    && id in m && op !in d.files.target && op != "" && n == m
    && DeletionError(m[id], Named(d.files, id, ""), referenced).None?
    && w == d.(files := Tombed(d.files, op, id), dels := d.dels[op := Deletion(id, Marked)])
  }

  ghost predicate StageNext(m: CertificateMap, d: Disk, op: Id, done: bool, n: CertificateMap, w: Disk) {
    && op in d.dels && d.dels[op].phase == Marked && n == m
    && var id := d.dels[op].cert;
    && w == (if id !in d.files.home then At(d, op, Skipped)
             else if !done then At(d, op, Aborting)
             else At(d, op, InStaging).(files := MovedToStaging(d.files, op, id)))
  }

  ghost predicate DropNext(m: CertificateMap, d: Disk, op: Id, referenced: bool, written: bool,
                           n: CertificateMap, w: Disk)
  {
    && op in d.dels && d.dels[op].phase in {Skipped, InStaging}
    && var id := d.dels[op].cert;
    && if written && id in m && DeletionError(m[id], Named(d.files, id, op), referenced).None?
       then n == m - {id} && w == At(d, op, Dropped)
       else n == m && w == (if d.dels[op].phase == InStaging then At(d, op, Restoring) else Ended(d, op))
  }

  ghost predicate RestoreNext(m: CertificateMap, d: Disk, op: Id, done: bool, n: CertificateMap, w: Disk) {
    && op in d.dels && d.dels[op].phase == Restoring && n == m
    && var id := d.dels[op].cert;
    && if done
       then op in d.files.staged && id !in d.files.home
            && w == At(d, op, Untombing).(files := MovedHome(d.files, op, id))
       else w == At(d, op, Aborting)
  }

  ghost predicate DeleteNext(m: CertificateMap, d: Disk, e: DeleteEvent, n: CertificateMap, w: Disk) {
    match e
    case MarkStep(id, op, referenced) => MarkNext(m, d, id, op, referenced, n, w)
    case StageRename(op, done) => StageNext(m, d, op, done, n, w)
    case DropStep(op, referenced, written) => DropNext(m, d, op, referenced, written, n, w)
    case RestoreRename(op, done) => RestoreNext(m, d, op, done, n, w)
    case PurgeDir(op, done) =>
      && op in d.dels && d.dels[op].phase == Dropped && n == m
      && w == (if done then At(d, op, Untombing).(files := StagedWiped(d.files, op))
               else At(d, op, Aborting).(files := AfterFailedPurge(d.files, op)))
    case UntombStep(op) =>
      op in d.dels && d.dels[op].phase == Untombing && n == m && w == Ended(d, op).(files := Untombed(d.files, op))
    case AbortStep(op) =>
      op in d.dels && d.dels[op].phase == Aborting && n == m && w == Ended(d, op).(files := AfterReport(d.files, op))
    case DeleteVanish(op) => op in d.dels && n == m && w == Ended(d, op)
  }

  predicate Matches(dirs: map<Id, Dir>, key: Id, x: Option<Fingerprint>) {
    key in dirs && x.Some? && dirs[key] == x
  }

  // Only then are the two directories compared with the record.
  predicate SeesBoth(x: Recovery) {
    x.record.Some? && x.source == Some(true) && x.staged == Some(true)
  }

  predicate Decided(x: Recovery) {
    x.source.Some? && x.staged.Some? && (x.look.Compared? || (x.look == Looking && !SeesBoth(x)))
  }

  function RepairOf(x: Recovery): Repair
    requires Decided(x)
  {
    RepairFor(x.record.Some?, x.source.value, x.staged.value,
              x.look.Compared? && x.look.homeMatches, x.look.Compared? && x.look.stagedMatches)
  }

  // The rename that puts the staged directory in the certificate's place.
  ghost predicate ReturnNext(d: Disk, k: nat, done: bool, w: Disk)
    requires k in d.recs && d.recs[k].op in d.files.target
  {
    var op := d.recs[k].op;
    var id := d.files.target[op];
    if done
    then op in d.files.staged && id !in d.files.home
         && w == Seen(d, k, Clearing).(files := MovedHome(d.files, op, id))
    else w == Seen(d, k, Reporting)
  }

  ghost predicate PurgeNext(d: Disk, k: nat, done: bool, w: Disk)
    requires k in d.recs
  {
    w == if done then Seen(d, k, Clearing).(files := StagedWiped(d.files, d.recs[k].op))
         else Seen(d, k, Reporting).(files := AfterFailedPurge(d.files, d.recs[k].op))
  }

  ghost predicate ActNext(d: Disk, k: nat, done: bool, w: Disk) {
    && k in d.recs && Decided(d.recs[k]) && d.recs[k].op in d.files.target
    && var id := d.files.target[d.recs[k].op];
    && match RepairOf(d.recs[k])
       case Restore => ReturnNext(d, k, done, w)
       case Purge => PurgeNext(d, k, done, w)
       case DropStaged => PurgeNext(d, k, done, w)
       case ReplaceSource => w == (if done then Seen(d, k, Replacing).(files := HomeWiped(d.files, id))
                                   else Seen(d, k, Reporting).(files := AfterFailedWipe(d.files, id)))
       case Forget => w == Seen(d, k, Clearing)
       case Report => w == Seen(d, k, Reporting)
  }

  ghost predicate RecoverNext(m: CertificateMap, d: Disk, e: RecoverEvent, n: CertificateMap, w: Disk) {
    n == m &&
    match e
    case Load(k, op) =>
      && k !in d.recs && op in d.files.target
      && var id := d.files.target[op];
         var record := if id in m then Some(m[id].fingerprint) else None;
      && w == d.(recs := d.recs[k := Recovery(op, record, None, None, Looking)])
    case LookSource(k) =>
      && k in d.recs && d.recs[k].look == Looking && d.recs[k].source.None? && d.recs[k].staged.None?
      && d.recs[k].op in d.files.target
      && w == d.(recs := d.recs[k := d.recs[k].(source := Some(d.files.target[d.recs[k].op] in d.files.home))])
    case LookStaged(k) =>
      && k in d.recs && d.recs[k].look == Looking && d.recs[k].source.Some? && d.recs[k].staged.None?
      && w == d.(recs := d.recs[k := d.recs[k].(staged := Some(d.recs[k].op in d.files.staged))])
    case CompareHome(k) =>
      && k in d.recs && d.recs[k].look == Looking && SeesBoth(d.recs[k]) && d.recs[k].op in d.files.target
      && w == Seen(d, k, Comparing(Matches(d.files.home, d.files.target[d.recs[k].op], d.recs[k].record)))
    case CompareStaged(k) =>
      && k in d.recs && d.recs[k].look.Comparing?
      && w == Seen(d, k, Compared(d.recs[k].look.homeMatches, Matches(d.files.staged, d.recs[k].op, d.recs[k].record)))
    case Act(k, done) => ActNext(d, k, done, w)
    case Replace(k, done) =>
      k in d.recs && d.recs[k].look == Replacing && d.recs[k].op in d.files.target && ReturnNext(d, k, done, w)
    case ClearStep(k) =>
      k in d.recs && d.recs[k].look == Clearing && w == Left(d, k).(files := Untombed(d.files, d.recs[k].op))
    case ReportStep(k) =>
      k in d.recs && d.recs[k].look == Reporting && w == Left(d, k).(files := AfterReport(d.files, d.recs[k].op))
    case RecoverVanish(k) => k in d.recs && w == Left(d, k)
  }

  ghost predicate DiskNext(m: CertificateMap, d: Disk, e: DiskEvent, n: CertificateMap, w: Disk) {
    match e
    case OfImport(i) => ImportNext(m, d, i, n, w)
    case OfDelete(x) => DeleteNext(m, d, x, n, w)
    case OfRecover(r) => RecoverNext(m, d, r, n, w)
  }

  // ---- which overlaps do harm ----

  predicate AtPhase(d: Disk, op: Id, phase: Phase) {
    op in d.dels && d.dels[op].phase == phase
  }

  /**
   * A recovery that saw the certificate's own directory takes its second look while the deletion has
   * still to stage that directory, or has staged it. What it then believes is no longer so.
   */
  ghost predicate CarelessLook(m: CertificateMap, d: Disk, e: DiskEvent) {
    && e.OfRecover? && e.r.LookStaged? && e.r.k in d.recs
    && var x := d.recs[e.r.k];
    && x.source == Some(true) && x.op in d.files.target && d.files.target[x.op] in m
    && (AtPhase(d, x.op, Marked) || x.op in d.files.staged)
  }

  /**
   * A recovery finds the staged directory and is bound to bring it home, although the record is gone or
   * the deletion has yet to drop it: it saw no directory of the certificate's own, or one staged since.
   */
  ghost predicate HastyLook(m: CertificateMap, d: Disk, e: DiskEvent) {
    && e.OfRecover? && e.r.LookStaged? && e.r.k in d.recs
    && var x := d.recs[e.r.k];
    && x.record.Some? && x.op in d.files.staged && x.op in d.files.target
    && var gone := d.files.target[x.op] !in m;
    && if x.source == Some(true) then gone && Matches(d.files.staged, x.op, x.record)
       else gone || AtPhase(d, x.op, InStaging)
  }

  // A staged directory of this tombstone is renamed back to the certificate's place.
  ghost predicate BringsHome(d: Disk, e: DiskEvent, op: Id) {
    || e == OfDelete(RestoreRename(op, true))
    || (e.OfRecover? && e.r.Act? && e.r.done && e.r.k in d.recs && d.recs[e.r.k].op == op
        && Decided(d.recs[e.r.k]) && RepairOf(d.recs[e.r.k]) == Restore)
    || (e.OfRecover? && e.r.Replace? && e.r.done && e.r.k in d.recs && d.recs[e.r.k].op == op)
  }

  /** A directory is brought home for a record that is gone. */
  ghost predicate LateReturn(m: CertificateMap, d: Disk, e: DiskEvent) {
    exists op :: op in d.files.target && BringsHome(d, e, op) && d.files.target[op] !in m
  }

  /** A deletion drops its record although the directory it had staged is back home. */
  ghost predicate LateDrop(m: CertificateMap, d: Disk, e: DiskEvent) {
    && e.OfDelete? && e.d.DropStep? && e.d.written && e.d.op in d.dels
    && var id := d.dels[e.d.op].cert;
    && id in m && id in d.files.home && DeletionError(m[id], Named(d.files, id, e.d.op), e.d.referenced).None?
  }

  /** No harmful overlap of a recovery with a deletion. */
  ghost predicate Orderly(m: CertificateMap, d: Disk, e: DiskEvent) {
    !CarelessLook(m, d, e) && !LateReturn(m, d, e) && !LateDrop(m, d, e)
  }

  /** Every recovery takes its second look when nothing that it then decides can become wrong. */
  ghost predicate Patient(m: CertificateMap, d: Disk, e: DiskEvent) {
    !CarelessLook(m, d, e) && !HastyLook(m, d, e)
  }

  /** The simplest way to be orderly: no recovery of a tombstone begins while its deletion is under way. */
  ghost predicate Apart(d: Disk, e: DiskEvent) {
    e.OfRecover? && e.r.Load? ==> e.r.op !in d.dels
  }
}
