/** Trust operations, imports, deletions and their recoveries over one certificate library. */
module CertificateProtocol {
  import opened Prelude
  import opened Records
  import opened CertificateSpec
  import opened TrustProtocol
  import opened TrustSafety
  import opened DeletionProtocol
  import opened DeletionSteps
  import opened DeletionSafety
  import opened DeletionOverlap

  datatype State = State(certs: CertificateMap, trust: Trust, disk: Disk)

  datatype Event = OfTrust(t: TrustEvent) | OfDisk(d: DiskEvent)

  // Intents are written, and answers are had, only over readable bytes.
  ghost predicate Readable(s: State, e: TrustEvent) {
    match e
    case PrepareInstallStep(id, _, _) => id in s.certs && AtHome(s.certs, s.disk.files, id)
    case PrepareRemoveStep(id, _, _, _) => id in s.certs && AtHome(s.certs, s.disk.files, id)
    case RecoverStep(answers, _) =>
      forall id :: id in s.certs && !AnswerOf(answers, id).Unreadable? ==> AtHome(s.certs, s.disk.files, id)
    case _ => true
  }

  ghost predicate Next(s: State, e: Event, t: State) {
    match e
    case OfTrust(x) => TrustNext(s.certs, s.trust, x, t.certs, t.trust) && Readable(s, x) && t.disk == s.disk
    case OfDisk(x) => DiskNext(s.certs, s.disk, x, t.certs, t.disk) && t.trust == s.trust
  }

  // ---- what a step can be asked to avoid ----

  // Whenever recovery asks the trust store, the answer is true.
  ghost predicate TrueAt(s: State, e: Event) {
    e.OfTrust? ==> Truthful(s.certs, s.trust, e.t)
  }

  ghost predicate DiscreetAt(s: State, e: Event) {
    e.OfTrust? ==> Discreet(s.certs, s.trust, e.t)
  }

  ghost predicate CarefulAt(s: State, e: Event) {
    e.OfDisk? ==> !CarelessLook(s.certs, s.disk, e.d)
  }

  ghost predicate OrderlyAt(s: State, e: Event) {
    e.OfDisk? ==> Orderly(s.certs, s.disk, e.d)
  }

  ghost predicate PatientAt(s: State, e: Event) {
    e.OfDisk? ==> Patient(s.certs, s.disk, e.d)
  }

  ghost predicate ApartAt(s: State, e: Event) {
    e.OfDisk? ==> Apart(s.disk, e.d)
  }

  // A new library over a store that already holds entries of its own.
  ghost predicate Init(s: State) {
    && s.certs == map[] && s.trust.ops == map[] && s.trust.foreign == s.trust.os && "" !in s.trust.spent
    && s.disk == Disk(Files(map[], map[], map[], map[], map[], {}), map[], map[])
  }

  ghost predicate StepAt(states: seq<State>, events: seq<Event>, i: nat)
    requires |states| == |events| + 1
  {
    i < |events| ==> Next(states[i], events[i], states[i + 1])
  }

  ghost predicate Run(states: seq<State>, events: seq<Event>) {
    && |states| == |events| + 1 && Init(states[0])
    && forall i: nat :: StepAt(states, events, i)
  }

  // The first `n` steps are so.
  ghost predicate DiscreetUntil(states: seq<State>, events: seq<Event>, n: nat)
    requires |states| == |events| + 1 && n <= |events|
  {
    forall k: nat :: k < n ==> TrueAt(states[k], events[k]) && DiscreetAt(states[k], events[k])
  }

  ghost predicate CarefulUntil(states: seq<State>, events: seq<Event>, n: nat)
    requires |states| == |events| + 1 && n <= |events|
  {
    forall k: nat :: k < n ==> CarefulAt(states[k], events[k])
  }

  ghost predicate OrderlyUntil(states: seq<State>, events: seq<Event>, n: nat)
    requires |states| == |events| + 1 && n <= |events|
  {
    forall k: nat :: k < n ==> OrderlyAt(states[k], events[k])
  }

  ghost predicate PatientUntil(states: seq<State>, events: seq<Event>, n: nat)
    requires |states| == |events| + 1 && n <= |events|
  {
    forall k: nat :: k < n ==> PatientAt(states[k], events[k])
  }

  // ---- invariants ----

  // An ID placed by an import is new to records and operations alike.
  ghost predicate IdsInv(s: State) {
    && s.certs.Keys <= s.disk.files.issued && s.disk.files.imports.Keys <= s.disk.files.issued
    && (forall id :: id in s.disk.files.imports ==> id !in s.certs)
    && (forall t :: t in s.trust.ops ==>
          s.trust.ops[t].cert in s.disk.files.issued && s.trust.ops[t].cert !in s.disk.files.imports)
    && (forall op :: op in s.disk.files.target ==>
          s.disk.files.target[op] in s.disk.files.issued && s.disk.files.target[op] !in s.disk.files.imports)
  }

  ghost predicate AnyInv(s: State) {
    LooseInv(s.certs, s.trust) && IdsInv(s)
  }

  // The record changes a directory step can bring: one imported, or one deleted after its checks.
  lemma DiskStepRecords(m: CertificateMap, d: Disk, e: DiskEvent, n: CertificateMap, w: Disk)
    requires DiskNext(m, d, e, n, w)
    ensures || n == m
            || (e.OfImport? && e.i.ImportStep? && e.i.id in d.files.imports
                && n == m[e.i.id := ImportedCertificate(e.i.id, d.files.imports[e.i.id], e.i.now)]
                && forall k :: k in m ==> m[k].fingerprint != d.files.imports[e.i.id])
            || (e.OfDelete? && e.d.DropStep? && e.d.op in d.dels && d.dels[e.d.op].cert in m
                && n == m - {d.dels[e.d.op].cert}
                && DeletionError(m[d.dels[e.d.op].cert], Named(d.files, d.dels[e.d.op].cert, e.d.op),
                                 e.d.referenced).None?)
  {
  }

  lemma ImportKeepsIds(s: State, e: ImportEvent, t: State)
    requires IdsInv(s) && ImportNext(s.certs, s.disk, e, t.certs, t.disk) && t.trust == s.trust
    ensures IdsInv(t)
  {
  }

  lemma DeletionIssuesNothing(m: CertificateMap, d: Disk, e: DeleteEvent, n: CertificateMap, w: Disk)
    requires DeleteNext(m, d, e, n, w)
    ensures w.files.imports == d.files.imports && w.files.issued == d.files.issued && n.Keys <= m.Keys
    ensures forall op :: op in w.files.target ==> w.files.target[op] in m || (op in d.files.target
                                                  && w.files.target[op] == d.files.target[op])
  {
  }

  lemma RepairIssuesNothing(d: Disk, k: nat, done: bool, w: Disk)
    requires ActNext(d, k, done, w)
    ensures w.files.imports == d.files.imports && w.files.issued == d.files.issued && w.files.target == d.files.target
  {
  }

  lemma RecoveryIssuesNothing(m: CertificateMap, d: Disk, e: RecoverEvent, n: CertificateMap, w: Disk)
    requires DeletionProtocol.RecoverNext(m, d, e, n, w)
    ensures w.files.imports == d.files.imports && w.files.issued == d.files.issued && n == m
    ensures w.files.target == d.files.target
  {
    if e.Act? {
      RepairIssuesNothing(d, e.k, e.done, w);
    }
  }

  lemma TrustStepsKeepIds(s: State, e: TrustEvent, t: State)
    requires AnyInv(s) && Next(s, OfTrust(e), t)
    ensures IdsInv(t)
  {
    TrustKeepsKeys(s.certs, s.trust, e, t.certs, t.trust);
  }

  // Trust steps write no identity, and an operation begins only on a stored record.
  lemma TrustKeepsKeys(m: CertificateMap, r: Trust, e: TrustEvent, n: CertificateMap, u: Trust)
    requires TrustNext(m, r, e, n, u)
    ensures n.Keys == m.Keys
    ensures forall id :: id in n ==> n[id].fingerprint == m[id].fingerprint
    ensures forall t :: t in u.ops ==> u.ops[t].cert in m || (t in r.ops && u.ops[t].cert == r.ops[t].cert)
  {
  }

  lemma DiskStepKeepsTrust(s: State, e: DiskEvent, t: State)
    requires IdsInv(s) && DiskNext(s.certs, s.disk, e, t.certs, t.disk) && t.trust == s.trust
    ensures LooseInv(s.certs, s.trust) ==> LooseInv(t.certs, t.trust)
    ensures TrustInv(s.certs, s.trust) ==> TrustInv(t.certs, t.trust)
  {
    DiskStepRecords(s.certs, s.disk, e, t.certs, t.disk);
    if t.certs != s.certs {
      if e.OfImport? {
        ImportKeepsTrust(s.certs, s.trust, e.i.id, s.disk.files.imports[e.i.id], e.i.now);
      } else {
        var id := s.disk.dels[e.d.op].cert;
        DeletionKeepsTrust(s.certs, s.trust, id, Named(s.disk.files, id, e.d.op), e.d.referenced);
      }
    }
  }

  lemma DiskStepKeepsIds(s: State, e: DiskEvent, t: State)
    requires IdsInv(s) && DiskNext(s.certs, s.disk, e, t.certs, t.disk) && t.trust == s.trust
    ensures IdsInv(t)
  {
    match e
    case OfImport(i) => ImportKeepsIds(s, i, t);
    case OfDelete(x) => DeletionIssuesNothing(s.certs, s.disk, x, t.certs, t.disk);
    case OfRecover(r) => RecoveryIssuesNothing(s.certs, s.disk, r, t.certs, t.disk);
  }

  lemma NextKeepsAnyInv(s: State, e: Event, t: State)
    requires AnyInv(s) && Next(s, e, t)
    ensures AnyInv(t)
  {
    match e
    case OfTrust(x) =>
      TrustNextKeepsLoose(s.certs, s.trust, x, t.certs, t.trust);
      TrustStepsKeepIds(s, x, t);
    case OfDisk(x) =>
      DiskStepKeepsTrust(s, x, t);
      DiskStepKeepsIds(s, x, t);
  }

  lemma NextKeepsTrustInv(s: State, e: Event, t: State)
    requires AnyInv(s) && TrustInv(s.certs, s.trust) && Next(s, e, t) && TrueAt(s, e) && DiscreetAt(s, e)
    ensures TrustInv(t.certs, t.trust)
  {
    match e
    case OfTrust(x) => TrustNextKeepsInv(s.certs, s.trust, x, t.certs, t.trust);
    case OfDisk(x) => DiskStepKeepsTrust(s, x, t);
  }

  lemma NextKeepsDiskInv(s: State, e: Event, t: State)
    requires DiskInv(s.certs, s.disk) && Next(s, e, t) && CarefulAt(s, e)
    ensures DiskInv(t.certs, t.disk)
  {
    match e
    case OfTrust(x) =>
      TrustKeepsKeys(s.certs, s.trust, x, t.certs, t.trust);
      TrustWritesKeepDisk(s.certs, s.disk, t.certs);
    case OfDisk(x) => DiskNextKeepsInv(s.certs, s.disk, x, t.certs, t.disk);
  }

  // No bytes are lost and nothing is left behind.
  ghost predicate Tidy(s: State) {
    BytesKept(s.certs, s.disk.files) && NoRemains(s.certs, s.disk.files)
  }

  lemma NextLeavesNothing(s: State, e: Event, t: State)
    requires DiskInv(s.certs, s.disk) && NoRemains(s.certs, s.disk.files) && Next(s, e, t) && OrderlyAt(s, e)
    ensures NoRemains(t.certs, t.disk.files)
  {
    match e
    case OfTrust(x) =>
      TrustKeepsKeys(s.certs, s.trust, x, t.certs, t.trust);
      TrustWritesKeepDisk(s.certs, s.disk, t.certs);
    case OfDisk(x) => DiskNextLeavesNothing(s.certs, s.disk, x, t.certs, t.disk);
  }

  lemma {:induction false} ReachableAnyInv(states: seq<State>, events: seq<Event>, i: nat)
    requires Run(states, events) && i < |states|
    ensures AnyInv(states[i])
  {
    if i > 0 {
      ReachableAnyInv(states, events, i - 1);
      assert StepAt(states, events, i - 1);
      NextKeepsAnyInv(states[i - 1], events[i - 1], states[i]);
    }
  }

  lemma {:induction false} ReachableTrustInv(states: seq<State>, events: seq<Event>, i: nat)
    requires Run(states, events) && i < |states| && DiscreetUntil(states, events, i)
    ensures AnyInv(states[i]) && TrustInv(states[i].certs, states[i].trust)
  {
    ReachableAnyInv(states, events, i);
    if i > 0 {
      ReachableTrustInv(states, events, i - 1);
      assert StepAt(states, events, i - 1);
      assert TrueAt(states[i - 1], events[i - 1]) && DiscreetAt(states[i - 1], events[i - 1]);
      NextKeepsTrustInv(states[i - 1], events[i - 1], states[i]);
    }
  }

  lemma {:induction false} ReachableDiskInv(states: seq<State>, events: seq<Event>, i: nat)
    requires Run(states, events) && i < |states| && CarefulUntil(states, events, i)
    ensures DiskInv(states[i].certs, states[i].disk)
  {
    if i > 0 {
      ReachableDiskInv(states, events, i - 1);
      assert StepAt(states, events, i - 1) && CarefulAt(states[i - 1], events[i - 1]);
      NextKeepsDiskInv(states[i - 1], events[i - 1], states[i]);
    }
  }

  lemma OrderlyIsCareful(states: seq<State>, events: seq<Event>, n: nat)
    requires |states| == |events| + 1 && n <= |events| && OrderlyUntil(states, events, n)
    ensures CarefulUntil(states, events, n)
  {
    forall k: nat | k < n ensures CarefulAt(states[k], events[k]) {
      assert OrderlyAt(states[k], events[k]);
    }
  }

  lemma InitLeavesNothing(s: State)
    requires Init(s)
    ensures NoRemains(s.certs, s.disk.files)
  {
  }

  lemma {:induction false} ReachableNoRemains(states: seq<State>, events: seq<Event>, i: nat)
    requires Run(states, events) && i < |states| && OrderlyUntil(states, events, i)
    ensures NoRemains(states[i].certs, states[i].disk.files)
  {
    if i == 0 {
      InitLeavesNothing(states[0]);
    } else {
      ReachableNoRemains(states, events, i - 1);
      OrderlyIsCareful(states, events, i - 1);
      ReachableDiskInv(states, events, i - 1);
      assert StepAt(states, events, i - 1) && OrderlyAt(states[i - 1], events[i - 1]);
      NextLeavesNothing(states[i - 1], events[i - 1], states[i]);
    }
  }

  lemma ReachableTidy(states: seq<State>, events: seq<Event>, i: nat)
    requires Run(states, events) && i < |states| && OrderlyUntil(states, events, i)
    ensures CarefulUntil(states, events, i) && DiskInv(states[i].certs, states[i].disk) && Tidy(states[i])
  {
    OrderlyIsCareful(states, events, i);
    ReachableDiskInv(states, events, i);
    ReachableNoRemains(states, events, i);
  }

  // ---- over whole runs ----

  /**
   * An entry that was in the root store before ScopeNest touched it is in no record marked as
   * ScopeNest's, at any point of any run, whenever recovery runs and whatever it is told.
   */
  lemma ForeignNeverClaimed(states: seq<State>, events: seq<Event>, i: nat, f: Fingerprint)
    requires Run(states, events) && i < |states| && f in states[i].trust.foreign
    ensures f in states[i].trust.os
    ensures forall id :: id in states[i].certs && states[i].certs[id].fingerprint == f ==>
              !states[i].certs[id].installedByScopeNest
  {
    ReachableAnyInv(states, events, i);
  }

  /** And it stays in the store until another program removes it. */
  lemma {:induction false} ForeignNeverRemoved(states: seq<State>, events: seq<Event>, i: nat, j: nat, f: Fingerprint)
    requires Run(states, events) && i <= j < |states| && f in states[i].trust.foreign
    requires forall k: nat :: i <= k < j ==> events[k] != OfTrust(ExternalRemove(f))
    ensures f in states[j].trust.os && f in states[j].trust.foreign
    decreases j
  {
    ReachableAnyInv(states, events, i);
    if i < j {
      ForeignNeverRemoved(states, events, i, j - 1, f);
      ReachableAnyInv(states, events, j - 1);
      assert StepAt(states, events, j - 1) && events[j - 1] != OfTrust(ExternalRemove(f));
      if events[j - 1].OfTrust? {
        ForeignStays(states[j - 1].certs, states[j - 1].trust, events[j - 1].t, states[j].certs, states[j].trust, f);
      }
    }
  }

  /** Every entry ScopeNest added has a record that owns it or is still working on it. */
  lemma AddedIsTracked(states: seq<State>, events: seq<Event>, i: nat, f: Fingerprint)
    requires Run(states, events) && i < |states| && DiscreetUntil(states, events, i)
    requires f in states[i].trust.os && f !in states[i].trust.foreign
    ensures exists id :: id in states[i].certs && Tracks(states[i].certs[id], f)
  {
    ReachableTrustInv(states, events, i);
    assert Added(states[i].trust, f);
  }

  /** Deleting a certificate leaves no entry of ScopeNest's behind in the store. */
  lemma DeletionOrphansNothing(states: seq<State>, events: seq<Event>, i: nat, id: Id)
    requires Run(states, events) && i < |events| && DiscreetUntil(states, events, i)
    requires id in states[i].certs && id !in states[i + 1].certs
    ensures !Added(states[i + 1].trust, states[i].certs[id].fingerprint)
  {
    ReachableTrustInv(states, events, i);
    assert StepAt(states, events, i);
    var s, t := states[i], states[i + 1];
    match events[i]
    case OfTrust(x) => TrustKeepsKeys(s.certs, s.trust, x, t.certs, t.trust);
    case OfDisk(x) =>
      DiskStepRecords(s.certs, s.disk, x, t.certs, t.disk);
      DeletionKeepsTrust(s.certs, s.trust, id, Named(s.disk.files, id, x.d.op), x.d.referenced);
  }

  /** Every record's bytes are at home or in the staged directory of a tombstone naming it. */
  lemma BytesAreKept(states: seq<State>, events: seq<Event>, i: nat, id: Id)
    requires Run(states, events) && i < |states| && CarefulUntil(states, events, i) && id in states[i].certs
    ensures Kept(states[i].certs, states[i].disk.files, id)
  {
    ReachableDiskInv(states, events, i);
    assert BytesKept(states[i].certs, states[i].disk.files);
  }

  /** Fingerprints in the library are pairwise distinct, and pending or error states are exactly those with an operation. */
  lemma RecordsAreShaped(states: seq<State>, events: seq<Event>, i: nat, id: Id, k: Id)
    requires Run(states, events) && i < |states| && id in states[i].certs && k in states[i].certs
    ensures states[i].certs[id].fingerprint == states[i].certs[k].fingerprint ==> id == k
    ensures states[i].certs[id].operationId != "" <==> states[i].certs[id].trustState in {Installing, Removing, TrustError}
  {
    ReachableAnyInv(states, events, i);
  }

  /** Recovery after any crash, over a whole run. */
  lemma RecoveryRestoresTruth(states: seq<State>, events: seq<Event>, i: nat, id: Id)
    requires Run(states, events) && i < |events| && DiscreetUntil(states, events, i)
    requires events[i].OfTrust? && events[i].t.RecoverStep? && TrueAt(states[i], events[i])
    requires id in states[i].certs && AnswerOf(events[i].t.answers, id).Present?
    ensures id in states[i + 1].certs
    ensures var c, d, r := states[i].certs[id], states[i + 1].certs[id], states[i + 1].trust;
            && d.operationId == "" && d.trustState in {Trusted, Untrusted}
            && (c.operationId != "" ==>
                  && (d.trusted <==> d.fingerprint in r.os)
                  && (d.installedByScopeNest <==> d.fingerprint in r.os && d.fingerprint !in r.foreign))
  {
    ReachableTrustInv(states, events, i);
    assert StepAt(states, events, i);
    var s, t := states[i], states[i + 1];
    Recovered(s.certs, s.trust, events[i].t, t.certs, t.trust, id);
  }

  /** Whichever step removes a tombstone, record and directories agree afterwards. */
  lemma RecoveryEndsConsistently(states: seq<State>, events: seq<Event>, i: nat, op: Id)
    requires Run(states, events) && i < |events| && OrderlyUntil(states, events, i)
    requires op in states[i].disk.files.tombs && op !in states[i + 1].disk.files.tombs
    ensures op !in states[i + 1].disk.files.staged
    ensures var id := states[i].disk.files.tombs[op].cert;
            if id in states[i + 1].certs then AtHome(states[i + 1].certs, states[i + 1].disk.files, id)
            else id !in states[i + 1].disk.files.home
  {
    ReachableTidy(states, events, i);
    assert StepAt(states, events, i);
    var s, t := states[i], states[i + 1];
    TombstoneLeavesNothingOpen(s.certs, s.disk, events[i].d, t.certs, t.disk, op);
  }

  /** And at no point is there a staged directory without a tombstone or a directory of a deleted certificate. */
  lemma NothingIsLeftBehind(states: seq<State>, events: seq<Event>, i: nat, op: Id)
    requires Run(states, events) && i < |states| && OrderlyUntil(states, events, i)
    requires op in states[i].disk.files.target
    ensures op in states[i].disk.files.staged ==> op in states[i].disk.files.tombs
    ensures states[i].disk.files.target[op] !in states[i].certs ==>
              states[i].disk.files.target[op] !in states[i].disk.files.home
  {
    ReachableTidy(states, events, i);
  }

  lemma StuckThroughStep(s: State, e: Event, t: State, op: Id)
    requires IdsInv(s) && Next(s, e, t) && Stuck(s.certs, s.disk, op)
    ensures Stuck(t.certs, t.disk, op)
  {
    match e
    case OfTrust(x) => TrustKeepsKeys(s.certs, s.trust, x, t.certs, t.trust);
    case OfDisk(x) => StuckStays(s.certs, s.disk, x, t.certs, t.disk, op);
  }

  /** A tombstone left by a crash after the purge is there for good, in every run. */
  lemma {:induction false} StuckForever(states: seq<State>, events: seq<Event>, i: nat, j: nat, op: Id)
    requires Run(states, events) && i <= j < |states| && Stuck(states[i].certs, states[i].disk, op)
    ensures Stuck(states[j].certs, states[j].disk, op)
    decreases j
  {
    if i < j {
      StuckForever(states, events, i, j - 1, op);
      ReachableAnyInv(states, events, j - 1);
      assert StepAt(states, events, j - 1);
      StuckThroughStep(states[j - 1], events[j - 1], states[j], op);
    }
  }

  ghost predicate ApartState(s: State) {
    DiskInv(s.certs, s.disk) && ApartInv(s.certs, s.disk)
  }

  lemma NextKeepsApart(s: State, e: Event, t: State)
    requires ApartState(s) && Next(s, e, t) && ApartAt(s, e)
    ensures ApartState(t) && OrderlyAt(s, e)
  {
    match e
    case OfTrust(x) =>
      TrustKeepsKeys(s.certs, s.trust, x, t.certs, t.trust);
      TrustWritesKeepDisk(s.certs, s.disk, t.certs);
    case OfDisk(x) =>
      ApartIsOrderly(s.certs, s.disk, x, t.certs, t.disk);
      ApartNextKeepsInv(s.certs, s.disk, x, t.certs, t.disk);
      DiskNextKeepsInv(s.certs, s.disk, x, t.certs, t.disk);
  }

  lemma InitIsApart(s: State)
    requires Init(s)
    ensures ApartState(s)
  {
  }

  ghost predicate ApartUntil(states: seq<State>, events: seq<Event>, n: nat)
    requires |states| == |events| + 1 && n <= |events|
  {
    forall k: nat :: k < n ==> ApartAt(states[k], events[k])
  }

  lemma {:induction false} ReachableApart(states: seq<State>, events: seq<Event>, i: nat)
    requires Run(states, events) && i < |states| && ApartUntil(states, events, i)
    ensures ApartState(states[i])
  {
    if i == 0 {
      InitIsApart(states[0]);
    } else {
      ReachableApart(states, events, i - 1);
      assert StepAt(states, events, i - 1) && ApartAt(states[i - 1], events[i - 1]);
      NextKeepsApart(states[i - 1], events[i - 1], states[i]);
    }
  }

  /** A run in which every recovery begins apart from its own deletion is orderly throughout. */
  lemma ApartRunIsOrderly(states: seq<State>, events: seq<Event>)
    requires Run(states, events) && ApartUntil(states, events, |events|)
    ensures OrderlyUntil(states, events, |events|)
  {
    forall k: nat | k < |events| ensures OrderlyAt(states[k], events[k]) {
      ReachableApart(states, events, k);
      assert StepAt(states, events, k) && ApartAt(states[k], events[k]);
      NextKeepsApart(states[k], events[k], states[k + 1]);
    }
  }
}
