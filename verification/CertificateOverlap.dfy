/**
 * Where the guarantees about tracked entries, kept bytes and clean ends stop: for each, the condition
 * on a step that holds exactly when no continuation breaks the guarantee, and runs from an empty
 * library in which it fails.
 */
module CertificateOverlap {
  import opened Prelude
  import opened Records
  import opened CertificateSpec
  import opened TrustProtocol
  import opened TrustSafety
  import opened DeletionProtocol
  import opened DeletionSteps
  import opened DeletionSafety
  import opened DeletionOverlap
  import opened CertificateProtocol

  ghost predicate Course(path: seq<State>, course: seq<Event>) {
    |path| == |course| + 1 && forall i: nat :: i < |course| ==> Next(path[i], course[i], path[i + 1])
  }

  // ---- tracked entries ----

  ghost predicate DiscreetCourse(t: State, path: seq<State>, course: seq<Event>) {
    && Course(path, course) && path[0] == t
    && forall i: nat :: i < |course| ==> TrueAt(path[i], course[i]) && DiscreetAt(path[i], course[i])
  }

  /** Whatever happens from here with true answers and discreet recoveries, every added entry is tracked. */
  ghost predicate StaysTracked(t: State) {
    forall path: seq<State>, course: seq<Event> :: DiscreetCourse(t, path, course) ==>
      Tracked(path[|course|].certs, path[|course|].trust)
  }

  lemma {:induction false} TrackedAlong(t: State, path: seq<State>, course: seq<Event>, i: nat)
    requires AnyInv(t) && TrustInv(t.certs, t.trust) && DiscreetCourse(t, path, course) && i < |path|
    ensures AnyInv(path[i]) && TrustInv(path[i].certs, path[i].trust)
  {
    if i > 0 {
      TrackedAlong(t, path, course, i - 1);
      var s, e := path[i - 1], course[i - 1];
      assert Next(s, e, path[i]) && TrueAt(s, e) && DiscreetAt(s, e);
      NextKeepsAnyInv(s, e, path[i]);
      NextKeepsTrustInv(s, e, path[i]);
    }
  }

  function WithTrust(s: State, m: CertificateMap, r: Trust): State {
    State(m, r, s.disk)
  }

  // Recovery found no entry: the installation goes on and adds one.
  lemma AbsentAnswerLoses(s: State, e: Event, t: State, token: Id)
    requires TrustInv(s.certs, s.trust) && Next(s, e, t) && e.OfTrust? && e.t.RecoverStep? && TrueAt(s, e)
    requires AboutToInstall(s.certs, s.trust, token)
    requires AnswerOf(e.t.answers, s.trust.ops[token].cert) == Present(false)
    ensures !StaysTracked(t)
  {
    var r := t.trust;
    var op := r.ops[token];
    var u := r.(os := r.os + {op.fingerprint},
                ops := r.ops[token := op.(stage := Changed, already := op.fingerprint in r.os)]);
    var path, course := [t, WithTrust(t, t.certs, u)], [OfTrust(ChangeStore(token, true, false))];
    assert ChangeStoreNext(t.certs, r, token, true, false, t.certs, u);
    AbsentAnswerOrphans(s.certs, s.trust, e.t, t.certs, token, u);
    assert DiscreetCourse(t, path, course);
  }

  // The record after recovery saw an entry ScopeNest owns.
  lemma OwnedAnswerLeaves(s: State, e: Event, t: State, token: Id)
    requires TrustInv(s.certs, s.trust) && Next(s, e, t) && e.OfTrust? && e.t.RecoverStep? && TrueAt(s, e)
    requires AboutToInstall(s.certs, s.trust, token)
    requires var id := s.trust.ops[token].cert;
             AnswerOf(e.t.answers, id) == Present(true) && s.certs[id].installedByScopeNest
    ensures t.trust == s.trust && t.disk == s.disk
    ensures var id, f := s.trust.ops[token].cert, s.trust.ops[token].fingerprint;
            && id in t.certs && t.certs[id].id == id && t.certs[id].fingerprint == f
            && !Pending(t.certs[id]) && t.certs[id].installedByScopeNest
            && f in s.trust.os && f !in s.trust.foreign && AtHome(t.certs, t.disk.files, id)
            && forall k :: k in t.certs && t.certs[k].fingerprint == f ==> k == id
  {
    var op := s.trust.ops[token];
    var c := s.certs[op.cert];
    assert Covered(s.certs, s.trust, op, token) && Honest(s.trust, RecoveryFingerprint(c), Present(true));
    assert !AnswerOf(e.t.answers, op.cert).Unreadable?;
    RecoveredRecord(c, Present(true), e.t.now);
    forall k | k in t.certs ensures t.certs[k].fingerprint == s.certs[k].fingerprint {
      RecoveredRecord(s.certs[k], AnswerOf(e.t.answers, k), e.t.now);
    }
  }

  lemma Extended(t: State, path: seq<State>, course: seq<Event>, e: Event, u: State)
    requires DiscreetCourse(t, path, course) && Next(path[|course|], e, u)
    requires TrueAt(path[|course|], e) && DiscreetAt(path[|course|], e)
    ensures DiscreetCourse(t, path + [u], course + [e])
  {
  }

  function RemovalEvents(id: Id, token: Id, now: Time): seq<Event> {
    [OfTrust(PrepareRemoveStep(id, token, false, now)), OfTrust(ChangeStore(token, true, false)),
     OfTrust(Confirm(token, Present(false))), OfTrust(FinishStep(token, now))]
  }

  // A second command removes the entry and finishes.
  lemma RemovalRuns(t: State, id: Id, token: Id, now: Time) returns (path: seq<State>)
    requires id in t.certs && t.certs[id].id == id && !Pending(t.certs[id]) && t.certs[id].installedByScopeNest
    requires AtHome(t.certs, t.disk.files, id) && NewToken(t.trust, token)
    ensures DiscreetCourse(t, path, RemovalEvents(id, token, now))
    ensures path[4].certs == t.certs[id := WithRemoved(WithRemoveIntent(t.certs[id], token, now), now)]
    ensures path[4].disk == t.disk
    ensures path[4].trust == t.trust.(os := t.trust.os - {t.certs[id].fingerprint}, spent := t.trust.spent + {token})
  {
    var ms, rs := CanRemove(t.certs, t.trust, id, token, now);
    path := [t, WithTrust(t, ms[1], rs[1]), WithTrust(t, ms[2], rs[2]), WithTrust(t, ms[3], rs[3]),
             WithTrust(t, ms[4], rs[4])];
    forall i: nat | i < 4 ensures Next(path[i], RemovalEvents(id, token, now)[i], path[i + 1]) {
      assert RemovalEvents(id, token, now)[i] == OfTrust(RemovalCourse(id, token, now)[i]);
      assert TrustNext(ms[i], rs[i], RemovalCourse(id, token, now)[i], ms[i + 1], rs[i + 1]);
    }
  }

  // And then comes the late call into the store.
  lemma LateInstallAfterRemoval(t: State, token: Id, id: Id, f: Fingerprint, now: Time)
    requires token in t.trust.ops && t.trust.ops[token].kind == Install && t.trust.ops[token].stage == Prepared
    requires t.trust.ops[token].fingerprint == f && f in t.trust.os && f !in t.trust.foreign
    requires id in t.certs && t.certs[id].id == id && t.certs[id].fingerprint == f && AtHome(t.certs, t.disk.files, id)
    requires !Pending(t.certs[id]) && t.certs[id].installedByScopeNest
    requires forall k :: k in t.certs && t.certs[k].fingerprint == f ==> k == id
    ensures !StaysTracked(t)
  {
    var unused := UnusedToken(t.trust);
    var path := RemovalRuns(t, id, unused, now);
    var r := path[4].trust;
    var op := r.ops[token];
    var u := r.(os := r.os + {f}, ops := r.ops[token := op.(stage := Changed, already := f in r.os)]);
    assert ChangeStoreNext(path[4].certs, r, token, true, false, path[4].certs, u);
    LateInstallOrphans(path[4].certs, r, token, u);
    var last := WithTrust(path[4], path[4].certs, u);
    var course := RemovalEvents(id, unused, now);
    Extended(t, path, course, OfTrust(ChangeStore(token, true, false)), last);
    var all := path + [last];
    assert all[|course + [OfTrust(ChangeStore(token, true, false))]|] == last;
  }

  /**
   * A recovery is discreet exactly when no continuation orphans an entry: one that ends the operation
   * of an installation about to call the store can always be continued until an entry ScopeNest added
   * is tracked by no record, unless the entry is there and is another's.
   */
  lemma TrackingNeedsDiscretion(states: seq<State>, events: seq<Event>, i: nat)
    requires Run(states, events) && i < |events| && DiscreetUntil(states, events, i) && TrueAt(states[i], events[i])
    ensures DiscreetAt(states[i], events[i]) <==> StaysTracked(states[i + 1])
  {
    ReachableTrustInv(states, events, i);
    assert StepAt(states, events, i);
    var s, e, t := states[i], events[i], states[i + 1];
    if DiscreetAt(s, e) {
      NextKeepsAnyInv(s, e, t);
      NextKeepsTrustInv(s, e, t);
      forall path: seq<State>, course: seq<Event> | DiscreetCourse(t, path, course)
        ensures Tracked(path[|course|].certs, path[|course|].trust)
      {
        TrackedAlong(t, path, course, |course|);
      }
    } else {
      var token :| AboutToInstall(s.certs, s.trust, token) && AnswerOf(e.t.answers, s.trust.ops[token].cert).Present?
                   && !(AnswerOf(e.t.answers, s.trust.ops[token].cert) == Present(true)
                        && !s.certs[s.trust.ops[token].cert].installedByScopeNest);
      var id := s.trust.ops[token].cert;
      if AnswerOf(e.t.answers, id) == Present(false) {
        AbsentAnswerLoses(s, e, t, token);
      } else {
        OwnedAnswerLeaves(s, e, t, token);
        LateInstallAfterRemoval(t, token, id, s.trust.ops[token].fingerprint, e.t.now);
      }
    }
  }

  // ---- kept bytes and clean ends ----

  ghost predicate CarefulCourse(t: State, path: seq<State>, course: seq<Event>) {
    && Course(path, course) && path[0] == t && forall i: nat :: i < |course| ==> CarefulAt(path[i], course[i])
  }

  ghost predicate OrderlyCourse(t: State, path: seq<State>, course: seq<Event>) {
    && Course(path, course) && path[0] == t && forall i: nat :: i < |course| ==> OrderlyAt(path[i], course[i])
  }

  // With true answers about the root store, which matter to what can be deleted.
  ghost predicate PatientCourse(t: State, path: seq<State>, course: seq<Event>) {
    && Course(path, course) && path[0] == t
    && forall i: nat :: i < |course| ==> PatientAt(path[i], course[i]) && TrueAt(path[i], course[i])
  }

  /** Whatever happens from here without a careless look, every record keeps its bytes. */
  ghost predicate StaysKept(t: State) {
    forall path: seq<State>, course: seq<Event> :: CarefulCourse(t, path, course) ==>
      BytesKept(path[|course|].certs, path[|course|].disk.files)
  }

  /** Whatever happens from here in order, no bytes are lost and nothing is left behind. */
  ghost predicate StaysTidy(t: State) {
    forall path: seq<State>, course: seq<Event> :: OrderlyCourse(t, path, course) ==> Tidy(path[|course|])
  }

  /** Whatever happens from here with patient recoveries, no bytes are lost and nothing is left behind. */
  ghost predicate StaysClean(t: State) {
    forall path: seq<State>, course: seq<Event> :: PatientCourse(t, path, course) ==> Tidy(path[|course|])
  }

  lemma {:induction false} KeptAlong(t: State, path: seq<State>, course: seq<Event>, i: nat)
    requires DiskInv(t.certs, t.disk) && CarefulCourse(t, path, course) && i < |path|
    ensures DiskInv(path[i].certs, path[i].disk)
  {
    if i > 0 {
      KeptAlong(t, path, course, i - 1);
      assert Next(path[i - 1], course[i - 1], path[i]) && CarefulAt(path[i - 1], course[i - 1]);
      NextKeepsDiskInv(path[i - 1], course[i - 1], path[i]);
    }
  }

  lemma OrderlyIsCareful(t: State, path: seq<State>, course: seq<Event>)
    requires OrderlyCourse(t, path, course)
    ensures CarefulCourse(t, path, course)
  {
    forall i: nat | i < |course| ensures CarefulAt(path[i], course[i]) {
      assert OrderlyAt(path[i], course[i]);
    }
  }

  lemma {:induction false} TidyAlong(t: State, path: seq<State>, course: seq<Event>, i: nat)
    requires DiskInv(t.certs, t.disk) && Tidy(t) && OrderlyCourse(t, path, course) && i < |path|
    ensures Tidy(path[i])
  {
    OrderlyIsCareful(t, path, course);
    KeptAlong(t, path, course, i);
    if i > 0 {
      TidyAlong(t, path, course, i - 1);
      KeptAlong(t, path, course, i - 1);
      assert Next(path[i - 1], course[i - 1], path[i]) && OrderlyAt(path[i - 1], course[i - 1]);
      NextLeavesNothing(path[i - 1], course[i - 1], path[i]);
    }
  }

  // A course of directory events, the trust operations standing still.
  function Lifted(t: State, path: seq<Disk>): (states: seq<State>)
    ensures |states| == |path| && forall i :: 0 <= i < |path| ==> states[i] == t.(disk := path[i])
  {
    seq(|path|, i requires 0 <= i < |path| => t.(disk := path[i]))
  }

  function LiftedEvents(course: seq<DiskEvent>): (events: seq<Event>)
    ensures |events| == |course| && forall i :: 0 <= i < |course| ==> events[i] == OfDisk(course[i])
  {
    seq(|course|, i requires 0 <= i < |course| => OfDisk(course[i]))
  }

  lemma LiftedCourse(t: State, path: seq<Disk>, course: seq<DiskEvent>)
    requires DiskCourse(t.certs, path, course) && path[0] == t.disk
    ensures OrderlyCourse(t, Lifted(t, path), LiftedEvents(course))
    ensures PatientCourse(t, Lifted(t, path), LiftedEvents(course))
  {
    var states, events := Lifted(t, path), LiftedEvents(course);
    forall i: nat | i < |events|
      ensures Next(states[i], events[i], states[i + 1])
      ensures OrderlyAt(states[i], events[i]) && PatientAt(states[i], events[i])
    {
      assert TimelyStep(t.certs, path[i], course[i], path[i + 1]);
    }
  }

  lemma CarelessLookBreaks(s: State, e: Event, t: State)
    requires DiskInv(s.certs, s.disk) && Next(s, e, t) && !CarefulAt(s, e)
    ensures !StaysKept(t) && !StaysTidy(t) && !StaysClean(t)
  {
    var path, course := CarelessLookLosesBytes(s.certs, s.disk, e.d.r.k, t.disk);
    assert t.certs == s.certs;
    LiftedCourse(t, path, course);
    OrderlyIsCareful(t, Lifted(t, path), LiftedEvents(course));
  }

  /**
   * A look is careful exactly when no continuation loses bytes: each careless look can be continued,
   * without another one, until nothing leads to a record's bytes.
   */
  lemma KeepingNeedsCare(states: seq<State>, events: seq<Event>, i: nat)
    requires Run(states, events) && i < |events| && CarefulUntil(states, events, i)
    ensures CarefulAt(states[i], events[i]) <==> StaysKept(states[i + 1])
  {
    ReachableDiskInv(states, events, i);
    assert StepAt(states, events, i);
    var s, e, t := states[i], events[i], states[i + 1];
    if CarefulAt(s, e) {
      NextKeepsDiskInv(s, e, t);
      forall path: seq<State>, course: seq<Event> | CarefulCourse(t, path, course)
        ensures BytesKept(path[|course|].certs, path[|course|].disk.files)
      {
        KeptAlong(t, path, course, |course|);
      }
    } else {
      CarelessLookBreaks(s, e, t);
    }
  }

  lemma LateStepBreaks(s: State, e: Event, t: State)
    requires DiskInv(s.certs, s.disk) && Next(s, e, t) && CarefulAt(s, e) && !OrderlyAt(s, e)
    ensures !StaysTidy(t)
  {
    LateStepLeavesRemains(s.certs, s.disk, e.d, t.certs, t.disk);
    var path: seq<State>, course: seq<Event> := [t], [];
    assert OrderlyCourse(t, path, course) && !Tidy(path[|course|]);
  }

  /**
   * A step is orderly exactly when no orderly continuation loses bytes or leaves a directory behind:
   * besides the careless looks, what does harm is a directory brought home for a record that is gone,
   * and a record dropped while its directory is back home.
   */
  lemma CleanEndsNeedOrder(states: seq<State>, events: seq<Event>, i: nat)
    requires Run(states, events) && i < |events| && OrderlyUntil(states, events, i)
    ensures OrderlyAt(states[i], events[i]) <==> StaysTidy(states[i + 1])
  {
    ReachableTidy(states, events, i);
    assert StepAt(states, events, i);
    var s, e, t := states[i], events[i], states[i + 1];
    if OrderlyAt(s, e) {
      NextKeepsDiskInv(s, e, t);
      NextLeavesNothing(s, e, t);
      forall path: seq<State>, course: seq<Event> | OrderlyCourse(t, path, course) ensures Tidy(path[|course|]) {
        TidyAlong(t, path, course, |course|);
      }
    } else if CarefulAt(s, e) {
      LateStepBreaks(s, e, t);
    } else {
      CarelessLookBreaks(s, e, t);
    }
  }

  /**
   * In any run without careless looks, a recovery that nothing disturbs clears every tombstone whose
   * deletion is over, unless it is one that is stuck.
   */
  lemma TombstonesAreCleared(states: seq<State>, events: seq<Event>, i: nat, k: nat, op: Id)
    returns (path: seq<State>, course: seq<Event>)
    requires Run(states, events) && i < |states| && CarefulUntil(states, events, i)
    requires var d := states[i].disk;
             && op in d.files.tombs && op !in d.dels && k !in d.recs && (forall j :: j in d.recs ==> d.recs[j].op != op)
             && !Stuck(states[i].certs, d, op)
    ensures OrderlyCourse(states[i], path, course) && op !in path[|course|].disk.files.tombs
  {
    ReachableDiskInv(states, events, i);
    var disks := RecoveryClearsUnlessStuck(states[i].certs, states[i].disk, k, op);
    LiftedCourse(states[i], disks, LookCourse(k, op) + ClearCourse(k));
    path, course := Lifted(states[i], disks), LiftedEvents(LookCourse(k, op) + ClearCourse(k));
  }

  // ---- runs in which it happens ----

  // An empty library over a store that holds these entries.
  function Empty(os: set<Fingerprint>): State {
    State(map[], Trust(os, os, map[], {}), Disk(Files(map[], map[], map[], map[], map[], {}), map[], map[]))
  }

  function Library(os: set<Fingerprint>, id: Id, x: Fingerprint, now: Time): State {
    Empty(os).(certs := map[id := ImportedCertificate(id, x, now)],
               disk := Disk(Files(map[id := Some(x)], map[], map[], map[], map[], {id}), map[], map[]))
  }

  function ImportEvents(id: Id, x: Fingerprint, now: Time): seq<Event> {
    [OfDisk(OfImport(Place(id, x))), OfDisk(OfImport(ImportStep(id, now)))]
  }

  lemma CanImport(os: set<Fingerprint>, id: Id, x: Fingerprint, now: Time) returns (path: seq<State>)
    ensures OrderlyCourse(Empty(os), path, ImportEvents(id, x, now)) && path[2] == Library(os, id, x, now)
    ensures DiscreetCourse(Empty(os), path, ImportEvents(id, x, now))
  {
    var placed := Empty(os).(disk := Disk(Files(map[id := Some(x)], map[], map[], map[], map[id := x], {id}), map[], map[]));
    assert placed.disk.files.imports - {id} == map[];
    path := [Empty(os), placed, Library(os, id, x, now)];
    assert Next(path[0], ImportEvents(id, x, now)[0], path[1]) && Next(path[1], ImportEvents(id, x, now)[1], path[2]);
  }

  lemma OrderlyExtended(t: State, path: seq<State>, course: seq<Event>, e: Event, u: State)
    requires OrderlyCourse(t, path, course) && Next(path[|course|], e, u) && OrderlyAt(path[|course|], e)
    ensures OrderlyCourse(t, path + [u], course + [e])
  {
  }

  lemma OrderlyJoined(t: State, path: seq<State>, course: seq<Event>, more: seq<State>, after: seq<Event>)
    requires OrderlyCourse(t, path, course) && OrderlyCourse(path[|course|], more, after)
    ensures OrderlyCourse(t, path + more[1..], course + after)
    ensures (path + more[1..])[|course + after|] == more[|after|]
  {
    var all, events := path + more[1..], course + after;
    forall i: nat | i < |events| ensures Next(all[i], events[i], all[i + 1]) && OrderlyAt(all[i], events[i]) {
      if i >= |course| {
        assert all[i] == more[i - |course|] && all[i + 1] == more[i + 1 - |course|];
      }
    }
  }

  // A course from an empty library is a run, and one more step makes it a longer one.
  lemma CourseRuns(os: set<Fingerprint>, path: seq<State>, course: seq<Event>, e: Event, u: State)
    requires Course(path, course) && path[0] == Empty(os) && Next(path[|course|], e, u)
    ensures Run(path + [u], course + [e])
  {
    var states, events := path + [u], course + [e];
    forall i: nat ensures StepAt(states, events, i) {
      if i < |course| {
        assert states[i] == path[i] && states[i + 1] == path[i + 1];
      }
    }
  }

  // A run whose last step is the first that is not orderly.
  ghost predicate EndsDisorderly(states: seq<State>, events: seq<Event>) {
    && Run(states, events) && events != [] && OrderlyUntil(states, events, |events| - 1)
    && !OrderlyAt(states[|events| - 1], events[|events| - 1])
  }

  lemma DisorderlyRun(os: set<Fingerprint>, path: seq<State>, course: seq<Event>, e: Event, u: State)
    requires OrderlyCourse(Empty(os), path, course) && Next(path[|course|], e, u) && !OrderlyAt(path[|course|], e)
    ensures EndsDisorderly(path + [u], course + [e])
  {
    CourseRuns(os, path, course, e, u);
    var states, events := path + [u], course + [e];
    forall k: nat | k < |course| ensures OrderlyAt(states[k], events[k]) {
      assert OrderlyAt(path[k], course[k]);
    }
  }

  // The disk of the library once its certificate is marked for deletion.
  function MarkedDisk(id: Id, x: Fingerprint, op: Id): Disk {
    Disk(Files(map[id := Some(x)], map[], map[op := Tomb(id, false)], map[op := id], map[], {id}),
         map[op := Deletion(id, Marked)], map[])
  }

  function MarkEvents(id: Id, x: Fingerprint, op: Id, now: Time): seq<Event> {
    ImportEvents(id, x, now) + [OfDisk(OfDelete(MarkStep(id, op, false)))]
  }

  lemma CanMark(os: set<Fingerprint>, id: Id, x: Fingerprint, op: Id, now: Time) returns (path: seq<State>)
    requires op != ""
    ensures OrderlyCourse(Empty(os), path, MarkEvents(id, x, op, now))
    ensures path[3] == Library(os, id, x, now).(disk := MarkedDisk(id, x, op))
  {
    var stored := Library(os, id, x, now);
    path := CanImport(os, id, x, now);
    var marked := stored.(disk := MarkedDisk(id, x, op));
    assert DeletionError(stored.certs[id], Named(stored.disk.files, id, ""), false).None?;
    assert MarkNext(stored.certs, stored.disk, id, op, false, stored.certs, marked.disk);
    OrderlyExtended(Empty(os), path, ImportEvents(id, x, now), OfDisk(OfDelete(MarkStep(id, op, false))), marked);
    path := path + [marked];
  }

  /** A run that ends in a careless look: recovery looks at a deletion that has yet to stage its directory. */
  lemma CarelessLookHappens(os: set<Fingerprint>, id: Id, x: Fingerprint, op: Id, now: Time)
    returns (states: seq<State>, events: seq<Event>)
    requires op != ""
    ensures EndsDisorderly(states, events) && !CarefulAt(states[|events| - 1], events[|events| - 1])
  {
    var path := CanMark(os, id, x, op, now);
    var m, d := path[3].certs, path[3].disk;
    var found := Start(m, d.files, op);
    var a, b := CanBegin(m, d, 0, op);
    var c := d.(recs := map[0 := found.(source := Some(true), staged := Some(false))]);
    var looks := [OfRecover(Load(0, op)), OfRecover(LookSource(0))];
    assert DiskCourse(m, [d, a, b], looks);
    LiftedCourse(path[3], [d, a, b], looks);
    var lifted := Lifted(path[3], [d, a, b]);
    OrderlyJoined(Empty(os), path, MarkEvents(id, x, op, now), lifted, LiftedEvents(looks));
    path, events := path + lifted[1..], MarkEvents(id, x, op, now) + LiftedEvents(looks);
    var last, u := OfDisk(OfRecover(LookStaged(0))), path[5].(disk := c);
    assert AtPhase(b, op, Marked) && CarelessLook(m, b, OfRecover(LookStaged(0)));
    assert DeletionProtocol.RecoverNext(m, b, LookStaged(0), m, c);
    DisorderlyRun(os, path, events, last, u);
    states, events := path + [u], events + [last];
  }

  // The directory is staged, a recovery looks for the certificate's own one, and then for the staged one.
  function StagedDisk(id: Id, x: Fingerprint, op: Id, recs: map<nat, Recovery>): Disk {
    Disk(Files(map[], map[op := Some(x)], map[op := Tomb(id, false)], map[op := id], map[], {id}),
         map[op := Deletion(id, InStaging)], recs)
  }

  function SeenStaged(id: Id, x: Fingerprint, op: Id): Disk {
    StagedDisk(id, x, op, map[0 := Recovery(op, Some(x), Some(false), Some(true), Looking)])
  }

  function StageEvents(op: Id): seq<Event> {
    [OfDisk(OfDelete(StageRename(op, true))), OfDisk(OfRecover(Load(0, op))), OfDisk(OfRecover(LookSource(0)))]
  }

  lemma StageSteps(m: CertificateMap, id: Id, x: Fingerprint, op: Id)
    requires id in m && m[id].fingerprint == x
    ensures var start := Recovery(op, Some(x), None, None, Looking);
            var a, b := StagedDisk(id, x, op, map[]), StagedDisk(id, x, op, map[0 := start]);
            var c := StagedDisk(id, x, op, map[0 := start.(source := Some(false))]);
            && StageNext(m, MarkedDisk(id, x, op), op, true, m, a)
            && DeletionProtocol.RecoverNext(m, a, Load(0, op), m, b)
            && DeletionProtocol.RecoverNext(m, b, LookSource(0), m, c)
  {
    var d := MarkedDisk(id, x, op);
    assert StagedDisk(id, x, op, map[]) == At(d, op, InStaging).(files := MovedToStaging(d.files, op, id));
  }

  // The state in which the second look would be hasty.
  lemma CanStage(os: set<Fingerprint>, id: Id, x: Fingerprint, op: Id, now: Time)
    returns (path: seq<State>, events: seq<Event>)
    requires op != ""
    ensures OrderlyCourse(Empty(os), path, events) && PatientCourse(Empty(os), path, events)
    ensures path[|events|] == Library(os, id, x, now).(disk :=
              StagedDisk(id, x, op, map[0 := Recovery(op, Some(x), Some(false), None, Looking)]))
  {
    path := CanMark(os, id, x, op, now);
    var marked := MarkEvents(id, x, op, now);
    events := marked + StageEvents(op);
    var t := path[3];
    var start := Recovery(op, Some(x), None, None, Looking);
    var a, b := StagedDisk(id, x, op, map[]), StagedDisk(id, x, op, map[0 := start]);
    var c := StagedDisk(id, x, op, map[0 := start.(source := Some(false))]);
    StageSteps(t.certs, id, x, op);
    OrderlyExtended(Empty(os), path, marked, StageEvents(op)[0], t.(disk := a));
    OrderlyExtended(Empty(os), path + [t.(disk := a)], marked + [StageEvents(op)[0]], StageEvents(op)[1], t.(disk := b));
    path := path + [t.(disk := a)] + [t.(disk := b)];
    OrderlyExtended(Empty(os), path, marked + [StageEvents(op)[0]] + [StageEvents(op)[1]], StageEvents(op)[2],
                    t.(disk := c));
    path := path + [t.(disk := c)];
    assert events == marked + [StageEvents(op)[0]] + [StageEvents(op)[1]] + [StageEvents(op)[2]];
    forall i: nat | i < |events| ensures PatientAt(path[i], events[i]) && TrueAt(path[i], events[i]) {
      assert events[i] in events;
    }
  }

  lemma CanSeeStaged(os: set<Fingerprint>, id: Id, x: Fingerprint, op: Id, now: Time)
    returns (path: seq<State>, events: seq<Event>)
    requires op != ""
    ensures OrderlyCourse(Empty(os), path, events)
    ensures path[|events|] == Library(os, id, x, now).(disk := SeenStaged(id, x, op))
  {
    path, events := CanStage(os, id, x, op, now);
    var s := path[|events|];
    var seen := s.(disk := SeenStaged(id, x, op));
    assert DiskNext(s.certs, s.disk, OfRecover(LookStaged(0)), s.certs, seen.disk);
    OrderlyExtended(Empty(os), path, events, OfDisk(OfRecover(LookStaged(0))), seen);
    path, events := path + [seen], events + [OfDisk(OfRecover(LookStaged(0)))];
  }

  // The record is still deletable, with the tombstone of its own deletion.
  lemma Droppable(id: Id, x: Fingerprint, op: Id, now: Time, f: Files)
    requires f.tombs == map[op := Tomb(id, false)]
    ensures DeletionError(ImportedCertificate(id, x, now), Named(f, id, op), false).None?
  {
  }

  /** A run that ends in a late drop: the recovery brings the directory home and then the record is dropped. */
  lemma LateDropHappens(os: set<Fingerprint>, id: Id, x: Fingerprint, op: Id, now: Time)
    returns (states: seq<State>, events: seq<Event>)
    requires op != ""
    ensures EndsDisorderly(states, events)
    ensures LateDrop(states[|events| - 1].certs, states[|events| - 1].disk, events[|events| - 1].d)
  {
    var path;
    path, events := CanSeeStaged(os, id, x, op, now);
    var s := path[|events|];
    var m, d := s.certs, s.disk;
    var home := Seen(d, 0, Clearing).(files := MovedHome(d.files, op, id));
    PlainStep(m, d, Act(0, true), home);
    OrderlyExtended(Empty(os), path, events, OfDisk(OfRecover(Act(0, true))), s.(disk := home));
    path, events := path + [s.(disk := home)], events + [OfDisk(OfRecover(Act(0, true)))];
    assert path[|events|] == s.(disk := home);
    var last, u := OfDisk(OfDelete(DropStep(op, false, true))), s.(certs := m - {id}, disk := At(home, op, Dropped));
    Droppable(id, x, op, now, home.files);
    assert LateDrop(m, home, OfDelete(DropStep(op, false, true)));
    DisorderlyRun(os, path, events, last, u);
    states, events := path + [u], events + [last];
  }

  /** A run that ends in a late return: the record is dropped and then the recovery brings the directory home. */
  lemma LateReturnHappens(os: set<Fingerprint>, id: Id, x: Fingerprint, op: Id, now: Time)
    returns (states: seq<State>, events: seq<Event>)
    requires op != ""
    ensures EndsDisorderly(states, events)
    ensures LateReturn(states[|events| - 1].certs, states[|events| - 1].disk, events[|events| - 1].d)
  {
    var path;
    path, events := CanSeeStaged(os, id, x, op, now);
    var s := path[|events|];
    var m, d := s.certs, s.disk;
    var dropped := s.(certs := m - {id}, disk := At(d, op, Dropped));
    Droppable(id, x, op, now, d.files);
    assert DropNext(m, d, op, false, true, m - {id}, dropped.disk);
    OrderlyExtended(Empty(os), path, events, OfDisk(OfDelete(DropStep(op, false, true))), dropped);
    path, events := path + [dropped], events + [OfDisk(OfDelete(DropStep(op, false, true)))];
    assert path[|events|] == dropped;
    var act := OfRecover(Act(0, true));
    var u := dropped.(disk := Seen(dropped.disk, 0, Clearing).(files := MovedHome(d.files, op, id)));
    assert BringsHome(dropped.disk, act, op) && LateReturn(dropped.certs, dropped.disk, act);
    assert ActNext(dropped.disk, 0, true, u.disk);
    DisorderlyRun(os, path, events, OfDisk(act), u);
    states, events := path + [u], events + [OfDisk(act)];
  }

  // The disk of a deletion that has dropped its record; staged is what is left of the directory.
  function DroppedDisk(id: Id, staged: map<Id, Dir>, op: Id, dels: map<Id, Deletion>): Disk {
    Disk(Files(map[], staged, map[op := Tomb(id, false)], map[op := id], map[], {id}), dels, map[])
  }

  function PurgeEvents(op: Id): seq<Event> {
    [OfDisk(OfDelete(StageRename(op, true))), OfDisk(OfDelete(DropStep(op, false, true))),
     OfDisk(OfDelete(PurgeDir(op, true)))]
  }

  lemma PurgeSteps(m: CertificateMap, id: Id, x: Fingerprint, op: Id, now: Time)
    requires m == map[id := ImportedCertificate(id, x, now)] && op != ""
    ensures var a := StagedDisk(id, x, op, map[]);
            var b := DroppedDisk(id, map[op := Some(x)], op, map[op := Deletion(id, Dropped)]);
            var c := DroppedDisk(id, map[], op, map[op := Deletion(id, Untombing)]);
            && DeleteNext(m, MarkedDisk(id, x, op), StageRename(op, true), m, a)
            && DeleteNext(m, a, DropStep(op, false, true), map[], b)
            && DeleteNext(map[], b, PurgeDir(op, true), map[], c)
  {
    var d := MarkedDisk(id, x, op);
    var a := StagedDisk(id, x, op, map[]);
    assert a == At(d, op, InStaging).(files := MovedToStaging(d.files, op, id));
    Droppable(id, x, op, now, a.files);
    assert m - {id} == map[];
    assert map[op := Some(x)] - {op} == map[];
  }

  lemma CanPurge(os: set<Fingerprint>, id: Id, x: Fingerprint, op: Id, now: Time)
    returns (path: seq<State>, events: seq<Event>)
    requires op != ""
    ensures OrderlyCourse(Empty(os), path, events)
    ensures path[|events|]
            == State(map[], Empty(os).trust, DroppedDisk(id, map[], op, map[op := Deletion(id, Untombing)]))
  {
    path := CanMark(os, id, x, op, now);
    var marked, purge := MarkEvents(id, x, op, now), PurgeEvents(op);
    var t := path[3];
    PurgeSteps(t.certs, id, x, op, now);
    var a := t.(disk := StagedDisk(id, x, op, map[]));
    var b := State(map[], t.trust, DroppedDisk(id, map[op := Some(x)], op, map[op := Deletion(id, Dropped)]));
    var c := State(map[], t.trust, DroppedDisk(id, map[], op, map[op := Deletion(id, Untombing)]));
    OrderlyExtended(Empty(os), path, marked, purge[0], a);
    OrderlyExtended(Empty(os), path + [a], marked + [purge[0]], purge[1], b);
    OrderlyExtended(Empty(os), path + [a] + [b], marked + [purge[0]] + [purge[1]], purge[2], c);
    path, events := path + [a] + [b] + [c], marked + [purge[0]] + [purge[1]] + [purge[2]];
  }

  /** A run, orderly throughout, that ends with a stuck tombstone: the host dies once the directory is removed. */
  lemma StuckHappens(os: set<Fingerprint>, id: Id, x: Fingerprint, op: Id, now: Time)
    returns (states: seq<State>, events: seq<Event>)
    requires op != ""
    ensures Run(states, events) && OrderlyUntil(states, events, |events|)
    ensures Stuck(states[|events|].certs, states[|events|].disk, op)
  {
    var path;
    path, events := CanPurge(os, id, x, op, now);
    var s, e := path[|events|], OfDisk(OfDelete(DeleteVanish(op)));
    var t := s.(disk := DroppedDisk(id, map[], op, map[]));
    assert s.disk.dels - {op} == map[];
    CourseRuns(os, path, events, e, t);
    OrderlyExtended(Empty(os), path, events, e, t);
    states, events := path + [t], events + [e];
    assert states[|events|] == t;
  }

  lemma DiscreetJoined(t: State, path: seq<State>, course: seq<Event>, more: seq<State>, after: seq<Event>)
    requires DiscreetCourse(t, path, course) && DiscreetCourse(path[|course|], more, after)
    ensures DiscreetCourse(t, path + more[1..], course + after)
    ensures (path + more[1..])[|course + after|] == more[|after|]
  {
    var all, events := path + more[1..], course + after;
    forall i: nat | i < |events|
      ensures Next(all[i], events[i], all[i + 1]) && TrueAt(all[i], events[i]) && DiscreetAt(all[i], events[i])
    {
      if i >= |course| {
        assert all[i] == more[i - |course|] && all[i + 1] == more[i + 1 - |course|];
      }
    }
  }

  // A run whose last step is a truthful recovery, and the first that is not discreet.
  ghost predicate EndsIndiscreetly(states: seq<State>, events: seq<Event>) {
    && Run(states, events) && events != [] && DiscreetUntil(states, events, |events| - 1)
    && TrueAt(states[|events| - 1], events[|events| - 1]) && !DiscreetAt(states[|events| - 1], events[|events| - 1])
  }

  // An installation is prepared, and recovery asks the store about its entry before it goes on.
  lemma PreparedThenRecovered(os: set<Fingerprint>, path: seq<State>, course: seq<Event>, id: Id, token: Id, now: Time)
    returns (states: seq<State>, events: seq<Event>)
    requires DiscreetCourse(Empty(os), path, course)
    requires var s := path[|course|];
             && id in s.certs && s.certs.Keys == {id} && s.certs[id].id == id && TrustShape(s.certs[id])
             && !Pending(s.certs[id]) && AtHome(s.certs, s.disk.files, id) && NewToken(s.trust, token)
             && (s.certs[id].fingerprint in s.trust.os ==> s.certs[id].installedByScopeNest)
    ensures EndsIndiscreetly(states, events) && |events| == |course| + 2
    ensures var s := path[|course|]; var last := states[|events| - 1];
            && last.trust.os == s.trust.os && AboutToInstall(last.certs, last.trust, token)
            && events[|events| - 1].t.answers == map[id := Present(s.certs[id].fingerprint in s.trust.os)]
            && last.certs[id].installedByScopeNest == s.certs[id].installedByScopeNest
  {
    var s := path[|course|];
    var there := s.certs[id].fingerprint in s.trust.os;
    var c := WithInstallIntent(s.certs[id], token, there, now);
    var r := s.trust.(spent := s.trust.spent + {token}, ops := s.trust.ops[token := InstallOp(s.certs[id], Prepared)]);
    var t := State(s.certs[id := c], r, s.disk);
    var prepare := OfTrust(PrepareInstallStep(id, token, now));
    assert PrepareInstallNext(s.certs, s.trust, id, token, now, t.certs, r);
    Extended(Empty(os), path, course, prepare, t);
    var before, steps := path + [t], course + [prepare];
    assert before[|steps|] == t;
    var answers := map[id := Present(there)];
    var recover := OfTrust(RecoverStep(answers, now));
    var u := t.(certs := RecoverAll(t.certs, answers, now));
    assert AboutToInstall(t.certs, r, token) && AnswerOf(answers, id) == Present(there);
    assert Next(t, recover, u);
    CourseRuns(os, before, steps, recover, u);
    states, events := before + [u], steps + [recover];
    forall k: nat | k < |steps| ensures TrueAt(states[k], events[k]) && DiscreetAt(states[k], events[k]) {
      assert TrueAt(before[k], steps[k]) && DiscreetAt(before[k], steps[k]);
    }
  }

  /** A run that ends in an indiscreet recovery: it finds no entry for an installation about to add one. */
  lemma RecoveryBeforeInstallHappens(os: set<Fingerprint>, id: Id, x: Fingerprint, token: Id, now: Time)
    returns (states: seq<State>, events: seq<Event>)
    requires token != "" && x !in os
    ensures EndsIndiscreetly(states, events)
    ensures events[|events| - 1].t.answers == map[id := Present(false)]
  {
    var path := CanImport(os, id, x, now);
    states, events := PreparedThenRecovered(os, path, ImportEvents(id, x, now), id, token, now);
  }

  /** Another: an entry ScopeNest owns is installed again, and recovery finds it there before the store is called. */
  lemma RecoveryOfOwnedHappens(os: set<Fingerprint>, id: Id, x: Fingerprint, token: Id, again: Id, now: Time)
    returns (states: seq<State>, events: seq<Event>)
    requires token != "" && again != "" && token != again && x !in os
    ensures EndsIndiscreetly(states, events)
    ensures events[|events| - 1].t.answers == map[id := Present(true)]
    ensures states[|events| - 1].certs[id].installedByScopeNest
  {
    var path := CanImport(os, id, x, now);
    var s := path[2];
    var ms, rs := CanInstall(s.certs, s.trust, id, token, now);
    var install := seq(4, i requires 0 <= i < 4 => OfTrust(InstallCourse(id, token, now)[i]));
    var more := seq(5, i requires 0 <= i < 5 => WithTrust(s, ms[i], rs[i]));
    forall i: nat | i < 4
      ensures Next(more[i], install[i], more[i + 1]) && TrueAt(more[i], install[i]) && DiscreetAt(more[i], install[i])
    {
      assert TrustNext(ms[i], rs[i], InstallCourse(id, token, now)[i], ms[i + 1], rs[i + 1]);
    }
    DiscreetJoined(Empty(os), path, ImportEvents(id, x, now), more, install);
    var course := ImportEvents(id, x, now) + install;
    assert (path + more[1..])[|course|] == more[4] == WithTrust(s, ms[4], rs[4]);
    states, events := PreparedThenRecovered(os, path + more[1..], course, id, again, now);
  }
}
