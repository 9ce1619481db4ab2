/**
 * Clean ends, judged by when a recovery looks: a run whose looks are all patient is orderly
 * throughout, and each look that is not can be continued until something is lost or left behind.
 */
module CertificatePatience {
  import opened Prelude
  import opened Records
  import opened CertificateSpec
  import opened TrustProtocol
  import opened TrustSafety
  import opened DeletionProtocol
  import opened DeletionSteps
  import opened DeletionSafety
  import opened DeletionOverlap
  import opened DeletionPatience
  import opened CertificateProtocol
  import opened CertificateOverlap

  // ---- patient runs are orderly ----

  ghost predicate PatientState(s: State) {
    DiskInv(s.certs, s.disk) && PatientInv(s.certs, s.disk)
  }

  lemma TrustWritesKeepPatience(m: CertificateMap, d: Disk, n: CertificateMap)
    requires PatientInv(m, d) && n.Keys == m.Keys
    ensures PatientInv(n, d)
  {
    forall op | op in d.dels ensures PatientDeletion(n, d.files, op, d.dels[op]) {
      assert PatientDeletion(m, d.files, op, d.dels[op]);
    }
    forall k | k in d.recs ensures PatientRecovery(n, d, d.recs[k]) {
      assert PatientRecovery(m, d, d.recs[k]);
    }
  }

  lemma NextKeepsPatience(s: State, e: Event, t: State)
    requires PatientState(s) && Next(s, e, t) && PatientAt(s, e)
    ensures PatientState(t) && OrderlyAt(s, e)
  {
    match e
    case OfTrust(x) =>
      TrustKeepsKeys(s.certs, s.trust, x, t.certs, t.trust);
      TrustWritesKeepDisk(s.certs, s.disk, t.certs);
      TrustWritesKeepPatience(s.certs, s.disk, t.certs);
    case OfDisk(x) =>
      PatientIsOrderly(s.certs, s.disk, x, t.certs, t.disk);
      PatientNextKeepsInv(s.certs, s.disk, x, t.certs, t.disk);
      DiskNextKeepsInv(s.certs, s.disk, x, t.certs, t.disk);
  }

  lemma InitIsPatient(s: State)
    requires Init(s)
    ensures PatientState(s)
  {
  }

  lemma {:induction false} ReachablePatient(states: seq<State>, events: seq<Event>, i: nat)
    requires Run(states, events) && i < |states| && PatientUntil(states, events, i)
    ensures PatientState(states[i])
  {
    if i == 0 {
      InitIsPatient(states[0]);
    } else {
      ReachablePatient(states, events, i - 1);
      assert StepAt(states, events, i - 1) && PatientAt(states[i - 1], events[i - 1]);
      NextKeepsPatience(states[i - 1], events[i - 1], states[i]);
    }
  }

  /** A run in which every recovery looks patiently is orderly throughout: nothing is lost or left behind. */
  lemma PatientRunIsOrderly(states: seq<State>, events: seq<Event>, n: nat)
    requires Run(states, events) && n <= |events| && PatientUntil(states, events, n)
    ensures OrderlyUntil(states, events, n) && Tidy(states[n])
  {
    forall k: nat | k < n ensures OrderlyAt(states[k], events[k]) {
      ReachablePatient(states, events, k);
      assert StepAt(states, events, k) && PatientAt(states[k], events[k]);
      NextKeepsPatience(states[k], events[k], states[k + 1]);
    }
    ReachableTidy(states, events, n);
  }

  lemma {:induction false} CleanAlong(t: State, path: seq<State>, course: seq<Event>, i: nat)
    requires PatientState(t) && Tidy(t) && PatientCourse(t, path, course) && i < |path|
    ensures PatientState(path[i]) && Tidy(path[i])
  {
    if i > 0 {
      CleanAlong(t, path, course, i - 1);
      assert Next(path[i - 1], course[i - 1], path[i]) && PatientAt(path[i - 1], course[i - 1]);
      NextKeepsPatience(path[i - 1], course[i - 1], path[i]);
      NextLeavesNothing(path[i - 1], course[i - 1], path[i]);
    }
  }

  // ---- what a hasty look can lead to ----

  lemma PatientExtended(t: State, path: seq<State>, course: seq<Event>, e: Event, u: State)
    requires PatientCourse(t, path, course) && Next(path[|course|], e, u)
    requires PatientAt(path[|course|], e) && TrueAt(path[|course|], e)
    ensures PatientCourse(t, path + [u], course + [e]) && (path + [u])[|course + [e]|] == u
  {
  }

  lemma PatientJoined(t: State, path: seq<State>, course: seq<Event>, more: seq<State>, after: seq<Event>)
    requires PatientCourse(t, path, course) && PatientCourse(path[|course|], more, after)
    ensures PatientCourse(t, path + more[1..], course + after)
    ensures (path + more[1..])[|course + after|] == more[|after|]
  {
    var all, events := path + more[1..], course + after;
    forall i: nat | i < |events|
      ensures Next(all[i], events[i], all[i + 1]) && PatientAt(all[i], events[i]) && TrueAt(all[i], events[i])
    {
      if i >= |course| {
        assert all[i] == more[i - |course|] && all[i + 1] == more[i + 1 - |course|];
      }
    }
  }

  // The staged directory is home again, and everything else about this certificate is as it was.
  ghost predicate BroughtHome(t: State, u: State, op: Id) {
    && op in t.disk.files.target && op in t.disk.files.staged
    && u.certs == t.certs && u.trust == t.trust && u.disk.dels == t.disk.dels
    && u.disk.files == MovedHome(t.disk.files, op, t.disk.files.target[op])
  }

  // It saw no directory of the certificate's own.
  lemma RestoresHome(t: State, k: nat) returns (path: seq<State>, course: seq<Event>)
    requires FilesInv(t.certs, t.disk.files) && k in t.disk.recs && WillRestore(t.disk.recs[k])
    requires t.disk.recs[k].op in t.disk.files.target && t.disk.recs[k].op in t.disk.files.staged
    ensures PatientCourse(t, path, course) && BroughtHome(t, path[|course|], t.disk.recs[k].op)
  {
    var op := t.disk.recs[k].op;
    var w := Seen(t.disk, k, Clearing).(files := MovedHome(t.disk.files, op, t.disk.files.target[op]));
    assert DiskNext(t.certs, t.disk, OfRecover(Act(k, true)), t.certs, w);
    path, course := [t, t.(disk := w)], [OfDisk(OfRecover(Act(k, true)))];
  }

  lemma ReplaceSteps(m: CertificateMap, d: Disk, k: nat, op: Id, id: Id, f: Fingerprint)
    requires op in d.files.target && d.files.target[op] == id && id !in d.files.home && op in d.files.staged
    requires k in d.recs && d.recs[k] == Recovery(op, Some(f), Some(true), Some(true), Compared(false, true))
    ensures var replacing := Seen(d, k, Replacing);
            && DeletionProtocol.RecoverNext(m, d, Act(k, true), m, replacing)
            && DeletionProtocol.RecoverNext(m, replacing, Replace(k, true), m,
                                            Seen(replacing, k, Clearing).(files := MovedHome(d.files, op, id)))
  {
    assert HomeWiped(d.files, id) == d.files;
  }

  // It saw both, and what is staged is what the record said.
  lemma ReplacesHome(t: State, k: nat, f: Fingerprint) returns (path: seq<State>, course: seq<Event>)
    requires FilesInv(t.certs, t.disk.files) && k in t.disk.recs
    requires var op := t.disk.recs[k].op;
             && op in t.disk.files.target && op in t.disk.files.staged && t.disk.files.staged[op] == Some(f)
             && t.disk.recs[k] == Recovery(op, Some(f), Some(true), Some(true), Looking)
    ensures PatientCourse(t, path, course) && BroughtHome(t, path[|course|], t.disk.recs[k].op)
  {
    var op := t.disk.recs[k].op;
    var id := t.disk.files.target[op];
    var disks := CanCompare(t.certs, t.disk, k, op, id, f);
    LiftedCourse(t, disks, CompareCourse(k));
    path, course := Lifted(t, disks), LiftedEvents(CompareCourse(k));
    var a := t.(disk := Seen(disks[2], k, Replacing));
    var b := t.(disk := Seen(a.disk, k, Clearing).(files := MovedHome(t.disk.files, op, id)));
    ReplaceSteps(t.certs, disks[2], k, op, id, f);
    PatientExtended(t, path, course, OfDisk(OfRecover(Act(k, true))), a);
    path, course := path + [a], course + [OfDisk(OfRecover(Act(k, true)))];
    PatientExtended(t, path, course, OfDisk(OfRecover(Replace(k, true))), b);
    path, course := path + [b], course + [OfDisk(OfRecover(Replace(k, true)))];
  }

  lemma BroughtHomeRemains(t: State, u: State, op: Id)
    requires BroughtHome(t, u, op) && t.disk.files.target[op] !in t.certs
    ensures !Tidy(u)
  {
    assert u.disk.files.target[op] == t.disk.files.target[op];
  }

  // ---- a record whose bytes are home can be made deletable ----

  lemma RecoveryEndsOperation(c: Certificate, r: Trust, answer: Answer, now: Time)
    requires TrustShape(c) && answer == Present(c.fingerprint in r.os)
    ensures Honest(r, RecoveryFingerprint(c), answer) && !Pending(RecoverOne(c, answer, now))
    ensures RecoverOne(c, answer, now).id == c.id && RecoverOne(c, answer, now).fingerprint == c.fingerprint
  {
  }

  // A truthful recovery ends whatever operation is pending on this record.
  lemma RecoversOne(s: State, id: Id, now: Time) returns (t: State)
    requires AnyInv(s) && id in s.certs && AtHome(s.certs, s.disk.files, id)
    ensures PatientCourse(s, [s, t], [OfTrust(RecoverStep(map[id := Present(s.certs[id].fingerprint in s.trust.os)], now))])
    ensures t.disk == s.disk && t.certs.Keys == s.certs.Keys && t.trust == s.trust
    ensures !Pending(t.certs[id]) && t.certs[id].id == id && t.certs[id].fingerprint == s.certs[id].fingerprint
  {
    var c, answer := s.certs[id], Present(s.certs[id].fingerprint in s.trust.os);
    var answers := map[id := answer];
    t := s.(certs := RecoverAll(s.certs, answers, now));
    RecoveryEndsOperation(c, s.trust, answer, now);
    assert t.certs[id] == RecoverOne(c, answer, now);
    assert forall k :: k != id ==> AnswerOf(answers, k) == Unreadable;
    assert Next(s, OfTrust(RecoverStep(answers, now)), t);
  }

  lemma BecomesDeletable(s: State, id: Id, now: Time) returns (path: seq<State>, course: seq<Event>)
    requires AnyInv(s) && id in s.certs && AtHome(s.certs, s.disk.files, id)
    ensures PatientCourse(s, path, course) && path[|course|].disk == s.disk
    ensures id in path[|course|].certs && DeletionError(path[|course|].certs[id], false, false).None?
  {
    var t := RecoversOne(s, id, now);
    path, course := [s, t], [OfTrust(RecoverStep(map[id := Present(s.certs[id].fingerprint in s.trust.os)], now))];
    if t.certs[id].installedByScopeNest {
      var token := UnusedToken(t.trust);
      var more := RemovalRuns(t, id, token, now);
      assert PatientCourse(t, more, RemovalEvents(id, token, now));
      PatientJoined(s, path, course, more, RemovalEvents(id, token, now));
      path, course := path + more[1..], course + RemovalEvents(id, token, now);
    }
  }

  // The deletion drops the record of a directory that is back home.
  lemma DropsLate(s: State, op: Id) returns (t: State)
    requires TombsInv(s.disk.files) && op in s.disk.files.tombs && op in s.disk.dels
    requires s.disk.dels[op] == Deletion(s.disk.files.target[op], InStaging)
    requires var id := s.disk.files.target[op];
             id in s.certs && id in s.disk.files.home && DeletionError(s.certs[id], false, false).None?
    ensures PatientCourse(s, [s, t], [OfDisk(OfDelete(DropStep(op, false, true)))]) && !Tidy(t)
  {
    var id := s.disk.files.target[op];
    assert !Named(s.disk.files, id, op);
    t := s.(certs := s.certs - {id}, disk := At(s.disk, op, Dropped));
    assert DropNext(s.certs, s.disk, op, false, true, t.certs, t.disk);
    assert Next(s, OfDisk(OfDelete(DropStep(op, false, true))), t);
    assert op in t.disk.files.target && t.disk.files.target[op] == id && id in t.disk.files.home && id !in t.certs;
  }

  // The deletion has yet to drop the record, and its directory is back home.
  lemma HomeTooEarly(t: State, u: State, op: Id) returns (path: seq<State>, course: seq<Event>)
    requires AnyInv(u) && Sound(t.certs, t.disk.files) && BroughtHome(t, u, op)
    requires t.disk.files.target[op] in t.certs
    requires op in t.disk.dels && t.disk.dels[op] == Deletion(t.disk.files.target[op], InStaging)
    ensures PatientCourse(u, path, course) && !Tidy(path[|course|])
  {
    var id := t.disk.files.target[op];
    assert Kept(t.certs, t.disk.files, id);
    OnlyTomb(t.certs, t.disk.files, op, id);
    ReturnedKeeps(t.certs, t.disk.files, op, id);
    path, course := BecomesDeletable(u, id, 0);
    var last := DropsLate(path[|course|], op);
    var drop := OfDisk(OfDelete(DropStep(op, false, true)));
    PatientJoined(u, path, course, [path[|course|], last], [drop]);
    path, course := path + [path[|course|], last][1..], course + [drop];
  }

  lemma {:induction false} CourseKeepsAnyInv(t: State, path: seq<State>, course: seq<Event>, i: nat)
    requires AnyInv(t) && PatientCourse(t, path, course) && i < |path|
    ensures AnyInv(path[i])
  {
    if i > 0 {
      CourseKeepsAnyInv(t, path, course, i - 1);
      assert Next(path[i - 1], course[i - 1], path[i]);
      NextKeepsAnyInv(path[i - 1], course[i - 1], path[i]);
    }
  }

  // Wherever the look was hasty, the recovery can bring the directory home.
  lemma HastyComesHome(s: State, k: nat, t: State) returns (path: seq<State>, course: seq<Event>)
    requires DiskInv(s.certs, s.disk) && Next(s, OfDisk(OfRecover(LookStaged(k))), t)
    requires HastyLook(s.certs, s.disk, OfRecover(LookStaged(k)))
    ensures PatientCourse(t, path, course) && BroughtHome(t, path[|course|], s.disk.recs[k].op)
  {
    var x := s.disk.recs[k];
    assert RecoveryInv(s.certs, s.disk, x);
    if x.source == Some(true) {
      path, course := ReplacesHome(t, k, x.record.value);
    } else {
      assert x.source.Some? && x.source.value == false;
      path, course := RestoresHome(t, k);
    }
  }

  // Once it is home, either the record is gone already or the deletion drops it after all.
  lemma HomeBreaks(t: State, u: State, op: Id) returns (path: seq<State>, course: seq<Event>)
    requires AnyInv(u) && Sound(t.certs, t.disk.files) && BroughtHome(t, u, op)
    requires t.disk.files.target[op] in t.certs ==>
               op in t.disk.dels && t.disk.dels[op] == Deletion(t.disk.files.target[op], InStaging)
    ensures PatientCourse(u, path, course) && !Tidy(path[|course|])
  {
    if t.disk.files.target[op] !in t.certs {
      BroughtHomeRemains(t, u, op);
      path, course := [u], [];
    } else {
      path, course := HomeTooEarly(t, u, op);
    }
  }

  lemma HastyMeans(s: State, k: nat, t: State)
    requires DiskInv(s.certs, s.disk) && Next(s, OfDisk(OfRecover(LookStaged(k))), t)
    requires HastyLook(s.certs, s.disk, OfRecover(LookStaged(k)))
    requires !CarelessLook(s.certs, s.disk, OfRecover(LookStaged(k)))
    ensures Sound(t.certs, t.disk.files) && s.disk.recs[k].op in t.disk.files.target
    ensures var op := s.disk.recs[k].op;
            t.disk.files.target[op] in t.certs ==>
              op in t.disk.dels && t.disk.dels[op] == Deletion(t.disk.files.target[op], InStaging)
  {
    var op := s.disk.recs[k].op;
    assert op in s.disk.dels ==> DeletionInv(s.certs, s.disk.files, op, s.disk.dels[op]);
  }

  lemma JoinedBreaks(t: State, path: seq<State>, course: seq<Event>, more: seq<State>, after: seq<Event>)
    requires PatientCourse(t, path, course) && PatientCourse(path[|course|], more, after) && !Tidy(more[|after|])
    ensures !StaysClean(t)
  {
    PatientJoined(t, path, course, more, after);
  }

  lemma ComingHomeBreaks(t: State, path: seq<State>, course: seq<Event>, op: Id)
    requires AnyInv(t) && Sound(t.certs, t.disk.files)
    requires PatientCourse(t, path, course) && BroughtHome(t, path[|course|], op)
    requires t.disk.files.target[op] in t.certs ==>
               op in t.disk.dels && t.disk.dels[op] == Deletion(t.disk.files.target[op], InStaging)
    ensures !StaysClean(t)
  {
    CourseKeepsAnyInv(t, path, course, |course|);
    var more, after := HomeBreaks(t, path[|course|], op);
    JoinedBreaks(t, path, course, more, after);
  }

  lemma HastyLookBreaks(s: State, k: nat, t: State)
    requires AnyInv(t) && DiskInv(s.certs, s.disk) && Next(s, OfDisk(OfRecover(LookStaged(k))), t)
    requires HastyLook(s.certs, s.disk, OfRecover(LookStaged(k)))
    requires !CarelessLook(s.certs, s.disk, OfRecover(LookStaged(k)))
    ensures !StaysClean(t)
  {
    HastyMeans(s, k, t);
    var path, course := HastyComesHome(s, k, t);
    ComingHomeBreaks(t, path, course, s.disk.recs[k].op);
  }

  /**
   * A look is patient exactly when no continuation with patient looks and true answers loses bytes or
   * leaves a directory behind: what a recovery does to a deletion is decided when it looks.
   */
  lemma CleanEndsNeedPatience(states: seq<State>, events: seq<Event>, i: nat)
    requires Run(states, events) && i < |events| && PatientUntil(states, events, i)
    ensures PatientAt(states[i], events[i]) <==> StaysClean(states[i + 1])
  {
    ReachablePatient(states, events, i);
    PatientRunIsOrderly(states, events, i);
    assert StepAt(states, events, i);
    var s, e, t := states[i], events[i], states[i + 1];
    if PatientAt(s, e) {
      NextKeepsPatience(s, e, t);
      NextLeavesNothing(s, e, t);
      forall path: seq<State>, course: seq<Event> | PatientCourse(t, path, course) ensures Tidy(path[|course|]) {
        CleanAlong(t, path, course, |course|);
      }
    } else if CarefulAt(s, e) {
      ReachableAnyInv(states, events, i + 1);
      HastyLookBreaks(s, e.d.r.k, t);
    } else {
      CarelessLookBreaks(s, e, t);
    }
  }

  /** A run that ends in a hasty look: the directory is staged for a deletion that has yet to drop its record. */
  lemma HastyLookHappens(os: set<Fingerprint>, id: Id, x: Fingerprint, op: Id, now: Time)
    returns (states: seq<State>, events: seq<Event>)
    requires op != ""
    ensures Run(states, events) && events != [] && PatientUntil(states, events, |events| - 1)
    ensures OrderlyUntil(states, events, |events|) && !StaysClean(states[|events|])
  {
    var path, course := CanStage(os, id, x, op, now);
    var s, e := path[|course|], OfDisk(OfRecover(LookStaged(0)));
    var t := s.(disk := SeenStaged(id, x, op));
    assert DiskNext(s.certs, s.disk, OfRecover(LookStaged(0)), t.certs, t.disk);
    OrderlyExtended(Empty(os), path, course, e, t);
    CourseRuns(os, path, course, e, t);
    states, events := path + [t], course + [e];
    forall k: nat | k < |course| ensures PatientAt(states[k], events[k]) && OrderlyAt(states[k], events[k]) {
      assert PatientAt(path[k], course[k]) && OrderlyAt(path[k], course[k]);
    }
    assert states[|course|] == s && OrderlyAt(s, e);
    assert HastyLook(s.certs, s.disk, OfRecover(LookStaged(0)));
    CleanEndsNeedPatience(states, events, |course|);
  }
}
