/** The guarantees of the container lifecycle, for every run of LaunchProtocol. */
module LaunchTheorems {
  import opened Prelude
  import opened Records
  import opened LaunchSpec
  import opened LaunchRules
  import opened LaunchProtocol
  import opened LaunchSafety

  // ---- committed processes ----

  /** In every run the record of a live committed process is Running with its PID, and every record has its shape. */
  lemma CommittedProcessIsRecorded(states: seq<State>, events: seq<Event>, i: nat)
    requires Run(states, events) && i < |states|
    ensures CommittedRecorded(states[i])
    ensures forall id :: id in states[i].records ==> Shape(states[i].records[id])
  {
    ReachableInv(states, events, i);
  }

  /** At most one committed process is live per container, expired and retaken reservations included. */
  lemma OneCommittedProcessPerContainer(states: seq<State>, events: seq<Event>, i: nat, p: Handle, q: Handle)
    requires Run(states, events) && i < |states|
    requires p in states[i].procs && states[i].procs[p].alive && states[i].procs[p].committed
    requires q in states[i].procs && states[i].procs[q].alive && states[i].procs[q].committed
    requires states[i].procs[p].container == states[i].procs[q].container
    ensures p == q
  {
    ReachableInv(states, events, i);
  }

  /**
   * What the distinct-PID assumption is for: a watcher still on its way stops the record of
   * a live committed process exactly when that process was given the watched process's PID.
   */
  lemma LateWatcherNeedsDistinctPids(s: State, p: Handle, now: Time, t: State, q: Handle)
    requires WatcherNext(s, p, now, t) && CommittedRecorded(s)
    requires q in s.procs && q != p && s.procs[q].alive && s.procs[q].committed
    requires s.procs[q].container == s.procs[p].container
    requires forall r :: r in s.procs && r != q && s.procs[r].alive ==> s.procs[r].container != s.procs[q].container
    ensures CommittedRecorded(t) <==> s.procs[q].pid != s.procs[p].pid
  {
    assert t.procs[q] == s.procs[q];
  }

  // ---- reservation tokens ----

  predicate SameReservation(c: Container, d: Container) {
    c.state == d.state && c.launchToken == d.launchToken && c.launchReservedAt == d.launchReservedAt && c.pid == d.pid
  }

  // No record is new, and none is reserved that was not reserved so before.
  ghost predicate ReservesNothing(m: ContainerMap, n: ContainerMap) {
    && n.Keys <= m.Keys
    && forall id :: id in n && n[id].state == Launching ==> SameReservation(m[id], n[id])
  }

  // Records whose reservation has not run out keep it.
  ghost predicate KeepsReserved(m: ContainerMap, n: ContainerMap, clock: Time) {
    forall id :: id in m && m[id].state == Launching && !Expired(m[id], clock) ==>
      id in n && SameReservation(m[id], n[id])
  }

  lemma ReconcileReservations(m: ContainerMap, owned: map<Id, int>, probes: map<Id, Probe>, now: Time, clock: Time)
    requires now <= clock
    ensures var r := Reconcile(m, owned, probes, now);
            r.Ok? ==> ReservesNothing(m, r.value) && KeepsReserved(m, r.value, clock)
  {
  }

  lemma DeleteReservations(m: ContainerMap, id: Id, owned: map<Id, int>, probe: Probe, removed: bool, clock: Time)
    ensures var r := Delete(m, id, owned, probe, removed);
            r.Ok? ==> ReservesNothing(m, r.value) && KeepsReserved(m, r.value, clock)
  {
  }

  lemma DeleteTemporaryReservations(m: ContainerMap, id: Id, probe: Probe, removed: bool, clock: Time)
    ensures var r := DeleteTemporary(m, id, probe, removed);
            r.Ok? ==> ReservesNothing(m, r.value.records) && KeepsReserved(m, r.value.records, clock)
  {
  }

  lemma WatchedReservations(m: ContainerMap, id: Id, pid: int, now: Time, clock: Time)
    ensures ReservesNothing(m, Watched(m, id, pid, now)) && KeepsReserved(m, Watched(m, id, pid, now), clock)
  {
  }

  predicate Moved(s: State, t: State, id: Id)
    requires id in s.records
  {
    id !in t.records || !SameReservation(s.records[id], t.records[id])
  }

  // Where the reservations, the records and the launches after a step come from.
  ghost predicate Effect(s: State, t: State) {
    && s.spent <= t.spent
    && (forall id :: id in t.records && id !in s.records ==> id !in s.spent)
    && (forall id :: id in t.records && t.records[id].state == Launching ==>
          || (id in s.records && SameReservation(s.records[id], t.records[id]))
          || t.records[id].launchToken !in s.spent)
    && (forall k :: k in s.launches ==>
          && k in t.launches && t.launches[k].container == s.launches[k].container
          && (t.launches[k].phase.Committed? && !s.launches[k].phase.Committed? ==>
                s.launches[k].container in s.records))
  }

  lemma LaunchStepMoves(s: State, e: LaunchEvent, t: State, id: Id)
    requires Inv(s) && LaunchNext(s, e, t) && id in s.records && s.records[id].state == Launching && Moved(s, t, id)
    ensures || ((e.CommitStep? || e.ReleaseStep?) && e.token == s.records[id].launchToken)
            || (e.ReserveStep? && Expired(s.records[id], s.clock))
  {
  }

  lemma ReserveEffect(s: State, id: Id, policy: LaunchPolicy, token: Id, now: Time, environment: Option<ErrorCode>,
                      t: State)
    requires RecordsInv(s) && s.launches.Keys <= s.spent
    requires ReserveNext(s, id, policy, token, now, environment, t)
    ensures Effect(s, t)
  {
  }

  lemma CommitEffect(s: State, token: Id, now: Time, t: State)
    requires CommitNext(s, token, now, t)
    ensures Effect(s, t)
  {
  }

  lemma ReleaseEffect(s: State, token: Id, now: Time, t: State)
    requires ReleaseNext(s, token, now, t)
    ensures Effect(s, t)
  {
  }

  // The launch moves on, short of committing, and nothing is written.
  lemma PhaseEffect(s: State, t: State, token: Id, phase: Phase)
    requires token in s.launches && !phase.Committed?
    requires t.records == s.records && t.spent == s.spent
    requires t.launches == s.launches[token := s.launches[token].(phase := phase)]
    ensures Effect(s, t)
  {
  }

  lemma LaunchStepEffect(s: State, e: LaunchEvent, t: State)
    requires RecordsInv(s) && s.launches.Keys <= s.spent && LaunchNext(s, e, t)
    ensures Effect(s, t)
  {
    match e
    case ReserveStep(id, policy, token, now, environment) => ReserveEffect(s, id, policy, token, now, environment, t);
    case CommitStep(token, now) => CommitEffect(s, token, now, t);
    case ReleaseStep(token, now) => ReleaseEffect(s, token, now, t);
    case _ => PhaseEffect(s, t, e.token, t.launches[e.token].phase);
  }

  lemma RecordStepEffect(s: State, e: RecordEvent, t: State)
    requires RecordsInv(s) && RecordNext(s, e, t)
    ensures Effect(s, t) && KeepsReserved(s.records, t.records, s.clock)
  {
    match e
    case ReconcileStep(now) =>
      ReconcileReservations(s.records, OwnedPids(s, s.lock.value.host), s.lock.value.probes, now, s.clock);
    case DeleteStep(id) =>
      DeleteReservations(s.records, id, OwnedPids(s, s.lock.value.host), ProbeOf(s.lock.value.probes, id),
                         WipedIn(s.lock.value, id), s.clock);
    case DeleteTemporaryStep(id) =>
      DeleteTemporaryReservations(s.records, id, ProbeOf(s.lock.value.probes, id), WipedIn(s.lock.value, id), s.clock);
    case _ =>
  }

  lemma ProcessStepEffect(s: State, e: ProcessEvent, t: State)
    requires RecordsInv(s) && ProcessNext(s, e, t)
    ensures Effect(s, t) && KeepsReserved(s.records, t.records, s.clock)
  {
    if e.WatcherStep? {
      WatchedReservations(s.records, s.procs[e.p].container, s.procs[e.p].pid, e.now, s.clock);
    }
  }

  lemma WipeWritesNothing(s: State, id: Id, temporary: bool, done: bool, t: State)
    requires WipeNext(s, id, temporary, done, t)
    ensures t.records == s.records && t.launches == s.launches && t.spent == s.spent
  {
  }

  lemma WipeAllowedMeans(c: Container, owned: map<Id, int>, probe: Probe, temporary: bool)
    requires WipeAllowed(c, owned, probe, temporary)
    ensures c.state != Launching && probe == Free
  {
  }

  // What a wipe has checked.
  lemma WipeChecks(s: State, id: Id, temporary: bool, done: bool, t: State)
    requires WipeNext(s, id, temporary, done, t)
    ensures s.lock.Some? && id in s.records
    ensures s.records[id].state != Launching && ProbeOf(s.lock.value.probes, id) == Free
  {
    WipeAllowedMeans(s.records[id], OwnedPids(s, s.lock.value.host), ProbeOf(s.lock.value.probes, id), temporary);
  }

  lemma UnwrittenEffect(s: State, t: State)
    requires t.records == s.records && t.launches == s.launches && s.spent <= t.spent
    ensures Effect(s, t)
  {
  }

  lemma LockStepEffect(s: State, e: LockEvent, t: State)
    requires LockNext(s, e, t)
    ensures Effect(s, t)
  {
    if e.Wipe? {
      WipeWritesNothing(s, e.id, e.temporary, e.done, t);
    }
    UnwrittenEffect(s, t);
  }

  lemma StepEffect(s: State, e: Event, t: State)
    requires Inv(s) && Next(s, e, t)
    ensures Effect(s, t)
  {
    match e
    case OfLock(l) => LockStepEffect(s, l, t);
    case OfLaunch(l) => LaunchStepEffect(s, l, t);
    case OfProcess(p) => ProcessStepEffect(s, p, t);
    case OfRecord(r) => RecordStepEffect(s, r, t);
  }

  lemma RunEffect(states: seq<State>, events: seq<Event>, i: nat)
    requires Run(states, events) && i < |events|
    ensures Inv(states[i]) && Effect(states[i], states[i + 1])
  {
    ReachableInv(states, events, i);
    assert StepAt(states, events, i);
    StepEffect(states[i], events[i], states[i + 1]);
  }

  /**
   * A reserved record moves only by its own launch's commit or release, or after the TTL;
   * until then no other launch and no other host touches the reservation.
   */
  lemma ReservationMovedByIssuerOrExpiry(s: State, e: Event, t: State, id: Id)
    requires Inv(s) && Next(s, e, t) && id in s.records && s.records[id].state == Launching && Moved(s, t, id)
    ensures s.records[id].launchReservedAt.Some?
    ensures || (e.OfLaunch? && (e.launch.CommitStep? || e.launch.ReleaseStep?)
                && e.launch.token == s.records[id].launchToken)
            || s.clock - s.records[id].launchReservedAt.value > LAUNCH_RESERVATION_TTL
  {
    match e
    case OfLaunch(l) => LaunchStepMoves(s, l, t, id);
    case OfRecord(r) => RecordStepEffect(s, r, t);
    case OfProcess(p) => ProcessStepEffect(s, p, t);
    case OfLock(_) =>
  }

  /** A launch whose reservation was taken over changes no stored record by its commit or release. */
  lemma StaleHolderChangesNothing(s: State, e: LaunchEvent, t: State)
    requires Inv(s) && LaunchNext(s, e, t) && (e.CommitStep? || e.ReleaseStep?)
    requires !Holds(s, e.token)
    ensures t.records == s.records
    ensures e.CommitStep? ==> t.launches[e.token].phase == Failing(s.launches[e.token].phase.p, false)
  {
    var id := s.launches[e.token].container;
    assert !ReservedBy(s.records, id, e.token);
  }

  /** A token that left the records, or was never in them, does not come back. */
  lemma RetiredTokenStaysRetired(s: State, t: State, token: Id)
    requires Effect(s, t) && token in s.spent && !Holds(s, token)
    ensures token in t.spent && !Holds(t, token)
  {
    forall id ensures !ReservedBy(t.records, id, token) {
      assert !ReservedBy(s.records, id, token);
    }
  }

  lemma {:induction false} RetiredTokenNeverReturns(states: seq<State>, events: seq<Event>, i: nat, j: nat, token: Id)
    requires Run(states, events) && i <= j < |states|
    requires token in states[i].spent && !Holds(states[i], token)
    ensures token in states[j].spent && !Holds(states[j], token)
  {
    if i < j {
      RetiredTokenNeverReturns(states, events, i, j - 1, token);
      RunEffect(states, events, j - 1);
      RetiredTokenStaysRetired(states[j - 1], states[j], token);
    }
  }

  ghost predicate Retires(s: State, t: State, token: Id) {
    Holds(s, token) && !Holds(t, token)
  }

  /** Every reservation is used up at most once in a run: one commit, one release, or one expiry. */
  lemma TokenRetiredOnce(states: seq<State>, events: seq<Event>, i: nat, j: nat, token: Id)
    requires Run(states, events) && i < j < |events|
    requires Retires(states[i], states[i + 1], token)
    ensures !Retires(states[j], states[j + 1], token)
  {
    RunEffect(states, events, i);
    RetiredTokenNeverReturns(states, events, i + 1, j, token);
  }

  // ---- failing and removing ----

  /**
   * A launch that reported an error has no live process; and unless one of its own writes
   * failed, no record is reserved for it.
   */
  lemma FailedLaunchLeavesNothing(states: seq<State>, events: seq<Event>, i: nat, token: Id)
    requires Run(states, events) && i < |states|
    requires token in states[i].launches && states[i].launches[token].phase.Failed?
    ensures forall p :: p in states[i].procs && states[i].procs[p].token == token ==> !states[i].procs[p].alive
    ensures !states[i].launches[token].phase.faulted ==> !Holds(states[i], token)
  {
    ReachableInv(states, events, i);
  }

  // The container of this launch is gone, and the launch has not committed.
  predicate Outlived(s: State, token: Id) {
    && token in s.launches && !s.launches[token].phase.Committed?
    && s.launches[token].container in s.spent && s.launches[token].container !in s.records
  }

  lemma OutlivedStays(s: State, t: State, token: Id)
    requires Effect(s, t) && Outlived(s, token)
    ensures Outlived(t, token)
  {
  }

  /** A launch that outlives the deletion of its container never commits. */
  lemma {:induction false} DeletedContainerNeverCommits(states: seq<State>, events: seq<Event>, i: nat, j: nat,
                                                        token: Id)
    requires Run(states, events) && i <= j < |states|
    requires token in states[i].launches && !states[i].launches[token].phase.Committed?
    requires states[i].launches[token].container !in states[i].records
    ensures Outlived(states[j], token)
  {
    if i == j {
      ReachableInv(states, events, i);
    } else {
      DeletedContainerNeverCommits(states, events, i, j - 1, token);
      RunEffect(states, events, j - 1);
      OutlivedStays(states[j - 1], states[j], token);
    }
  }

  /**
   * When a profile directory is removed, its record is not Launching and no committed process
   * is live on it. Any process that is live on it belongs to a launch that has already lost
   * its reservation, so it can only be terminated.
   */
  lemma RemovalHitsNoCommittedProcess(s: State, id: Id, temporary: bool, done: bool, t: State, p: Handle)
    requires Inv(s) && WipeNext(s, id, temporary, done, t)
    ensures s.records[id].state != Launching
    ensures LiveOn(s, p, id) ==> !s.procs[p].committed && !Holds(s, s.procs[p].token)
  {
    WipeChecks(s, id, temporary, done, t);
    if LiveOn(s, p, id) {
      LiveOnFreeIsLost(s, p, id);
    }
  }

  lemma LiveOnFreeIsLost(s: State, p: Handle, id: Id)
    requires RecordsInv(s) && ProcessesInv(s) && SessionInv(s) && LiveOn(s, p, id)
    requires s.lock.Some? && id in s.records && s.records[id].state != Launching
    requires ProbeOf(s.lock.value.probes, id) == Free
    ensures !s.procs[p].committed && !Holds(s, s.procs[p].token)
  {
    forall k | k in s.records && s.records[k].state == Launching ensures s.records[k].launchToken != s.procs[p].token {
    }
  }

  // This step starts this process on this container.
  predicate StartsOn(s: State, e: Event, p: Handle, id: Id) {
    && e.OfLaunch? && e.launch.StartProcess? && e.launch.p == p
    && e.launch.token in s.launches && s.launches[e.launch.token].container == id
  }

  // Nothing else comes to life.
  predicate NoneComesToLife(s: State, t: State) {
    forall p :: p in t.procs && t.procs[p].alive ==>
      p in s.procs && s.procs[p].alive && s.procs[p].container == t.procs[p].container
  }

  lemma LockStepStartsNothing(s: State, e: LockEvent, t: State)
    requires LockNext(s, e, t)
    ensures NoneComesToLife(s, t)
  {
    assert t.procs == s.procs;
  }

  lemma LaunchStepStartsNothing(s: State, e: LaunchEvent, t: State)
    requires LaunchNext(s, e, t) && !e.StartProcess?
    ensures NoneComesToLife(s, t)
  {
  }

  lemma ProcessStepStartsNothing(s: State, e: ProcessEvent, t: State)
    requires ProcessNext(s, e, t)
    ensures NoneComesToLife(s, t)
  {
  }

  lemma RecordStepStartsNothing(s: State, e: RecordEvent, t: State)
    requires RecordNext(s, e, t)
    ensures NoneComesToLife(s, t)
  {
    assert t.procs == s.procs;
  }

  lemma OnlyStartsBringToLife(s: State, e: Event, t: State, p: Handle, id: Id)
    requires Next(s, e, t) && LiveOn(t, p, id)
    ensures LiveOn(s, p, id) || StartsOn(s, e, p, id)
  {
    match e
    case OfLock(l) => LockStepStartsNothing(s, l, t);
    case OfLaunch(l) =>
      if !l.StartProcess? {
        LaunchStepStartsNothing(s, l, t);
      }
    case OfProcess(x) => ProcessStepStartsNothing(s, x, t);
    case OfRecord(r) => RecordStepStartsNothing(s, r, t);
  }

  // The process is not seen to exit between two points.
  ghost predicate StaysUp(events: seq<Event>, p: Handle, i: nat, j: nat) {
    forall k: nat :: i < k < j && k < |events| ==> events[k] != OfProcess(ProcessExit(p))
  }

  lemma LivesThroughLaunchStep(s: State, e: LaunchEvent, t: State, p: Handle, id: Id)
    requires LaunchNext(s, e, t) && LiveOn(s, p, id)
    ensures LiveOn(t, p, id)
  {
  }

  lemma LivesThroughProcessStep(s: State, e: ProcessEvent, t: State, p: Handle, id: Id)
    requires ProcessNext(s, e, t) && LiveOn(s, p, id) && e != ProcessExit(p)
    ensures LiveOn(t, p, id)
  {
  }

  lemma LivesOn(s: State, e: Event, t: State, p: Handle, id: Id)
    requires Next(s, e, t) && LiveOn(s, p, id) && e != OfProcess(ProcessExit(p))
    ensures LiveOn(t, p, id)
  {
    match e
    case OfLock(l) => assert t.procs == s.procs;
    case OfLaunch(l) => LivesThroughLaunchStep(s, l, t, p, id);
    case OfProcess(x) => LivesThroughProcessStep(s, x, t, p, id);
    case OfRecord(r) => assert t.procs == s.procs;
  }

  lemma {:induction false} StartedLives(states: seq<State>, events: seq<Event>, k: nat, j: nat, id: Id, p: Handle)
    requires Run(states, events) && k < j < |states|
    requires StartsOn(states[k], events[k], p, id) && StaysUp(events, p, k, j)
    ensures LiveOn(states[j], p, id)
    decreases j
  {
    assert StepAt(states, events, j - 1);
    if k < j - 1 {
      assert StaysUp(events, p, k, j - 1);
      StartedLives(states, events, k, j - 1, id, p);
      assert events[j - 1] != OfProcess(ProcessExit(p));
      LivesOn(states[j - 1], events[j - 1], states[j], p, id);
    }
  }

  lemma {:induction false} LiveWasStarted(states: seq<State>, events: seq<Event>, i: nat, j: nat, id: Id, p: Handle)
    returns (k: nat)
    requires Run(states, events) && i < j < |states|
    requires events[i] == OfLock(ProbeMarkers(id, Free)) && LiveOn(states[j], p, id)
    ensures i < k < j && StartsOn(states[k], events[k], p, id) && StaysUp(events, p, k, j)
    decreases j
  {
    assert StepAt(states, events, j - 1);
    OnlyStartsBringToLife(states[j - 1], events[j - 1], states[j], p, id);
    if LiveOn(states[j - 1], p, id) {
      assert j - 1 != i;
      k := LiveWasStarted(states, events, i, j - 1, id, p);
      assert events[j - 1] != OfProcess(ProcessExit(p));
    } else {
      k := j - 1;
    }
  }

  /**
   * After a look that found a profile free, a process is live on it exactly when a launch started it
   * since and it has not exited. Without such a start a removal meets no process at all.
   */
  lemma LiveExactlyIfStartedSince(states: seq<State>, events: seq<Event>, i: nat, j: nat, id: Id, p: Handle)
    requires Run(states, events) && i < j < |states| && events[i] == OfLock(ProbeMarkers(id, Free))
    ensures LiveOn(states[j], p, id) <==>
            exists k: nat :: i < k < j && StartsOn(states[k], events[k], p, id) && StaysUp(events, p, k, j)
  {
    if LiveOn(states[j], p, id) {
      var k := LiveWasStarted(states, events, i, j, id, p);
    }
    forall k: nat | i < k < j && StartsOn(states[k], events[k], p, id) && StaysUp(events, p, k, j)
      ensures LiveOn(states[j], p, id)
    {
      StartedLives(states, events, k, j, id, p);
    }
  }

  // ---- courses of events ----

  ghost predicate Course(path: seq<State>, events: seq<Event>) {
    |path| == |events| + 1 && forall i: nat :: i < |events| ==> Next(path[i], events[i], path[i + 1])
  }

  lemma Joined(path: seq<State>, events: seq<Event>, more: seq<State>, after: seq<Event>)
    requires Course(path, events) && Course(more, after) && more[0] == path[|events|]
    ensures Course(path + more[1..], events + after)
  {
    var all, course := path + more[1..], events + after;
    forall i: nat | i < |course| ensures Next(all[i], course[i], all[i + 1]) {
      if i >= |events| {
        assert all[i] == more[i - |events|] && all[i + 1] == more[i + 1 - |events|];
      }
    }
  }

  // Taking the lock, looking at the markers, reserving.
  function ReserveCourse(host: HostId, id: Id, policy: LaunchPolicy, token: Id, now: Time): seq<Event> {
    [OfLock(Lock(host)), OfLock(ProbeMarkers(id, Free)), OfLaunch(ReserveStep(id, policy, token, now, None))]
  }

  ghost predicate Reservable(s: State, id: Id, policy: LaunchPolicy, token: Id) {
    && s.records.Keys <= s.spent && s.lock == None
    && id in s.records && Shape(s.records[id]) && s.records[id].state == Stopped
    && Permitted(s.records[id], policy) && token !in s.spent && token != ""
    && forall q :: !LiveOn(s, q, id)
  }

  lemma CanReserve(s: State, host: HostId, id: Id, policy: LaunchPolicy, token: Id) returns (path: seq<State>)
    requires Reservable(s, id, policy, token)
    ensures Course(path, ReserveCourse(host, id, policy, token, s.clock)) && path[0] == s
    ensures var c := s.records[id];
            path[3] == s.(records := s.records[id := c.(state := Launching, running := false, pid := 0,
                                                       launchToken := token, launchReservedAt := Some(s.clock),
                                                       updatedAt := s.clock, pendingCleanup := false)],
                          spent := s.spent + {token}, launches := s.launches[token := Launch(host, id, Reserved)])
  {
    var a := s.(lock := Some(Session(host, map[], map[])));
    var b := a.(lock := Some(Session(host, map[id := Free], map[])));
    assert forall q :: LiveOn(a, q, id) ==> LiveOn(s, q, id);
    var r := Reserve(s.records, id, policy, token, s.clock, None, Free);
    path := [s, a, b, Written(b, r.value).(spent := s.spent + {token},
                                           launches := s.launches[token := Launch(host, id, Reserved)])];
  }

  // Starting the browser, registering it, and committing.
  function CommitCourse(host: HostId, token: Id, p: Handle, pid: int, now: Time): seq<Event> {
    [OfLaunch(StartProcess(token, p, pid)), OfLaunch(Register(token)), OfLock(Lock(host)), OfLaunch(CommitStep(token, now))]
  }

  ghost predicate FreshProcess(s: State, p: Handle, pid: int) {
    p !in s.procs && pid > 0 && forall q :: q in s.procs && HoldsPid(s.procs[q]) ==> s.procs[q].pid != pid
  }

  lemma CanCommit(c: State, host: HostId, id: Id, token: Id, p: Handle, pid: int) returns (path: seq<State>)
    requires token in c.launches && c.launches[token] == Launch(host, id, Reserved) && c.lock == None
    requires id in c.records && c.records[id].state == Launching && c.records[id].launchToken == token
    requires FreshProcess(c, p, pid)
    ensures Course(path, CommitCourse(host, token, p, pid, c.clock)) && path[0] == c
    ensures var g := path[4];
            && p in g.procs && g.procs[p].alive && g.procs[p].committed && g.procs[p].container == id
            && id in g.records && g.records[id].state == Running && g.records[id].pid == pid
  {
    var d := WithPhase(c, token, Started(p)).(procs := c.procs[p := Process(host, id, token, pid, true, false, InLaunch)]);
    var e := WithPhase(d, token, Registered(p)).(owned := d.owned[host := OwnedBy(d, host)[id := p]]);
    var f := e.(lock := Some(Session(host, map[], map[])));
    var r := LaunchSpec.Commit(f.records, id, token, pid, c.clock);
    path := [c, d, e, f, Written(WithPhase(f, token, Committed(p)), r.value).(
                           procs := f.procs[p := f.procs[p].(committed := true, stage := Watching)])];
  }

  /** Whenever the records are in shape, a stopped container whose profile is free can be launched and committed. */
  lemma StoppedContainerCanLaunch(s: State, host: HostId, id: Id, policy: LaunchPolicy, token: Id, p: Handle, pid: int)
    returns (path: seq<State>)
    requires Reservable(s, id, policy, token) && FreshProcess(s, p, pid)
    ensures Course(path, ReserveCourse(host, id, policy, token, s.clock) + CommitCourse(host, token, p, pid, s.clock))
    ensures path[0] == s
    ensures var t := path[7];
            && p in t.procs && t.procs[p].alive && t.procs[p].committed && t.procs[p].container == id
            && id in t.records && t.records[id].state == Running && t.records[id].pid == pid
  {
    var reserve := CanReserve(s, host, id, policy, token);
    var commit := CanCommit(reserve[3], host, id, token, p, pid);
    Joined(reserve, ReserveCourse(host, id, policy, token, s.clock),
           commit, CommitCourse(host, token, p, pid, s.clock));
    path := reserve + commit[1..];
  }

  // ---- a record whose owner is gone ----

  // The owner dies, its browser ends, and another host looks at all markers and reconciles.
  ghost predicate OrphanCourse(events: seq<Event>, owner: HostId, p: Handle, other: HostId, id: Id, now: Time) {
    && |events| >= 5 && events[0] == OfProcess(Crash(owner)) && events[1] == OfProcess(ProcessExit(p))
    && events[2] == OfLock(Lock(other)) && events[|events| - 1] == OfRecord(ReconcileStep(now))
    && forall i :: 3 <= i < |events| - 1 ==> events[i].OfLock? && events[i].lock.ProbeMarkers?
  }

  // The markers of these containers are found in use; that can always be the answer.
  lemma {:induction false} CanProbe(s: State, rest: set<Id>) returns (path: seq<State>, events: seq<Event>)
    requires s.lock.Some?
    ensures Course(path, events) && path[0] == s
    ensures forall e :: e in events ==> e.OfLock? && e.lock.ProbeMarkers?
    ensures path[|events|].lock.Some?
    ensures path[|events|] == s.(lock := Some(s.lock.value.(probes := path[|events|].lock.value.probes)))
    ensures var before, after := s.lock.value.probes, path[|events|].lock.value.probes;
            forall k :: if k in rest then k in after && after[k] == InUse
                        else (k in after <==> k in before) && (k in after ==> after[k] == before[k])
    decreases |rest|
  {
    if rest == {} {
      path, events := [s], [];
    } else {
      var id :| id in rest;
      path, events := CanProbe(s, rest - {id});
      var t := path[|events|];
      var u := t.(lock := Some(t.lock.value.(probes := t.lock.value.probes[id := InUse])));
      assert Next(t, OfLock(ProbeMarkers(id, InUse)), u);
      path, events := path + [u], events + [OfLock(ProbeMarkers(id, InUse))];
    }
  }

  lemma ReconcilesOrphan(m: ContainerMap, id: Id, owned: map<Id, int>, probes: map<Id, Probe>, now: Time)
    requires id in m && m[id].id == id && m[id].state == Running && id !in owned
    requires forall k :: k in m ==> k in probes && probes[k] == if k == id then Free else InUse
    ensures Reconcile(m, owned, probes, now).Ok?
    ensures var n := Reconcile(m, owned, probes, now).value; id in n && n == m[id := n[id]] && PutToRest(m[id], n[id], now)
  {
    ReconcilesExactly(m, owned, probes, now);
    var n := Reconcile(m, owned, probes, now).value;
    assert ReconciledTo(m[id], n[id], owned, ProbeOf(probes, id), now);
    assert forall k :: k in m && k != id ==> ReconciledTo(m[k], n[k], owned, ProbeOf(probes, k), now);
    assert n == m[id := n[id]];
  }

  // The owner dies and then its browser.
  lemma OwnerGone(s: State, owner: HostId, p: Handle, other: HostId, id: Id) returns (a: State, b: State)
    requires s.lock == None && owner != other && p in s.procs && id !in OwnedBy(s, other)
    requires forall q :: LiveOn(s, q, id) ==> q == p
    ensures ProcessNext(s, Crash(owner), a) && ProcessNext(a, ProcessExit(p), b)
    ensures b.records == s.records && b.clock == s.clock && b.lock == None
    ensures id !in OwnedBy(b, other) && forall q :: !LiveOn(b, q, id)
  {
    a := AfterCrash(s, owner);
    b := a.(procs := a.procs[p := a.procs[p].(alive := false)]);
    forall q ensures !LiveOn(b, q, id) {
      assert LiveOn(b, q, id) ==> LiveOn(s, q, id);
    }
  }

  // Another host takes the lock and finds the profile free.
  lemma CanFindFree(b: State, other: HostId, id: Id) returns (c: State, d: State)
    requires b.lock == None && forall q :: !LiveOn(b, q, id)
    ensures LockNext(b, Lock(other), c) && LockNext(c, ProbeMarkers(id, Free), d)
    ensures d == b.(lock := Some(Session(other, map[id := Free], map[])))
  {
    c := b.(lock := Some(Session(other, map[], map[])));
    d := b.(lock := Some(Session(other, map[id := Free], map[])));
    assert forall q :: LiveOn(c, q, id) ==> LiveOn(b, q, id);
    assert map[][id := Free] == map[id := Free];
  }

  lemma CanCrash(s: State, owner: HostId, p: Handle, other: HostId, id: Id) returns (path: seq<State>)
    requires s.lock == None && owner != other && p in s.procs && id !in OwnedBy(s, other)
    requires forall q :: LiveOn(s, q, id) ==> q == p
    ensures Course(path, CrashCourse(owner, p, other, id)) && path[0] == s
    ensures path[4].records == s.records && path[4].clock == s.clock
    ensures path[4].lock == Some(Session(other, map[id := Free], map[])) && id !in OwnedBy(path[4], other)
  {
    var a, b := OwnerGone(s, owner, p, other, id);
    var c, d := CanFindFree(b, other, id);
    path := [s, a, b, c, d];
  }

  function CrashCourse(owner: HostId, p: Handle, other: HostId, id: Id): seq<Event> {
    [OfProcess(Crash(owner)), OfProcess(ProcessExit(p)), OfLock(Lock(other)), OfLock(ProbeMarkers(id, Free))]
  }

  // All markers are looked at, and the transaction ends.
  lemma CanReconcile(d: State, other: HostId, id: Id) returns (path: seq<State>, events: seq<Event>)
    requires d.lock == Some(Session(other, map[id := Free], map[])) && id !in OwnedBy(d, other)
    requires id in d.records && d.records[id].id == id && d.records[id].state == Running
    ensures Course(path, events) && path[0] == d && events != []
    ensures events[|events| - 1] == OfRecord(ReconcileStep(d.clock))
    ensures forall i :: 0 <= i < |events| - 1 ==> events[i].OfLock? && events[i].lock.ProbeMarkers?
    ensures var n := path[|events|].records;
            id in n && n == d.records[id := n[id]] && PutToRest(d.records[id], n[id], d.clock)
  {
    var probing;
    path, probing := CanProbe(d, d.records.Keys - {id});
    var t := path[|probing|];
    var r := Reconcile(t.records, OwnedPids(t, other), t.lock.value.probes, t.clock);
    ReconcilesOrphan(t.records, id, OwnedPids(t, other), t.lock.value.probes, t.clock);
    var u := Written(t, r.value);
    assert Next(t, OfRecord(ReconcileStep(t.clock)), u);
    path, events := path + [u], probing + [OfRecord(ReconcileStep(t.clock))];
    forall i: nat | i < |probing| ensures events[i].OfLock? && events[i].lock.ProbeMarkers? {
      assert events[i] == probing[i] && probing[i] in probing;
    }
  }

  lemma OrphanEvents(owner: HostId, p: Handle, other: HostId, id: Id, after: seq<Event>, now: Time)
    requires after != [] && after[|after| - 1] == OfRecord(ReconcileStep(now))
    requires forall i :: 0 <= i < |after| - 1 ==> after[i].OfLock? && after[i].lock.ProbeMarkers?
    ensures OrphanCourse(CrashCourse(owner, p, other, id) + after, owner, p, other, id, now)
  {
    var events := CrashCourse(owner, p, other, id) + after;
    forall i | 3 <= i < |events| - 1 ensures events[i].OfLock? && events[i].lock.ProbeMarkers? {
      assert i >= 4 ==> events[i] == after[i - 4];
    }
  }

  /**
   * A running record is not stranded by the end of its host: when the host has crashed and the browser
   * has ended, another host that reconciles brings the record to rest and leaves the others alone.
   */
  lemma OrphanIsReconciled(s: State, owner: HostId, p: Handle, other: HostId, id: Id)
    returns (path: seq<State>, events: seq<Event>)
    requires s.lock == None && owner != other && p in s.procs && id !in OwnedBy(s, other)
    requires id in s.records && s.records[id].id == id && s.records[id].state == Running
    requires forall q :: LiveOn(s, q, id) ==> q == p
    ensures Course(path, events) && path[0] == s && OrphanCourse(events, owner, p, other, id, s.clock)
    ensures var n := path[|events|].records;
            id in n && n == s.records[id := n[id]] && PutToRest(s.records[id], n[id], s.clock)
  {
    var crash := CanCrash(s, owner, p, other, id);
    var more, after := CanReconcile(crash[4], other, id);
    Joined(crash, CrashCourse(owner, p, other, id), more, after);
    OrphanEvents(owner, p, other, id, after, s.clock);
    path, events := crash + more[1..], CrashCourse(owner, p, other, id) + after;
    assert path[|events|] == more[|after|];
  }

  // ---- a removal that meets a live process ----

  // The reservation runs out, and another host's reconciliation takes it away.
  function ExpireCourse(other: HostId, id: Id, now: Time): seq<Event> {
    [OfLock(Tick(now)), OfLock(Lock(other)), OfLock(ProbeMarkers(id, Free)), OfRecord(ReconcileStep(now))]
  }

  lemma ReconcilesExpired(c: Container, now: Time)
    requires c.state == Launching && Expired(c, now)
    ensures Reconcile(map[c.id := c], map[], map[c.id := Free], now) == Ok(map[c.id := SetStopped(c, now)])
  {
    var r := Reconcile(map[c.id := c], map[], map[c.id := Free], now);
    assert r.Ok? && r.value == map[c.id := SetStopped(c, now)];
  }

  lemma CanExpire(s: State, other: HostId, id: Id, now: Time) returns (path: seq<State>)
    requires s.lock == None && s.procs == map[] && s.owned == map[] && s.clock <= now
    requires id in s.records && s.records == map[id := s.records[id]] && s.records[id].id == id
    requires s.records[id].state == Launching && Expired(s.records[id], now)
    ensures Course(path, ExpireCourse(other, id, now)) && path[0] == s
    ensures path[4] == s.(records := map[id := SetStopped(s.records[id], now)], clock := now)
  {
    var a := s.(clock := now);
    var b := a.(lock := Some(Session(other, map[], map[])));
    var c := b.(lock := Some(Session(other, map[id := Free], map[])));
    assert OwnedPids(c, other) == map[];
    ReconcilesExpired(s.records[id], now);
    path := [s, a, b, c, Written(c, map[id := SetStopped(s.records[id], now)])];
  }

  // A deletion looks at the markers, the launch starts its browser, and the directory goes.
  function RemoveCourse(other: HostId, id: Id, token: Id, p: Handle, pid: int): seq<Event> {
    [OfLock(Lock(other)), OfLock(ProbeMarkers(id, Free)), OfLaunch(StartProcess(token, p, pid)),
     OfLock(Wipe(id, false, true))]
  }

  lemma CanRemove(s: State, other: HostId, id: Id, token: Id, p: Handle, pid: int) returns (path: seq<State>)
    requires s.lock == None && id in s.records && s.records[id].state == Stopped && !s.records[id].running
    requires s.procs == map[] && s.owned == map[] && pid > 0
    requires token in s.launches && s.launches[token].phase == Reserved && s.launches[token].container == id
    ensures Course(path, RemoveCourse(other, id, token, p, pid)) && path[0] == s
    ensures LiveOn(path[3], p, id) && path[3].records == s.records
  {
    var l := s.launches[token];
    var a := s.(lock := Some(Session(other, map[], map[])));
    var b := a.(lock := Some(Session(other, map[id := Free], map[])));
    var c := WithPhase(b, token, Started(p)).(procs := map[p := Process(l.host, id, token, pid, true, false, InLaunch)]);
    path := [s, a, b, c, c.(lock := Some(c.lock.value.(wiped := map[id := true])))];
  }

  function LostCourse(host: HostId, other: HostId, id: Id, policy: LaunchPolicy, token: Id, p: Handle, pid: int,
                      start: Time, now: Time): seq<Event>
  {
    ReserveCourse(host, id, policy, token, start) + ExpireCourse(other, id, now) + RemoveCourse(other, id, token, p, pid)
  }

  /**
   * Markers are looked at before the directory is removed. For any stopped container there is a run
   * in which a launch reserves it, loses the reservation to another host, and starts its browser
   * between that host's look and its removal: the removal meets a live process.
   */
  lemma RemovalCanMeetLostProcess(c: Container, host: HostId, other: HostId, policy: LaunchPolicy, token: Id, p: Handle,
                                  pid: int, start: Time, now: Time) returns (states: seq<State>)
    requires Shape(c) && c.state == Stopped && Permitted(c, policy)
    requires token != "" && token != c.id && pid > 0 && now > start + LAUNCH_RESERVATION_TTL
    ensures Run(states, LostCourse(host, other, c.id, policy, token, p, pid, start, now))
    ensures LostCourse(host, other, c.id, policy, token, p, pid, start, now)[10] == OfLock(Wipe(c.id, false, true))
    ensures LiveOn(states[10], p, c.id)
  {
    var s := State(map[c.id := c], {c.id}, map[], map[], map[], None, start);
    var reserve := CanReserve(s, host, c.id, policy, token);
    var expire := CanExpire(reserve[3], other, c.id, now);
    var remove := CanRemove(expire[4], other, c.id, token, p, pid);
    var first, second := ReserveCourse(host, c.id, policy, token, start), ExpireCourse(other, c.id, now);
    Joined(reserve, first, expire, second);
    Joined(reserve + expire[1..], first + second, remove, RemoveCourse(other, c.id, token, p, pid));
    states := reserve + expire[1..] + remove[1..];
  }
}
