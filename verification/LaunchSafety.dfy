/** What every interleaving of LaunchProtocol keeps, and what holds over whole runs. */
module LaunchSafety {
  import opened Prelude
  import opened Records
  import opened LaunchSpec
  import opened LaunchProtocol

  /** Some stored record is reserved for this launch. */
  ghost predicate Holds(s: State, token: Id) {
    exists id :: ReservedBy(s.records, id, token)
  }

  ghost predicate RecordsInv(s: State) {
    && s.records.Keys <= s.spent
    && forall id :: id in s.records ==>
         && s.records[id].id == id && Shape(s.records[id])
         && (s.records[id].state == Launching ==>
               var token := s.records[id].launchToken;
               token in s.launches && s.launches[token].container == id && MayHold(s.launches[token].phase))
  }

  // A launch that committed, or failed without a write fault, has let its reservation go.
  predicate MayHold(phase: Phase) {
    match phase
    case Committed(_) => false
    case Failing(_, faulted) => faulted
    case Dying(_, faulted) => faulted
    case Failed(faulted) => faulted
    case _ => true
  }

  predicate HasProcess(phase: Phase) {
    phase.Started? || phase.Registered? || phase.Committed? || phase.Failing? || phase.Dying?
  }

  predicate Tracks(phase: Phase, p: Handle, x: Process) {
    match phase
    case Reserved => false
    case Started(q) => q == p && !x.committed && x.stage == InLaunch
    case Registered(q) => q == p && !x.committed && x.stage == InLaunch
    case Failing(q, _) => q == p && !x.committed && x.stage == InLaunch
    case Dying(q, _) => q == p && !x.committed && x.stage == InLaunch
    case Committed(q) => q == p && x.committed && x.stage != InLaunch && (x.stage == Waking ==> !x.alive)
    case Releasing => !x.committed && !x.alive && x.stage == Settled
    case Failed(_) => !x.committed && !x.alive && x.stage == Settled
    case Crashed => !x.committed && x.stage == Settled
  }

  ghost predicate ProcessesInv(s: State) {
    && s.launches.Keys <= s.spent
    && (forall k :: k in s.launches ==> s.launches[k].container in s.spent)
    && (forall k :: k in s.launches && HasProcess(s.launches[k].phase) ==>
          s.launches[k].phase.p in s.procs && s.procs[s.launches[k].phase.p].token == k)
    && forall p :: p in s.procs ==>
         var x := s.procs[p];
         && x.pid > 0 && x.token in s.launches
         && s.launches[x.token].container == x.container && s.launches[x.token].host == x.host
         && Tracks(s.launches[x.token].phase, p, x)
  }

  ghost predicate PidsInv(s: State) {
    forall p, q :: p in s.procs && q in s.procs && p != q && HoldsPid(s.procs[p]) && HoldsPid(s.procs[q])
      ==> s.procs[p].pid != s.procs[q].pid
  }

  /** A live process whose launch was committed has its record Running with its PID. */
  ghost predicate CommittedRecorded(s: State) {
    forall p :: p in s.procs && s.procs[p].alive && s.procs[p].committed ==>
      var x := s.procs[p];
      x.container in s.records && s.records[x.container].state == Running && s.records[x.container].pid == x.pid
  }

  // A marker look that found a profile free stays good against committed processes:
  // none can be committed while the lock is held.
  ghost predicate SessionInv(s: State) {
    s.lock.Some? ==>
      forall p :: p in s.procs && s.procs[p].alive && s.procs[p].committed
        ==> ProbeOf(s.lock.value.probes, s.procs[p].container) != Free
  }

  ghost predicate Inv(s: State) {
    RecordsInv(s) && ProcessesInv(s) && PidsInv(s) && CommittedRecorded(s) && SessionInv(s)
  }

  // No process appears, none changes its PID, and none starts to hold one.
  lemma PidsKept(s: State, t: State)
    requires PidsInv(s) && t.procs.Keys == s.procs.Keys
    requires forall p :: p in s.procs ==>
               t.procs[p].pid == s.procs[p].pid && (HoldsPid(t.procs[p]) ==> HoldsPid(s.procs[p]))
    ensures PidsInv(t)
  {
  }

  // The records stay, and so does every launch one of them is reserved for.
  lemma RecordsKept(s: State, t: State)
    requires RecordsInv(s) && t.records == s.records && s.spent <= t.spent
    requires forall id :: id in s.records && s.records[id].state == Launching ==>
               var k := s.records[id].launchToken;
               k in t.launches && t.launches[k].container == id && MayHold(t.launches[k].phase)
    ensures RecordsInv(t)
  {
  }

  // One record stops being reserved; reservations of other containers stay allowed.
  lemma RecordSettled(s: State, t: State, id: Id, c: Container)
    requires RecordsInv(s) && id in s.records && t.records == s.records[id := c] && s.spent == t.spent
    requires c.id == id && Shape(c) && c.state != Launching
    requires forall k :: k in s.launches && MayHold(s.launches[k].phase) && s.launches[k].container != id ==>
               k in t.launches && t.launches[k].container == s.launches[k].container && MayHold(t.launches[k].phase)
    ensures RecordsInv(t)
  {
  }

  // Every record is kept, settled, or dropped.
  lemma RecordsThinned(s: State, t: State)
    requires RecordsInv(s) && t.launches == s.launches && s.spent == t.spent
    requires t.records.Keys <= s.records.Keys
    requires forall id :: id in t.records ==>
               || t.records[id] == s.records[id]
               || (t.records[id].id == id && Shape(t.records[id]) && t.records[id].state != Launching)
    ensures RecordsInv(t)
  {
  }

  // No process becomes live and committed, and the file keeps every Running record.
  lemma CommittedKept(s: State, t: State)
    requires CommittedRecorded(s) && SessionInv(s)
    requires forall p :: p in t.procs && t.procs[p].alive && t.procs[p].committed ==>
               && p in s.procs && s.procs[p].alive && s.procs[p].committed
               && t.procs[p].container == s.procs[p].container && t.procs[p].pid == s.procs[p].pid
               && var id := s.procs[p].container;
               && (id in s.records && s.records[id].state == Running && s.records[id].pid == s.procs[p].pid ==>
                     id in t.records && t.records[id].state == Running && t.records[id].pid == s.procs[p].pid)
    requires t.lock == None || t.lock == s.lock
    ensures CommittedRecorded(t) && SessionInv(t)
  {
  }

  // The file was written; launches and processes stay as they are.
  lemma ProcessesKept(s: State, t: State)
    requires ProcessesInv(s) && PidsInv(s)
    requires t.procs == s.procs && t.launches == s.launches && s.spent <= t.spent
    ensures ProcessesInv(t) && PidsInv(t)
  {
  }

  // A launch moves on together with the one process it has.
  lemma LaunchMoved(s: State, t: State, k: Id, phase: Phase, x: Process)
    requires ProcessesInv(s) && k in s.launches && HasProcess(s.launches[k].phase)
    requires var p := s.launches[k].phase.p;
             && t.launches == s.launches[k := s.launches[k].(phase := phase)] && t.spent == s.spent
             && t.procs == s.procs[p := x]
             && x.pid == s.procs[p].pid && x.token == k
             && x.host == s.procs[p].host && x.container == s.procs[p].container
             && Tracks(phase, p, x)
    ensures ProcessesInv(t)
  {
  }

  // A process exits or its watcher moves on; its launch stays.
  lemma ProcessMoved(s: State, t: State, p: Handle, x: Process)
    requires ProcessesInv(s) && p in s.procs && t.procs == s.procs[p := x]
    requires t.launches == s.launches && t.spent == s.spent
    requires x.pid == s.procs[p].pid && x.token == s.procs[p].token
    requires x.host == s.procs[p].host && x.container == s.procs[p].container
    requires Tracks(s.launches[x.token].phase, p, x)
    ensures ProcessesInv(t)
  {
  }

  lemma ProbeMarkersKeepsInv(s: State, id: Id, answer: Probe, t: State)
    requires Inv(s) && ProbeMarkersNext(s, id, answer, t)
    ensures Inv(t)
  {
    assert forall p :: p in s.procs && s.procs[p].alive && s.procs[p].container == id ==> LiveOn(s, p, id);
  }

  lemma WipeKeepsInv(s: State, id: Id, temporary: bool, done: bool, t: State)
    requires Inv(s) && WipeNext(s, id, temporary, done, t)
    ensures Inv(t)
  {
  }

  lemma ReserveKeepsInv(s: State, id: Id, policy: LaunchPolicy, token: Id, now: Time, environment: Option<ErrorCode>,
                         t: State)
    requires Inv(s) && ReserveNext(s, id, policy, token, now, environment, t)
    ensures Inv(t)
  {
  }

  lemma StartProcessKeepsProcesses(s: State, token: Id, p: Handle, pid: int, t: State)
    requires ProcessesInv(s) && StartProcessNext(s, token, p, pid, t)
    ensures ProcessesInv(t)
  {
  }

  lemma StartProcessKeepsPids(s: State, token: Id, p: Handle, pid: int, t: State)
    requires PidsInv(s) && StartProcessNext(s, token, p, pid, t)
    ensures PidsInv(t)
  {
  }

  lemma StartProcessKeepsInv(s: State, token: Id, p: Handle, pid: int, t: State)
    requires Inv(s) && StartProcessNext(s, token, p, pid, t)
    ensures Inv(t)
  {
    StartProcessKeepsProcesses(s, token, p, pid, t);
    StartProcessKeepsPids(s, token, p, pid, t);
    RecordsKept(s, t);
    CommittedKept(s, t);
  }

  lemma AbandonKeepsProcesses(s: State, token: Id, t: State)
    requires ProcessesInv(s) && PidsInv(s) && AbandonNext(s, token, t)
    ensures ProcessesInv(t) && PidsInv(t)
  {
    if s.launches[token].phase.Started? {
      LaunchMoved(s, t, token, Releasing, t.procs[s.launches[token].phase.p]);
      PidsKept(s, t);
    }
  }

  lemma AbandonKeepsInv(s: State, token: Id, t: State)
    requires Inv(s) && AbandonNext(s, token, t)
    ensures Inv(t)
  {
    AbandonKeepsProcesses(s, token, t);
    RecordsKept(s, t);
    CommittedKept(s, t);
  }

  lemma RegisterKeepsInv(s: State, token: Id, t: State)
    requires Inv(s) && RegisterNext(s, token, t)
    ensures Inv(t)
  {
  }

  lemma CommitKeepsProcesses(s: State, token: Id, now: Time, t: State)
    requires ProcessesInv(s) && PidsInv(s) && CommitNext(s, token, now, t)
    ensures ProcessesInv(t) && PidsInv(t)
  {
    LaunchMoved(s, t, token, t.launches[token].phase, t.procs[s.launches[token].phase.p]);
    PidsKept(s, t);
  }

  lemma CommitKeepsRecords(s: State, token: Id, now: Time, t: State)
    requires RecordsInv(s) && ProcessesInv(s) && CommitNext(s, token, now, t)
    ensures RecordsInv(t)
  {
    var id := s.launches[token].container;
    if t.launches[token].phase.Committed? {
      RecordSettled(s, t, id, t.records[id]);
    } else {
      RecordsKept(s, t);
    }
  }

  lemma CommitKeepsInv(s: State, token: Id, now: Time, t: State)
    requires Inv(s) && CommitNext(s, token, now, t)
    ensures Inv(t)
  {
    CommitKeepsProcesses(s, token, now, t);
    CommitKeepsRecords(s, token, now, t);
  }

  lemma CommitFaultKeepsInv(s: State, token: Id, t: State)
    requires Inv(s) && CommitFaultNext(s, token, t)
    ensures Inv(t)
  {
  }

  lemma UnregisterKeepsInv(s: State, token: Id, t: State)
    requires Inv(s) && UnregisterNext(s, token, t)
    ensures Inv(t)
  {
  }

  lemma ReportFailureKeepsProcesses(s: State, token: Id, t: State)
    requires ProcessesInv(s) && PidsInv(s) && ReportFailureNext(s, token, t)
    ensures ProcessesInv(t) && PidsInv(t)
  {
    LaunchMoved(s, t, token, t.launches[token].phase, t.procs[s.launches[token].phase.p]);
    PidsKept(s, t);
  }

  lemma ReportFailureKeepsInv(s: State, token: Id, t: State)
    requires Inv(s) && ReportFailureNext(s, token, t)
    ensures Inv(t)
  {
    ReportFailureKeepsProcesses(s, token, t);
    RecordsKept(s, t);
    CommittedKept(s, t);
  }

  lemma ReleaseKeepsProcesses(s: State, token: Id, now: Time, t: State)
    requires ProcessesInv(s) && ReleaseNext(s, token, now, t)
    ensures ProcessesInv(t)
  {
  }

  lemma ReleaseKeepsRecords(s: State, token: Id, now: Time, t: State)
    requires RecordsInv(s) && ReleaseNext(s, token, now, t)
    ensures RecordsInv(t)
  {
  }

  lemma ReleaseKeepsInv(s: State, token: Id, now: Time, t: State)
    requires Inv(s) && ReleaseNext(s, token, now, t)
    ensures Inv(t)
  {
    ReleaseKeepsProcesses(s, token, now, t);
    ReleaseKeepsRecords(s, token, now, t);
    PidsKept(s, t);
    CommittedKept(s, t);
  }

  lemma ReleaseFaultKeepsInv(s: State, token: Id, t: State)
    requires Inv(s) && ReleaseFaultNext(s, token, t)
    ensures Inv(t)
  {
  }

  lemma ProcessExitKeepsProcesses(s: State, p: Handle, t: State)
    requires ProcessesInv(s) && PidsInv(s) && ProcessExitNext(s, p, t)
    ensures ProcessesInv(t) && PidsInv(t)
  {
    ProcessMoved(s, t, p, t.procs[p]);
    PidsKept(s, t);
  }

  lemma ProcessExitKeepsInv(s: State, p: Handle, t: State)
    requires Inv(s) && ProcessExitNext(s, p, t)
    ensures Inv(t)
  {
    ProcessExitKeepsProcesses(s, p, t);
    RecordsKept(s, t);
    CommittedKept(s, t);
  }

  lemma WatcherWakesKeepsInv(s: State, p: Handle, t: State)
    requires Inv(s) && WatcherWakesNext(s, p, t)
    ensures Inv(t)
  {
    ProcessMoved(s, t, p, t.procs[p]);
    PidsKept(s, t);
    RecordsKept(s, t);
    CommittedKept(s, t);
  }

  lemma WatcherKeepsCommitted(s: State, p: Handle, now: Time, t: State)
    requires Inv(s) && WatcherNext(s, p, now, t)
    ensures CommittedRecorded(t) && SessionInv(t)
  {
    forall q | q in t.procs && t.procs[q].alive && t.procs[q].committed
      ensures q != p && s.procs[q] == t.procs[q] && s.procs[q].pid != s.procs[p].pid
    {
      assert !s.procs[p].alive;
    }
    CommittedKept(s, t);
  }

  lemma WatcherKeepsInv(s: State, p: Handle, now: Time, t: State)
    requires Inv(s) && WatcherNext(s, p, now, t)
    ensures Inv(t)
  {
    // The PID in the record is this process's: no live process has it.
    WatcherKeepsCommitted(s, p, now, t);
    ProcessMoved(s, t, p, t.procs[p]);
    PidsKept(s, t);
    RecordsThinned(s, t);
  }

  lemma WatcherFaultKeepsInv(s: State, p: Handle, t: State)
    requires Inv(s) && WatcherFaultNext(s, p, t)
    ensures Inv(t)
  {
    ProcessMoved(s, t, p, t.procs[p]);
    PidsKept(s, t);
    RecordsKept(s, t);
    CommittedKept(s, t);
  }

  lemma ReconcileKeepsCommitted(s: State, now: Time, t: State)
    requires Inv(s) && ReconcileNext(s, now, t)
    ensures CommittedRecorded(t) && SessionInv(t)
  {
    forall p | p in s.procs && s.procs[p].alive && s.procs[p].committed
      ensures t.records[s.procs[p].container] == s.records[s.procs[p].container]
    {
      assert ProbeOf(s.lock.value.probes, s.procs[p].container) != Free;
    }
    CommittedKept(s, t);
  }

  lemma ReconcileKeepsRecords(s: State, now: Time, t: State)
    requires RecordsInv(s) && ReconcileNext(s, now, t)
    ensures RecordsInv(t)
  {
    RecordsThinned(s, t);
  }

  lemma ReconcileKeepsInv(s: State, now: Time, t: State)
    requires Inv(s) && ReconcileNext(s, now, t)
    ensures Inv(t)
  {
    ReconcileKeepsCommitted(s, now, t);
    ReconcileKeepsRecords(s, now, t);
    ProcessesKept(s, t);
  }

  lemma DeleteChecksMarkers(s: State, id: Id, t: State)
    requires DeleteNext(s, id, t)
    ensures s.lock.Some? && ProbeOf(s.lock.value.probes, id) == Free
  {
  }

  lemma DeleteWrites(s: State, id: Id, t: State)
    requires DeleteNext(s, id, t)
    ensures t == Written(s, s.records - {id})
  {
  }

  lemma DeleteKeepsCommitted(s: State, id: Id, t: State)
    requires CommittedRecorded(s) && SessionInv(s) && DeleteNext(s, id, t)
    ensures CommittedRecorded(t) && SessionInv(t)
  {
    DeleteChecksMarkers(s, id, t);
    DeleteWrites(s, id, t);
    CommittedKept(s, t);
  }

  lemma DeleteKeepsInv(s: State, id: Id, t: State)
    requires Inv(s) && DeleteNext(s, id, t)
    ensures Inv(t)
  {
    DeleteKeepsCommitted(s, id, t);
    ProcessesKept(s, t);
    RecordsThinned(s, t);
  }

  lemma DeleteTemporaryKeepsInv(s: State, id: Id, t: State)
    requires Inv(s) && DeleteTemporaryNext(s, id, t)
    ensures Inv(t)
  {
    ProcessesKept(s, t);
  }

  lemma CreateKeepsInv(s: State, id: Id, config: Config, temporary: bool, now: Time,
                        environment: Option<ErrorCode>, t: State)
    requires Inv(s) && CreateNext(s, id, config, temporary, now, environment, t)
    ensures Inv(t)
  {
  }

  lemma UpdateKeepsInv(s: State, id: Id, config: Config, expectedName: string, restrict: bool, now: Time,
                        environment: Option<ErrorCode>, t: State)
    requires Inv(s) && UpdateNext(s, id, config, expectedName, restrict, now, environment, t)
    ensures Inv(t)
  {
  }

  // What a crash makes of one launch and of one process.
  function CrashedLaunch(l: Launch, host: HostId): Launch {
    if l.host == host && InFlight(l.phase) then l.(phase := Crashed) else l
  }

  function CrashedProcess(x: Process, host: HostId): Process {
    if x.host == host then x.(stage := Settled) else x
  }

  lemma CrashMaps(s: State, host: HostId, t: State)
    requires CrashNext(s, host, t)
    ensures t.launches.Keys == s.launches.Keys
    ensures forall k :: k in s.launches ==> t.launches[k] == CrashedLaunch(s.launches[k], host)
    ensures t.procs.Keys == s.procs.Keys
    ensures forall p :: p in s.procs ==> t.procs[p] == CrashedProcess(s.procs[p], host)
  {
  }

  lemma CrashTracks(l: Launch, x: Process, p: Handle, host: HostId)
    requires l.host == x.host && Tracks(l.phase, p, x)
    ensures Tracks(CrashedLaunch(l, host).phase, p, CrashedProcess(x, host))
  {
  }

  lemma CrashKeepsProcesses(s: State, host: HostId, t: State)
    requires ProcessesInv(s) && CrashNext(s, host, t)
    ensures ProcessesInv(t)
  {
    CrashMaps(s, host, t);
    forall p | p in t.procs ensures Tracks(t.launches[t.procs[p].token].phase, p, t.procs[p]) {
      CrashTracks(s.launches[s.procs[p].token], s.procs[p], p, host);
    }
  }

  lemma CrashKeepsRecords(s: State, host: HostId, t: State)
    requires RecordsInv(s) && CrashNext(s, host, t)
    ensures RecordsInv(t)
  {
    CrashMaps(s, host, t);
    RecordsKept(s, t);
  }

  lemma CrashKeepsCommitted(s: State, host: HostId, t: State)
    requires PidsInv(s) && CommittedRecorded(s) && SessionInv(s) && CrashNext(s, host, t)
    ensures PidsInv(t) && CommittedRecorded(t) && SessionInv(t)
  {
    CrashMaps(s, host, t);
    PidsKept(s, t);
    CommittedKept(s, t);
  }

  lemma CrashKeepsInv(s: State, host: HostId, t: State)
    requires Inv(s) && CrashNext(s, host, t)
    ensures Inv(t)
  {
    CrashKeepsProcesses(s, host, t);
    CrashKeepsRecords(s, host, t);
    CrashKeepsCommitted(s, host, t);
  }

  lemma LockStepKeepsInv(s: State, e: LockEvent, t: State)
    requires Inv(s) && LockNext(s, e, t)
    ensures Inv(t)
  {
    match e
    case ProbeMarkers(id, answer) => ProbeMarkersKeepsInv(s, id, answer, t);
    case Wipe(id, temporary, done) => WipeKeepsInv(s, id, temporary, done, t);
    case _ =>
  }

  lemma LaunchStepKeepsInv(s: State, e: LaunchEvent, t: State)
    requires Inv(s) && LaunchNext(s, e, t)
    ensures Inv(t)
  {
    match e
    case ReserveStep(id, policy, token, now, environment) =>
      ReserveKeepsInv(s, id, policy, token, now, environment, t);
    case StartProcess(token, p, pid) => StartProcessKeepsInv(s, token, p, pid, t);
    case Abandon(token) => AbandonKeepsInv(s, token, t);
    case Register(token) => RegisterKeepsInv(s, token, t);
    case CommitStep(token, now) => CommitKeepsInv(s, token, now, t);
    case CommitFault(token) => CommitFaultKeepsInv(s, token, t);
    case Unregister(token) => UnregisterKeepsInv(s, token, t);
    case ReportFailure(token) => ReportFailureKeepsInv(s, token, t);
    case ReleaseStep(token, now) => ReleaseKeepsInv(s, token, now, t);
    case ReleaseFault(token) => ReleaseFaultKeepsInv(s, token, t);
  }

  lemma ProcessStepKeepsInv(s: State, e: ProcessEvent, t: State)
    requires Inv(s) && ProcessNext(s, e, t)
    ensures Inv(t)
  {
    match e
    case ProcessExit(p) => ProcessExitKeepsInv(s, p, t);
    case WatcherWakes(p) => WatcherWakesKeepsInv(s, p, t);
    case WatcherStep(p, now) => WatcherKeepsInv(s, p, now, t);
    case WatcherFault(p) => WatcherFaultKeepsInv(s, p, t);
    case Crash(host) => CrashKeepsInv(s, host, t);
  }

  lemma RecordStepKeepsInv(s: State, e: RecordEvent, t: State)
    requires Inv(s) && RecordNext(s, e, t)
    ensures Inv(t)
  {
    match e
    case ReconcileStep(now) => ReconcileKeepsInv(s, now, t);
    case DeleteStep(id) => DeleteKeepsInv(s, id, t);
    case DeleteTemporaryStep(id) => DeleteTemporaryKeepsInv(s, id, t);
    case CreateStep(id, config, temporary, now, environment) =>
      CreateKeepsInv(s, id, config, temporary, now, environment, t);
    case UpdateStep(id, config, expectedName, restrict, now, environment) =>
      UpdateKeepsInv(s, id, config, expectedName, restrict, now, environment, t);
  }

  /** Every step of every host keeps the invariant. */
  lemma StepKeepsInv(s: State, e: Event, t: State)
    requires Inv(s) && Next(s, e, t)
    ensures Inv(t)
  {
    match e
    case OfLock(l) => LockStepKeepsInv(s, l, t);
    case OfLaunch(l) => LaunchStepKeepsInv(s, l, t);
    case OfProcess(p) => ProcessStepKeepsInv(s, p, t);
    case OfRecord(r) => RecordStepKeepsInv(s, r, t);
  }

  lemma {:induction false} ReachableInv(states: seq<State>, events: seq<Event>, i: nat)
    requires Run(states, events) && i < |states|
    ensures Inv(states[i])
  {
    if i > 0 {
      ReachableInv(states, events, i - 1);
      assert StepAt(states, events, i - 1);
      StepKeepsInv(states[i - 1], events[i - 1], states[i]);
    }
  }
}
