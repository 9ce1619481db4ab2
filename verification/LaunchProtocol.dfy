/**
 * Any number of hosts launching, watching, reconciling, closing and deleting containers
 * over one metadata file. Only a transaction is atomic, and only its effect on the file:
 * the file lock is taken, the profile markers are looked at one by one, a profile directory
 * is removed and the file is replaced in separate steps, and processes start and exit
 * between any two of them. A host can crash anywhere.
 */
module LaunchProtocol {
  import opened Prelude
  import opened Records
  import opened LaunchSpec

  type HostId = nat
  type Handle = nat

  // Who still waits for a process: its launch, its watcher, the watcher's transaction, nobody.
  datatype Stage = InLaunch | Watching | Waking | Settled

  datatype Process = Process(host: HostId, container: Id, token: Id, pid: int, alive: bool, committed: bool,
                             stage: Stage)

  // faulted records that a write the launch needed did not happen.
  datatype Phase =
    | Reserved
    | Started(p: Handle)
    | Registered(p: Handle)
    | Committed(p: Handle)
    | Failing(p: Handle, faulted: bool)
    | Dying(p: Handle, faulted: bool)
    | Releasing
    | Failed(faulted: bool)
    | Crashed

  datatype Launch = Launch(host: HostId, container: Id, phase: Phase)

  // The transaction that holds the file lock: what it saw and what it removed so far.
  datatype Session = Session(host: HostId, probes: map<Id, Probe>, wiped: map<Id, bool>)

  datatype State = State(
    records: ContainerMap,
    spent: set<Id>,
    launches: map<Id, Launch>,
    procs: map<Handle, Process>,
    owned: map<HostId, map<Id, Handle>>,
    lock: Option<Session>,
    clock: Time)

  datatype LockEvent =
    | Tick(clock: Time)
    | Lock(host: HostId)
    | ProbeMarkers(id: Id, answer: Probe)
    | Wipe(id: Id, temporary: bool, done: bool)
    | Unlock

  datatype LaunchEvent =
    | ReserveStep(id: Id, policy: LaunchPolicy, token: Id, now: Time, environment: Option<ErrorCode>)
    | StartProcess(token: Id, p: Handle, pid: int)
    | Abandon(token: Id)
    | Register(token: Id)
    | CommitStep(token: Id, now: Time)
    | CommitFault(token: Id)
    | Unregister(token: Id)
    | ReportFailure(token: Id)
    | ReleaseStep(token: Id, now: Time)
    | ReleaseFault(token: Id)

  datatype ProcessEvent =
    | ProcessExit(p: Handle)
    | WatcherWakes(p: Handle)
    | WatcherStep(p: Handle, now: Time)
    | WatcherFault(p: Handle)
    | Crash(host: HostId)

  datatype RecordEvent =
    | ReconcileStep(now: Time)
    | DeleteStep(id: Id)
    | DeleteTemporaryStep(id: Id)
    | CreateStep(id: Id, config: Config, temporary: bool, now: Time, environment: Option<ErrorCode>)
    | UpdateStep(id: Id, config: Config, expectedName: string, restrict: bool, now: Time,
                 environment: Option<ErrorCode>)

  datatype Event =
    | OfLock(lock: LockEvent)
    | OfLaunch(launch: LaunchEvent)
    | OfProcess(process: ProcessEvent)
    | OfRecord(record: RecordEvent)

  predicate LiveOn(s: State, p: Handle, id: Id) {
    p in s.procs && s.procs[p].alive && s.procs[p].container == id
  }

  // Until the watcher is done the operating system does not hand the PID out again.
  predicate HoldsPid(x: Process) {
    x.alive || x.stage != Settled
  }

  // The processes map of one host.
  function OwnedBy(s: State, host: HostId): map<Id, Handle> {
    if host in s.owned then s.owned[host] else map[]
  }

  function PidsOf(owned: map<Id, Handle>, procs: map<Handle, Process>): map<Id, int> {
    map id | id in owned && owned[id] in procs :: procs[owned[id]].pid
  }

  function OwnedPids(s: State, host: HostId): map<Id, int> {
    PidsOf(OwnedBy(s, host), s.procs)
  }

  predicate WipedIn(session: Session, id: Id) {
    id in session.wiped && session.wiped[id]
  }

  function WithPhase(s: State, token: Id, phase: Phase): State
    requires token in s.launches
  {
    s.(launches := s.launches[token := s.launches[token].(phase := phase)])
  }

  predicate Current(s: State, host: HostId, id: Id, p: Handle) {
    id in OwnedBy(s, host) && OwnedBy(s, host)[id] == p
  }

  function Forget(s: State, host: HostId, id: Id, p: Handle): map<HostId, map<Id, Handle>> {
    if Current(s, host, id, p) then s.owned[host := OwnedBy(s, host) - {id}] else s.owned
  }

  // The transaction ends: the file is what the handler left and the lock is free.
  function Written(s: State, records: ContainerMap): State {
    s.(records := records, lock := None)
  }

  predicate HeldBy(s: State, host: HostId) {
    s.lock.Some? && s.lock.value.host == host
  }

  predicate InFlight(phase: Phase) {
    !phase.Committed? && !phase.Failed? && !phase.Crashed?
  }

  ghost predicate Init(s: State) {
    && s.procs == map[] && s.owned == map[] && s.lock == None
    && s.launches.Keys <= s.spent && s.records.Keys <= s.spent
    && (forall t :: t in s.launches ==> t != "" && s.launches[t].phase == Crashed && s.launches[t].container in s.spent)
    && (forall id :: id in s.records ==>
          && s.records[id].id == id && Shape(s.records[id])
          && (s.records[id].state == Launching ==>
                && s.records[id].launchToken in s.launches
                && s.launches[s.records[id].launchToken].container == id))
  }

  ghost predicate ProbeMarkersNext(s: State, id: Id, answer: Probe, t: State) {
    && s.lock.Some?
    && (answer == Free ==> forall p :: !LiveOn(s, p, id))
    && t == s.(lock := Some(s.lock.value.(probes := s.lock.value.probes[id := answer])))
  }

  predicate WipeAllowed(c: Container, owned: map<Id, int>, probe: Probe, temporary: bool) {
    if temporary then c.state == Stopped && !c.running && probe == Free else DeleteError(c, owned, probe, true).None?
  }

  // The profile directory goes only after the transaction's own checks passed.
  ghost predicate WipeNext(s: State, id: Id, temporary: bool, done: bool, t: State) {
    && s.lock.Some? && id in s.records
    && var session := s.lock.value;
    && WipeAllowed(s.records[id], OwnedPids(s, session.host), ProbeOf(session.probes, id), temporary)
    && t == s.(lock := Some(session.(wiped := session.wiped[id := done])))
  }

  ghost predicate ReserveNext(s: State, id: Id, policy: LaunchPolicy, token: Id, now: Time,
                              environment: Option<ErrorCode>, t: State)
  {
    && s.lock.Some? && token !in s.spent && token != "" && now <= s.clock
    && var r := Reserve(s.records, id, policy, token, now, environment, ProbeOf(s.lock.value.probes, id));
    && r.Ok?
    && t == Written(s, r.value).(spent := s.spent + {token},
                                 launches := s.launches[token := Launch(s.lock.value.host, id, Reserved)])
  }

  ghost predicate StartProcessNext(s: State, token: Id, p: Handle, pid: int, t: State) {
    && token in s.launches && s.launches[token].phase == Reserved
    && p !in s.procs && pid > 0 && (forall q :: q in s.procs && HoldsPid(s.procs[q]) ==> s.procs[q].pid != pid)
    && var l := s.launches[token];
    && t == WithPhase(s, token, Started(p)).(
              procs := s.procs[p := Process(l.host, l.container, token, pid, true, false, InLaunch)])
  }

  // The launch stops before its process is registered: none was started, or it was waited for.
  ghost predicate AbandonNext(s: State, token: Id, t: State) {
    && token in s.launches
    && var phase := s.launches[token].phase;
    && match phase
       case Reserved => t == WithPhase(s, token, Releasing)
       case Started(p) =>
         && p in s.procs && !s.procs[p].alive
         && t == WithPhase(s, token, Releasing).(procs := s.procs[p := s.procs[p].(stage := Settled)])
       case _ => false
  }

  ghost predicate RegisterNext(s: State, token: Id, t: State) {
    && token in s.launches && s.launches[token].phase.Started?
    && var l := s.launches[token];
    && t == WithPhase(s, token, Registered(l.phase.p)).(
              owned := s.owned[l.host := OwnedBy(s, l.host)[l.container := l.phase.p]])
  }

  ghost predicate CommitNext(s: State, token: Id, now: Time, t: State) {
    && token in s.launches && s.launches[token].phase.Registered? && HeldBy(s, s.launches[token].host)
    && now <= s.clock
    && var l := s.launches[token];
    && l.phase.p in s.procs
    && var p := l.phase.p;
       var r := LaunchSpec.Commit(s.records, l.container, token, s.procs[p].pid, now);
    && (if r.Ok? then
          t == Written(WithPhase(s, token, Committed(p)), r.value).(
                 procs := s.procs[p := s.procs[p].(committed := true, stage := Watching)])
        else t == Written(WithPhase(s, token, Failing(p, false)), s.records))
  }

  ghost predicate CommitFaultNext(s: State, token: Id, t: State) {
    && token in s.launches && s.launches[token].phase.Registered?
    && t == WithPhase(s, token, Failing(s.launches[token].phase.p, true))
  }

  ghost predicate UnregisterNext(s: State, token: Id, t: State) {
    && token in s.launches && s.launches[token].phase.Failing?
    && var l := s.launches[token];
    && t == WithPhase(s, token, Dying(l.phase.p, l.phase.faulted)).(
              owned := Forget(s, l.host, l.container, l.phase.p))
  }

  // The caller gets the error after the process was terminated and waited for.
  ghost predicate ReportFailureNext(s: State, token: Id, t: State) {
    && token in s.launches && s.launches[token].phase.Dying?
    && var p := s.launches[token].phase.p;
    && p in s.procs && !s.procs[p].alive
    && t == WithPhase(s, token, Failed(s.launches[token].phase.faulted)).(
              procs := s.procs[p := s.procs[p].(stage := Settled)])
  }

  ghost predicate ReleaseNext(s: State, token: Id, now: Time, t: State) {
    && token in s.launches && s.launches[token].phase == Releasing && HeldBy(s, s.launches[token].host)
    && now <= s.clock
    && t == Written(WithPhase(s, token, Failed(false)),
                    LaunchSpec.Release(s.records, s.launches[token].container, token, now))
  }

  ghost predicate ReleaseFaultNext(s: State, token: Id, t: State) {
    && token in s.launches && s.launches[token].phase == Releasing
    && t == WithPhase(s, token, Failed(true))
  }

  ghost predicate ProcessExitNext(s: State, p: Handle, t: State) {
    p in s.procs && t == s.(procs := s.procs[p := s.procs[p].(alive := false)])
  }

  ghost predicate WatcherWakesNext(s: State, p: Handle, t: State) {
    && p in s.procs && s.procs[p].stage == Watching && !s.procs[p].alive
    && var x := s.procs[p];
    && t == s.(procs := s.procs[p := x.(stage := if Current(s, x.host, x.container, p) then Waking else Settled)],
               owned := Forget(s, x.host, x.container, p))
  }

  ghost predicate WatcherNext(s: State, p: Handle, now: Time, t: State) {
    && p in s.procs && s.procs[p].stage == Waking && HeldBy(s, s.procs[p].host) && now <= s.clock
    && t == Written(s, Watched(s.records, s.procs[p].container, s.procs[p].pid, now)).(
              procs := s.procs[p := s.procs[p].(stage := Settled)])
  }

  ghost predicate WatcherFaultNext(s: State, p: Handle, t: State) {
    && p in s.procs && s.procs[p].stage == Waking
    && t == s.(procs := s.procs[p := s.procs[p].(stage := Settled)])
  }

  ghost predicate ReconcileNext(s: State, now: Time, t: State) {
    && s.lock.Some? && now <= s.clock
    && var r := Reconcile(s.records, OwnedPids(s, s.lock.value.host), s.lock.value.probes, now);
    && r.Ok? && t == Written(s, r.value)
  }

  ghost predicate DeleteNext(s: State, id: Id, t: State) {
    && s.lock.Some?
    && var r := Delete(s.records, id, OwnedPids(s, s.lock.value.host), ProbeOf(s.lock.value.probes, id),
                       WipedIn(s.lock.value, id));
    && r.Ok? && t == Written(s, r.value)
  }

  ghost predicate DeleteTemporaryNext(s: State, id: Id, t: State) {
    && s.lock.Some?
    && var r := DeleteTemporary(s.records, id, ProbeOf(s.lock.value.probes, id), WipedIn(s.lock.value, id));
    && r.Ok? && t == Written(s, r.value.records)
  }

  ghost predicate CreateNext(s: State, id: Id, config: Config, temporary: bool, now: Time,
                             environment: Option<ErrorCode>, t: State)
  {
    && s.lock.Some? && id !in s.spent && id != ""
    && var r := Create(s.records, NewContainer(id, config, temporary, now), environment);
    && r.Ok? && t == Written(s, r.value).(spent := s.spent + {id})
  }

  ghost predicate UpdateNext(s: State, id: Id, config: Config, expectedName: string, restrict: bool, now: Time,
                             environment: Option<ErrorCode>, t: State)
  {
    && s.lock.Some?
    && var r := UpdateConfig(s.records, id, config, expectedName, restrict, now, environment);
    && r.Ok? && t == Written(s, r.value)
  }

  function AfterCrash(s: State, host: HostId): State {
    s.(
      launches := map k | k in s.launches ::
                    var l := s.launches[k];
                    if l.host == host && InFlight(l.phase) then l.(phase := Crashed) else l,
      procs := map p | p in s.procs ::
                 if s.procs[p].host == host then s.procs[p].(stage := Settled) else s.procs[p],
      owned := s.owned - {host},
      lock := if HeldBy(s, host) then None else s.lock)
  }

  ghost predicate CrashNext(s: State, host: HostId, t: State) {
    t == AfterCrash(s, host)
  }

  ghost predicate LockNext(s: State, e: LockEvent, t: State) {
    match e
    case Tick(clock) => clock >= s.clock && t == s.(clock := clock)
    case Lock(host) => s.lock == None && t == s.(lock := Some(Session(host, map[], map[])))
    case Unlock => s.lock.Some? && t == s.(lock := None)
    case ProbeMarkers(id, answer) => ProbeMarkersNext(s, id, answer, t)
    case Wipe(id, temporary, done) => WipeNext(s, id, temporary, done, t)
  }

  ghost predicate LaunchNext(s: State, e: LaunchEvent, t: State) {
    match e
    case ReserveStep(id, policy, token, now, environment) => ReserveNext(s, id, policy, token, now, environment, t)
    case StartProcess(token, p, pid) => StartProcessNext(s, token, p, pid, t)
    case Abandon(token) => AbandonNext(s, token, t)
    case Register(token) => RegisterNext(s, token, t)
    case CommitStep(token, now) => CommitNext(s, token, now, t)
    case CommitFault(token) => CommitFaultNext(s, token, t)
    case Unregister(token) => UnregisterNext(s, token, t)
    case ReportFailure(token) => ReportFailureNext(s, token, t)
    case ReleaseStep(token, now) => ReleaseNext(s, token, now, t)
    case ReleaseFault(token) => ReleaseFaultNext(s, token, t)
  }

  ghost predicate ProcessNext(s: State, e: ProcessEvent, t: State) {
    match e
    case ProcessExit(p) => ProcessExitNext(s, p, t)
    case WatcherWakes(p) => WatcherWakesNext(s, p, t)
    case WatcherStep(p, now) => WatcherNext(s, p, now, t)
    case WatcherFault(p) => WatcherFaultNext(s, p, t)
    case Crash(host) => CrashNext(s, host, t)
  }

  ghost predicate RecordNext(s: State, e: RecordEvent, t: State) {
    match e
    case ReconcileStep(now) => ReconcileNext(s, now, t)
    case DeleteStep(id) => DeleteNext(s, id, t)
    case DeleteTemporaryStep(id) => DeleteTemporaryNext(s, id, t)
    case CreateStep(id, config, temporary, now, environment) =>
      CreateNext(s, id, config, temporary, now, environment, t)
    case UpdateStep(id, config, expectedName, restrict, now, environment) =>
      UpdateNext(s, id, config, expectedName, restrict, now, environment, t)
  }

  ghost predicate Next(s: State, e: Event, t: State) {
    match e
    case OfLock(l) => LockNext(s, l, t)
    case OfLaunch(l) => LaunchNext(s, l, t)
    case OfProcess(p) => ProcessNext(s, p, t)
    case OfRecord(r) => RecordNext(s, r, t)
  }

  ghost predicate StepAt(states: seq<State>, events: seq<Event>, i: nat)
    requires |states| == |events| + 1
  {
    i < |events| ==> Next(states[i], events[i], states[i + 1])
  }

  ghost predicate Run(states: seq<State>, events: seq<Event>) {
    && |states| == |events| + 1
    && Init(states[0])
    && forall i: nat :: StepAt(states, events, i)
  }
}
