/** The container records as the transactions of LaunchSpec see them. */
module ContainerView {
  import opened Records
  import opened LaunchSpec

  ghost predicate Distinct(cs: seq<Container>) {
    forall i, j :: 0 <= i < |cs| && 0 <= j < |cs| && cs[i].id == cs[j].id ==> i == j
  }

  ghost function View(cs: seq<Container>): ContainerMap {
    if cs == [] then map[] else View(cs[..|cs| - 1])[cs[|cs| - 1].id := cs[|cs| - 1]]
  }

  lemma {:induction false} ViewAt(cs: seq<Container>, i: nat)
    requires Distinct(cs) && i < |cs|
    ensures cs[i].id in View(cs) && View(cs)[cs[i].id] == cs[i]
    decreases |cs|
  {
    if i < |cs| - 1 {
      ViewAt(cs[..|cs| - 1], i);
    }
  }

  lemma {:induction false} ViewFrom(cs: seq<Container>, id: Id) returns (i: nat)
    requires id in View(cs)
    ensures i < |cs| && cs[i].id == id
    decreases |cs|
  {
    if cs[|cs| - 1].id == id {
      i := |cs| - 1;
    } else {
      i := ViewFrom(cs[..|cs| - 1], id);
    }
  }

  ghost predicate Listed(cs: seq<Container>, id: Id) {
    exists i :: 0 <= i < |cs| && cs[i].id == id
  }

  ghost predicate Maps(m: ContainerMap, c: Container) {
    c.id in m && m[c.id] == c
  }

  lemma ViewIsDetermined(cs: seq<Container>, m: ContainerMap)
    requires Distinct(cs)
    requires forall i :: 0 <= i < |cs| ==> Maps(m, cs[i])
    requires forall id :: id in m ==> Listed(cs, id)
    ensures View(cs) == m
  {
    var v := View(cs);
    forall id | id in m ensures id in v && v[id] == m[id] {
      assert Listed(cs, id);
      var i :| 0 <= i < |cs| && cs[i].id == id;
      ViewAt(cs, i);
      assert Maps(m, cs[i]);
    }
    forall id | id in v ensures id in m {
      var i := ViewFrom(cs, id);
      assert Maps(m, cs[i]);
    }
  }

  lemma ViewOf(cs: seq<Container>, id: Id)
    requires Distinct(cs)
    ensures id in View(cs) ==> exists i :: 0 <= i < |cs| && cs[i].id == id && View(cs)[id] == cs[i]
  {
    if id in View(cs) {
      var i := ViewFrom(cs, id);
      ViewAt(cs, i);
    }
  }

  lemma ViewReplace(cs: seq<Container>, i: nat, c: Container)
    requires Distinct(cs) && i < |cs| && c.id == cs[i].id
    ensures Distinct(cs[i := c]) && View(cs[i := c]) == View(cs)[c.id := c]
  {
    var t := cs[i := c];
    var m := View(cs)[c.id := c];
    forall k | 0 <= k < |t| ensures Maps(m, t[k]) {
      ViewAt(cs, k);
    }
    forall id | id in m ensures Listed(t, id) {
      var k := i;
      if id != c.id {
        k := ViewFrom(cs, id);
      }
      assert t[k].id == id;
    }
    ViewIsDetermined(t, m);
  }

  lemma ViewRemove(cs: seq<Container>, i: nat)
    requires Distinct(cs) && i < |cs|
    ensures var t := cs[..i] + cs[i + 1..]; Distinct(t) && View(t) == View(cs) - {cs[i].id}
  {
    var t := cs[..i] + cs[i + 1..];
    var m := View(cs) - {cs[i].id};
    forall k | 0 <= k < |t| ensures Maps(m, t[k]) {
      ViewAt(cs, if k < i then k else k + 1);
    }
    forall id | id in m ensures Listed(t, id) {
      var k := ViewFrom(cs, id);
      assert t[if k < i then k else k - 1].id == id;
    }
    ViewIsDetermined(t, m);
  }

  lemma ViewAppend(cs: seq<Container>, c: Container)
    requires Distinct(cs) && c.id !in View(cs)
    ensures Distinct(cs + [c]) && View(cs + [c]) == View(cs)[c.id := c]
  {
    forall k | 0 <= k < |cs| ensures cs[k].id != c.id {
      ViewAt(cs, k);
    }
    assert (cs + [c])[..|cs|] == cs;
  }
}

/** The container commands: each transaction as the loop over the loaded records that the host runs. */
module LaunchHandlers {
  import opened Prelude
  import opened Records
  import opened LaunchSpec
  import opened LaunchRules
  import opened Environment
  import opened LaunchGate
  import opened ContainerView
  import opened MetadataFile
  import opened ReferenceSafety
  import opened Transactions

  class Process {
    const pid: int
    var alive: bool
    var toldToEnd: bool

    constructor (pid: int)
      ensures this.pid == pid && alive && !toldToEnd
    {
      this.pid := pid;
      alive, toldToEnd := true, false;
    }

    // The operating system is told to end the process, which it does in its own time.
    method Terminate(works: bool)
      modifies this`toldToEnd
      ensures toldToEnd <==> old(toldToEnd) || works
    {
      toldToEnd := toldToEnd || works;
    }

    // Terminate and wait: afterwards the process is gone.
    method TerminateAndWait()
      modifies this
      ensures !alive && toldToEnd
    {
      Terminate(true);
      alive := false;
    }
  }

  method Position(cs: seq<Container>, id: Id) returns (at: int)
    requires Distinct(cs)
    ensures at == ContainerAt(cs, id)
    ensures at == -1 <==> id !in View(cs)
    ensures at != -1 ==> 0 <= at < |cs| && cs[at].id == id && View(cs)[id] == cs[at]
  {
    for i := 0 to |cs|
      invariant forall k :: 0 <= k < i ==> cs[k].id != id
    {
      if cs[i].id == id {
        ViewAt(cs, i);
        return i;
      }
    }
    if id in View(cs) {
      var k := ViewFrom(cs, id);
    }
    at := -1;
  }

  method CheckEnvironment(db: Database, c: Container, view: TrustView)
    returns (network: Effective, error: Option<ErrorCode>)
    ensures error == EnvironmentError(db, c, view)
    ensures error.None? ==> network == Resolve(db, c).network
  {
    network, error := ResolveEffectiveEnvironment(db, c);
    if error.None? {
      error := CertificateReadiness(db, network.required, view);
    }
  }

  /** What the environment can be refused for. */
  lemma EnvironmentErrors(db: Database, c: Container, view: TrustView)
    ensures EnvironmentError(db, c, view).Some? ==> EnvironmentError(db, c, view).value in ENVIRONMENT_ERRORS
    ensures EnvironmentError(db, c, view).None? <==>
              Resolve(db, c).error.None? && forall id :: id in Resolve(db, c).network.required ==> RequirementMet(db, id, view)
  {
    ResolutionErrors(db, c);
    forall id ensures RequirementError(db, id, view).None? <==> RequirementMet(db, id, view) {
      RequirementErrors(db, id, view);
    }
  }

  lemma EnvironmentIgnoresLifecycle(db: Database, c: Container, d: Container, view: TrustView)
    requires c.networkMode == d.networkMode && c.proxyProfileId == d.proxyProfileId
    requires c.environmentTemplateId == d.environmentTemplateId
    ensures EnvironmentError(db, c, view) == EnvironmentError(db, d, view)
    ensures Resolve(db, c) == Resolve(db, d)
  {
    assert Resolve(db, c) == Resolve(db, d);
  }

  method CheckPolicy(c: Container, policy: LaunchPolicy) returns (error: Option<ErrorCode>)
    ensures error == PolicyError(c, policy)
  {
    if policy.expectedName != "" && c.name != policy.expectedName {
      return Some(CONTAINER_NAME_MISMATCH);
    }
    if policy.requireStandardType && !IsStandardBrowserType(c.browserType) {
      return Some(CUSTOM_BROWSER_REQUIRES_HUMAN_LAUNCH);
    }
    var automation := c.automationEnabled;
    if policy.automationEnabled.Some? {
      automation := policy.automationEnabled.value;
    }
    if policy.restrictAutomationEnable && automation && !c.automationEnabled {
      return Some(AUTOMATION_CONSENT_REQUIRED);
    }
    error := if automation && !IsStandardBrowserType(c.browserType)
             then Some(AUTOMATION_REQUIRES_STANDARD_BROWSER) else None;
  }

  /** The body of the reservation transaction for the record it found. */
  method ReserveRecord(db: Database, found: Container, policy: LaunchPolicy, token: Id, now: Time, view: TrustView,
                       probe: Probe) returns (r: Result<Container, ErrorCode>, network: Effective)
    ensures r == ReserveOne(found, policy, token, now, EnvironmentError(db, found, view), probe)
    ensures r.Ok? ==> network == Resolve(db, found).network
  {
    var c := found;
    network := Effective(Direct, false, "", [], None);
    var refused := CheckPolicy(c, policy);
    if refused.Some? {
      return Err(refused.value), network;
    }
    if c.state == Launching {
      if now - ReservedAt(c) <= LAUNCH_RESERVATION_TTL {
        return Err(ALREADY_LAUNCHING), network;
      }
      c := SetStopped(c, now);
    }
    var error;
    network, error := CheckEnvironment(db, c, view);
    EnvironmentIgnoresLifecycle(db, found, c, view);
    if error.Some? {
      return Err(error.value), network;
    }
    var wasRunning := c.state == Running || c.running;
    if probe == ProbeFailed {
      return Err(INTERNAL_ERROR), network;
    }
    if probe == InUse {
      return Err(if wasRunning then ALREADY_RUNNING else PROFILE_IN_USE), network;
    }
    if wasRunning {
      c := SetStopped(c, now);
    }
    r := Ok(c.(state := Launching, running := false, pid := 0, launchToken := token, launchReservedAt := Some(now),
               updatedAt := now, pendingCleanup := false));
  }

  // Only the container list differs, and it stands for these records.
  ghost predicate Stores(file: Database, before: Database, records: ContainerMap) {
    && Distinct(file.containers) && View(file.containers) == records
    && file == before.(containers := file.containers)
  }

  /** Writing containers that keep their configuration or resolve leaves the references whole. */
  lemma HostWriteKeepsInv(db: Database, file: Database, records: ContainerMap)
    requires Distinct(db.containers) && Stores(file, db, records)
    requires forall id :: id in records ==> Configures(db, records[id])
    ensures DbInv(db) ==> Mutates(db, SetContainers(file.containers), file) && DbInv(file)
  {
    forall c | c in file.containers ensures Resolve(db, c).error.None? || exists d :: d in db.containers && SameConfig(c, d) {
      var k :| 0 <= k < |file.containers| && file.containers[k] == c;
      ViewAt(file.containers, k);
      assert Configures(db, records[c.id]);
      if Resolve(db, c).error.Some? {
        var i := ViewFrom(db.containers, c.id);
        ViewAt(db.containers, i);
        assert db.containers[i] in db.containers && SameConfig(c, db.containers[i]);
      }
    }
    if DbInv(db) {
      MutationKeepsInv(db, SetContainers(file.containers), file);
    }
  }

  ghost predicate Configures(db: Database, c: Container) {
    || Resolve(db, c).error.None?
    || (c.id in View(db.containers) && SameConfig(c, View(db.containers)[c.id]))
  }

  lemma ViewKeys(cs: seq<Container>)
    requires Distinct(cs)
    ensures forall id :: id in View(cs) ==> View(cs)[id].id == id
  {
    forall id | id in View(cs) ensures View(cs)[id].id == id {
      ViewOf(cs, id);
    }
  }

  lemma Replaced(db: Database, i: nat, c: Container)
    requires Distinct(db.containers) && i < |db.containers| && c.id == db.containers[i].id
    requires SameConfig(c, db.containers[i]) || Resolve(db, c).error.None?
    ensures var file := db.(containers := db.containers[i := c]);
            Stores(file, db, View(db.containers)[c.id := c]) && (DbInv(db) ==> DbInv(file))
  {
    ViewReplace(db.containers, i, c);
    ViewKeys(db.containers);
    ViewAt(db.containers, i);
    HostWriteKeepsInv(db, db.(containers := db.containers[i := c]), View(db.containers)[c.id := c]);
  }

  lemma Removed(db: Database, i: nat)
    requires Distinct(db.containers) && i < |db.containers|
    ensures var file := db.(containers := RemoveAt(db.containers, i));
            Stores(file, db, View(db.containers) - {db.containers[i].id}) && (DbInv(db) ==> DbInv(file))
  {
    ViewRemove(db.containers, i);
    ViewKeys(db.containers);
    HostWriteKeepsInv(db, db.(containers := RemoveAt(db.containers, i)), View(db.containers) - {db.containers[i].id});
  }

  lemma Appended(db: Database, c: Container)
    requires Distinct(db.containers) && c.id !in View(db.containers) && Resolve(db, c).error.None?
    ensures var file := db.(containers := db.containers + [c]);
            Stores(file, db, View(db.containers)[c.id := c]) && (DbInv(db) ==> DbInv(file))
  {
    ViewAppend(db.containers, c);
    ViewKeys(db.containers);
    HostWriteKeepsInv(db, db.(containers := db.containers + [c]), View(db.containers)[c.id := c]);
  }

  // Every record is written again with its configuration.
  lemma Reconfigured(db: Database, cs: seq<Container>)
    requires Distinct(db.containers) && Distinct(cs) && |cs| == |db.containers|
    requires forall k :: 0 <= k < |cs| ==> cs[k].id == db.containers[k].id && SameConfig(cs[k], db.containers[k])
    ensures DbInv(db) ==> DbInv(db.(containers := cs))
  {
    forall id | id in View(cs) ensures Configures(db, View(cs)[id]) {
      var k := ViewFrom(cs, id);
      ViewAt(cs, k);
      ViewAt(db.containers, k);
    }
    HostWriteKeepsInv(db, db.(containers := cs), View(cs));
  }

  lemma ReconciledConfig(c: Container, owned: map<Id, int>, probe: Probe, now: Time)
    ensures var d := ReconcileOne(c, owned, probe, now); d.id == c.id && SameConfig(d, c)
  {
  }

  lemma ResolveSameConfig(db: Database, c: Container, d: Container)
    requires SameConfig(c, d)
    ensures Resolve(db, c) == Resolve(db, d)
  {
  }

  ghost function ReserveSpec(db: Database, id: Id, policy: LaunchPolicy, token: Id, now: Time, view: TrustView,
                             probe: Probe): Result<ContainerMap, ErrorCode>
  {
    var m := View(db.containers);
    Reserve(m, id, policy, token, now, if id in m then EnvironmentError(db, m[id], view) else None, probe)
  }

  /** The reservation transaction on the loaded database: what it writes, and what the session gets. */
  method ReserveInFile(db: Database, id: Id, policy: LaunchPolicy, token: Id, now: Time, view: TrustView, probe: Probe)
    returns (file: Outcome, session: Container, network: Effective)
    requires Distinct(db.containers)
    ensures file == ReserveIn(db, id, policy, token, now, view, probe)
    ensures file.Ok? ==>
              && id in View(db.containers)
              && var c := View(db.containers)[id];
              && var r := ReserveOne(c, policy, token, now, EnvironmentError(db, c, view), probe);
              && r.Ok? && session == r.value.(automationEnabled := EffectiveAutomation(c, policy))
              && session.id == id && network == Resolve(db, c).network
  {
    network := Effective(Direct, false, "", [], None);
    session := NewContainer(id, Config("", Custom, false, Direct, "", ""), false, now);
    var i := Position(db.containers, id);
    if i == -1 {
      return Err(NOT_FOUND), session, network;
    }
    var reserved;
    reserved, network := ReserveRecord(db, db.containers[i], policy, token, now, view, probe);
    if reserved.Err? {
      return Err(reserved.error), session, network;
    }
    file := Ok(db.(containers := db.containers[i := reserved.value]));
    session := reserved.value.(automationEnabled := EffectiveAutomation(db.containers[i], policy));
  }

  lemma ResolvedRoute(db: Database, c: Container)
    ensures var network := Resolve(db, c).network; network.viaProxy <==> network.proxy.Some?
  {
  }

  // The reservation in the file and the reservation of the records are the same.
  lemma ReserveInStores(db: Database, id: Id, policy: LaunchPolicy, token: Id, now: Time, view: TrustView, probe: Probe)
    requires Distinct(db.containers)
    ensures var spec, r := ReserveSpec(db, id, policy, token, now, view, probe),
                           ReserveIn(db, id, policy, token, now, view, probe);
            if spec.Err? then r == Err(spec.error)
            else r.Ok? && Stores(r.value, db, spec.value) && (DbInv(db) ==> DbInv(r.value))
  {
    var i := ContainerAt(db.containers, id);
    if i == -1 {
      if id in View(db.containers) {
        var k := ViewFrom(db.containers, id);
      }
    } else {
      var c := db.containers[i];
      ViewAt(db.containers, i);
      var r := ReserveOne(c, policy, token, now, EnvironmentError(db, c, view), probe);
      if r.Ok? {
        Replaced(db, i, r.value);
      }
    }
  }

  // So are a creation and an update.
  lemma CreateInStores(db: Database, c: Container)
    requires Distinct(db.containers) && c.id !in View(db.containers)
    ensures var spec, r := Create(View(db.containers), c, Resolve(db, c).error), CreateIn(db, c);
            if spec.Err? then r == Err(spec.error)
            else r.Ok? && Stores(r.value, db, spec.value) && (DbInv(db) ==> DbInv(r.value))
  {
    if Resolve(db, c).error.None? {
      Appended(db, c);
    }
  }

  lemma UpdateInStores(db: Database, id: Id, config: Config, expectedName: string, restrict: bool, now: Time)
    requires Distinct(db.containers)
    ensures var environment := Resolve(db, NewContainer("", config, false, now)).error;
            var spec, r := UpdateConfig(View(db.containers), id, config, expectedName, restrict, now, environment),
                           UpdateIn(db, id, config, expectedName, restrict, now);
            if spec.Err? then r == Err(spec.error)
            else r.Ok? && Stores(r.value, db, spec.value) && (DbInv(db) ==> DbInv(r.value))
  {
    var i := ContainerAt(db.containers, id);
    if i == -1 {
      if id in View(db.containers) {
        var k := ViewFrom(db.containers, id);
      }
    } else {
      var c := db.containers[i];
      ViewAt(db.containers, i);
      if Resolve(db, NewContainer("", config, false, now)).error.None? {
        ResolveSameConfig(db, NewContainer("", config, false, now), Configured(c, config, now));
        Replaced(db, i, Configured(c, config, now));
      }
    }
  }

  // What the rest of the machine answers during one launch.
  datatype World = World(profileReady: bool, portRemoved: bool, executableValid: bool, reachable: bool, started: bool,
                         pid: int, automationReady: bool, written: bool, later: Time, profile: string, url: string)

  datatype Launched = Launched(record: Container, prepared: Prepared)

  predicate Starts(w: World, network: Effective, automation: bool) {
    && w.profileReady && (automation ==> w.portRemoved) && w.executableValid
    && LaunchProceeds(network, w.reachable) && w.started
  }

  // The browser is not started, or does not come up, and this error says why.
  ghost predicate FailureFits(code: ErrorCode, w: World, network: Effective, automation: bool) {
    var ready := w.profileReady && (automation ==> w.portRemoved);
    && (code == INTERNAL_ERROR <==> !w.profileReady)
    && (code == AUTOMATION_INITIALIZATION_FAILED <==>
          w.profileReady && automation && (!w.portRemoved || (Starts(w, network, automation) && !w.automationReady)))
    && (code == INVALID_BROWSER_PATH <==> ready && !w.executableValid)
    && (code == PROXY_LISTENER_UNAVAILABLE <==>
          && ready && w.executableValid && Unreachable(network.proxy, w.reachable)
          && network.proxy.value.unavailableBehavior == Block)
    && (code == INVALID_PROXY_PROFILE <==>
          && ready && w.executableValid && Unreachable(network.proxy, w.reachable)
          && network.proxy.value.unavailableBehavior.OtherBehavior?)
    && (code == LAUNCH_FAILED <==>
          ready && w.executableValid && LaunchProceeds(network, w.reachable) && !w.started)
  }

  ghost predicate Refused(db: Database, id: Id, policy: LaunchPolicy, token: Id, now: Time, view: TrustView, probe: Probe) {
    ReserveSpec(db, id, policy, token, now, view, probe).Err?
  }

  // The prefix of the loaded records up to the next one, which is new.
  lemma ViewPrefix(cs: seq<Container>, i: nat)
    requires Distinct(cs) && i < |cs|
    ensures View(cs[..i + 1]) == View(cs[..i])[cs[i].id := cs[i]]
    ensures cs[i].id !in View(cs[..i]) && Maps(View(cs), cs[i])
    ensures forall id :: id in View(cs) ==> View(cs)[id].id == id
  {
    assert cs[..i + 1][..i] == cs[..i];
    ViewAt(cs, i);
    ViewKeys(cs);
    if cs[i].id in View(cs[..i]) {
      var k := ViewFrom(cs[..i], cs[i].id);
    }
  }

  predicate KeptPending(before: Container, after: Container) {
    after == before || after == before.(pendingCleanup := true)
  }

  ghost predicate Selected(m: ContainerMap, id: Id) {
    id in m && Disposable(m[id])
  }

  /**
   * After the loop has passed the records `prefix` of the loaded ones: exactly the stopped temporary
   * ones are listed, cleaned ones had a free profile and are gone, pending ones remain and can at most be
   * marked, and all others are as they were.
   */
  ghost predicate Swept(loaded: ContainerMap, prefix: ContainerMap, left: ContainerMap, cleaned: seq<Id>, pending: seq<Id>,
                        after: map<Id, Probe>)
  {
    && (forall id :: id in cleaned || id in pending <==> Selected(prefix, id))
    && (forall id :: id in cleaned ==> id !in left && ProbeOf(after, id) == Free)
    && (forall id :: id in pending ==> id in left && id in prefix && KeptPending(prefix[id], left[id]))
    && (forall id :: id in loaded && !Selected(prefix, id) ==> id in left && left[id] == loaded[id])
  }

  lemma SweptNext(loaded: ContainerMap, prefix: ContainerMap, left: ContainerMap, cleaned: seq<Id>, pending: seq<Id>,
                  after: map<Id, Probe>, c: Container)
    requires Swept(loaded, prefix, left, cleaned, pending, after) && c.id !in prefix && Maps(loaded, c)
    ensures Maps(left, c)
  {
    assert !Selected(prefix, c.id);
  }

  lemma SweptSkip(loaded: ContainerMap, prefix: ContainerMap, left: ContainerMap, cleaned: seq<Id>, pending: seq<Id>,
                  after: map<Id, Probe>, c: Container)
    requires Swept(loaded, prefix, left, cleaned, pending, after) && c.id !in prefix && !Disposable(c)
    ensures Swept(loaded, prefix[c.id := c], left, cleaned, pending, after)
  {
    assert forall id :: Selected(prefix[c.id := c], id) <==> Selected(prefix, id);
  }

  lemma SweptCleaned(loaded: ContainerMap, prefix: ContainerMap, left: ContainerMap, cleaned: seq<Id>, pending: seq<Id>,
                     after: map<Id, Probe>, c: Container)
    requires Swept(loaded, prefix, left, cleaned, pending, after)
    requires Maps(left, c) && c.id !in prefix && Disposable(c) && ProbeOf(after, c.id) == Free
    ensures Swept(loaded, prefix[c.id := c], left - {c.id}, cleaned + [c.id], pending, after)
  {
    assert forall id :: Selected(prefix[c.id := c], id) <==> Selected(prefix, id) || id == c.id;
  }

  lemma SweptPending(loaded: ContainerMap, prefix: ContainerMap, left: ContainerMap, cleaned: seq<Id>, pending: seq<Id>,
                     after: map<Id, Probe>, c: Container, kept: Container)
    requires Swept(loaded, prefix, left, cleaned, pending, after)
    requires Maps(left, c) && c.id !in prefix && Disposable(c) && KeptPending(c, kept)
    ensures Swept(loaded, prefix[c.id := c], left[c.id := kept], cleaned, pending + [c.id], after)
  {
    assert forall id :: Selected(prefix[c.id := c], id) <==> Selected(prefix, id) || id == c.id;
  }

  predicate Disposable(c: Container) {
    c.temporary && c.state == Stopped && !c.running
  }

  class Host {
    const store: Store
    var processes: map<Id, Process>

    constructor (store: Store)
      ensures this.store == store && processes == map[]
    {
      this.store := store;
      processes := map[];
    }

    ghost predicate Valid()
      reads this, store
    {
      Distinct(store.file.containers)
    }

    ghost function Records(): ContainerMap
      reads this, store
      requires Valid()
    {
      View(store.file.containers)
    }

    ghost function OwnedPids(): map<Id, int>
      reads this
    {
      map id | id in processes :: processes[id].pid
    }

    method OwnsMatchingProcess(id: Id, pid: int) returns (owns: bool)
      ensures owns <==> Owns(OwnedPids(), id, pid)
    {
      if pid <= 0 {
        return false;
      }
      owns := id in processes && processes[id].pid == pid;
    }

    method ReserveLaunch(id: Id, policy: LaunchPolicy, token: Id, now: Time, view: TrustView, probe: Probe)
      returns (r: Result<Container, ErrorCode>, network: Effective)
      requires Valid()
      modifies store
      ensures Valid() && (old(DbInv(store.file)) ==> DbInv(store.file))
      ensures store.file == if id in processes && processes[id].alive then old(store.file)
                            else After(ReserveIn(old(store.file), id, policy, token, now, view, probe), old(store.file))
      ensures var spec := ReserveSpec(old(store.file), id, policy, token, now, view, probe);
              if id in processes && processes[id].alive then r == Err(ALREADY_RUNNING) && store.file == old(store.file)
              else if spec.Err? then r == Err(spec.error) && store.file == old(store.file)
              else
                && Stores(store.file, old(store.file), spec.value)
                && r == Ok(spec.value[id].(automationEnabled := EffectiveAutomation(old(Records())[id], policy)))
                && network == Resolve(old(store.file), old(Records())[id]).network
      ensures r.Err? <==> Refused(old(store.file), id, policy, token, now, view, probe)
                          || (id in processes && processes[id].alive)
      ensures r.Ok? ==> id in old(Records()) && r.value.id == id && (network.viaProxy <==> network.proxy.Some?)
                        && r.value.name == old(Records())[id].name
                        && r.value.automationEnabled == EffectiveAutomation(old(Records())[id], policy)
      ensures r.Ok? ==> var c := old(Records())[id];
                        && Permitted(c, policy) && !StillReserved(c, now) && probe == Free
                        && RoutedByMode(old(store.file), c, network) && RequiresAll(old(store.file), c, network)
                        && (forall k :: k in network.required ==> RequirementMet(old(store.file), k, view))
                        && (r.value.automationEnabled <==> AsksAutomation(c, policy))
    {
      network := Effective(Direct, false, "", [], None);
      if id in processes && processes[id].alive {
        return Err(ALREADY_RUNNING), network;
      }
      var db := store.file;
      ReserveInStores(db, id, policy, token, now, view, probe);
      var file, session;
      file, session, network := ReserveInFile(db, id, policy, token, now, view, probe);
      if file.Err? {
        return Err(file.error), network;
      }
      store.file := file.value;
      ResolvedRoute(db, View(db.containers)[id]);
      var c := View(db.containers)[id];
      ReservesExactly(View(db.containers), id, policy, token, now, EnvironmentError(db, c, view), probe);
      EnvironmentErrors(db, c, view);
      ResolvedByMode(db, c);
      r := Ok(session);
    }

    method CommitLaunch(id: Id, token: Id, process: Process, now: Time, written: bool)
      returns (r: Result<Container, ErrorCode>)
      requires Valid()
      modifies store
      ensures Valid() && (old(DbInv(store.file)) ==> DbInv(store.file))
      ensures store.file == if written then After(CommitIn(old(store.file), id, token, process.pid, now), old(store.file))
                            else old(store.file)
      ensures var spec := Commit(old(Records()), id, token, process.pid, now);
              if spec.Err? then r == Err(spec.error) && store.file == old(store.file)
              else if !written then r == Err(INTERNAL_ERROR) && store.file == old(store.file)
              else Stores(store.file, old(store.file), spec.value) && r == Ok(spec.value[id])
    {
      var db := store.file;
      var i := Position(db.containers, id);
      if i == -1 {
        return Err(NOT_FOUND);
      }
      var c := db.containers[i];
      if c.state != Launching || c.launchToken != token {
        return Err(LAUNCH_RESERVATION_LOST);
      }
      c := c.(state := Running, running := true, pid := process.pid, launchToken := "", launchReservedAt := None,
              lastLaunchedAt := Some(now), updatedAt := now, pendingCleanup := false);
      if !written {
        return Err(INTERNAL_ERROR);
      }
      Replaced(db, i, c);
      store.file := db.(containers := db.containers[i := c]);
      r := Ok(c);
    }

    method ReleaseReservation(id: Id, token: Id, w: World)
      requires Valid()
      modifies store
      ensures Valid() && (old(DbInv(store.file)) ==> DbInv(store.file))
      ensures w.written ==> ReleaseIn(old(store.file), id, token, w.later) == Ok(store.file)
      ensures w.written ==> Stores(store.file, old(store.file), Release(old(Records()), id, token, w.later))
      ensures !w.written ==> store.file == old(store.file)
    {
      var db := store.file;
      for i := 0 to |db.containers|
        invariant forall k :: 0 <= k < i ==> !(db.containers[k].id == id && db.containers[k].state == Launching
                                               && db.containers[k].launchToken == token)
      {
        var c := db.containers[i];
        if c.id == id && c.state == Launching && c.launchToken == token {
          ViewAt(db.containers, i);
          Replaced(db, i, SetStopped(c, w.later));
          if w.written {
            store.file := db.(containers := db.containers[i := SetStopped(c, w.later)]);
          }
          return;
        }
      }
      ViewOf(db.containers, id);
    }

    // The loop over the loaded records, in place; it stops at the first look that failed.
    method ReconcileLoaded(before: seq<Container>, now: Time, probes: map<Id, Probe>) returns (r: Option<seq<Container>>)
      ensures r.None? <==> LookFailed(before, OwnedPids(), probes, now)
      ensures r.Some? ==> r.value == ReconciledContainers(before, OwnedPids(), probes, now)
    {
      var cs := before;
      for i := 0 to |before|
        invariant |cs| == |before|
        invariant forall k :: 0 <= k < i ==>
                    && !(NeedsProbe(before[k], OwnedPids(), now) && ProbeOf(probes, before[k].id).ProbeFailed?)
                    && cs[k] == ReconcileOne(before[k], OwnedPids(), ProbeOf(probes, before[k].id), now)
        invariant forall k :: i <= k < |cs| ==> cs[k] == before[k]
      {
        var c := cs[i];
        var probe := ProbeOf(probes, c.id);
        match c.state {
          case Launching =>
            if now - ReservedAt(c) > LAUNCH_RESERVATION_TTL {
              if probe == ProbeFailed {
                assert before[i] in before && NeedsProbe(before[i], OwnedPids(), now);
                return None;
              }
              if probe == Free {
                cs := cs[i := SetStopped(c, now)];
              }
            }
          case Running =>
            var owns := OwnsMatchingProcess(c.id, c.pid);
            if !owns {
              if probe == ProbeFailed {
                assert before[i] in before && NeedsProbe(before[i], OwnedPids(), now);
                return None;
              }
              if probe == Free {
                cs := cs[i := SetStopped(c, now)];
              }
            }
          case _ =>
        }
      }
      r := Some(cs);
    }

    method ReconcileAll(now: Time, probes: map<Id, Probe>) returns (r: Option<ErrorCode>)
      requires Valid()
      modifies store
      ensures Valid() && (old(DbInv(store.file)) ==> DbInv(store.file))
      ensures store.file == After(ReconcileIn(old(store.file), OwnedPids(), probes, now), old(store.file))
      ensures var spec := Reconcile(old(Records()), OwnedPids(), probes, now);
              if spec.Err? then r == Some(spec.error) && store.file == old(store.file)
              else r == None && Stores(store.file, old(store.file), spec.value)
      ensures r.Some? <==> exists id :: id in old(Records()) && Abandoned(old(Records())[id], OwnedPids(), now)
                                        && ProbeOf(probes, id) == ProbeFailed
      ensures r.None? ==> Records().Keys == old(Records()).Keys
                          && forall id :: id in Records() ==>
                               ReconciledTo(old(Records())[id], Records()[id], OwnedPids(), ProbeOf(probes, id), now)
    {
      var before := store.file.containers;
      ReconcileInStores(store.file, OwnedPids(), probes, now);
      ReconcilesExactly(Records(), OwnedPids(), probes, now);
      var cs := ReconcileLoaded(before, now, probes);
      if cs.None? {
        return Some(INTERNAL_ERROR);
      }
      store.file := store.file.(containers := cs.value);
      r := None;
    }

    // The checks of delete_container up to and including the removal of the profile directory.
    method CheckDelete(found: Container, probe: Probe, directoryRemoved: bool, now: Time) returns (r: Option<ErrorCode>)
      ensures r == DeleteError(found, OwnedPids(), probe, directoryRemoved)
    {
      var c := found;
      if c.state == Launching {
        return Some(CONTAINER_BUSY);
      }
      var wasRunning := c.state == Running || c.running;
      var owns := OwnsMatchingProcess(c.id, c.pid);
      if wasRunning && owns {
        return Some(CONTAINER_RUNNING);
      }
      if probe == ProbeFailed {
        return Some(INTERNAL_ERROR);
      }
      if probe == InUse {
        return Some(if wasRunning then CONTAINER_RUNNING else PROFILE_IN_USE);
      }
      if wasRunning {
        c := SetStopped(c, now);
      }
      r := if directoryRemoved then None else Some(DELETE_FAILED);
    }

    /** delete_container. A write that fails leaves the record, whose directory is gone by then. */
    method DeleteContainer(id: Id, probe: Probe, directoryRemoved: bool, now: Time, written: bool)
      returns (r: Option<ErrorCode>)
      requires Valid()
      modifies store
      ensures Valid() && (old(DbInv(store.file)) ==> DbInv(store.file))
      ensures store.file == if written then After(DeleteIn(old(store.file), id, OwnedPids(), probe, directoryRemoved),
                                                  old(store.file)) else old(store.file)
      ensures var spec := Delete(old(Records()), id, OwnedPids(), probe, directoryRemoved);
              if spec.Err? then r == Some(spec.error) && store.file == old(store.file)
              else if !written then r == Some(INTERNAL_ERROR) && store.file == old(store.file)
              else r == None && Stores(store.file, old(store.file), spec.value)
    {
      var db := store.file;
      var i := Position(db.containers, id);
      if i == -1 {
        return Some(NOT_FOUND);
      }
      r := CheckDelete(db.containers[i], probe, directoryRemoved, now);
      if r.Some? {
        return;
      }
      Removed(db, i);
      if !written {
        return Some(INTERNAL_ERROR);
      }
      store.file := db.(containers := RemoveAt(db.containers, i));
      r := None;
    }

    /** The deletion that follows an exit, with a write that may fail once the directory is gone. */
    method DeleteTemporaryContainer(id: Id, probe: Probe, directoryRemoved: bool, written: bool)
      returns (r: Result<bool, ErrorCode>)
      requires Valid()
      modifies store
      ensures Valid() && (old(DbInv(store.file)) ==> DbInv(store.file))
      ensures store.file == if written then After(DeleteTemporaryIn(old(store.file), id, probe, directoryRemoved),
                                                  old(store.file)) else old(store.file)
      ensures var spec := DeleteTemporary(old(Records()), id, probe, directoryRemoved);
              if spec.Err? then r == Err(spec.error) && store.file == old(store.file)
              else if !written then r == Err(INTERNAL_ERROR) && store.file == old(store.file)
              else r == Ok(spec.value.removed) && Stores(store.file, old(store.file), spec.value.records)
    {
      var db := store.file;
      var i := Position(db.containers, id);
      var removed, cs := true, db.containers;
      if i != -1 {
        var c := db.containers[i];
        if c.state != Stopped || c.running {
          return Err(CONTAINER_BUSY);
        }
        if probe == ProbeFailed {
          return Err(INTERNAL_ERROR);
        }
        if probe == InUse || !directoryRemoved {
          Replaced(db, i, c.(pendingCleanup := true));
          removed, cs := false, db.containers[i := c.(pendingCleanup := true)];
        } else {
          Removed(db, i);
          cs := RemoveAt(db.containers, i);
        }
      }
      if !written {
        return Err(INTERNAL_ERROR);
      }
      store.file := db.(containers := cs);
      r := Ok(removed);
    }

    /**
     * The watcher of an exited process: only the current owner of the slot writes, and only over its own
     * PID. Whether cleanup follows is decided before the write, so it is also asked for when that fails.
     */
    method Watch(id: Id, process: Process, now: Time, written: bool) returns (temporary: bool)
      requires Valid() && !process.alive
      modifies this`processes, store
      ensures Valid() && (old(DbInv(store.file)) ==> DbInv(store.file))
      ensures store.file == if old(id in processes && processes[id] == process) && written
                            then After(WatchIn(old(store.file), id, process.pid, now), old(store.file)) else old(store.file)
      ensures processes == if old(id in processes && processes[id] == process)
                           then old(processes) - {id} else old(processes)
      ensures Stores(store.file, old(store.file),
                     if old(id in processes && processes[id] == process) && written
                     then Watched(old(Records()), id, process.pid, now) else old(Records()))
      ensures var spec := Watched(old(Records()), id, process.pid, now);
              temporary <==> && old(id in processes && processes[id] == process)
                             && id in spec && spec[id].temporary && spec[id].state == Stopped && spec[id].pid == 0
    {
      if id !in processes || processes[id] != process {
        return false;
      }
      processes := processes - {id};
      temporary := RecordExit(id, process.pid, now, written);
    }

    // The watcher's transaction.
    method RecordExit(id: Id, pid: int, now: Time, written: bool) returns (temporary: bool)
      requires Valid()
      modifies store
      ensures Valid() && (old(DbInv(store.file)) ==> DbInv(store.file))
      ensures store.file == if written then After(WatchIn(old(store.file), id, pid, now), old(store.file))
                            else old(store.file)
      ensures Stores(store.file, old(store.file), if written then Watched(old(Records()), id, pid, now) else old(Records()))
      ensures var spec := Watched(old(Records()), id, pid, now);
              temporary <==> id in spec && spec[id].temporary && spec[id].state == Stopped && spec[id].pid == 0
    {
      var db := store.file;
      for i := 0 to |db.containers|
        invariant forall k :: 0 <= k < i && db.containers[k].id == id ==>
                    var c := db.containers[k];
                    && !(c.state == Running && c.pid == pid)
                    && !(c.state == Stopped && c.pid == 0)
        invariant store.file == db
      {
        var c := db.containers[i];
        if c.id == id && c.state == Running && c.pid == pid {
          ViewAt(db.containers, i);
          Replaced(db, i, SetStopped(c, now));
          if written {
            store.file := db.(containers := db.containers[i := SetStopped(c, now)]);
          }
          return c.temporary;
        }
        if c.id == id && c.state == Stopped && c.pid == 0 {
          ViewAt(db.containers, i);
          return c.temporary;
        }
      }
      ViewOf(db.containers, id);
      temporary := false;
    }

    // What the input is checked for here; the rest of its checks concern single texts.
    method ValidateInput(config: Config) returns (mode: Result<NetworkMode, ErrorCode>)
      ensures mode == if config.automationEnabled && config.browserType == Custom
                      then Err(AUTOMATION_REQUIRES_STANDARD_BROWSER) else Ok(ConfiguredMode(config))
    {
      if config.automationEnabled && config.browserType == Custom {
        return Err(AUTOMATION_REQUIRES_STANDARD_BROWSER);
      }
      mode := Ok(if config.networkMode == NoMode then Direct else config.networkMode);
    }

    method CreateContainer(id: Id, config: Config, temporary: bool, now: Time) returns (r: Option<ErrorCode>)
      requires Valid() && id !in Records()
      modifies store
      ensures Valid() && (old(DbInv(store.file)) ==> DbInv(store.file))
      ensures store.file == After(CreateIn(old(store.file), NewContainer(id, config, temporary, now)), old(store.file))
      ensures var c := NewContainer(id, config, temporary, now);
              var spec := Create(old(Records()), c, Resolve(old(store.file), c).error);
              if spec.Err? then r == Some(spec.error) && store.file == old(store.file)
              else r == None && Stores(store.file, old(store.file), spec.value)
    {
      var input := ValidateInput(config);
      if input.Err? {
        return Some(input.error);
      }
      var c := Container(id, config.name, temporary, false, config.browserType, config.automationEnabled, Stopped, false, 0,
                         "", None, None, now, input.value, config.proxyProfileId, config.environmentTemplateId);
      var db := store.file;
      CreateInStores(db, c);
      var _, error := ResolveEffectiveEnvironment(db, c);
      if error.Some? {
        return error;
      }
      store.file := db.(containers := db.containers + [c]);
      r := None;
    }

    method UpdateContainer(id: Id, config: Config, expectedName: string, restrict: bool, now: Time)
      returns (r: Option<ErrorCode>)
      requires Valid()
      modifies store
      ensures Valid() && (old(DbInv(store.file)) ==> DbInv(store.file))
      ensures store.file == After(UpdateIn(old(store.file), id, config, expectedName, restrict, now), old(store.file))
      ensures var environment := Resolve(old(store.file), NewContainer("", config, false, now)).error;
              var spec := UpdateConfig(old(Records()), id, config, expectedName, restrict, now, environment);
              if spec.Err? then r == Some(spec.error) && store.file == old(store.file)
              else r == None && Stores(store.file, old(store.file), spec.value)
    {
      var input := ValidateInput(config);
      if input.Err? {
        return Some(input.error);
      }
      var db := store.file;
      UpdateInStores(db, id, config, expectedName, restrict, now);
      var network, error := ResolveEffectiveEnvironment(db, NewContainer("", config, false, now));
      if error.Some? {
        return error;
      }
      var i := Position(db.containers, id);
      if i == -1 {
        return Some(NOT_FOUND);
      }
      var c := db.containers[i];
      if expectedName != "" && c.name != expectedName {
        return Some(CONTAINER_NAME_MISMATCH);
      }
      if restrict && !c.automationEnabled && config.automationEnabled {
        return Some(AUTOMATION_CONSENT_REQUIRED);
      }
      c := c.(name := config.name, browserType := config.browserType, automationEnabled := config.automationEnabled,
              networkMode := input.value, proxyProfileId := config.proxyProfileId,
              environmentTemplateId := config.environmentTemplateId, updatedAt := now);
      store.file := db.(containers := db.containers[i := c]);
      r := None;
    }

    // Prepares the profile, the arguments and the browser, and ends it again when automation does not come up.
    method StartBrowser(c: Container, network: Effective, w: World)
      returns (failure: Option<ErrorCode>, prepared: Option<Prepared>, process: Process?)
      requires network.viaProxy <==> network.proxy.Some?
      ensures process != null <==> Starts(w, network, c.automationEnabled)
      ensures process != null ==> fresh(process) && process.pid == w.pid
      ensures failure.None? <==> process != null && (c.automationEnabled ==> w.automationReady)
      ensures process != null ==> (process.alive <==> failure.None?)
      ensures failure.None? ==> && prepared.Some?
                                && ServesNetwork(prepared.value, network, w.reachable, w.profile, c.name,
                                                 c.automationEnabled, w.url)
      ensures failure.Some? ==> FailureFits(failure.value, w, network, c.automationEnabled)
    {
      prepared, process := None, null;
      if !w.profileReady {
        return Some(INTERNAL_ERROR), prepared, process;
      }
      if c.automationEnabled && !w.portRemoved {
        return Some(AUTOMATION_INITIALIZATION_FAILED), prepared, process;
      }
      if !w.executableValid {
        return Some(INVALID_BROWSER_PATH), prepared, process;
      }
      var browser := PrepareBrowser(network, w.reachable, w.profile, c.name, c.automationEnabled, w.url);
      if browser.Err? {
        return Some(browser.error), prepared, process;
      }
      prepared := Some(browser.value);
      if !w.started {
        return Some(LAUNCH_FAILED), prepared, process;
      }
      process := new Process(w.pid);
      if c.automationEnabled && !w.automationReady {
        process.TerminateAndWait();
        return Some(AUTOMATION_INITIALIZATION_FAILED), prepared, process;
      }
      failure := None;
    }

    // The started process takes its slot and is committed, or is ended again and leaves the slot.
    method RegisterAndCommit(id: Id, token: Id, process: Process, w: World) returns (r: Result<Container, ErrorCode>)
      requires Valid() && process.alive && process !in processes.Values
      modifies this`processes, store, process
      ensures Valid() && (old(DbInv(store.file)) ==> DbInv(store.file))
      ensures r.Ok? <==> w.written && ReservedBy(old(Records()), id, token)
      ensures r.Err? ==> store.file == old(store.file) && !process.alive && process !in processes.Values
      ensures r.Err? ==> r.error == if id !in old(Records()) then NOT_FOUND
                                    else if ReservedBy(old(Records()), id, token) then INTERNAL_ERROR
                                    else LAUNCH_RESERVATION_LOST
      ensures r.Ok? ==> && process.alive && processes == old(processes)[id := process]
                        && Commit(old(Records()), id, token, process.pid, w.later).Ok?
                        && Stores(store.file, old(store.file), Commit(old(Records()), id, token, process.pid, w.later).value)
                        && id in Records() && r.value == Records()[id]
    {
      processes := processes[id := process];
      r := CommitLaunch(id, token, process, w.later, w.written);
      if r.Err? {
        if id in processes && processes[id] == process {
          processes := processes - {id};
        }
        process.TerminateAndWait();
      }
    }

    /** From the start of the browser to the commit or to the rollback, on the file as it is by now. */
    method StartAndCommit(c: Container, token: Id, network: Effective, w: World)
      returns (r: Result<Launched, ErrorCode>, process: Process?)
      requires Valid() && token != "" && w.pid > 0 && (network.viaProxy <==> network.proxy.Some?)
      modifies this`processes, store
      ensures Valid() && (old(DbInv(store.file)) ==> DbInv(store.file))
      ensures process != null <==> Starts(w, network, c.automationEnabled)
      ensures process != null ==> fresh(process) && process.pid == w.pid
      ensures r.Err? ==> (process != null ==> !process.alive && process !in processes.Values)
      ensures r.Err? && process == null ==> processes == old(processes)
      ensures r.Ok? <==> && process != null && (c.automationEnabled ==> w.automationReady) && w.written
                         && ReservedBy(old(Records()), c.id, token)
      ensures r.Err? && w.written ==> !ReservedBy(Records(), c.id, token)
      ensures r.Err? ==> store.file == old(store.file)
                         || Stores(store.file, old(store.file), Release(old(Records()), c.id, token, w.later))
      ensures r.Ok? ==> && process.alive && processes == old(processes)[c.id := process]
                        && Commit(old(Records()), c.id, token, w.pid, w.later).Ok?
                        && Stores(store.file, old(store.file), Commit(old(Records()), c.id, token, w.pid, w.later).value)
                        && r.value.record == Records()[c.id].(automationEnabled := c.automationEnabled)
                        && ServesNetwork(r.value.prepared, network, w.reachable, w.profile, c.name, c.automationEnabled, w.url)
      ensures !(process != null && (c.automationEnabled ==> w.automationReady)) ==>
                r.Err? && FailureFits(r.error, w, network, c.automationEnabled)
      ensures r.Err? && process != null && (c.automationEnabled ==> w.automationReady) ==>
                r.error == if c.id !in old(Records()) then NOT_FOUND
                           else if ReservedBy(old(Records()), c.id, token) then INTERNAL_ERROR else LAUNCH_RESERVATION_LOST
    {
      var failure, prepared;
      failure, prepared, process := StartBrowser(c, network, w);
      if failure.Some? {
        ReleaseReservation(c.id, token, w);
        return Err(failure.value), process;
      }
      var committed := RegisterAndCommit(c.id, token, process, w);
      if committed.Err? {
        return Err(committed.error), process;
      }
      r := Ok(Launched(committed.value.(automationEnabled := c.automationEnabled), prepared.value));
    }

    // The same from the reservation on: other hosts may have replaced the file meanwhile.
    method RunReserved(c: Container, token: Id, network: Effective, w: World, meanwhile: Database -> Database)
      returns (r: Result<Launched, ErrorCode>, process: Process?, ghost left: Database)
      requires Valid() && token != "" && w.pid > 0 && (network.viaProxy <==> network.proxy.Some?)
      requires forall db: Database :: Distinct(db.containers) ==> Distinct(meanwhile(db).containers)
      modifies this`processes, store
      ensures Valid() && Distinct(left.containers)
      ensures process != null ==> fresh(process)
      ensures r.Err? ==> (process != null ==> !process.alive && process !in processes.Values)
      ensures r.Err? && process == null ==> processes == old(processes)
      ensures r.Ok? <==> && Starts(w, network, c.automationEnabled) && (c.automationEnabled ==> w.automationReady)
                         && w.written && ReservedBy(View(left.containers), c.id, token)
      ensures r.Err? && w.written ==> !ReservedBy(Records(), c.id, token)
      ensures r.Ok? ==> && process != null && process.alive && processes == old(processes)[c.id := process]
                        && Stores(store.file, left, Commit(View(left.containers), c.id, token, w.pid, w.later).value)
                        && r.value.record == Records()[c.id].(automationEnabled := c.automationEnabled)
                        && ServesNetwork(r.value.prepared, network, w.reachable, w.profile, c.name, c.automationEnabled, w.url)
      ensures process != null <==> Starts(w, network, c.automationEnabled)
      ensures !(process != null && (c.automationEnabled ==> w.automationReady)) ==>
                r.Err? && FailureFits(r.error, w, network, c.automationEnabled)
      ensures r.Err? && process != null && (c.automationEnabled ==> w.automationReady) ==>
                r.error == if c.id !in View(left.containers) then NOT_FOUND
                           else if ReservedBy(View(left.containers), c.id, token) then INTERNAL_ERROR
                           else LAUNCH_RESERVATION_LOST
    {
      store.file := meanwhile(store.file);
      left := store.file;
      r, process := StartAndCommit(c, token, network, w);
    }

    /**
     * launch_container. Between the reservation and the commit or release other hosts may have
     * replaced the file; `meanwhile` is what they left. A failed launch leaves no live process of
     * its own and, unless the write itself failed, no reservation under its token.
     */
    method Launch(id: Id, policy: LaunchPolicy, token: Id, now: Time, view: TrustView, probe: Probe,
                  w: World, meanwhile: Database -> Database)
      returns (r: Result<Launched, ErrorCode>, process: Process?, network: Effective, ghost left: Database)
      requires Valid() && token != "" && w.pid > 0
      requires forall db: Database :: Distinct(db.containers) ==> Distinct(meanwhile(db).containers)
      modifies this`processes, store
      ensures Valid() && Distinct(left.containers)
      ensures r.Err? ==> (process != null ==> !process.alive && process !in processes.Values)
      ensures r.Err? && process == null ==> processes == old(processes)
      ensures r.Ok? ==> && process != null && process.alive && fresh(process)
                        && processes == old(processes)[id := process]
                        && ReservedBy(View(left.containers), id, token)
                        && Stores(store.file, left, Commit(View(left.containers), id, token, w.pid, w.later).value)
      ensures Refused(old(store.file), id, policy, token, now, view, probe)
              || (id in old(processes) && old(processes[id].alive)) ==>
                r.Err? && process == null && left == store.file == old(store.file)
      ensures !(Refused(old(store.file), id, policy, token, now, view, probe)
                || (id in old(processes) && old(processes[id].alive))) ==>
                && id in old(Records())
                && network == Resolve(old(store.file), old(Records())[id]).network
                && (r.Ok? <==> && Starts(w, network, EffectiveAutomation(old(Records())[id], policy))
                               && (EffectiveAutomation(old(Records())[id], policy) ==> w.automationReady) && w.written
                               && ReservedBy(View(left.containers), id, token))
                && (r.Err? && w.written ==> !ReservedBy(Records(), id, token))
                && (r.Ok? ==> && r.value.record == Records()[id].(automationEnabled := AsksAutomation(old(Records())[id], policy))
                              && ServesNetwork(r.value.prepared, network, w.reachable, w.profile, old(Records())[id].name,
                                               AsksAutomation(old(Records())[id], policy), w.url))
                && (!(process != null && (AsksAutomation(old(Records())[id], policy) ==> w.automationReady)) ==>
                      r.Err? && FailureFits(r.error, w, network, AsksAutomation(old(Records())[id], policy)))
                && (r.Err? && process != null && (AsksAutomation(old(Records())[id], policy) ==> w.automationReady) ==>
                      r.error == if id !in View(left.containers) then NOT_FOUND
                                 else if ReservedBy(View(left.containers), id, token) then INTERNAL_ERROR
                                 else LAUNCH_RESERVATION_LOST)
      ensures id in old(processes) && old(processes[id].alive) ==> r == Err(ALREADY_RUNNING)
      ensures r.Ok? ==> id in old(Records()) && Permitted(old(Records())[id], policy)
    {
      process, left := null, store.file;
      var reserved;
      reserved, network := ReserveLaunch(id, policy, token, now, view, probe);
      if reserved.Err? {
        return Err(reserved.error), null, network, left;
      }
      r, process, left := RunReserved(reserved.value, token, network, w, meanwhile);
    }

    /** close_container tells only a process this host started to end; the record is the watcher's to change. */
    method Close(id: Id, terminates: bool) returns (r: Result<Container, ErrorCode>)
      requires Valid()
      modifies if id in processes then {processes[id]} else {}
      ensures r == if id !in processes then Err(PROCESS_NOT_OWNED)
                   else if id !in Records() then Err(NOT_FOUND)
                   else if !terminates then Err(CLOSE_FAILED) else Ok(Records()[id])
      ensures r.Ok? ==> processes[id].toldToEnd
      ensures r.Err? && id in processes ==> processes[id].toldToEnd == old(processes[id].toldToEnd)
      ensures id in processes ==> processes[id].alive == old(processes[id].alive)
    {
      if id !in processes {
        return Err(PROCESS_NOT_OWNED);
      }
      var cs := store.file.containers;
      var i := Position(cs, id);
      if i == -1 {
        return Err(NOT_FOUND);
      }
      if !terminates {
        return Err(CLOSE_FAILED);
      }
      processes[id].Terminate(true);
      r := Ok(cs[i]);
    }

    method Dispose(c: Container, probe: Probe, wiped: bool, written: bool) returns (gone: bool)
      requires Valid() && Maps(Records(), c) && Disposable(c)
      modifies store
      ensures Valid() && (old(DbInv(store.file)) ==> DbInv(store.file))
      ensures gone ==> probe == Free && Records() == old(Records()) - {c.id}
      ensures !gone ==> c.id in Records() && Records() == old(Records())[c.id := Records()[c.id]]
                        && KeptPending(c, Records()[c.id])
    {
      var done := DeleteTemporaryContainer(c.id, probe, wiped, written);
      gone := done.Ok? && done.value;
    }

    // The loop over the containers as loaded after the reconciliation.
    method CleanLoaded(loaded: seq<Container>, after: map<Id, Probe>, wiped: set<Id>, written: set<Id>)
      returns (cleaned: seq<Id>, pending: seq<Id>)
      requires Valid() && loaded == store.file.containers
      modifies store
      ensures Valid() && (old(DbInv(store.file)) ==> DbInv(store.file))
      ensures Swept(View(loaded), View(loaded), Records(), cleaned, pending, after)
    {
      cleaned, pending := [], [];
      ghost var m := View(loaded);
      ViewKeys(loaded);
      for i := 0 to |loaded|
        invariant Valid() && (old(DbInv(store.file)) ==> DbInv(store.file))
        invariant Swept(m, View(loaded[..i]), Records(), cleaned, pending, after)
      {
        var c := loaded[i];
        ViewPrefix(loaded, i);
        ghost var now := Records();
        if c.temporary && c.state == Stopped && !c.running {
          SweptNext(m, View(loaded[..i]), now, cleaned, pending, after, c);
          var gone := Dispose(c, ProbeOf(after, c.id), c.id in wiped, c.id in written);
          if gone {
            SweptCleaned(m, View(loaded[..i]), now, cleaned, pending, after, c);
            cleaned := cleaned + [c.id];
          } else {
            SweptPending(m, View(loaded[..i]), now, cleaned, pending, after, c, Records()[c.id]);
            pending := pending + [c.id];
          }
        } else {
          SweptSkip(m, View(loaded[..i]), now, cleaned, pending, after, c);
        }
      }
      assert loaded[..|loaded|] == loaded;
    }

    /**
     * cleanup_temporary: every stopped temporary container of the reconciled records is either
     * gone and listed as cleaned, or kept and listed as pending; nothing else changes. wiped and written
     * are the containers whose directories can be removed and whose transactions are written.
     */
    method Cleanup(now: Time, before: map<Id, Probe>, after: map<Id, Probe>, wiped: set<Id>, written: set<Id>)
      returns (error: Option<ErrorCode>, cleaned: seq<Id>, pending: seq<Id>)
      requires Valid()
      modifies store
      ensures Valid() && (old(DbInv(store.file)) ==> DbInv(store.file))
      ensures error.Some? <==> Reconcile(old(Records()), OwnedPids(), before, now).Err?
      ensures error.Some? ==> store.file == old(store.file)
      ensures error.None? ==>
                var spec := Reconcile(old(Records()), OwnedPids(), before, now);
                && spec.Ok?
                && Swept(spec.value, spec.value, Records(), cleaned, pending, after)
    {
      cleaned, pending := [], [];
      error := ReconcileAll(now, before);
      if error.Some? {
        return;
      }
      cleaned, pending := CleanLoaded(store.file.containers, after, wiped, written);
    }
  }

  // Reconciliation in the file and of the records are the same.
  lemma ReconcileInStores(db: Database, owned: map<Id, int>, probes: map<Id, Probe>, now: Time)
    requires Distinct(db.containers)
    ensures var spec, r := Reconcile(View(db.containers), owned, probes, now), ReconcileIn(db, owned, probes, now);
            if spec.Err? then r == Err(spec.error)
            else r.Ok? && Stores(r.value, db, spec.value) && (DbInv(db) ==> DbInv(r.value))
  {
    var before := db.containers;
    if LookFailed(before, owned, probes, now) {
      var c :| c in before && NeedsProbe(c, owned, now) && ProbeOf(probes, c.id).ProbeFailed?;
      var k :| 0 <= k < |before| && before[k] == c;
      ViewAt(before, k);
      assert c.id in View(before) && View(before)[c.id] == c;
    } else {
      var cs := ReconciledContainers(before, owned, probes, now);
      forall k | 0 <= k < |before|
        ensures !(NeedsProbe(before[k], owned, now) && ProbeOf(probes, before[k].id).ProbeFailed?)
        ensures cs[k].id == before[k].id && SameConfig(cs[k], before[k])
      {
        assert before[k] in before;
        ReconciledConfig(before[k], owned, ProbeOf(probes, before[k].id), now);
      }
      ReconciledView(before, cs, owned, probes, now);
      Reconfigured(db, cs);
    }
  }

  lemma ReconciledView(before: seq<Container>, cs: seq<Container>, owned: map<Id, int>, probes: map<Id, Probe>, now: Time)
    requires Distinct(before) && |cs| == |before|
    requires forall k :: 0 <= k < |before| ==>
               && !(NeedsProbe(before[k], owned, now) && ProbeOf(probes, before[k].id).ProbeFailed?)
               && cs[k] == ReconcileOne(before[k], owned, ProbeOf(probes, before[k].id), now)
    ensures Distinct(cs) && Reconcile(View(before), owned, probes, now) == Ok(View(cs))
  {
    var m := View(before);
    forall id | id in m ensures !(NeedsProbe(m[id], owned, now) && ProbeOf(probes, id).ProbeFailed?) {
      var k := ViewFrom(before, id);
      ViewAt(before, k);
    }
    var r := Reconcile(m, owned, probes, now);
    forall k | 0 <= k < |cs| ensures cs[k].id == before[k].id && Maps(r.value, cs[k]) {
      ViewAt(before, k);
    }
    forall id | id in r.value ensures Listed(cs, id) {
      var k := ViewFrom(before, id);
      assert cs[k].id == id;
    }
    ViewIsDetermined(cs, r.value);
  }
}
