/**
 * The metadata transactions of the container lifecycle, each as a function of the stored
 * records. The same functions are the atomic steps of LaunchProtocol and the
 * specification of the loops in LaunchHandlers.
 */
module LaunchSpec {
  import opened Prelude
  import opened Records

  type ContainerMap = map<Id, Container>

  // What inspecting the browser's profile markers answered during one transaction.
  datatype Probe = Free | InUse | ProbeFailed

  datatype LaunchPolicy = LaunchPolicy(
    expectedName: string,
    requireStandardType: bool,
    restrictAutomationEnable: bool,
    automationEnabled: Option<bool>)

  datatype Config = Config(
    name: string,
    browserType: BrowserType,
    automationEnabled: bool,
    networkMode: NetworkMode,
    proxyProfileId: Id,
    environmentTemplateId: Id)

  /** The record shape every mutator keeps. */
  predicate Shape(c: Container) {
    && c.state in {Stopped, Launching, Running}
    && (c.running <==> c.state == Running)
    && (c.launchToken != "" <==> c.state == Launching)
    && (c.launchReservedAt.Some? <==> c.state == Launching)
    && (c.pid != 0 ==> c.state == Running)
    && (c.automationEnabled ==> IsStandardBrowserType(c.browserType))
  }

  function SetStopped(c: Container, now: Time): Container {
    c.(state := Stopped, running := false, pid := 0, launchToken := "", launchReservedAt := None, updatedAt := now)
  }

  function ReservedAt(c: Container): Time {
    if c.launchReservedAt.Some? then c.launchReservedAt.value else c.updatedAt
  }

  predicate Expired(c: Container, now: Time) {
    now - ReservedAt(c) > LAUNCH_RESERVATION_TTL
  }

  predicate IsStandardBrowserType(b: BrowserType) {
    b != Custom
  }

  // A marker that was not looked at in this transaction can justify nothing.
  function ProbeOf(probes: map<Id, Probe>, id: Id): Probe {
    if id in probes then probes[id] else ProbeFailed
  }

  function EffectiveAutomation(c: Container, policy: LaunchPolicy): bool {
    if policy.automationEnabled.Some? then policy.automationEnabled.value else c.automationEnabled
  }

  /** The checks on the current record before its lifecycle is looked at. */
  function PolicyError(c: Container, policy: LaunchPolicy): Option<ErrorCode> {
    var automation := EffectiveAutomation(c, policy);
    if policy.expectedName != "" && c.name != policy.expectedName then Some(CONTAINER_NAME_MISMATCH)
    else if policy.requireStandardType && !IsStandardBrowserType(c.browserType) then
      Some(CUSTOM_BROWSER_REQUIRES_HUMAN_LAUNCH)
    else if policy.restrictAutomationEnable && automation && !c.automationEnabled then
      Some(AUTOMATION_CONSENT_REQUIRED)
    else if automation && !IsStandardBrowserType(c.browserType) then Some(AUTOMATION_REQUIRES_STANDARD_BROWSER)
    else None
  }

  function ReserveOne(c: Container, policy: LaunchPolicy, token: Id, now: Time,
                      environment: Option<ErrorCode>, probe: Probe): Result<Container, ErrorCode>
  {
    var refused := PolicyError(c, policy);
    if refused.Some? then Err(refused.value)
    else if c.state == Launching && !Expired(c, now) then Err(ALREADY_LAUNCHING)
    else
      var d := if c.state == Launching then SetStopped(c, now) else c;
      var wasRunning := d.state == Running || d.running;
      if environment.Some? then Err(environment.value)
      else if probe.ProbeFailed? then Err(INTERNAL_ERROR)
      else if probe.InUse? then Err(if wasRunning then ALREADY_RUNNING else PROFILE_IN_USE)
      else
        Ok(d.(state := Launching, running := false, pid := 0, launchToken := token,
              launchReservedAt := Some(now), updatedAt := now, pendingCleanup := false))
  }

  function Reserve(m: ContainerMap, id: Id, policy: LaunchPolicy, token: Id, now: Time,
                   environment: Option<ErrorCode>, probe: Probe): Result<ContainerMap, ErrorCode>
  {
    if id !in m then Err(NOT_FOUND)
    else
      var r := ReserveOne(m[id], policy, token, now, environment, probe);
      if r.Err? then Err(r.error) else Ok(m[id := r.value])
  }

  predicate ReservedBy(m: ContainerMap, id: Id, token: Id) {
    id in m && m[id].state == Launching && m[id].launchToken == token
  }

  function CommitOne(c: Container, token: Id, pid: int, now: Time): Result<Container, ErrorCode> {
    if c.state != Launching || c.launchToken != token then Err(LAUNCH_RESERVATION_LOST)
    else
      Ok(c.(state := Running, running := true, pid := pid, launchToken := "", launchReservedAt := None,
            lastLaunchedAt := Some(now), updatedAt := now, pendingCleanup := false))
  }

  function Commit(m: ContainerMap, id: Id, token: Id, pid: int, now: Time): Result<ContainerMap, ErrorCode> {
    if id !in m then Err(NOT_FOUND)
    else
      var r := CommitOne(m[id], token, pid, now);
      if r.Err? then Err(r.error) else Ok(m[id := r.value])
  }

  function Release(m: ContainerMap, id: Id, token: Id, now: Time): ContainerMap {
    if ReservedBy(m, id, token)
    then m[id := SetStopped(m[id], now)]
    else m
  }

  /** The watcher's transaction after its process exited. */
  function Watched(m: ContainerMap, id: Id, pid: int, now: Time): ContainerMap {
    if id in m && m[id].state == Running && m[id].pid == pid then m[id := SetStopped(m[id], now)] else m
  }

  /** True when the record still asks for a look at the profile markers. */
  predicate NeedsProbe(c: Container, owned: map<Id, int>, now: Time) {
    || (c.state == Launching && Expired(c, now))
    || (c.state == Running && !Owns(owned, c.id, c.pid))
  }

  predicate Owns(owned: map<Id, int>, id: Id, pid: int) {
    pid > 0 && id in owned && owned[id] == pid
  }

  function ReconcileOne(c: Container, owned: map<Id, int>, probe: Probe, now: Time): Container {
    if NeedsProbe(c, owned, now) && probe.Free? then SetStopped(c, now) else c
  }

  function Reconcile(m: ContainerMap, owned: map<Id, int>, probes: map<Id, Probe>, now: Time)
    : Result<ContainerMap, ErrorCode>
  {
    if exists id :: id in m && NeedsProbe(m[id], owned, now) && ProbeOf(probes, id).ProbeFailed?
    then Err(INTERNAL_ERROR)
    else Ok(map id | id in m :: ReconcileOne(m[id], owned, ProbeOf(probes, id), now))
  }

  /** delete_container: the error that keeps the record, or None when it goes away. */
  function DeleteError(c: Container, owned: map<Id, int>, probe: Probe, directoryRemoved: bool): Option<ErrorCode> {
    var wasRunning := c.state == Running || c.running;
    if c.state == Launching then Some(CONTAINER_BUSY)
    else if wasRunning && Owns(owned, c.id, c.pid) then Some(CONTAINER_RUNNING)
    else if probe.ProbeFailed? then Some(INTERNAL_ERROR)
    else if probe.InUse? then Some(if wasRunning then CONTAINER_RUNNING else PROFILE_IN_USE)
    else if !directoryRemoved then Some(DELETE_FAILED)
    else None
  }

  function Delete(m: ContainerMap, id: Id, owned: map<Id, int>, probe: Probe, directoryRemoved: bool)
    : Result<ContainerMap, ErrorCode>
  {
    if id !in m then Err(NOT_FOUND)
    else
      var e := DeleteError(m[id], owned, probe, directoryRemoved);
      if e.Some? then Err(e.value) else Ok(m - {id})
  }

  // The stored records, and whether the caller is told the container is gone.
  datatype Cleaned = Cleaned(records: ContainerMap, removed: bool)

  function DeleteTemporary(m: ContainerMap, id: Id, probe: Probe, directoryRemoved: bool)
    : Result<Cleaned, ErrorCode>
  {
    if id !in m then Ok(Cleaned(m, true))
    else if m[id].state != Stopped || m[id].running then Err(CONTAINER_BUSY)
    else if probe.ProbeFailed? then Err(INTERNAL_ERROR)
    else if probe.InUse? || !directoryRemoved then
      Ok(Cleaned(m[id := m[id].(pendingCleanup := true)], false))
    else Ok(Cleaned(m - {id}, true))
  }

  function Create(m: ContainerMap, c: Container, environment: Option<ErrorCode>): Result<ContainerMap, ErrorCode> {
    if c.automationEnabled && !IsStandardBrowserType(c.browserType) then Err(AUTOMATION_REQUIRES_STANDARD_BROWSER)
    else if environment.Some? then Err(environment.value)
    else Ok(m[c.id := c])
  }

  // An empty mode in the input means direct.
  function ConfiguredMode(config: Config): NetworkMode {
    if config.networkMode == NoMode then Direct else config.networkMode
  }

  function NewContainer(id: Id, config: Config, temporary: bool, now: Time): Container {
    Container(id, config.name, temporary, false, config.browserType, config.automationEnabled, Stopped, false, 0,
              "", None, None, now, ConfiguredMode(config), config.proxyProfileId, config.environmentTemplateId)
  }

  function Configured(c: Container, config: Config, now: Time): Container {
    c.(name := config.name, browserType := config.browserType, automationEnabled := config.automationEnabled,
       networkMode := ConfiguredMode(config), proxyProfileId := config.proxyProfileId,
       environmentTemplateId := config.environmentTemplateId, updatedAt := now)
  }

  function UpdateConfig(m: ContainerMap, id: Id, config: Config, expectedName: string, restrict: bool, now: Time,
                        environment: Option<ErrorCode>): Result<ContainerMap, ErrorCode>
  {
    if config.automationEnabled && !IsStandardBrowserType(config.browserType) then
      Err(AUTOMATION_REQUIRES_STANDARD_BROWSER)
    else if environment.Some? then Err(environment.value)
    else if id !in m then Err(NOT_FOUND)
    else if expectedName != "" && m[id].name != expectedName then Err(CONTAINER_NAME_MISMATCH)
    else if restrict && !m[id].automationEnabled && config.automationEnabled then Err(AUTOMATION_CONSENT_REQUIRED)
    else Ok(m[id := Configured(m[id], config, now)])
  }
}
