/**
 * What the lifecycle transactions promise their callers, in terms of the record's fields: when each
 * succeeds, which error says what, what is written and what is left alone.
 */
module LaunchRules {
  import opened Prelude
  import opened Records
  import opened LaunchSpec

  // What resolving the environment and checking the certificates can report.
  const ENVIRONMENT_ERRORS: set<ErrorCode> :=
    {ENVIRONMENT_TEMPLATE_NOT_FOUND, INVALID_NETWORK_CONFIGURATION, INVALID_NETWORK_MODE, PROXY_PROFILE_NOT_FOUND,
     PROXY_PROFILE_DISABLED, CERTIFICATE_NOT_FOUND, CERTIFICATE_DER_MISSING_OR_MISMATCHED,
     CERTIFICATE_TRUST_VERIFICATION_FAILED, CERTIFICATE_NOT_READY}

  // The caller's wish about automation, and else the container's own setting.
  predicate AsksAutomation(c: Container, policy: LaunchPolicy) {
    policy.automationEnabled == Some(true) || (policy.automationEnabled == None && c.automationEnabled)
  }

  predicate NameAgrees(c: Container, policy: LaunchPolicy) {
    policy.expectedName in {"", c.name}
  }

  predicate NeedsConsent(c: Container, policy: LaunchPolicy) {
    policy.restrictAutomationEnable && AsksAutomation(c, policy) && !c.automationEnabled
  }

  predicate TypeAllowed(c: Container, policy: LaunchPolicy) {
    policy.requireStandardType ==> c.browserType != Custom
  }

  /** Whom a container may be launched for: its name, its browser, and the consent to automation. */
  predicate Permitted(c: Container, policy: LaunchPolicy) {
    && NameAgrees(c, policy) && TypeAllowed(c, policy)
    && (AsksAutomation(c, policy) ==> c.browserType != Custom)
    && (policy.restrictAutomationEnable && AsksAutomation(c, policy) ==> c.automationEnabled)
  }

  // A launch has reserved it and its time is not over.
  predicate StillReserved(c: Container, now: Time) {
    && c.state == Launching
    && now <= LAUNCH_RESERVATION_TTL + if c.launchReservedAt.Some? then c.launchReservedAt.value else c.updatedAt
  }

  predicate OwnedProcess(c: Container, owned: map<Id, int>) {
    c.pid > 0 && c.id in owned && owned[c.id] == c.pid
  }

  // Nobody is known to launch or to watch it any more.
  predicate Abandoned(c: Container, owned: map<Id, int>, now: Time) {
    (c.state == Launching && !StillReserved(c, now)) || (c.state == Running && !OwnedProcess(c, owned))
  }

  predicate SameSettings(c: Container, d: Container) {
    && d.id == c.id && d.name == c.name && d.temporary == c.temporary && d.browserType == c.browserType
    && d.automationEnabled == c.automationEnabled && d.networkMode == c.networkMode
    && d.proxyProfileId == c.proxyProfileId && d.environmentTemplateId == c.environmentTemplateId
  }

  predicate SameLifecycle(c: Container, d: Container) {
    && d.state == c.state && d.running == c.running && d.pid == c.pid && d.launchToken == c.launchToken
    && d.launchReservedAt == c.launchReservedAt && d.lastLaunchedAt == c.lastLaunchedAt
    && d.pendingCleanup == c.pendingCleanup && d.temporary == c.temporary && d.id == c.id
  }

  // The record `d` is `c` brought to rest: nothing points to a process or a launch, all settings are kept.
  predicate PutToRest(c: Container, d: Container, now: Time) {
    && d.state == Stopped && !d.running && d.pid == 0 && d.launchToken == "" && d.launchReservedAt == None
    && d.updatedAt == now && SameSettings(c, d) && d.pendingCleanup == c.pendingCleanup
    && d.lastLaunchedAt == c.lastLaunchedAt
  }

  // ---- reserve, commit, release, watch ----

  /** A reservation needs all of this and no more, and writes one record. */
  lemma ReservesExactly(m: ContainerMap, id: Id, policy: LaunchPolicy, token: Id, now: Time,
                        environment: Option<ErrorCode>, probe: Probe)
    ensures var r := Reserve(m, id, policy, token, now, environment, probe);
            && (r.Ok? <==> && id in m && Permitted(m[id], policy) && !StillReserved(m[id], now)
                           && environment.None? && probe == Free)
            && (r.Ok? ==> && id in r.value && r.value == m[id := r.value[id]] && SameSettings(m[id], r.value[id])
                          && r.value[id].state == Launching && r.value[id].launchToken == token
                          && r.value[id].launchReservedAt == Some(now) && r.value[id].updatedAt == now
                          && !r.value[id].running && r.value[id].pid == 0 && !r.value[id].pendingCleanup
                          && r.value[id].lastLaunchedAt == m[id].lastLaunchedAt)
  {
  }

  /** Each refusal by policy has its own code, and the earlier ones win. */
  lemma PolicyRefusals(m: ContainerMap, id: Id, policy: LaunchPolicy, token: Id, now: Time,
                       environment: Option<ErrorCode>, probe: Probe)
    requires id in m && (environment.Some? ==> environment.value in ENVIRONMENT_ERRORS)
    ensures var c, r := m[id], Reserve(m, id, policy, token, now, environment, probe);
            && (r == Err(CONTAINER_NAME_MISMATCH) <==> !NameAgrees(c, policy))
            && (r == Err(CUSTOM_BROWSER_REQUIRES_HUMAN_LAUNCH) <==> NameAgrees(c, policy) && !TypeAllowed(c, policy))
            && (r == Err(AUTOMATION_CONSENT_REQUIRED) <==>
                  NameAgrees(c, policy) && TypeAllowed(c, policy) && NeedsConsent(c, policy))
            && (r == Err(AUTOMATION_REQUIRES_STANDARD_BROWSER) <==>
                  && NameAgrees(c, policy) && TypeAllowed(c, policy) && !NeedsConsent(c, policy)
                  && AsksAutomation(c, policy) && c.browserType == Custom)
  {
  }

  /** And so has each refusal by the record's state, the environment and the profile markers. */
  lemma StateRefusals(m: ContainerMap, id: Id, policy: LaunchPolicy, token: Id, now: Time,
                      environment: Option<ErrorCode>, probe: Probe)
    requires environment.Some? ==> environment.value in ENVIRONMENT_ERRORS
    ensures var r := Reserve(m, id, policy, token, now, environment, probe);
            && (r == Err(NOT_FOUND) <==> id !in m)
            && (r == Err(ALREADY_LAUNCHING) <==> id in m && Permitted(m[id], policy) && StillReserved(m[id], now))
            && (environment.Some? ==>
                  (r == Err(environment.value) <==> id in m && Permitted(m[id], policy) && !StillReserved(m[id], now)))
    ensures var r := Reserve(m, id, policy, token, now, environment, probe);
            var passed := id in m && Permitted(m[id], policy) && !StillReserved(m[id], now) && environment.None?;
            && (r == Err(INTERNAL_ERROR) <==> passed && probe == ProbeFailed)
            && (r == Err(ALREADY_RUNNING) <==>
                  passed && probe == InUse && m[id].state != Launching && (m[id].state == Running || m[id].running))
            && (r == Err(PROFILE_IN_USE) <==>
                  passed && probe == InUse && (m[id].state == Launching || (m[id].state != Running && !m[id].running)))
  {
  }

  /** A commit succeeds exactly for the holder of the reservation, and writes the process into its record. */
  lemma CommitsExactly(m: ContainerMap, id: Id, token: Id, pid: int, now: Time)
    ensures var r := Commit(m, id, token, pid, now);
            && (r.Ok? <==> id in m && m[id].state == Launching && m[id].launchToken == token)
            && (r.Err? ==> r.error == if id in m then LAUNCH_RESERVATION_LOST else NOT_FOUND)
            && (r.Ok? ==> && id in r.value && r.value == m[id := r.value[id]] && SameSettings(m[id], r.value[id])
                          && r.value[id].state == Running && r.value[id].running && r.value[id].pid == pid
                          && r.value[id].launchToken == "" && r.value[id].launchReservedAt == None
                          && r.value[id].lastLaunchedAt == Some(now) && r.value[id].updatedAt == now
                          && !r.value[id].pendingCleanup)
  {
  }

  // Exactly when `stops`, this record comes to rest; all others stay.
  predicate RestsWhen(m: ContainerMap, n: ContainerMap, id: Id, stops: bool, now: Time) {
    if stops then id in m && id in n && n == m[id := n[id]] && PutToRest(m[id], n[id], now) else n == m
  }

  /** A release stops the reservation it holds, and the watcher the record of its own process, and nothing else. */
  lemma StopsExactly(m: ContainerMap, id: Id, token: Id, pid: int, now: Time)
    ensures RestsWhen(m, Release(m, id, token, now), id,
                      id in m && m[id].state == Launching && m[id].launchToken == token, now)
    ensures RestsWhen(m, Watched(m, id, pid, now), id, id in m && m[id].state == Running && m[id].pid == pid, now)
  {
  }

  // ---- reconciliation ----

  // What becomes of one record: an abandoned one with a free profile comes to rest, any other stays.
  predicate ReconciledTo(c: Container, d: Container, owned: map<Id, int>, probe: Probe, now: Time) {
    if Abandoned(c, owned, now) && probe == Free then PutToRest(c, d, now) else d == c
  }

  /**
   * Reconciliation stops a running record whose process this host does not own and a launch whose time is
   * over, if the profile is found free, and fails exactly when the look at one of those fails.
   */
  lemma ReconcilesExactly(m: ContainerMap, owned: map<Id, int>, probes: map<Id, Probe>, now: Time)
    ensures var r := Reconcile(m, owned, probes, now);
            && (r.Err? <==> exists id :: id in m && Abandoned(m[id], owned, now)
                                         && (id !in probes || probes[id] == ProbeFailed))
            && (r.Err? ==> r.error == INTERNAL_ERROR)
            && (r.Ok? ==> && r.value.Keys == m.Keys
                          && forall id :: id in m ==> ReconciledTo(m[id], r.value[id], owned, ProbeOf(probes, id), now))
  {
    forall id | id in m ensures Abandoned(m[id], owned, now) <==> NeedsProbe(m[id], owned, now) {
    }
  }

  // ---- deletion ----

  /** A container is deleted exactly when nobody launches or owns it, its profile is free and its directory went. */
  lemma DeletesExactly(m: ContainerMap, id: Id, owned: map<Id, int>, probe: Probe, directoryRemoved: bool)
    ensures var r := Delete(m, id, owned, probe, directoryRemoved);
            && (r.Ok? <==> && id in m && m[id].state != Launching
                           && ((m[id].state == Running || m[id].running) ==> !OwnedProcess(m[id], owned))
                           && probe == Free && directoryRemoved)
            && (r.Ok? ==> r.value == m - {id})
  {
  }

  lemma DeletionRefusals(m: ContainerMap, id: Id, owned: map<Id, int>, probe: Probe, directoryRemoved: bool)
    ensures var r := Delete(m, id, owned, probe, directoryRemoved);
            && (r == Err(NOT_FOUND) <==> id !in m)
            && (r == Err(CONTAINER_BUSY) <==> id in m && m[id].state == Launching)
            && (id in m && m[id].state != Launching ==>
                  var running := m[id].state == Running || m[id].running;
                  var mine := running && OwnedProcess(m[id], owned);
                  && (r == Err(CONTAINER_RUNNING) <==> mine || (running && probe == InUse))
                  && (r == Err(INTERNAL_ERROR) <==> !mine && probe == ProbeFailed)
                  && (r == Err(PROFILE_IN_USE) <==> !running && probe == InUse)
                  && (r == Err(DELETE_FAILED) <==> !mine && probe == Free && !directoryRemoved))
  {
  }

  /** A temporary container goes, or stays marked for later; one that is not at rest is left alone. */
  lemma DeletesTemporaryExactly(m: ContainerMap, id: Id, probe: Probe, directoryRemoved: bool)
    ensures var r := DeleteTemporary(m, id, probe, directoryRemoved);
            && (id !in m ==> r == Ok(Cleaned(m, true)))
            && (id in m ==>
                  var rests := m[id].state == Stopped && !m[id].running;
                  && (r == Err(CONTAINER_BUSY) <==> !rests)
                  && (r == Err(INTERNAL_ERROR) <==> rests && probe == ProbeFailed)
                  && (r.Ok? && r.value.removed <==> rests && probe == Free && directoryRemoved)
                  && (r.Ok? ==> if r.value.removed then r.value.records == m - {id}
                                else && id in r.value.records && r.value.records == m[id := r.value.records[id]]
                                     && SameSettings(m[id], r.value.records[id]) && r.value.records[id].pendingCleanup
                                     && SameLifecycle(m[id].(pendingCleanup := true), r.value.records[id])
                                     && r.value.records[id].updatedAt == m[id].updatedAt))
  {
  }

  // ---- configuration ----

  // The settings are those asked for; an empty mode means direct.
  predicate HasConfig(d: Container, config: Config) {
    && d.name == config.name && d.browserType == config.browserType && d.automationEnabled == config.automationEnabled
    && d.networkMode == (if config.networkMode == NoMode then Direct else config.networkMode)
    && d.proxyProfileId == config.proxyProfileId && d.environmentTemplateId == config.environmentTemplateId
  }

  /** A new container is at rest with the settings asked for; automation needs a standard browser. */
  lemma CreatesExactly(m: ContainerMap, id: Id, config: Config, temporary: bool, now: Time, environment: Option<ErrorCode>)
    ensures var c := NewContainer(id, config, temporary, now);
            && c.id == id && c.temporary == temporary && HasConfig(c, config) && c.state == Stopped && !c.running
            && c.pid == 0 && c.launchToken == "" && c.launchReservedAt == None && c.lastLaunchedAt == None
            && !c.pendingCleanup && c.updatedAt == now
    ensures var c := NewContainer(id, config, temporary, now); var r := Create(m, c, environment);
            && (r.Ok? <==> environment.None? && !(config.automationEnabled && config.browserType == Custom))
            && (r.Ok? ==> id in r.value && r.value[id] == c && r.value == m[id := c])
            && (r.Err? ==> r.error == if config.automationEnabled && config.browserType == Custom
                                      then AUTOMATION_REQUIRES_STANDARD_BROWSER else environment.value)
  {
  }

  /** An update changes the settings of one container and nothing of its lifecycle, each refusal having its code. */
  lemma UpdatesExactly(m: ContainerMap, id: Id, config: Config, expectedName: string, restrict: bool, now: Time,
                       environment: Option<ErrorCode>)
    requires environment.Some? ==> environment.value in ENVIRONMENT_ERRORS
    ensures var r := UpdateConfig(m, id, config, expectedName, restrict, now, environment);
            && (r.Ok? ==> && id in m && id in r.value && r.value == m[id := r.value[id]]
                          && HasConfig(r.value[id], config) && SameLifecycle(m[id], r.value[id])
                          && r.value[id].updatedAt == now)
            && (r == Err(AUTOMATION_REQUIRES_STANDARD_BROWSER) <==> config.automationEnabled && config.browserType == Custom)
    ensures var r := UpdateConfig(m, id, config, expectedName, restrict, now, environment);
            !(config.automationEnabled && config.browserType == Custom) ==>
              if environment.Some? then r == Err(environment.value)
              else
                && (r == Err(NOT_FOUND) <==> id !in m)
                && (r == Err(CONTAINER_NAME_MISMATCH) <==> id in m && expectedName !in {"", m[id].name})
                && (r == Err(AUTOMATION_CONSENT_REQUIRED) <==>
                      && id in m && expectedName in {"", m[id].name}
                      && restrict && config.automationEnabled && !m[id].automationEnabled)
                && (r.Ok? <==> && id in m && expectedName in {"", m[id].name}
                               && (restrict && config.automationEnabled ==> m[id].automationEnabled))
  {
  }

  /** No lifecycle transaction ever changes what the user configured. */
  lemma LifecycleKeepsSettings(m: ContainerMap, n: ContainerMap, id: Id, owned: map<Id, int>, probes: map<Id, Probe>,
                               policy: LaunchPolicy, token: Id, pid: int, now: Time, environment: Option<ErrorCode>,
                               probe: Probe, done: bool)
    requires || Reserve(m, id, policy, token, now, environment, probe) == Ok(n) || Commit(m, id, token, pid, now) == Ok(n)
             || n == Release(m, id, token, now) || n == Watched(m, id, pid, now) || Reconcile(m, owned, probes, now) == Ok(n)
             || (DeleteTemporary(m, id, probe, done).Ok? && DeleteTemporary(m, id, probe, done).value.records == n)
    ensures forall k :: k in n ==> k in m && SameSettings(m[k], n[k])
  {
  }
}
