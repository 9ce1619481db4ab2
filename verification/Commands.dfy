/** The commands that write metadata, and the database each leaves behind. */
module Commands {
  import opened Prelude
  import opened Records
  import opened LaunchSpec
  import opened LaunchGate
  import opened CertificateSpec
  import opened Transactions

  // Where the host runs: manual acknowledgment is for Linux, and there the trust store is unsupported.
  datatype Machine = Machine(linux: bool, trustStore: bool)

  predicate Sane(machine: Machine) {
    !(machine.linux && machine.trustStore)
  }

  datatype Command =
    | Reserve(id: Id, policy: LaunchPolicy, token: Id, now: Time, view: TrustView, probe: Probe)
    | Commit(id: Id, token: Id, pid: int, now: Time)
    | Release(id: Id, token: Id, now: Time)
    | Watch(id: Id, pid: int, now: Time)
    | Reconcile(owned: map<Id, int>, probes: map<Id, Probe>, now: Time)
    | Delete(id: Id, owned: map<Id, int>, probe: Probe, directoryRemoved: bool)
    | DeleteTemporary(id: Id, probe: Probe, directoryRemoved: bool)
    | Create(id: Id, config: Config, temporary: bool, now: Time)
    | Update(id: Id, config: Config, expectedName: string, restrict: bool, now: Time)
    | CreateProxy(id: Id, proxy: ProxyProfile)
    | UpdateProxy(proxy: ProxyProfile)
    | DeleteProxy(id: Id)
    | CreateTemplate(id: Id, template: EnvironmentTemplate)
    | UpdateTemplate(template: EnvironmentTemplate)
    | DeleteTemplate(id: Id)
    | InstallIntent(id: Id, token: Id, readable: bool, verify: Answer, now: Time)
    | RemoveIntent(id: Id, token: Id, readable: bool, now: Time)
    | FinishInstall(id: Id, token: Id, wasOwned: bool, already: bool, now: Time)
    | FinishRemoval(id: Id, token: Id, now: Time)
    | MarkError(id: Id, token: Id, message: string, now: Time)
    | RecoverTrust(answers: map<Id, Answer>, now: Time)
    | Acknowledge(id: Id, fingerprint: Fingerprint, now: Time)
    | Import(id: Id, fingerprint: Fingerprint, now: Time)
    | Tombstone(id: Id, op: Id)
    | Drop(id: Id, op: Id)
    | Untomb(op: Id)
    | MarkTomb(op: Id, message: string)
    | Rewrite

  predicate ChangesTrust(c: Command) {
    c.InstallIntent? || c.RemoveIntent? || c.FinishInstall? || c.FinishRemoval? || c.MarkError? || c.RecoverTrust?
  }

  function PerformContainer(c: Command, db: Database): Outcome {
    match c
    case Reserve(id, policy, token, now, view, probe) => ReserveIn(db, id, policy, token, now, view, probe)
    case Commit(id, token, pid, now) => CommitIn(db, id, token, pid, now)
    case Release(id, token, now) => ReleaseIn(db, id, token, now)
    case Watch(id, pid, now) => WatchIn(db, id, pid, now)
    case Reconcile(owned, probes, now) => ReconcileIn(db, owned, probes, now)
    case Delete(id, owned, probe, removed) => DeleteIn(db, id, owned, probe, removed)
    case DeleteTemporary(id, probe, removed) => DeleteTemporaryIn(db, id, probe, removed)
    case Create(id, config, temporary, now) => CreateIn(db, NewContainer(id, config, temporary, now))
    case Update(id, config, expectedName, restrict, now) => UpdateIn(db, id, config, expectedName, restrict, now)
    case _ => Ok(db)
  }

  function PerformReference(c: Command, db: Database): Outcome {
    match c
    case CreateProxy(id, proxy) => CreateProxyIn(db, id, proxy)
    case UpdateProxy(proxy) => UpdateProxyIn(db, proxy)
    case DeleteProxy(id) => DeleteProxyIn(db, id)
    case CreateTemplate(id, template) => CreateTemplateIn(db, id, template)
    case UpdateTemplate(template) => UpdateTemplateIn(db, template)
    case DeleteTemplate(id) => DeleteTemplateIn(db, id)
    case _ => Ok(db)
  }

  function PerformTrust(c: Command, db: Database): Outcome {
    match c
    case InstallIntent(id, token, readable, verify, now) => InstallIntentIn(db, id, token, readable, verify, now)
    case RemoveIntent(id, token, readable, now) => RemoveIntentIn(db, id, token, readable, now)
    case FinishInstall(id, token, owned, already, now) => FinishInstallIn(db, id, token, owned, already, now)
    case FinishRemoval(id, token, now) => FinishRemovalIn(db, id, token, now)
    case MarkError(id, token, message, now) => MarkErrorIn(db, id, token, message, now)
    case RecoverTrust(answers, now) => RecoverIn(db, answers, now)
    case _ => Ok(db)
  }

  function PerformLibrary(c: Command, db: Database): Outcome {
    match c
    case Import(id, fingerprint, now) => ImportIn(db, ImportedCertificate(id, fingerprint, now))
    case Tombstone(id, op) => TombstoneIn(db, id, op)
    case Drop(id, op) => DropIn(db, id, op)
    case Untomb(op) => UntombIn(db, op)
    case MarkTomb(op, message) => MarkTombIn(db, op, message)
    case _ => Ok(db)
  }

  predicate OfContainers(c: Command) {
    || c.Reserve? || c.Commit? || c.Release? || c.Watch? || c.Reconcile? || c.Delete? || c.DeleteTemporary?
    || c.Create? || c.Update?
  }

  predicate OfReferences(c: Command) {
    || c.CreateProxy? || c.UpdateProxy? || c.DeleteProxy? || c.CreateTemplate? || c.UpdateTemplate? || c.DeleteTemplate?
  }

  /** One command's transaction; Rewrite is the migration, which stores what was loaded. */
  function Perform(machine: Machine, c: Command, db: Database): Outcome {
    if OfContainers(c) then PerformContainer(c, db)
    else if OfReferences(c) then PerformReference(c, db)
    else if ChangesTrust(c) then
      if machine.trustStore then PerformTrust(c, db) else Err(CERTIFICATE_TRUST_UNSUPPORTED)
    else if c.Acknowledge? then
      if machine.linux then AcknowledgeIn(db, c.id, c.fingerprint, c.now)
      else Err(MANUAL_TRUST_ACKNOWLEDGMENT_UNSUPPORTED)
    else PerformLibrary(c, db)
  }
}
