/**
 * Every command's transaction on the metadata as a function of the loaded database: the refusal, or the
 * database to write. The handlers are proved to write exactly these.
 */
module Transactions {
  import opened Prelude
  import opened Records
  import opened LaunchSpec
  import opened Environment
  import opened LaunchGate
  import opened References
  import opened ReferenceSafety
  import opened ReferenceSpec
  import opened CertificateSpec

  type Outcome = Result<Database, ErrorCode>

  // What is in the file afterwards: a refusal writes nothing.
  function After(r: Outcome, db: Database): Database {
    if r.Ok? then r.value else db
  }

  // ---- where a record is ----

  function IndexOf<T>(s: seq<T>, key: T -> Id, id: Id): (i: int)
    ensures -1 <= i < |s|
    ensures i == -1 ==> forall k :: 0 <= k < |s| ==> key(s[k]) != id
    ensures i != -1 ==> key(s[i]) == id && forall k :: 0 <= k < i ==> key(s[k]) != id
  {
    if s == [] then -1
    else if key(s[0]) == id then 0
    else
      var i := IndexOf(s[1..], key, id);
      if i == -1 then -1 else i + 1
  }

  function ContainerAt(cs: seq<Container>, id: Id): (i: int)
    ensures -1 <= i < |cs|
    ensures i == -1 ==> forall k :: 0 <= k < |cs| ==> cs[k].id != id
    ensures i != -1 ==> cs[i].id == id && forall k :: 0 <= k < i ==> cs[k].id != id
  {
    IndexOf(cs, (c: Container) => c.id, id)
  }

  function ProxyAt(ps: seq<ProxyProfile>, id: Id): (i: int)
    ensures -1 <= i < |ps|
    ensures i == -1 ==> forall k :: 0 <= k < |ps| ==> ps[k].id != id
    ensures i != -1 ==> ps[i].id == id && forall k :: 0 <= k < i ==> ps[k].id != id
  {
    IndexOf(ps, (p: ProxyProfile) => p.id, id)
  }

  function TemplateAt(ts: seq<EnvironmentTemplate>, id: Id): (i: int)
    ensures -1 <= i < |ts|
    ensures i == -1 ==> forall k :: 0 <= k < |ts| ==> ts[k].id != id
    ensures i != -1 ==> ts[i].id == id && forall k :: 0 <= k < i ==> ts[k].id != id
  {
    IndexOf(ts, (t: EnvironmentTemplate) => t.id, id)
  }

  function CertificateAt(cs: seq<Certificate>, id: Id): (i: int)
    ensures -1 <= i < |cs|
    ensures i == -1 ==> forall k :: 0 <= k < |cs| ==> cs[k].id != id
    ensures i != -1 ==> cs[i].id == id && forall k :: 0 <= k < i ==> cs[k].id != id
  {
    IndexOf(cs, (c: Certificate) => c.id, id)
  }

  function OpAt(ops: seq<DeletionOp>, op: Id): (i: int)
    ensures -1 <= i < |ops|
    ensures i == -1 ==> forall k :: 0 <= k < |ops| ==> ops[k].operationId != op
    ensures i != -1 ==> ops[i].operationId == op && forall k :: 0 <= k < i ==> ops[k].operationId != op
  {
    IndexOf(ops, (x: DeletionOp) => x.operationId, op)
  }

  // ---- containers ----

  function PutContainer(db: Database, i: nat, c: Container): Database
    requires i < |db.containers|
  {
    db.(containers := db.containers[i := c])
  }

  function ReserveIn(db: Database, id: Id, policy: LaunchPolicy, token: Id, now: Time, view: TrustView, probe: Probe)
    : Outcome
  {
    var i := ContainerAt(db.containers, id);
    if i == -1 then Err(NOT_FOUND)
    else
      var c := db.containers[i];
      var r := ReserveOne(c, policy, token, now, EnvironmentError(db, c, view), probe);
      if r.Err? then Err(r.error) else Ok(PutContainer(db, i, r.value))
  }

  function CommitIn(db: Database, id: Id, token: Id, pid: int, now: Time): Outcome {
    var i := ContainerAt(db.containers, id);
    if i == -1 then Err(NOT_FOUND)
    else
      var r := CommitOne(db.containers[i], token, pid, now);
      if r.Err? then Err(r.error) else Ok(PutContainer(db, i, r.value))
  }

  function ReleaseIn(db: Database, id: Id, token: Id, now: Time): Outcome {
    var i := ContainerAt(db.containers, id);
    if i != -1 && db.containers[i].state == Launching && db.containers[i].launchToken == token
    then Ok(PutContainer(db, i, SetStopped(db.containers[i], now)))
    else Ok(db)
  }

  function WatchIn(db: Database, id: Id, pid: int, now: Time): Outcome {
    var i := ContainerAt(db.containers, id);
    if i != -1 && db.containers[i].state == Running && db.containers[i].pid == pid
    then Ok(PutContainer(db, i, SetStopped(db.containers[i], now)))
    else Ok(db)
  }

  function ReconciledContainers(cs: seq<Container>, owned: map<Id, int>, probes: map<Id, Probe>, now: Time)
    : (r: seq<Container>)
    ensures |r| == |cs|
    ensures forall k :: 0 <= k < |cs| ==> r[k] == ReconcileOne(cs[k], owned, ProbeOf(probes, cs[k].id), now)
  {
    seq(|cs|, k requires 0 <= k < |cs| => ReconcileOne(cs[k], owned, ProbeOf(probes, cs[k].id), now))
  }

  predicate LookFailed(cs: seq<Container>, owned: map<Id, int>, probes: map<Id, Probe>, now: Time) {
    exists c :: c in cs && NeedsProbe(c, owned, now) && ProbeOf(probes, c.id).ProbeFailed?
  }

  function ReconcileIn(db: Database, owned: map<Id, int>, probes: map<Id, Probe>, now: Time): Outcome {
    if LookFailed(db.containers, owned, probes, now) then Err(INTERNAL_ERROR)
    else Ok(db.(containers := ReconciledContainers(db.containers, owned, probes, now)))
  }

  function DeleteIn(db: Database, id: Id, owned: map<Id, int>, probe: Probe, directoryRemoved: bool): Outcome {
    var i := ContainerAt(db.containers, id);
    if i == -1 then Err(NOT_FOUND)
    else
      var e := DeleteError(db.containers[i], owned, probe, directoryRemoved);
      if e.Some? then Err(e.value) else Ok(db.(containers := RemoveAt(db.containers, i)))
  }

  function DeleteTemporaryIn(db: Database, id: Id, probe: Probe, directoryRemoved: bool): Outcome {
    var i := ContainerAt(db.containers, id);
    if i == -1 then Ok(db)
    else
      var c := db.containers[i];
      if c.state != Stopped || c.running then Err(CONTAINER_BUSY)
      else if probe.ProbeFailed? then Err(INTERNAL_ERROR)
      else if probe.InUse? || !directoryRemoved then Ok(PutContainer(db, i, c.(pendingCleanup := true)))
      else Ok(db.(containers := RemoveAt(db.containers, i)))
  }

  function CreateIn(db: Database, c: Container): Outcome {
    var error := Resolve(db, c).error;
    if c.automationEnabled && !IsStandardBrowserType(c.browserType) then Err(AUTOMATION_REQUIRES_STANDARD_BROWSER)
    else if error.Some? then Err(error.value)
    else Ok(db.(containers := db.containers + [c]))
  }

  function UpdateIn(db: Database, id: Id, config: Config, expectedName: string, restrict: bool, now: Time): Outcome {
    var error := Resolve(db, NewContainer("", config, false, now)).error;
    var i := ContainerAt(db.containers, id);
    if config.automationEnabled && !IsStandardBrowserType(config.browserType) then
      Err(AUTOMATION_REQUIRES_STANDARD_BROWSER)
    else if error.Some? then Err(error.value)
    else if i == -1 then Err(NOT_FOUND)
    else
      var c := db.containers[i];
      if expectedName != "" && c.name != expectedName then Err(CONTAINER_NAME_MISMATCH)
      else if restrict && !c.automationEnabled && config.automationEnabled then Err(AUTOMATION_CONSENT_REQUIRED)
      else Ok(PutContainer(db, i, Configured(c, config, now)))
  }

  // ---- proxies and templates ----

  function CreateProxyIn(db: Database, id: Id, input: ProxyProfile): Outcome {
    if !ProxyAllowed(input) then Err(INVALID_PROXY_PROFILE)
    else if !CertificatesStored(db, input.certificateIds) then Err(CERTIFICATE_NOT_FOUND)
    else
      Ok(db.(proxyProfiles := db.proxyProfiles + [input.(id := id, bypassRules := NonEmpty(input.bypassRules))]))
  }

  function UpdateProxyIn(db: Database, input: ProxyProfile): Outcome {
    var i := ProxyAt(db.proxyProfiles, input.id);
    if !ProxyAllowed(input) then Err(INVALID_PROXY_PROFILE)
    else if !CertificatesStored(db, input.certificateIds) then Err(CERTIFICATE_NOT_FOUND)
    else if i == -1 then Err(NOT_FOUND)
    else Ok(db.(proxyProfiles := db.proxyProfiles[i := input.(bypassRules := NonEmpty(input.bypassRules))]))
  }

  function DeleteProxyIn(db: Database, id: Id): Outcome {
    var i := ProxyAt(db.proxyProfiles, id);
    if i == -1 then Err(NOT_FOUND)
    else if ProxyUsed(db, id) then Err(PROXY_REFERENCE_IN_USE)
    else Ok(db.(proxyProfiles := RemoveAt(db.proxyProfiles, i)))
  }

  function CreateTemplateIn(db: Database, id: Id, input: EnvironmentTemplate): Outcome {
    if !TemplateAllowed(input) then Err(INVALID_TEMPLATE)
    else if TemplateError(db, input).Some? then Err(TemplateError(db, input).value)
    else Ok(db.(templates := db.templates + [input.(id := id)]))
  }

  function UpdateTemplateIn(db: Database, input: EnvironmentTemplate): Outcome {
    var i := TemplateAt(db.templates, input.id);
    if !TemplateAllowed(input) then Err(INVALID_TEMPLATE)
    else if TemplateError(db, input).Some? then Err(TemplateError(db, input).value)
    else if i == -1 then Err(NOT_FOUND)
    else Ok(db.(templates := db.templates[i := input]))
  }

  function DeleteTemplateIn(db: Database, id: Id): Outcome {
    var i := TemplateAt(db.templates, id);
    if i == -1 then Err(NOT_FOUND)
    else if TemplateUsed(db, id) then Err(TEMPLATE_REFERENCE_IN_USE)
    else Ok(db.(templates := RemoveAt(db.templates, i)))
  }

  // ---- certificate trust ----

  function PutCertificate(db: Database, i: nat, c: Certificate): Database
    requires i < |db.certificates|
  {
    db.(certificates := db.certificates[i := c])
  }

  function InstallIntentIn(db: Database, id: Id, token: Id, readable: bool, verify: Answer, now: Time): Outcome {
    var i := CertificateAt(db.certificates, id);
    if i == -1 then Err(NOT_FOUND)
    else
      var r := PrepareInstall(db.certificates[i], token, readable, verify, now);
      if r.Err? then Err(r.error) else Ok(PutCertificate(db, i, r.value))
  }

  function RemoveIntentIn(db: Database, id: Id, token: Id, readable: bool, now: Time): Outcome {
    var i := CertificateAt(db.certificates, id);
    if i == -1 then Err(NOT_FOUND)
    else
      var r := PrepareRemove(db.certificates[i], token, CertificateUsed(db, id), readable, now);
      if r.Err? then Err(r.error) else Ok(PutCertificate(db, i, r.value))
  }

  predicate AwaitsIn(db: Database, id: Id, token: Id) {
    var i := CertificateAt(db.certificates, id);
    i != -1 && db.certificates[i].operationId == token
  }

  function FinishInstallIn(db: Database, id: Id, token: Id, owned: bool, already: bool, now: Time): Outcome {
    var i := CertificateAt(db.certificates, id);
    if !AwaitsIn(db, id, token) then Err(NOT_FOUND)
    else Ok(PutCertificate(db, i, WithInstalled(db.certificates[i], owned, already, now)))
  }

  function FinishRemovalIn(db: Database, id: Id, token: Id, now: Time): Outcome {
    var i := CertificateAt(db.certificates, id);
    if !AwaitsIn(db, id, token) then Err(NOT_FOUND)
    else Ok(PutCertificate(db, i, WithRemoved(db.certificates[i], now)))
  }

  function MarkErrorIn(db: Database, id: Id, token: Id, message: string, now: Time): Outcome {
    var i := CertificateAt(db.certificates, id);
    if !AwaitsIn(db, id, token) then Ok(db)
    else Ok(PutCertificate(db, i, WithTrustError(db.certificates[i], message, now)))
  }

  function RecoveredCertificates(cs: seq<Certificate>, answers: map<Id, Answer>, now: Time): (r: seq<Certificate>)
    ensures |r| == |cs| && forall k :: 0 <= k < |cs| ==> r[k] == RecoverOne(cs[k], AnswerOf(answers, cs[k].id), now)
  {
    seq(|cs|, k requires 0 <= k < |cs| => RecoverOne(cs[k], AnswerOf(answers, cs[k].id), now))
  }

  function RecoverIn(db: Database, answers: map<Id, Answer>, now: Time): Outcome {
    Ok(db.(certificates := RecoveredCertificates(db.certificates, answers, now)))
  }

  function AcknowledgeIn(db: Database, id: Id, fingerprint: Fingerprint, now: Time): Outcome {
    var i := CertificateAt(db.certificates, id);
    if i == -1 then Err(NOT_FOUND)
    else if db.certificates[i].fingerprint != fingerprint then Err(CERTIFICATE_FINGERPRINT_MISMATCH)
    else Ok(PutCertificate(db, i, Acknowledged(db.certificates[i], now)))
  }

  // ---- import and deletion of certificates ----

  predicate HasTomb(db: Database, id: Id, op: Id) {
    exists x :: x in db.deletionOps && x.operationId == op && x.certificateId == id
  }

  predicate OtherTomb(db: Database, id: Id, allowed: Id) {
    exists x :: x in db.deletionOps && x.operationId != allowed && x.certificateId == id
  }

  predicate DistinctOps(db: Database) {
    forall i, j :: 0 <= i < j < |db.deletionOps| ==> db.deletionOps[i].operationId != db.deletionOps[j].operationId
  }

  function ImportIn(db: Database, c: Certificate): Outcome {
    if exists d :: d in db.certificates && d.fingerprint == c.fingerprint then Err(CERTIFICATE_ALREADY_EXISTS)
    else Ok(db.(certificates := db.certificates + [c]))
  }

  function DeletableIn(db: Database, id: Id, allowed: Id): Option<ErrorCode> {
    var i := CertificateAt(db.certificates, id);
    if i == -1 then Some(NOT_FOUND)
    else DeletionError(db.certificates[i], OtherTomb(db, id, allowed), CertificateUsed(db, id))
  }

  function TombstoneIn(db: Database, id: Id, op: Id): Outcome {
    var error := DeletableIn(db, id, "");
    if error.Some? then Err(error.value)
    else Ok(db.(deletionOps := db.deletionOps + [DeletionOp(id, op, false, "")]))
  }

  function DropIn(db: Database, id: Id, op: Id): Outcome {
    var i := CertificateAt(db.certificates, id);
    var error := DeletableIn(db, id, op);
    if error.Some? then Err(error.value) else Ok(db.(certificates := RemoveAt(db.certificates, i)))
  }

  function UntombIn(db: Database, op: Id): Outcome {
    var i := OpAt(db.deletionOps, op);
    if i == -1 then Ok(db) else Ok(db.(deletionOps := RemoveAt(db.deletionOps, i)))
  }

  function MarkTombIn(db: Database, op: Id, message: string): Outcome {
    var i := OpAt(db.deletionOps, op);
    if i == -1 then Ok(db)
    else Ok(db.(deletionOps := db.deletionOps[i := db.deletionOps[i].(failed := true, error := message)]))
  }
}
