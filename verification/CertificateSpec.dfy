/**
 * The metadata transactions of certificate trust and certificate deletion, each as a function
 * of the stored records. TrustProtocol and DeletionProtocol take them as atomic steps and
 * TrustHandlers and LibraryHandlers prove the native host's loops against them.
 */
module CertificateSpec {
  import opened Prelude
  import opened Records

  type CertificateMap = map<Id, Certificate>

  // What recovery learns about one certificate: its stored bytes, then its presence in the store.
  datatype Answer = Unreadable | NotVerified(message: string) | Present(trusted: bool)

  const BYTES_MISSING := "managed certificate bytes are missing or do not match metadata"

  predicate Pending(c: Certificate) {
    c.operationId != "" || c.trustState == Installing || c.trustState == Removing
  }

  /** Pending and error states hold exactly when an operation ID is set. */
  predicate TrustShape(c: Certificate) {
    && (c.operationId != "" <==> c.trustState in {Installing, Removing, TrustError})
    && c.operationFingerprint == (if c.operationId != "" then c.fingerprint else "")
    && (c.operationId == "" ==> !c.operationWasTrusted)
    && c.trustState in {Untrusted, Installing, Trusted, Removing, TrustError} && c.acknowledgment.None?
  }

  function ImportedCertificate(id: Id, fingerprint: Fingerprint, now: Time): Certificate {
    Certificate(id, fingerprint, false, false, Untrusted, "", "", false, "", None, now)
  }

  function ClearOperation(c: Certificate): Certificate {
    c.(operationId := "", operationFingerprint := "", operationWasTrusted := false, trustError := "")
  }

  function WithInstallIntent(c: Certificate, token: Id, wasTrusted: bool, now: Time): Certificate {
    c.(trustState := Installing, operationId := token, operationFingerprint := c.fingerprint,
       operationWasTrusted := wasTrusted, trustError := "", updatedAt := now)
  }

  function WithRemoveIntent(c: Certificate, token: Id, now: Time): Certificate {
    c.(trustState := Removing, operationId := token, operationFingerprint := c.fingerprint,
       operationWasTrusted := true, trustError := "", updatedAt := now)
  }

  function PrepareInstall(c: Certificate, token: Id, readable: bool, verify: Answer, now: Time)
    : Result<Certificate, ErrorCode>
  {
    if Pending(c) then Err(CERTIFICATE_TRUST_OPERATION_PENDING)
    else if !readable then Err(CERTIFICATE_READ_FAILED)
    else if !verify.Present? then Err(CERTIFICATE_TRUST_VERIFY_FAILED)
    else Ok(WithInstallIntent(c, token, verify.trusted, now))
  }

  function PrepareRemove(c: Certificate, token: Id, referenced: bool, readable: bool, now: Time)
    : Result<Certificate, ErrorCode>
  {
    if Pending(c) then Err(CERTIFICATE_TRUST_OPERATION_PENDING)
    else if !c.installedByScopeNest then Err(CERTIFICATE_NOT_INSTALLED_BY_SCOPENEST)
    else if referenced then Err(CERTIFICATE_REFERENCE_IN_USE)
    else if !readable then Err(CERTIFICATE_READ_FAILED)
    else Ok(WithRemoveIntent(c, token, now))
  }

  function WithInstalled(c: Certificate, owned: bool, alreadyTrusted: bool, now: Time): Certificate {
    ClearOperation(c).(trusted := true, trustState := Trusted, acknowledgment := None,
                       installedByScopeNest := owned || !alreadyTrusted, updatedAt := now)
  }

  function WithRemoved(c: Certificate, now: Time): Certificate {
    ClearOperation(c).(trusted := false, trustState := Untrusted, installedByScopeNest := false, updatedAt := now)
  }

  function WithTrustError(c: Certificate, message: string, now: Time): Certificate {
    c.(trustState := TrustError, trustError := message, updatedAt := now)
  }

  // Acknowledging gives up any claim on the store: the user trusts the certificate elsewhere.
  function Acknowledged(c: Certificate, now: Time): Certificate {
    c.(trusted := false, installedByScopeNest := false, trustState := ManualAcknowledged,
       acknowledgment := Some(Acknowledgment(c.id, c.fingerprint, "linux")), updatedAt := now)
  }

  // The record of this ID while it still waits for this operation.
  predicate Awaits(m: CertificateMap, id: Id, token: Id) {
    id in m && m[id].operationId == token
  }

  /** One record in the trust recovery pass. */
  function RecoverOne(c: Certificate, answer: Answer, now: Time): Certificate {
    if c.trustState !in {Installing, Removing, TrustError} then c
    else
      match answer
      case Unreadable => WithTrustError(c, BYTES_MISSING, now).(trusted := false)
      case NotVerified(message) => WithTrustError(c, message, now)
      case Present(present) =>
        if c.trustState == TrustError && c.operationId == "" then c.(trusted := present, updatedAt := now)
        else if !present then WithRemoved(c, now)
        else if c.trustState == Removing then
          ClearOperation(c).(trusted := true, trustState := Trusted, updatedAt := now)
        else
          ClearOperation(c).(trusted := true, trustState := Trusted, acknowledgment := None, updatedAt := now,
                             installedByScopeNest := c.installedByScopeNest || !c.operationWasTrusted)
  }

  function RecoverAll(m: CertificateMap, answers: map<Id, Answer>, now: Time): CertificateMap {
    map id | id in m :: RecoverOne(m[id], AnswerOf(answers, id), now)
  }

  function AnswerOf(answers: map<Id, Answer>, id: Id): Answer {
    if id in answers then answers[id] else Unreadable
  }

  // The fingerprint recovery reads and verifies.
  function RecoveryFingerprint(c: Certificate): Fingerprint {
    if c.operationFingerprint != "" then c.operationFingerprint else c.fingerprint
  }

  /** A second recovery with the same answers changes nothing but the time stamp. */
  lemma RecoveryIsIdempotent(c: Certificate, answer: Answer, first: Time, second: Time)
    ensures var once := RecoverOne(c, answer, first);
            RecoverOne(once, answer, second).(updatedAt := once.updatedAt) == once
  {
  }

  /** A second pass over the whole library with the same answers changes nothing but time stamps. */
  lemma RecoveryPassIsIdempotent(m: CertificateMap, answers: map<Id, Answer>, first: Time, second: Time)
    ensures var once := RecoverAll(m, answers, first); var twice := RecoverAll(once, answers, second);
            && twice.Keys == once.Keys == m.Keys
            && forall id :: id in m ==> twice[id].(updatedAt := once[id].updatedAt) == once[id]
  {
    forall id | id in m {
      RecoveryIsIdempotent(m[id], AnswerOf(answers, id), first, second);
    }
  }

  // ---- deletion ----

  function DeletionError(c: Certificate, otherTombstone: bool, referenced: bool): Option<ErrorCode> {
    if c.trustState == Installing || c.trustState == Removing then Some(CERTIFICATE_TRUST_MUST_BE_REMOVED_FIRST)
    else if c.installedByScopeNest then Some(CERTIFICATE_TRUST_MUST_BE_REMOVED_FIRST)
    else if c.operationId != "" then Some(CERTIFICATE_TRUST_OPERATION_PENDING)
    else if otherTombstone then Some(CERTIFICATE_DELETE_OPERATION_PENDING)
    else if referenced then Some(CERTIFICATE_REFERENCE_IN_USE)
    else None
  }

  // What recovery does about one tombstone, from what it saw of the record and the two directories.
  datatype Repair = Restore | Purge | Forget | DropStaged | ReplaceSource | Report

  function RepairFor(record: bool, source: bool, staged: bool, sourceMatches: bool, stagedMatches: bool): Repair {
    if record && staged && !source then Restore
    else if !record && staged then Purge
    else if record && source && !staged then Forget
    else if record && source && staged then
      if sourceMatches then DropStaged else if stagedMatches then ReplaceSource else Report
    else Report
  }
}
