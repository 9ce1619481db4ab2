/**
 * What the trust and deletion transactions promise of one certificate record, field by field: when each
 * is refused and with which error, and what it writes.
 */
module CertificateRules {
  import opened Prelude
  import opened Records
  import opened CertificateSpec

  // An operation is under way, or looks as if it were.
  predicate Busy(c: Certificate) {
    c.operationId != "" || c.trustState in {Installing, Removing}
  }

  predicate SameIdentity(c: Certificate, d: Certificate) {
    d.id == c.id && d.fingerprint == c.fingerprint
  }

  predicate NoOperation(d: Certificate) {
    d.operationId == "" && d.operationFingerprint == "" && !d.operationWasTrusted && d.trustError == ""
  }

  predicate SameOperation(c: Certificate, d: Certificate) {
    && d.operationId == c.operationId && d.operationFingerprint == c.operationFingerprint
    && d.operationWasTrusted == c.operationWasTrusted
  }

  predicate SameTrust(c: Certificate, d: Certificate) {
    d.trusted == c.trusted && d.installedByScopeNest == c.installedByScopeNest && d.acknowledgment == c.acknowledgment
  }

  // The record waits for this operation on its own bytes.
  predicate Waits(c: Certificate, d: Certificate, state: TrustState, token: Id, wasTrusted: bool, now: Time) {
    && SameIdentity(c, d) && SameTrust(c, d) && d.trustState == state && d.operationId == token
    && d.operationFingerprint == c.fingerprint && d.operationWasTrusted == wasTrusted && d.trustError == ""
    && d.updatedAt == now
  }

  // ---- intents ----

  /** An installation begins on readable bytes when nothing is pending and the store says whether the entry is there. */
  lemma InstallIntentsExactly(c: Certificate, token: Id, readable: bool, verify: Answer, now: Time)
    ensures var r := PrepareInstall(c, token, readable, verify, now);
            && (r.Ok? <==> !Busy(c) && readable && verify.Present?)
            && (r.Ok? ==> Waits(c, r.value, Installing, token, verify.trusted, now))
            && (r == Err(CERTIFICATE_TRUST_OPERATION_PENDING) <==> Busy(c))
            && (r == Err(CERTIFICATE_READ_FAILED) <==> !Busy(c) && !readable)
            && (r == Err(CERTIFICATE_TRUST_VERIFY_FAILED) <==> !Busy(c) && readable && !verify.Present?)
  {
  }

  /** A removal begins only for an entry of ScopeNest's own that nothing in the library relies on. */
  lemma RemovalIntentsExactly(c: Certificate, token: Id, referenced: bool, readable: bool, now: Time)
    ensures var r := PrepareRemove(c, token, referenced, readable, now);
            && (r.Ok? <==> !Busy(c) && c.installedByScopeNest && !referenced && readable)
            && (r.Ok? ==> Waits(c, r.value, Removing, token, true, now))
            && (r == Err(CERTIFICATE_TRUST_OPERATION_PENDING) <==> Busy(c))
            && (r == Err(CERTIFICATE_NOT_INSTALLED_BY_SCOPENEST) <==> !Busy(c) && !c.installedByScopeNest)
            && (r == Err(CERTIFICATE_REFERENCE_IN_USE) <==> !Busy(c) && c.installedByScopeNest && referenced)
            && (r == Err(CERTIFICATE_READ_FAILED) <==> !Busy(c) && c.installedByScopeNest && !referenced && !readable)
  {
  }

  // ---- results ----

  /** What an operation leaves: a trusted record owned unless the entry was another's, or an untrusted, unowned one. */
  lemma ResultsExactly(c: Certificate, owned: bool, already: bool, now: Time)
    ensures var d := WithInstalled(c, owned, already, now);
            && SameIdentity(c, d) && NoOperation(d) && d.trusted && d.trustState == Trusted && d.acknowledgment == None
            && (d.installedByScopeNest <==> owned || !already) && d.updatedAt == now
    ensures var d := WithRemoved(c, now);
            && SameIdentity(c, d) && NoOperation(d) && !d.trusted && d.trustState == Untrusted && !d.installedByScopeNest
            && d.acknowledgment == c.acknowledgment && d.updatedAt == now
  {
  }

  /** A failure is recorded over the operation, which stays to be recovered. */
  lemma FailureIsRecorded(c: Certificate, message: string, now: Time)
    ensures var d := WithTrustError(c, message, now);
            && SameIdentity(c, d) && SameTrust(c, d) && SameOperation(c, d) && d.trustState == TrustError
            && d.trustError == message && d.updatedAt == now
  {
  }

  /** An acknowledgment names the certificate, its bytes and Linux, and gives up trust and ownership. */
  lemma AcknowledgedExactly(c: Certificate, now: Time)
    ensures var d := Acknowledged(c, now);
            && SameIdentity(c, d) && SameOperation(c, d) && !d.trusted && !d.installedByScopeNest
            && d.trustState == ManualAcknowledged && d.trustError == c.trustError && d.updatedAt == now
            && d.acknowledgment.Some? && d.acknowledgment.value.certificateId == c.id
            && d.acknowledgment.value.fingerprint == c.fingerprint && d.acknowledgment.value.platform == "linux"
  {
  }

  /** A certificate is imported without trust, owner, operation or acknowledgment. */
  lemma ImportedExactly(id: Id, fingerprint: Fingerprint, now: Time)
    ensures var d := ImportedCertificate(id, fingerprint, now);
            && d.id == id && d.fingerprint == fingerprint && !d.trusted && !d.installedByScopeNest
            && d.trustState == Untrusted && NoOperation(d) && d.acknowledgment == None && d.updatedAt == now
  {
  }

  // ---- recovery ----

  predicate Recoverable(c: Certificate) {
    c.trustState in {Installing, Removing, TrustError}
  }

  // The operation is over, and the record says what the store said.
  predicate Ended(c: Certificate, d: Certificate, present: bool) {
    && SameIdentity(c, d) && NoOperation(d) && d.trusted == present
    && d.trustState == (if present then Trusted else Untrusted)
    && (d.installedByScopeNest <==>
          present && (c.installedByScopeNest || (c.trustState != Removing && !c.operationWasTrusted)))
  }

  /** Recovery without an answer keeps the operation and says why, and leaves records with no operation alone. */
  lemma UnansweredRecovery(c: Certificate, answer: Answer, now: Time)
    requires !Recoverable(c) || !answer.Present?
    ensures var d := RecoverOne(c, answer, now);
            && (!Recoverable(c) ==> d == c)
            && (Recoverable(c) ==>
                  && SameIdentity(c, d) && SameOperation(c, d) && d.trustState == TrustError && d.updatedAt == now
                  && d.installedByScopeNest == c.installedByScopeNest && d.acknowledgment == c.acknowledgment
                  && match answer
                     case Unreadable => !d.trusted && d.trustError == BYTES_MISSING
                     case NotVerified(message) => d.trusted == c.trusted && d.trustError == message
                     case Present(_) => false)
  {
  }

  /** With an answer it ends the operation; an error without an operation only learns what the store says. */
  lemma AnsweredRecovery(c: Certificate, present: bool, now: Time)
    requires Recoverable(c)
    ensures var d := RecoverOne(c, Present(present), now);
            && d.updatedAt == now
            && if c.trustState == TrustError && c.operationId == ""
               then SameIdentity(c, d) && SameOperation(c, d) && d.trusted == present && d.trustState == TrustError
                    && d.trustError == c.trustError && d.installedByScopeNest == c.installedByScopeNest
                    && d.acknowledgment == c.acknowledgment
               else Ended(c, d, present)
                    && d.acknowledgment == if present && c.trustState != Removing then None else c.acknowledgment
  {
  }

  // ---- deletion ----

  /** A record can go when it claims no entry, nothing is pending, and neither a deletion nor the library needs it. */
  lemma DeletableExactly(c: Certificate, otherTombstone: bool, referenced: bool)
    ensures var e := DeletionError(c, otherTombstone, referenced);
            && (e.None? <==> !Busy(c) && !c.installedByScopeNest && !otherTombstone && !referenced)
            && (e == Some(CERTIFICATE_TRUST_MUST_BE_REMOVED_FIRST) <==>
                  c.trustState in {Installing, Removing} || c.installedByScopeNest)
            && (e == Some(CERTIFICATE_TRUST_OPERATION_PENDING) <==>
                  c.trustState !in {Installing, Removing} && !c.installedByScopeNest && c.operationId != "")
            && (e == Some(CERTIFICATE_DELETE_OPERATION_PENDING) <==>
                  !Busy(c) && !c.installedByScopeNest && otherTombstone)
            && (e == Some(CERTIFICATE_REFERENCE_IN_USE) <==>
                  !Busy(c) && !c.installedByScopeNest && !otherTombstone && referenced)
  {
  }

  /**
   * A record gets its directory back wherever one that fits can be found, a deleted one loses what is staged,
   * and only what cannot be decided is reported.
   */
  lemma RepairsExactly(record: bool, source: bool, staged: bool, sourceMatches: bool, stagedMatches: bool)
    ensures var r := RepairFor(record, source, staged, sourceMatches, stagedMatches);
            && (r in {Restore, ReplaceSource} <==> record && staged && (!source || (!sourceMatches && stagedMatches)))
            && (r == ReplaceSource <==> record && staged && source && !sourceMatches && stagedMatches)
            && (r == DropStaged <==> record && staged && source && sourceMatches)
            && (r == Forget <==> record && source && !staged)
            && (r == Purge <==> !record && staged)
            && (r == Report <==> if record then (!source && !staged) || (source && staged && !sourceMatches && !stagedMatches)
                                 else !staged)
  {
  }
}
