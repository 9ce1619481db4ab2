/** Certificate trust commands and trust recovery: the loops over the stored records. */
module TrustHandlers {
  import opened Prelude
  import opened Records
  import opened ReferenceSafety
  import opened CertificateSpec
  import opened CertificateRules
  import opened MetadataFile
  import opened Transactions

  ghost predicate DistinctCertificates(db: Database) {
    forall i, j :: 0 <= i < j < |db.certificates| ==> db.certificates[i].id != db.certificates[j].id
  }

  // The only place where a record can wait for the operation.
  lemma WaitsAt(db: Database, id: Id, token: Id, i: nat)
    requires DistinctCertificates(db) && i < |db.certificates| && db.certificates[i].id == id
    ensures CertificateAt(db.certificates, id) == i
    ensures AwaitsIn(db, id, token) <==> db.certificates[i].operationId == token
  {
  }

  method CertificatePosition(cs: seq<Certificate>, id: Id) returns (at: int)
    ensures at == CertificateAt(cs, id)
  {
    for i := 0 to |cs|
      invariant forall k :: 0 <= k < i ==> cs[k].id != id
    {
      if cs[i].id == id {
        return i;
      }
    }
    at := -1;
  }

  /** Reports whether a proxy profile or a template lists the certificate. */
  method CertificateReferenced(db: Database, id: Id) returns (used: bool)
    ensures used <==> CertificateUsed(db, id)
  {
    for i := 0 to |db.proxyProfiles|
      invariant forall k :: 0 <= k < i ==> id !in db.proxyProfiles[k].certificateIds
    {
      var ids := db.proxyProfiles[i].certificateIds;
      for j := 0 to |ids|
        invariant forall k :: 0 <= k < j ==> ids[k] != id
      {
        if ids[j] == id {
          assert id in db.proxyProfiles[i].certificateIds;
          return true;
        }
      }
    }
    for i := 0 to |db.templates|
      invariant forall k :: 0 <= k < i ==> id !in db.templates[k].certificateIds
    {
      var ids := db.templates[i].certificateIds;
      for j := 0 to |ids|
        invariant forall k :: 0 <= k < j ==> ids[k] != id
      {
        if ids[j] == id {
          assert id in db.templates[i].certificateIds;
          return true;
        }
      }
    }
    used := false;
  }

  /** The operating system's root store; a call can fail before or after it took effect. */
  class RootStore {
    var entries: set<Fingerprint>

    constructor (entries: set<Fingerprint>)
      ensures this.entries == entries
    {
      this.entries := entries;
    }

    method Verify(f: Fingerprint, failure: Option<string>) returns (answer: Answer)
      ensures answer == if failure.Some? then NotVerified(failure.value) else Present(f in entries)
    {
      answer := if failure.Some? then NotVerified(failure.value) else Present(f in entries);
    }

    method Install(f: Fingerprint, call: Call) returns (already: bool)
      modifies this
      ensures already <==> f in old(entries)
      ensures entries == if call.takesEffect then old(entries) + {f} else old(entries)
    {
      already := f in entries;
      if call.takesEffect {
        entries := entries + {f};
      }
    }

    method Remove(f: Fingerprint, call: Call)
      modifies this
      ensures entries == if call.takesEffect then old(entries) - {f} else old(entries)
    {
      if call.takesEffect {
        entries := entries - {f};
      }
    }
  }

  // Whether the call changed the store, and the failure it reported: any combination can happen.
  datatype Call = Call(takesEffect: bool, failure: Option<string>)

  // What goes wrong during one trust command: reading, the write of the intent, the store's calls, the last write.
  datatype Weather = Weather(readable: bool, firstVerify: Option<string>, intended: bool, call: Call,
                             lastVerify: Option<string>, written: bool, later: Time)

  const NOT_VERIFIED := "certificate was not verified after installation"
  const STILL_TRUSTED := "certificate remained trusted after removal"

  function VerifyAnswer(entries: set<Fingerprint>, c: Certificate, w: Weather): Answer {
    if w.firstVerify.Some? then NotVerified(w.firstVerify.value) else Present(c.fingerprint in entries)
  }

  // The first transaction of an installation, with what the store answers about the record it finds.
  function InstallOutcome(db: Database, id: Id, token: Id, entries: set<Fingerprint>, w: Weather, now: Time): Outcome {
    var i := CertificateAt(db.certificates, id);
    InstallIntentIn(db, id, token, w.readable,
                    if i == -1 then Unreadable else VerifyAnswer(entries, db.certificates[i], w), now)
  }

  function Changed(entries: set<Fingerprint>, f: Fingerprint, installing: bool, w: Weather): set<Fingerprint> {
    if !w.call.takesEffect then entries else if installing then entries + {f} else entries - {f}
  }

  datatype Failure = Failure(code: ErrorCode, message: string)

  /** What goes wrong between the intent and the result: the call, the verification, or what it finds. */
  function FailureOf(entries: set<Fingerprint>, f: Fingerprint, installing: bool, w: Weather): Option<Failure> {
    var failed := if installing then CERTIFICATE_TRUST_INSTALL_FAILED else CERTIFICATE_TRUST_REMOVE_FAILED;
    if w.call.failure.Some? then Some(Failure(failed, w.call.failure.value))
    else if w.lastVerify.Some? then Some(Failure(CERTIFICATE_TRUST_VERIFY_FAILED, w.lastVerify.value))
    else if installing && f !in Changed(entries, f, installing, w) then
      Some(Failure(CERTIFICATE_TRUST_VERIFY_FAILED, NOT_VERIFIED))
    else if !installing && f in Changed(entries, f, installing, w) then Some(Failure(failed, STILL_TRUSTED))
    else None
  }

  /** A command fails between its transactions exactly when the call or the verification does, or the store disagrees. */
  lemma FailuresExactly(entries: set<Fingerprint>, f: Fingerprint, installing: bool, w: Weather)
    ensures var failure, after := FailureOf(entries, f, installing, w), Changed(entries, f, installing, w);
            && (failure.None? <==> w.call.failure.None? && w.lastVerify.None? && (f in after <==> installing))
            && (w.call.failure.Some? ==>
                  failure == Some(Failure(if installing then CERTIFICATE_TRUST_INSTALL_FAILED
                                          else CERTIFICATE_TRUST_REMOVE_FAILED, w.call.failure.value)))
            && (w.call.failure.None? && w.lastVerify.Some? ==>
                  failure == Some(Failure(CERTIFICATE_TRUST_VERIFY_FAILED, w.lastVerify.value)))
            && (w.call.failure.None? && w.lastVerify.None? && failure.Some? ==>
                  failure.value.code == if installing then CERTIFICATE_TRUST_VERIFY_FAILED
                                        else CERTIFICATE_TRUST_REMOVE_FAILED)
    ensures var after := Changed(entries, f, installing, w);
            && (forall g :: g != f ==> (g in after <==> g in entries))
            && (f in after <==> if w.call.takesEffect then installing else f in entries)
  {
  }

  // The last transaction on what the other hosts left.
  function FinishOutcome(db: Database, id: Id, token: Id, target: Certificate, already: bool, installing: bool, now: Time)
    : Outcome
  {
    if installing then FinishInstallIn(db, id, token, target.installedByScopeNest, already, now)
    else FinishRemovalIn(db, id, token, now)
  }

  /** From the written intent to the end of the command, on the file `left` that the other hosts left. */
  ghost predicate Concluded(file: Database, left: Database, id: Id, token: Id, target: Certificate, already: bool,
                            installing: bool, failure: Option<Failure>, w: Weather, r: Result<Certificate, ErrorCode>)
  {
    var finish := FinishOutcome(left, id, token, target, already, installing, w.later);
    match failure
    case Some(x) =>
      && r == Err(x.code)
      && file == if w.written then After(MarkErrorIn(left, id, token, x.message, w.later), left) else left
    case None =>
      if finish.Err? then r == Err(finish.error) && file == left
      else if !w.written then r == Err(INTERNAL_ERROR) && file == left
      else
        var i := CertificateAt(left.certificates, id);
        file == finish.value && 0 <= i < |file.certificates| && r == Ok(file.certificates[i])
  }

  // Its entry is ScopeNest's, and nothing is pending on it.
  predicate Removable(db: Database, id: Id) {
    exists c :: c in db.certificates && c.id == id && c.installedByScopeNest && !Busy(c)
  }

  class TrustCommands {
    const store: Store
    const root: RootStore
    // Whether this platform has a trust store to work on.
    const supported: bool

    constructor (store: Store, root: RootStore, supported: bool)
      ensures this.store == store && this.root == root && this.supported == supported
    {
      this.store, this.root, this.supported := store, root, supported;
    }

    ghost predicate Valid()
      reads store
    {
      DistinctCertificates(store.file)
    }

    // The record that still waits for the operation gets the error; otherwise nothing happens.
    method MarkTrustError(id: Id, token: Id, message: string, w: Weather)
      requires Valid()
      modifies store
      ensures store.file == if w.written then After(MarkErrorIn(old(store.file), id, token, message, w.later), old(store.file))
                            else old(store.file)
    {
      var db := store.file;
      for i := 0 to |db.certificates|
        invariant forall k :: 0 <= k < i ==> !(db.certificates[k].id == id && db.certificates[k].operationId == token)
      {
        var c := db.certificates[i];
        if c.id == id && c.operationId == token {
          WaitsAt(db, id, token, i);
          if w.written {
            c := c.(trustState := TrustError, trustError := message, updatedAt := w.later);
            store.file := db.(certificates := db.certificates[i := c]);
          }
          return;
        }
      }
    }

    method PrepareInstallation(id: Id, token: Id, now: Time, w: Weather) returns (r: Result<Certificate, ErrorCode>)
      modifies store
      ensures var db := old(store.file); var intent := InstallOutcome(db, id, token, root.entries, w, now);
              if intent.Err? || !w.intended
              then r == Err(if intent.Err? then intent.error else INTERNAL_ERROR) && store.file == db
              else
                && store.file == intent.value && CertificateAt(db.certificates, id) != -1
                && r == Ok(db.certificates[CertificateAt(db.certificates, id)])
      ensures r.Ok? ==> var i := CertificateAt(old(store.file).certificates, id);
                        && 0 <= i < |store.file.certificates| && w.readable && w.firstVerify.None? && w.intended
                        && Waits(r.value, store.file.certificates[i], Installing, token, r.value.fingerprint in root.entries, now)
    {
      var db := store.file;
      var i := CertificatePosition(db.certificates, id);
      if i == -1 {
        return Err(NOT_FOUND);
      }
      var target := db.certificates[i];
      if Pending(target) {
        return Err(CERTIFICATE_TRUST_OPERATION_PENDING);
      }
      if !w.readable {
        return Err(CERTIFICATE_READ_FAILED);
      }
      var verify := root.Verify(target.fingerprint, w.firstVerify);
      if !verify.Present? {
        return Err(CERTIFICATE_TRUST_VERIFY_FAILED);
      }
      var c := target.(trustState := Installing, operationId := token, operationFingerprint := target.fingerprint,
                       operationWasTrusted := verify.trusted, trustError := "", updatedAt := now);
      if !w.intended {
        return Err(INTERNAL_ERROR);
      }
      store.file := db.(certificates := db.certificates[i := c]);
      r := Ok(target);
    }

    method PrepareRemoval(id: Id, token: Id, now: Time, w: Weather) returns (r: Result<Certificate, ErrorCode>)
      modifies store
      ensures var db := old(store.file); var intent := RemoveIntentIn(db, id, token, w.readable, now);
              if intent.Err? || !w.intended
              then r == Err(if intent.Err? then intent.error else INTERNAL_ERROR) && store.file == db
              else
                && store.file == intent.value && CertificateAt(db.certificates, id) != -1
                && r == Ok(db.certificates[CertificateAt(db.certificates, id)]) && r.value.installedByScopeNest
      ensures CertificateUsed(old(store.file), id) ==> r.Err?
      ensures CertificateUsed(old(store.file), id) && Removable(old(store.file), id) && Valid() ==>
                r == Err(CERTIFICATE_REFERENCE_IN_USE)
      ensures r.Ok? ==> r.value in old(store.file).certificates && r.value.id == id && !Busy(r.value) && w.readable && w.intended
    {
      var db := store.file;
      var i := CertificatePosition(db.certificates, id);
      if i == -1 {
        return Err(NOT_FOUND);
      }
      var target := db.certificates[i];
      if Pending(target) {
        return Err(CERTIFICATE_TRUST_OPERATION_PENDING);
      }
      if !target.installedByScopeNest {
        return Err(CERTIFICATE_NOT_INSTALLED_BY_SCOPENEST);
      }
      var used := CertificateReferenced(db, id);
      if used {
        return Err(CERTIFICATE_REFERENCE_IN_USE);
      }
      if !w.readable {
        return Err(CERTIFICATE_READ_FAILED);
      }
      var c := target.(trustState := Removing, operationId := token, operationFingerprint := target.fingerprint,
                       operationWasTrusted := true, trustError := "", updatedAt := now);
      if !w.intended {
        return Err(INTERNAL_ERROR);
      }
      store.file := db.(certificates := db.certificates[i := c]);
      r := Ok(target);
    }

    // The last write, if the record still waits for this operation.
    method FinishOperation(id: Id, token: Id, target: Certificate, already: bool, installing: bool, w: Weather)
      returns (r: Result<Certificate, ErrorCode>)
      requires Valid()
      modifies store
      ensures Concluded(store.file, old(store.file), id, token, target, already, installing, None, w, r)
    {
      var db := store.file;
      for i := 0 to |db.certificates|
        invariant forall k :: 0 <= k < i ==> !(db.certificates[k].id == id && db.certificates[k].operationId == token)
      {
        var c := db.certificates[i];
        if c.id == id && c.operationId == token {
          WaitsAt(db, id, token, i);
          if installing {
            c := c.(trusted := true, trustState := Trusted, acknowledgment := None,
                    installedByScopeNest := target.installedByScopeNest || !already);
          } else {
            c := c.(trusted := false, trustState := Untrusted, installedByScopeNest := false);
          }
          c := c.(operationId := "", operationFingerprint := "", operationWasTrusted := false, trustError := "",
                  updatedAt := w.later);
          if !w.written {
            return Err(INTERNAL_ERROR);
          }
          store.file := db.(certificates := db.certificates[i := c]);
          return Ok(c);
        }
      }
      r := Err(NOT_FOUND);
    }

    // The call into the store and the verification after it.
    method ChangeStore(target: Certificate, installing: bool, w: Weather) returns (already: bool, failure: Option<Failure>)
      modifies root
      ensures already <==> target.fingerprint in old(root.entries)
      ensures root.entries == Changed(old(root.entries), target.fingerprint, installing, w)
      ensures failure == FailureOf(old(root.entries), target.fingerprint, installing, w)
    {
      already := target.fingerprint in root.entries;
      if installing {
        already := root.Install(target.fingerprint, w.call);
      } else {
        root.Remove(target.fingerprint, w.call);
      }
      if w.call.failure.Some? {
        var code := if installing then CERTIFICATE_TRUST_INSTALL_FAILED else CERTIFICATE_TRUST_REMOVE_FAILED;
        return already, Some(Failure(code, w.call.failure.value));
      }
      var verify := root.Verify(target.fingerprint, w.lastVerify);
      match verify
      case NotVerified(message) => failure := Some(Failure(CERTIFICATE_TRUST_VERIFY_FAILED, message));
      case Present(trusted) =>
        if installing && !trusted {
          failure := Some(Failure(CERTIFICATE_TRUST_VERIFY_FAILED, NOT_VERIFIED));
        } else if !installing && trusted {
          failure := Some(Failure(CERTIFICATE_TRUST_REMOVE_FAILED, STILL_TRUSTED));
        } else {
          failure := None;
        }
    }

    // Everything after the intent is written; other hosts replace the file while the store is called.
    method CompleteOperation(id: Id, token: Id, target: Certificate, installing: bool, w: Weather,
                             meanwhile: Database -> Database) returns (r: Result<Certificate, ErrorCode>)
      requires Valid() && forall db: Database :: DistinctCertificates(db) ==> DistinctCertificates(meanwhile(db))
      modifies store, root
      ensures root.entries == Changed(old(root.entries), target.fingerprint, installing, w)
      ensures Concluded(store.file, meanwhile(old(store.file)), id, token, target,
                        target.fingerprint in old(root.entries), installing,
                        FailureOf(old(root.entries), target.fingerprint, installing, w), w, r)
    {
      var already, failure := ChangeStore(target, installing, w);
      store.file := meanwhile(store.file);
      if failure.Some? {
        MarkTrustError(id, token, failure.value.message, w);
        return Err(failure.value.code);
      }
      r := FinishOperation(id, token, target, already, installing, w);
    }

    /**
     * install_certificate_trust, with other hosts writing between its two transactions. A refusal
     * changes nothing; afterwards the result is written over what the others left, or the failure is
     * recorded there, each only if the record still waits for this operation.
     */
    method InstallCertificateTrust(id: Id, token: Id, now: Time, w: Weather, meanwhile: Database -> Database)
      returns (r: Result<Certificate, ErrorCode>)
      requires Valid() && forall db: Database :: DistinctCertificates(db) ==> DistinctCertificates(meanwhile(db))
      modifies store, root
      ensures var db, entries := old(store.file), old(root.entries);
              var intent := InstallOutcome(db, id, token, entries, w, now);
              if !supported || intent.Err? || !w.intended
              then && r == Err(if !supported then CERTIFICATE_TRUST_UNSUPPORTED
                               else if intent.Err? then intent.error else INTERNAL_ERROR)
                   && store.file == db && root.entries == entries
              else
                && CertificateAt(db.certificates, id) != -1
                && var c := db.certificates[CertificateAt(db.certificates, id)];
                && root.entries == Changed(entries, c.fingerprint, true, w)
                && Concluded(store.file, meanwhile(intent.value), id, token, c, c.fingerprint in entries, true,
                             FailureOf(entries, c.fingerprint, true, w), w, r)
                && (r.Ok? ==> && c.fingerprint in root.entries && r.value.trusted && r.value.operationId == ""
                              && (r.value.installedByScopeNest <==> c.installedByScopeNest || c.fingerprint !in entries))
                && (r.Ok? <==> && w.call.failure.None? && w.lastVerify.None? && c.fingerprint in root.entries && w.written
                               && AwaitsIn(meanwhile(intent.value), id, token))
      ensures forall g :: g in root.entries && g !in old(root.entries) ==>
                && supported && w.readable && w.firstVerify.None? && w.intended
                && exists c :: c in old(store.file).certificates && c.id == id && c.fingerprint == g && !Busy(c)
      ensures old(root.entries) <= root.entries
    {
      if !supported {
        return Err(CERTIFICATE_TRUST_UNSUPPORTED);
      }
      var prepared := PrepareInstallation(id, token, now, w);
      if prepared.Err? {
        return Err(prepared.error);
      }
      r := CompleteOperation(id, token, prepared.value, true, w, meanwhile);
    }

    /** remove_certificate_trust under the same account; only what the record owns is ever removed. */
    method RemoveCertificateTrust(id: Id, token: Id, now: Time, w: Weather, meanwhile: Database -> Database)
      returns (r: Result<Certificate, ErrorCode>)
      requires Valid() && forall db: Database :: DistinctCertificates(db) ==> DistinctCertificates(meanwhile(db))
      modifies store, root
      ensures var db, entries := old(store.file), old(root.entries);
              var intent := RemoveIntentIn(db, id, token, w.readable, now);
              if !supported || intent.Err? || !w.intended
              then && r == Err(if !supported then CERTIFICATE_TRUST_UNSUPPORTED
                               else if intent.Err? then intent.error else INTERNAL_ERROR)
                   && store.file == db && root.entries == entries
              else
                && CertificateAt(db.certificates, id) != -1
                && var c := db.certificates[CertificateAt(db.certificates, id)];
                && c.installedByScopeNest && root.entries == Changed(entries, c.fingerprint, false, w)
                && Concluded(store.file, meanwhile(intent.value), id, token, c, c.fingerprint in entries, false,
                             FailureOf(entries, c.fingerprint, false, w), w, r)
                && (r.Ok? ==> c.fingerprint !in root.entries && !r.value.trusted && !r.value.installedByScopeNest)
                && (r.Ok? <==> && w.call.failure.None? && w.lastVerify.None? && c.fingerprint !in root.entries && w.written
                               && AwaitsIn(meanwhile(intent.value), id, token))
      ensures CertificateUsed(old(store.file), id) ==>
                r.Err? && root.entries == old(root.entries) && store.file == old(store.file)
      ensures CertificateUsed(old(store.file), id) && Removable(old(store.file), id) && supported ==>
                r == Err(CERTIFICATE_REFERENCE_IN_USE)
      ensures forall g :: g in old(root.entries) && g !in root.entries ==>
                && supported && w.readable && w.intended
                && exists c :: c in old(store.file).certificates && c.id == id && c.fingerprint == g
                               && c.installedByScopeNest && !Busy(c)
      ensures root.entries <= old(root.entries)
    {
      if !supported {
        return Err(CERTIFICATE_TRUST_UNSUPPORTED);
      }
      var prepared := PrepareRemoval(id, token, now, w);
      if prepared.Err? {
        return Err(prepared.error);
      }
      r := CompleteOperation(id, token, prepared.value, false, w, meanwhile);
    }

    /** acknowledge_manual_certificate_trust, on Linux only and only for the fingerprint the record has. */
    method AcknowledgeManualTrust(id: Id, fingerprint: Fingerprint, platform: string, requested: string, now: Time)
      returns (r: Result<Certificate, ErrorCode>)
      modifies store
      ensures var db, at := old(store.file), CertificateAt(old(store.file).certificates, id);
              var outcome := AcknowledgeIn(db, id, fingerprint, now);
              && (r.Ok? <==> platform == requested == "linux" && at != -1 && db.certificates[at].fingerprint == fingerprint)
              && (r.Ok? ==> outcome == Ok(store.file) && r.value == Acknowledged(db.certificates[at], now))
              && (r.Err? ==> && store.file == db
                             && r.error == if platform == requested == "linux" && outcome.Err? then outcome.error
                                           else MANUAL_TRUST_ACKNOWLEDGMENT_UNSUPPORTED)
    {
      if platform != "linux" || requested != "linux" {
        return Err(MANUAL_TRUST_ACKNOWLEDGMENT_UNSUPPORTED);
      }
      var db := store.file;
      var i := CertificatePosition(db.certificates, id);
      if i == -1 {
        return Err(NOT_FOUND);
      }
      var c := db.certificates[i];
      if c.fingerprint != fingerprint {
        return Err(CERTIFICATE_FINGERPRINT_MISMATCH);
      }
      c := c.(trusted := false, installedByScopeNest := false, trustState := ManualAcknowledged,
              acknowledgment := Some(Acknowledgment(c.id, c.fingerprint, "linux")), updatedAt := now);
      store.file := db.(certificates := db.certificates[i := c]);
      r := Ok(c);
    }

    /** reconcileTrustOperations: one pass over all records, where there is a trust store. */
    method ReconcileTrust(answers: map<Id, Answer>, now: Time)
      modifies store
      ensures if supported then RecoverIn(old(store.file), answers, now) == Ok(store.file) else store.file == old(store.file)
    {
      if !supported {
        return;
      }
      var before := store.file.certificates;
      var cs := before;
      for i := 0 to |before|
        invariant |cs| == |before| && store.file == old(store.file)
        invariant forall k :: 0 <= k < i ==> cs[k] == RecoverOne(before[k], AnswerOf(answers, before[k].id), now)
        invariant forall k :: i <= k < |cs| ==> cs[k] == before[k]
      {
        var c := ReconcileRecord(cs[i], AnswerOf(answers, cs[i].id), now);
        cs := cs[i := c];
      }
      assert cs == RecoveredCertificates(before, answers, now);
      store.file := store.file.(certificates := cs);
    }
  }

  /** The recovery pass on one record, branch by branch. */
  method ReconcileRecord(certificate: Certificate, answer: Answer, now: Time) returns (c: Certificate)
    ensures c == RecoverOne(certificate, answer, now)
  {
    c := certificate;
    if c.trustState != Installing && c.trustState != Removing && c.trustState != TrustError {
      return;
    }
    if answer.Unreadable? {
      return c.(trusted := false, trustState := TrustError, trustError := BYTES_MISSING, updatedAt := now);
    }
    if answer.NotVerified? {
      return c.(trustState := TrustError, trustError := answer.message, updatedAt := now);
    }
    var verified := answer.trusted;
    match c.trustState {
      case Installing =>
        if verified {
          c := c.(trusted := true, trustState := Trusted, acknowledgment := None,
                  installedByScopeNest := c.installedByScopeNest || !c.operationWasTrusted);
          c := ClearOperation(c);
        } else {
          c := c.(trusted := false, trustState := Untrusted, installedByScopeNest := false);
          c := ClearOperation(c);
        }
      case Removing =>
        if verified {
          c := c.(trusted := true, trustState := Trusted);
          c := ClearOperation(c);
        } else {
          c := c.(trusted := false, trustState := Untrusted, installedByScopeNest := false);
          c := ClearOperation(c);
        }
      case _ =>
        if verified {
          c := c.(trusted := true);
          if c.operationId != "" {
            c := c.(trustState := Trusted, acknowledgment := None,
                    installedByScopeNest := c.installedByScopeNest || !c.operationWasTrusted);
            c := ClearOperation(c);
          }
        } else {
          c := c.(trusted := false);
          if c.operationId != "" {
            c := c.(trustState := Untrusted, installedByScopeNest := false);
            c := ClearOperation(c);
          }
        }
    }
    c := c.(updatedAt := now);
  }

  // ---- the file and the records of the protocol ----

  predicate Listed(cs: seq<Certificate>, id: Id) {
    exists i :: 0 <= i < |cs| && cs[i].id == id
  }

  predicate Maps(m: CertificateMap, c: Certificate) {
    c.id in m && m[c.id] == c
  }

  /** The records of the library by ID, as the protocol sees them. */
  ghost predicate Represents(cs: seq<Certificate>, m: CertificateMap) {
    && (forall i, j :: 0 <= i < j < |cs| ==> cs[i].id != cs[j].id)
    && (forall i :: 0 <= i < |cs| ==> Maps(m, cs[i]))
    && (forall id :: id in m ==> Listed(cs, id))
  }

  lemma PositionRepresents(cs: seq<Certificate>, m: CertificateMap, id: Id)
    requires Represents(cs, m)
    ensures var at := CertificateAt(cs, id); (at == -1 <==> id !in m) && (at != -1 ==> cs[at] == m[id])
  {
    var at := CertificateAt(cs, id);
    if at != -1 {
      assert Maps(m, cs[at]);
    }
    assert id in m ==> Listed(cs, id);
  }

  // Two lists with the same IDs in the same places list the same IDs.
  lemma SameIds(cs: seq<Certificate>, ds: seq<Certificate>, id: Id)
    requires |cs| == |ds| && (forall k :: 0 <= k < |cs| ==> cs[k].id == ds[k].id) && Listed(cs, id)
    ensures Listed(ds, id)
  {
    var k :| 0 <= k < |cs| && cs[k].id == id;
    assert ds[k].id == id;
  }

  lemma PutRepresents(db: Database, m: CertificateMap, i: nat, c: Certificate)
    requires Represents(db.certificates, m) && i < |db.certificates| && c.id == db.certificates[i].id
    ensures Represents(PutCertificate(db, i, c).certificates, m[c.id := c])
  {
    var cs := db.certificates[i := c];
    assert Maps(m, db.certificates[i]);
    forall id | id in m ensures Listed(cs, id) {
      SameIds(db.certificates, cs, id);
    }
    forall k | 0 <= k < |cs| ensures Maps(m[c.id := c], cs[k]) {
      assert k != i ==> Maps(m, db.certificates[k]) && db.certificates[k].id != db.certificates[i].id;
    }
  }

  // The outcome writes this record, and no other, over the records `m`.
  ghost predicate Writes(r: Outcome, m: CertificateMap, id: Id, c: Certificate) {
    r.Ok? && Represents(r.value.certificates, m[id := c])
  }

  /** The transactions on the file are the transactions on the records that the trust protocol takes as steps. */
  lemma IntentsRepresent(db: Database, m: CertificateMap, id: Id, token: Id, readable: bool, verify: Answer, now: Time)
    requires Represents(db.certificates, m) && id in m && m[id].id == id
    ensures var p, r := PrepareInstall(m[id], token, readable, verify, now),
                        InstallIntentIn(db, id, token, readable, verify, now);
            if p.Ok? then Writes(r, m, id, p.value) else r == Err(p.error)
    ensures var p, r := PrepareRemove(m[id], token, CertificateUsed(db, id), readable, now),
                        RemoveIntentIn(db, id, token, readable, now);
            if p.Ok? then Writes(r, m, id, p.value) else r == Err(p.error)
  {
    PositionRepresents(db.certificates, m, id);
    var i := CertificateAt(db.certificates, id);
    var p := PrepareInstall(m[id], token, readable, verify, now);
    if p.Ok? {
      PutRepresents(db, m, i, p.value);
    }
    var q := PrepareRemove(m[id], token, CertificateUsed(db, id), readable, now);
    if q.Ok? {
      PutRepresents(db, m, i, q.value);
    }
  }

  lemma ResultsRepresent(db: Database, m: CertificateMap, id: Id, token: Id, owned: bool, already: bool, message: string,
                         now: Time)
    requires Represents(db.certificates, m) && (id in m ==> m[id].id == id)
    ensures Awaits(m, id, token) <==> AwaitsIn(db, id, token)
    ensures if Awaits(m, id, token)
            then Writes(FinishInstallIn(db, id, token, owned, already, now), m, id, WithInstalled(m[id], owned, already, now))
            else FinishInstallIn(db, id, token, owned, already, now) == Err(NOT_FOUND)
    ensures if Awaits(m, id, token)
            then Writes(FinishRemovalIn(db, id, token, now), m, id, WithRemoved(m[id], now))
            else FinishRemovalIn(db, id, token, now) == Err(NOT_FOUND)
    ensures if Awaits(m, id, token)
            then Writes(MarkErrorIn(db, id, token, message, now), m, id, WithTrustError(m[id], message, now))
            else MarkErrorIn(db, id, token, message, now) == Ok(db)
  {
    PositionRepresents(db.certificates, m, id);
    if Awaits(m, id, token) {
      var i := CertificateAt(db.certificates, id);
      PutRepresents(db, m, i, WithInstalled(m[id], owned, already, now));
      PutRepresents(db, m, i, WithRemoved(m[id], now));
      PutRepresents(db, m, i, WithTrustError(m[id], message, now));
    }
  }

  lemma RecoveryRepresents(db: Database, m: CertificateMap, answers: map<Id, Answer>, now: Time)
    requires Represents(db.certificates, m)
    ensures Represents(RecoverIn(db, answers, now).value.certificates, RecoverAll(m, answers, now))
  {
    var before, cs := db.certificates, RecoveredCertificates(db.certificates, answers, now);
    forall k | 0 <= k < |cs| ensures cs[k].id == before[k].id && Maps(RecoverAll(m, answers, now), cs[k]) {
      assert Maps(m, before[k]);
      RecoveryKeepsIdentity(before[k], AnswerOf(answers, before[k].id), now);
    }
    forall id | id in m ensures Listed(cs, id) {
      SameIds(before, cs, id);
    }
  }

  lemma RecoveryKeepsIdentity(c: Certificate, answer: Answer, now: Time)
    ensures RecoverOne(c, answer, now).id == c.id && RecoverOne(c, answer, now).fingerprint == c.fingerprint
  {
  }
}
