/**
 * Trust operations against the operating system's root store. An operation writes its intent,
 * changes the store, verifies, and writes its result; a call into the store may fail before or
 * after taking effect, the operation may stop anywhere, and recovery may run at any time.
 */
module TrustProtocol {
  import opened Prelude
  import opened Records
  import opened CertificateSpec

  datatype Kind = Install | Remove

  datatype Stage = Prepared | Changed | Confirmed | Failing

  // owned and already are what the operation remembers of the record and of the store's answer.
  datatype TrustOp = TrustOp(kind: Kind, cert: Id, fingerprint: Fingerprint, owned: bool, already: bool, stage: Stage)

  // foreign: entries of the store that something else put there while no operation was under way on them.
  datatype Trust = Trust(os: set<Fingerprint>, foreign: set<Fingerprint>, ops: map<Id, TrustOp>, spent: set<Id>)

  datatype TrustEvent =
    | PrepareInstallStep(id: Id, token: Id, now: Time)
    | PrepareRemoveStep(id: Id, token: Id, referenced: bool, now: Time)
    | ChangeStore(token: Id, takesEffect: bool, fails: bool)
    | Confirm(token: Id, answer: Answer)
    | FinishStep(token: Id, now: Time)
    | MarkErrorStep(token: Id, message: string, now: Time)
    | Vanish(token: Id)
    | RecoverStep(answers: map<Id, Answer>, now: Time)
    | ExternalAdd(fingerprint: Fingerprint)
    | ExternalRemove(fingerprint: Fingerprint)

  function WithStage(r: Trust, token: Id, stage: Stage): Trust
    requires token in r.ops
  {
    r.(ops := r.ops[token := r.ops[token].(stage := stage)])
  }

  predicate NewToken(r: Trust, token: Id) {
    token != "" && token !in r.spent && token !in r.ops
  }

  predicate Honest(r: Trust, fingerprint: Fingerprint, answer: Answer) {
    answer.Present? ==> (answer.trusted <==> fingerprint in r.os)
  }

  // Other software leaves an entry alone while an operation is pending on it.
  ghost predicate Idle(m: CertificateMap, r: Trust, fingerprint: Fingerprint) {
    && (forall id :: id in m && m[id].fingerprint == fingerprint ==> !Pending(m[id]))
    && (forall t :: t in r.ops ==> r.ops[t].fingerprint != fingerprint)
  }

  ghost predicate PrepareInstallNext(m: CertificateMap, r: Trust, id: Id, token: Id, now: Time,
                                     n: CertificateMap, u: Trust)
  {
    && id in m && NewToken(r, token)
    && var c := m[id];
       var p := PrepareInstall(c, token, true, Present(c.fingerprint in r.os), now);
    && p.Ok? && n == m[id := p.value]
    && u == r.(spent := r.spent + {token},
               ops := r.ops[token := TrustOp(Install, id, c.fingerprint, c.installedByScopeNest, false, Prepared)])
  }

  ghost predicate PrepareRemoveNext(m: CertificateMap, r: Trust, id: Id, token: Id, referenced: bool, now: Time,
                                    n: CertificateMap, u: Trust)
  {
    && id in m && NewToken(r, token)
    && var c := m[id];
       var p := PrepareRemove(c, token, referenced, true, now);
    && p.Ok? && n == m[id := p.value]
    && u == r.(spent := r.spent + {token},
               ops := r.ops[token := TrustOp(Remove, id, c.fingerprint, true, false, Prepared)])
  }

  /** A removal begins only for an entry of ScopeNest's own with no other operation on it and no user of it. */
  lemma RemovalBeginsUnused(m: CertificateMap, r: Trust, id: Id, token: Id, referenced: bool, now: Time,
                            n: CertificateMap, u: Trust)
    requires PrepareRemoveNext(m, r, id, token, referenced, now, n, u)
    ensures !referenced && m[id].installedByScopeNest && m[id].operationId == ""
    ensures m[id].trustState !in {Installing, Removing}
  {
  }

  // Install reports whether the entry was there before; a call that takes no effect has failed.
  ghost predicate ChangeStoreNext(m: CertificateMap, r: Trust, token: Id, takesEffect: bool, fails: bool,
                                  n: CertificateMap, u: Trust)
  {
    && token in r.ops && r.ops[token].stage == Prepared && (takesEffect || fails) && n == m
    && var op := r.ops[token];
       var store := if !takesEffect then r.os
                    else if op.kind == Install then r.os + {op.fingerprint} else r.os - {op.fingerprint};
    && u == WithStage(r, token, if fails then Failing else Changed).(os := store,
              ops := r.ops[token := op.(stage := if fails then Failing else Changed, already := op.fingerprint in r.os)])
  }

  ghost predicate ConfirmNext(m: CertificateMap, r: Trust, token: Id, answer: Answer, n: CertificateMap, u: Trust) {
    && token in r.ops && r.ops[token].stage == Changed && Honest(r, r.ops[token].fingerprint, answer) && n == m
    && u == WithStage(r, token, if answer == Present(r.ops[token].kind == Install) then Confirmed else Failing)
  }

  ghost predicate FinishNext(m: CertificateMap, r: Trust, token: Id, now: Time, n: CertificateMap, u: Trust) {
    && token in r.ops && r.ops[token].stage == Confirmed
    && var op := r.ops[token];
    && n == (if !Awaits(m, op.cert, token) then m
             else if op.kind == Install then m[op.cert := WithInstalled(m[op.cert], op.owned, op.already, now)]
             else m[op.cert := WithRemoved(m[op.cert], now)])
    && u == r.(ops := r.ops - {token})
  }

  ghost predicate MarkErrorNext(m: CertificateMap, r: Trust, token: Id, message: string, now: Time,
                                n: CertificateMap, u: Trust)
  {
    && token in r.ops && r.ops[token].stage == Failing
    && var op := r.ops[token];
    && n == (if Awaits(m, op.cert, token) then m[op.cert := WithTrustError(m[op.cert], message, now)] else m)
    && u == r.(ops := r.ops - {token})
  }

  // The host crashed, or a write of the operation did not happen.
  ghost predicate VanishNext(m: CertificateMap, r: Trust, token: Id, n: CertificateMap, u: Trust) {
    token in r.ops && n == m && u == r.(ops := r.ops - {token})
  }

  ghost predicate RecoverNext(m: CertificateMap, r: Trust, answers: map<Id, Answer>, now: Time,
                              n: CertificateMap, u: Trust)
  {
    n == RecoverAll(m, answers, now) && u == r
  }

  ghost predicate ExternalAddNext(m: CertificateMap, r: Trust, f: Fingerprint, n: CertificateMap, u: Trust) {
    && f !in r.os && Idle(m, r, f) && (forall id :: id in m && m[id].fingerprint == f ==> !m[id].installedByScopeNest)
    && n == m && u == r.(os := r.os + {f}, foreign := r.foreign + {f})
  }

  ghost predicate ExternalRemoveNext(m: CertificateMap, r: Trust, f: Fingerprint, n: CertificateMap, u: Trust) {
    && f in r.os && Idle(m, r, f)
    && n == m && u == r.(os := r.os - {f}, foreign := r.foreign - {f})
  }

  ghost predicate TrustNext(m: CertificateMap, r: Trust, e: TrustEvent, n: CertificateMap, u: Trust) {
    match e
    case PrepareInstallStep(id, token, now) => PrepareInstallNext(m, r, id, token, now, n, u)
    case PrepareRemoveStep(id, token, referenced, now) => PrepareRemoveNext(m, r, id, token, referenced, now, n, u)
    case ChangeStore(token, takesEffect, fails) => ChangeStoreNext(m, r, token, takesEffect, fails, n, u)
    case Confirm(token, answer) => ConfirmNext(m, r, token, answer, n, u)
    case FinishStep(token, now) => FinishNext(m, r, token, now, n, u)
    case MarkErrorStep(token, message, now) => MarkErrorNext(m, r, token, message, now, n, u)
    case Vanish(token) => VanishNext(m, r, token, n, u)
    case RecoverStep(answers, now) => RecoverNext(m, r, answers, now, n, u)
    case ExternalAdd(f) => ExternalAddNext(m, r, f, n, u)
    case ExternalRemove(f) => ExternalRemoveNext(m, r, f, n, u)
  }

  // The trust store says truthfully whether an entry is there, or reports that it cannot say.
  ghost predicate Truthful(m: CertificateMap, r: Trust, e: TrustEvent) {
    e.RecoverStep? ==> forall id :: id in m ==> Honest(r, RecoveryFingerprint(m[id]), AnswerOf(e.answers, id))
  }

  // An installation that has yet to call the store, on a record that waits for it.
  predicate AboutToInstall(m: CertificateMap, r: Trust, token: Id) {
    && token in r.ops && r.ops[token].kind == Install && r.ops[token].stage == Prepared
    && Awaits(m, r.ops[token].cert, token)
  }

  /**
   * Recovery does not end the operation of an installation that has yet to call the store, unless
   * the entry is there and is not ScopeNest's.
   */
  ghost predicate Discreet(m: CertificateMap, r: Trust, e: TrustEvent) {
    e.RecoverStep? ==>
      forall token :: AboutToInstall(m, r, token) && AnswerOf(e.answers, r.ops[token].cert).Present? ==>
        var id := r.ops[token].cert;
        AnswerOf(e.answers, id) == Present(true) && !m[id].installedByScopeNest
  }

  // ---- what every step keeps, whenever recovery runs and whatever it is told ----

  /** Entries of others are in the store, are claimed by no record and are the target of no removal. */
  ghost predicate ForeignSafe(m: CertificateMap, r: Trust) {
    && r.foreign <= r.os
    && (forall id :: id in m && m[id].fingerprint in r.foreign ==>
          !m[id].installedByScopeNest && (Pending(m[id]) ==> m[id].operationWasTrusted))
    && (forall t :: t in r.ops && r.ops[t].fingerprint in r.foreign ==>
          && r.ops[t].kind == Install && !r.ops[t].owned
          && (r.ops[t].stage in {Changed, Confirmed} ==> r.ops[t].already))
  }

  ghost predicate OpsMatch(m: CertificateMap, r: Trust) {
    && (forall t :: t in r.ops ==> t != "" && t in r.spent)
    && (forall t :: t in r.ops && r.ops[t].cert in m ==> m[r.ops[t].cert].fingerprint == r.ops[t].fingerprint)
    && (forall id :: id in m && m[id].operationId != "" ==> m[id].operationId in r.spent)
  }

  ghost predicate Shaped(m: CertificateMap) {
    && (forall id :: id in m ==> m[id].id == id && TrustShape(m[id]))
    && (forall i, j :: i in m && j in m && m[i].fingerprint == m[j].fingerprint ==> i == j)
  }

  ghost predicate LooseInv(m: CertificateMap, r: Trust) {
    Shaped(m) && OpsMatch(m, r) && ForeignSafe(m, r)
  }

  lemma ShapedUpdate(m: CertificateMap, id: Id, c: Certificate)
    requires Shaped(m) && id in m && TrustShape(c) && c.id == id && c.fingerprint == m[id].fingerprint
    ensures Shaped(m[id := c])
  {
  }

  lemma PrepareKeepsLoose(m: CertificateMap, r: Trust, e: TrustEvent, n: CertificateMap, u: Trust)
    requires LooseInv(m, r) && TrustNext(m, r, e, n, u) && (e.PrepareInstallStep? || e.PrepareRemoveStep?)
    ensures LooseInv(n, u)
  {
    ShapedUpdate(m, e.id, n[e.id]);
  }

  lemma StoreStepKeepsLoose(m: CertificateMap, r: Trust, e: TrustEvent, n: CertificateMap, u: Trust)
    requires LooseInv(m, r) && TrustNext(m, r, e, n, u) && (e.ChangeStore? || e.Confirm? || e.Vanish?)
    ensures LooseInv(n, u)
  {
  }

  lemma FinishKeepsLoose(m: CertificateMap, r: Trust, token: Id, now: Time, n: CertificateMap, u: Trust)
    requires LooseInv(m, r) && FinishNext(m, r, token, now, n, u)
    ensures LooseInv(n, u)
  {
    var id := r.ops[token].cert;
    if Awaits(m, id, token) {
      ShapedUpdate(m, id, n[id]);
    }
  }

  lemma MarkErrorKeepsLoose(m: CertificateMap, r: Trust, token: Id, message: string, now: Time,
                            n: CertificateMap, u: Trust)
    requires LooseInv(m, r) && MarkErrorNext(m, r, token, message, now, n, u)
    ensures LooseInv(n, u)
  {
    var id := r.ops[token].cert;
    if Awaits(m, id, token) {
      ShapedUpdate(m, id, n[id]);
    }
  }

  // What recovery can make of one record, whatever it is told.
  lemma RecoveredRecord(c: Certificate, answer: Answer, now: Time)
    requires TrustShape(c)
    ensures var d := RecoverOne(c, answer, now);
            && TrustShape(d) && d.id == c.id && d.fingerprint == c.fingerprint
            && (d.operationId == "" || d.operationId == c.operationId)
            && (d.installedByScopeNest ==> c.installedByScopeNest || (Pending(c) && !c.operationWasTrusted))
            && (Pending(d) ==> Pending(c) && d.operationWasTrusted == c.operationWasTrusted)
  {
  }

  lemma RecoverKeepsLoose(m: CertificateMap, r: Trust, answers: map<Id, Answer>, now: Time, n: CertificateMap, u: Trust)
    requires LooseInv(m, r) && RecoverNext(m, r, answers, now, n, u)
    ensures LooseInv(n, u)
  {
    forall id | id in m
      ensures n[id].id == m[id].id && n[id].fingerprint == m[id].fingerprint && TrustShape(n[id])
      ensures n[id].operationId == "" || n[id].operationId == m[id].operationId
      ensures n[id].fingerprint in r.foreign ==>
                !n[id].installedByScopeNest && (Pending(n[id]) ==> n[id].operationWasTrusted)
    {
      RecoveredRecord(m[id], AnswerOf(answers, id), now);
    }
  }

  /** Every step, recovery at any moment with any answers included, keeps the entries of others safe. */
  lemma TrustNextKeepsLoose(m: CertificateMap, r: Trust, e: TrustEvent, n: CertificateMap, u: Trust)
    requires LooseInv(m, r) && TrustNext(m, r, e, n, u)
    ensures LooseInv(n, u)
  {
    match e
    case FinishStep(token, now) => FinishKeepsLoose(m, r, token, now, n, u);
    case MarkErrorStep(token, message, now) => MarkErrorKeepsLoose(m, r, token, message, now, n, u);
    case RecoverStep(answers, now) => RecoverKeepsLoose(m, r, answers, now, n, u);
    case ExternalAdd(_) =>
    case ExternalRemove(_) =>
    case PrepareInstallStep(_, _, _) => PrepareKeepsLoose(m, r, e, n, u);
    case PrepareRemoveStep(_, _, _, _) => PrepareKeepsLoose(m, r, e, n, u);
    case _ => StoreStepKeepsLoose(m, r, e, n, u);
  }

  /** No step but another program's own removes an entry ScopeNest found in the store. */
  lemma ForeignStays(m: CertificateMap, r: Trust, e: TrustEvent, n: CertificateMap, u: Trust, f: Fingerprint)
    requires LooseInv(m, r) && TrustNext(m, r, e, n, u) && f in r.foreign
    ensures (f in u.os && f in u.foreign) || e == ExternalRemove(f)
  {
  }
}
