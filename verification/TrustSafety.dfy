/**
 * Every entry ScopeNest added stays tracked by a record, as long as recovery does not end an
 * installation that has yet to call the store; and recovery brings the records back in line.
 */
module TrustSafety {
  import opened Prelude
  import opened Records
  import opened CertificateSpec
  import opened TrustProtocol

  predicate Added(r: Trust, f: Fingerprint) {
    f in r.os && f !in r.foreign
  }

  predicate Tracks(c: Certificate, f: Fingerprint) {
    c.fingerprint == f && (c.installedByScopeNest || c.operationId != "")
  }

  /** Every entry ScopeNest added has a record that owns it or has an operation pending on it. */
  ghost predicate Tracked(m: CertificateMap, r: Trust) {
    forall f :: Added(r, f) ==> exists id :: id in m && Tracks(m[id], f)
  }

  // What a record under an operation says about the store.
  predicate PendingRecord(c: Certificate, r: Trust) {
    && (c.trustState == Removing ==> c.operationWasTrusted)
    && (c.operationId != "" && c.operationWasTrusted ==> c.installedByScopeNest || c.fingerprint in r.foreign)
  }

  // What an operation in flight still does is covered: by its record, or by an entry that is another's.
  predicate Covered(m: CertificateMap, r: Trust, op: TrustOp, token: Id) {
    && (Awaits(m, op.cert, token) ==> m[op.cert].fingerprint == op.fingerprint)
    && (op.kind == Install && Awaits(m, op.cert, token) ==>
          && m[op.cert].installedByScopeNest == op.owned
          && (op.stage == Prepared && !m[op.cert].operationWasTrusted ==> op.fingerprint !in r.os))
    && (op.kind == Install && op.stage == Prepared ==> Awaits(m, op.cert, token) || op.fingerprint in r.foreign)
    && (op.kind == Install && op.stage in {Changed, Confirmed} && op.already && !op.owned ==> op.fingerprint in r.foreign)
    && (op.kind == Remove && op.stage == Confirmed && Awaits(m, op.cert, token) ==> op.fingerprint !in r.os)
  }

  ghost predicate AllCovered(m: CertificateMap, r: Trust) {
    forall t :: t in r.ops ==> Covered(m, r, r.ops[t], t)
  }

  ghost predicate AllPending(m: CertificateMap, r: Trust) {
    forall id :: id in m ==> PendingRecord(m[id], r)
  }

  ghost predicate TrustInv(m: CertificateMap, r: Trust) {
    LooseInv(m, r) && AllCovered(m, r) && AllPending(m, r) && Tracked(m, r)
  }

  // One record is rewritten and still accounts for whatever the store holds.
  lemma TrackedUpdate(m: CertificateMap, r: Trust, id: Id, c: Certificate, u: Trust)
    requires Tracked(m, r) && id in m && c.fingerprint == m[id].fingerprint
    requires forall f :: Added(u, f) && f != c.fingerprint ==> Added(r, f)
    requires Added(u, c.fingerprint) ==> Tracks(c, c.fingerprint)
    ensures Tracked(m[id := c], u)
  {
    var n := m[id := c];
    forall f | Added(u, f) ensures exists k :: k in n && Tracks(n[k], f) {
      if f == c.fingerprint {
        assert Tracks(n[id], f);
      } else {
        assert Added(r, f);
        var k :| k in m && Tracks(m[k], f);
        assert Tracks(n[k], f);
      }
    }
  }

  // The store only loses entries of ScopeNest's.
  lemma TrackedThrough(m: CertificateMap, r: Trust, u: Trust)
    requires Tracked(m, r) && forall f :: Added(u, f) ==> Added(r, f)
    ensures Tracked(m, u)
  {
    forall f | Added(u, f) ensures exists id :: id in m && Tracks(m[id], f) {
      assert Added(r, f);
    }
  }

  lemma PrepareKeepsCover(m: CertificateMap, r: Trust, e: TrustEvent, n: CertificateMap, u: Trust)
    requires OpsMatch(m, r) && AllCovered(m, r) && TrustNext(m, r, e, n, u)
    requires (e.PrepareInstallStep? || e.PrepareRemoveStep?) && m[e.id].id == e.id
    ensures AllCovered(n, u)
  {
    forall t | t in u.ops ensures Covered(n, u, u.ops[t], t) {
      if t != e.token {
        assert Covered(m, r, r.ops[t], t);
        assert Awaits(n, u.ops[t].cert, t) <==> Awaits(m, r.ops[t].cert, t);
      }
    }
  }

  lemma PrepareKeepsTrust(m: CertificateMap, r: Trust, e: TrustEvent, n: CertificateMap, u: Trust)
    requires TrustInv(m, r) && TrustNext(m, r, e, n, u) && (e.PrepareInstallStep? || e.PrepareRemoveStep?)
    ensures AllCovered(n, u) && AllPending(n, u) && Tracked(n, u)
  {
    var c := m[e.id];
    if Added(r, c.fingerprint) {
      var k :| k in m && Tracks(m[k], c.fingerprint);
      assert k == e.id;
    }
    assert n == m[e.id := n[e.id]];
    TrackedUpdate(m, r, e.id, n[e.id], u);
    PrepareKeepsCover(m, r, e, n, u);
    forall id | id in n ensures PendingRecord(n[id], u) {
      assert PendingRecord(m[id], r);
    }
  }

  // Whoever is about to install may add the entry: nobody else relies on its absence.
  lemma InstallsAlone(m: CertificateMap, r: Trust, t: Id, v: Id)
    requires TrustInv(m, r) && t in r.ops && v in r.ops && t != v && r.ops[t].fingerprint == r.ops[v].fingerprint
    requires r.ops[t].kind == Install && r.ops[t].stage == Prepared && r.ops[t].fingerprint !in r.os
    ensures !Awaits(m, r.ops[v].cert, v)
  {
    assert Covered(m, r, r.ops[t], t) && Covered(m, r, r.ops[v], v);
  }

  lemma ChangeStoreKeepsCover(m: CertificateMap, r: Trust, token: Id, takesEffect: bool, fails: bool,
                              n: CertificateMap, u: Trust, t: Id)
    requires TrustInv(m, r) && ChangeStoreNext(m, r, token, takesEffect, fails, n, u) && t in u.ops
    ensures Covered(n, u, u.ops[t], t)
  {
    var op := r.ops[token];
    assert Covered(m, r, op, token) && Covered(m, r, r.ops[t], t);
    if t == token {
      assert Awaits(m, op.cert, token) ==> PendingRecord(m[op.cert], r);
    } else if r.ops[t].fingerprint == op.fingerprint && op.kind == Install && op.fingerprint !in r.os {
      InstallsAlone(m, r, token, t);
    }
  }

  lemma ChangeStoreKeepsTrust(m: CertificateMap, r: Trust, token: Id, takesEffect: bool, fails: bool,
                              n: CertificateMap, u: Trust)
    requires TrustInv(m, r) && ChangeStoreNext(m, r, token, takesEffect, fails, n, u)
    ensures AllCovered(n, u) && AllPending(n, u) && Tracked(n, u)
  {
    var op := r.ops[token];
    assert Covered(m, r, op, token);
    if op.kind == Install && op.fingerprint !in r.foreign {
      assert m == m[op.cert := m[op.cert]];
      TrackedUpdate(m, r, op.cert, m[op.cert], u);
    } else {
      TrackedThrough(m, r, u);
    }
    forall t | t in u.ops ensures Covered(n, u, u.ops[t], t) {
      ChangeStoreKeepsCover(m, r, token, takesEffect, fails, n, u, t);
    }
    forall id | id in m ensures PendingRecord(m[id], u) {
      assert PendingRecord(m[id], r);
    }
  }

  lemma ConfirmKeepsTrust(m: CertificateMap, r: Trust, token: Id, answer: Answer, n: CertificateMap, u: Trust)
    requires TrustInv(m, r) && ConfirmNext(m, r, token, answer, n, u)
    ensures AllCovered(n, u) && AllPending(n, u) && Tracked(n, u)
  {
    TrackedThrough(m, r, u);
    forall t | t in u.ops ensures Covered(n, u, u.ops[t], t) {
      assert Covered(m, r, r.ops[t], t);
    }
    forall id | id in m ensures PendingRecord(m[id], u) {
      assert PendingRecord(m[id], r);
    }
  }

  // The record an operation leaves behind when it ends, in whatever way.
  lemma EndedRecord(m: CertificateMap, r: Trust, e: TrustEvent, n: CertificateMap, u: Trust)
    requires LooseInv(m, r) && TrustNext(m, r, e, n, u) && (e.FinishStep? || e.MarkErrorStep?)
    requires Covered(m, r, r.ops[e.token], e.token) && Awaits(m, r.ops[e.token].cert, e.token)
    requires PendingRecord(m[r.ops[e.token].cert], r)
    ensures var id := r.ops[e.token].cert;
            && id in n && n == m[id := n[id]] && n[id].fingerprint == m[id].fingerprint && PendingRecord(n[id], r)
            && (n[id].operationId == "" || n[id].operationId == e.token)
            && (Added(r, n[id].fingerprint) ==> Tracks(n[id], n[id].fingerprint))
  {
  }

  lemma EndKeepsTrust(m: CertificateMap, r: Trust, e: TrustEvent, n: CertificateMap, u: Trust)
    requires TrustInv(m, r) && TrustNext(m, r, e, n, u) && (e.FinishStep? || e.MarkErrorStep? || e.Vanish?)
    ensures AllCovered(n, u) && AllPending(n, u) && Tracked(n, u)
  {
    var id := r.ops[e.token].cert;
    assert Covered(m, r, r.ops[e.token], e.token) && u == r.(ops := r.ops - {e.token});
    if !e.Vanish? && Awaits(m, id, e.token) {
      assert PendingRecord(m[id], r);
      EndedRecord(m, r, e, n, u);
      TrackedUpdate(m, r, id, n[id], u);
    } else {
      TrackedThrough(m, r, u);
    }
    forall t | t in u.ops ensures Covered(n, u, u.ops[t], t) {
      assert Covered(m, r, r.ops[t], t);
      assert Awaits(n, u.ops[t].cert, t) <==> Awaits(m, r.ops[t].cert, t);
    }
    forall k | k in n ensures PendingRecord(n[k], u) {
      assert PendingRecord(m[k], r);
    }
  }

  // One record in a recovery that is told the truth.
  lemma RecoveredTruthfully(c: Certificate, r: Trust, answer: Answer, now: Time)
    requires TrustShape(c) && PendingRecord(c, r) && Honest(r, c.fingerprint, answer)
    requires c.fingerprint in r.foreign ==>
               c.fingerprint in r.os && !c.installedByScopeNest && (Pending(c) ==> c.operationWasTrusted)
    ensures var d := RecoverOne(c, answer, now);
            && PendingRecord(d, r) && d.fingerprint == c.fingerprint
            && (Added(r, c.fingerprint) && Tracks(c, c.fingerprint) ==> Tracks(d, c.fingerprint))
            && (c.operationId != "" && answer.Present? ==>
                  && d.operationId == ""
                  && (d.trusted <==> c.fingerprint in r.os) && (d.installedByScopeNest <==> Added(r, c.fingerprint)))
  {
  }

  // A record that still has its operation after recovery is as the operation left it.
  lemma StillPending(c: Certificate, answer: Answer, now: Time)
    requires TrustShape(c) && c.operationId != ""
    ensures var d := RecoverOne(c, answer, now);
            && (answer.Present? ==> d.operationId == "")
            && (!answer.Present? ==> d.operationId == c.operationId && d.installedByScopeNest == c.installedByScopeNest
                                     && d.operationWasTrusted == c.operationWasTrusted)
            && d.fingerprint == c.fingerprint
  {
  }

  lemma RecoverKeepsCover(m: CertificateMap, r: Trust, e: TrustEvent, n: CertificateMap, u: Trust, t: Id)
    requires TrustInv(m, r) && TrustNext(m, r, e, n, u) && e.RecoverStep? && Truthful(m, r, e) && Discreet(m, r, e)
    requires t in u.ops
    ensures Covered(n, u, u.ops[t], t)
  {
    var op := r.ops[t];
    assert Covered(m, r, op, t);
    if op.cert in m {
      var c, answer := m[op.cert], AnswerOf(e.answers, op.cert);
      assert PendingRecord(c, r) && Honest(r, RecoveryFingerprint(c), answer);
      if Awaits(m, op.cert, t) {
        StillPending(c, answer, e.now);
        assert op.kind == Install && op.stage == Prepared ==> AboutToInstall(m, r, t);
      } else {
        RecoveredRecord(c, answer, e.now);
      }
    }
  }

  lemma RecoverKeepsTrust(m: CertificateMap, r: Trust, e: TrustEvent, n: CertificateMap, u: Trust)
    requires TrustInv(m, r) && TrustNext(m, r, e, n, u) && e.RecoverStep? && Truthful(m, r, e) && Discreet(m, r, e)
    ensures AllCovered(n, u) && AllPending(n, u) && Tracked(n, u)
  {
    forall id | id in m
      ensures PendingRecord(n[id], r) && n[id].fingerprint == m[id].fingerprint
      ensures Added(r, m[id].fingerprint) && Tracks(m[id], m[id].fingerprint) ==> Tracks(n[id], m[id].fingerprint)
    {
      assert PendingRecord(m[id], r) && Honest(r, RecoveryFingerprint(m[id]), AnswerOf(e.answers, id));
      RecoveredTruthfully(m[id], r, AnswerOf(e.answers, id), e.now);
    }
    forall f | Added(u, f) ensures exists k :: k in n && Tracks(n[k], f) {
      assert Added(r, f);
      var k :| k in m && Tracks(m[k], f);
      assert Tracks(n[k], f);
    }
    forall t | t in u.ops ensures Covered(n, u, u.ops[t], t) {
      RecoverKeepsCover(m, r, e, n, u, t);
    }
  }

  lemma ExternalKeepsTrust(m: CertificateMap, r: Trust, e: TrustEvent, n: CertificateMap, u: Trust)
    requires TrustInv(m, r) && TrustNext(m, r, e, n, u) && (e.ExternalAdd? || e.ExternalRemove?)
    ensures AllCovered(n, u) && AllPending(n, u) && Tracked(n, u)
  {
    TrackedThrough(m, r, u);
    forall t | t in u.ops ensures Covered(n, u, u.ops[t], t) {
      assert Covered(m, r, r.ops[t], t);
    }
    forall id | id in m ensures PendingRecord(m[id], u) {
      assert PendingRecord(m[id], r);
    }
  }

  /** Every step keeps the trust invariant as long as recovery is told the truth and is discreet. */
  lemma TrustNextKeepsInv(m: CertificateMap, r: Trust, e: TrustEvent, n: CertificateMap, u: Trust)
    requires TrustInv(m, r) && TrustNext(m, r, e, n, u) && Truthful(m, r, e) && Discreet(m, r, e)
    ensures TrustInv(n, u)
  {
    TrustNextKeepsLoose(m, r, e, n, u);
    match e
    case ChangeStore(token, takesEffect, fails) => ChangeStoreKeepsTrust(m, r, token, takesEffect, fails, n, u);
    case Confirm(token, answer) => ConfirmKeepsTrust(m, r, token, answer, n, u);
    case FinishStep(_, _) => EndKeepsTrust(m, r, e, n, u);
    case MarkErrorStep(_, _, _) => EndKeepsTrust(m, r, e, n, u);
    case Vanish(_) => EndKeepsTrust(m, r, e, n, u);
    case RecoverStep(_, _) => RecoverKeepsTrust(m, r, e, n, u);
    case ExternalAdd(_) => ExternalKeepsTrust(m, r, e, n, u);
    case ExternalRemove(_) => ExternalKeepsTrust(m, r, e, n, u);
    case _ => PrepareKeepsTrust(m, r, e, n, u);
  }

  /** A library entry is imported, or a record is deleted after the deletion's own checks. */
  lemma ImportKeepsTrust(m: CertificateMap, r: Trust, id: Id, f: Fingerprint, now: Time)
    requires id !in m && (forall k :: k in m ==> m[k].fingerprint != f)
    requires forall t :: t in r.ops ==> r.ops[t].cert != id
    ensures var n := m[id := ImportedCertificate(id, f, now)];
            (LooseInv(m, r) ==> LooseInv(n, r)) && (TrustInv(m, r) ==> TrustInv(n, r))
  {
    var n := m[id := ImportedCertificate(id, f, now)];
    if TrustInv(m, r) {
      forall f | Added(r, f) ensures exists k :: k in n && Tracks(n[k], f) {
        var k :| k in m && Tracks(m[k], f);
        assert Tracks(n[k], f);
      }
      forall t | t in r.ops ensures Covered(n, r, r.ops[t], t) {
        assert Covered(m, r, r.ops[t], t);
      }
      assert AllPending(n, r);
    }
  }

  /** Deleting a record never orphans an entry ScopeNest added. */
  lemma DeletionKeepsTrust(m: CertificateMap, r: Trust, id: Id, other: bool, referenced: bool)
    requires id in m && DeletionError(m[id], other, referenced).None?
    ensures LooseInv(m, r) ==> LooseInv(m - {id}, r)
    ensures TrustInv(m, r) ==> TrustInv(m - {id}, r) && !Added(r, m[id].fingerprint)
  {
    var n := m - {id};
    if TrustInv(m, r) {
      forall f | Added(r, f) ensures f != m[id].fingerprint && exists k :: k in n && Tracks(n[k], f) {
        var k :| k in m && Tracks(m[k], f);
        assert k != id && Tracks(n[k], f);
      }
      forall t | t in r.ops ensures Covered(n, r, r.ops[t], t) {
        assert Covered(m, r, r.ops[t], t);
        assert Awaits(n, r.ops[t].cert, t) <==> Awaits(m, r.ops[t].cert, t);
      }
      assert AllPending(n, r);
    }
  }

  /**
   * After any crash: recovery that reads the bytes and gets answers ends every operation, and where
   * one was pending the record says what the store holds and owns exactly what ScopeNest added.
   */
  lemma Recovered(m: CertificateMap, r: Trust, e: TrustEvent, n: CertificateMap, u: Trust, id: Id)
    requires TrustInv(m, r) && TrustNext(m, r, e, n, u) && e.RecoverStep? && Truthful(m, r, e)
    requires id in m && AnswerOf(e.answers, id).Present?
    ensures n[id].operationId == "" && n[id].trustState in {Trusted, Untrusted}
    ensures m[id].operationId != "" ==>
              && (n[id].trusted <==> n[id].fingerprint in u.os)
              && (n[id].installedByScopeNest <==> n[id].fingerprint in u.os && n[id].fingerprint !in u.foreign)
  {
    assert PendingRecord(m[id], r) && Honest(r, RecoveryFingerprint(m[id]), AnswerOf(e.answers, id));
    RecoveredTruthfully(m[id], r, AnswerOf(e.answers, id), e.now);
  }

  // ---- what an indiscreet recovery can lead to ----

  // An entry ScopeNest has just added while no record tracks it.
  lemma LateInstallOrphans(m: CertificateMap, r: Trust, token: Id, u: Trust)
    requires ChangeStoreNext(m, r, token, true, false, m, u)
    requires r.ops[token].kind == Install && r.ops[token].fingerprint !in r.foreign
    requires forall id :: id in m && m[id].fingerprint == r.ops[token].fingerprint ==>
               !m[id].installedByScopeNest && m[id].operationId == ""
    ensures !Tracked(m, u)
  {
    var f := r.ops[token].fingerprint;
    assert Added(u, f);
    forall id | id in m ensures !Tracks(m[id], f) {
    }
  }

  // The installation goes on after recovery found no entry.
  lemma AbsentAnswerOrphans(m: CertificateMap, r: Trust, e: TrustEvent, n: CertificateMap, token: Id, u: Trust)
    requires TrustInv(m, r) && TrustNext(m, r, e, n, r) && e.RecoverStep? && Truthful(m, r, e)
    requires AboutToInstall(m, r, token) && AnswerOf(e.answers, r.ops[token].cert) == Present(false)
    requires ChangeStoreNext(n, r, token, true, false, n, u)
    ensures !Tracked(n, u)
  {
    var op := r.ops[token];
    assert Covered(m, r, op, token) && Honest(r, RecoveryFingerprint(m[op.cert]), Present(false));
    forall id | id in n && n[id].fingerprint == op.fingerprint
      ensures !n[id].installedByScopeNest && n[id].operationId == ""
    {
      RecoveredRecord(m[id], AnswerOf(e.answers, id), e.now);
      assert id == op.cert;
    }
    LateInstallOrphans(n, r, token, u);
  }

  // ---- an installation that comes after a removal ----

  lemma UnusedToken(r: Trust) returns (token: Id)
    ensures NewToken(r, token)
  {
    var lengths := set x | x in r.spent + r.ops.Keys :: |x|;
    var n := Above(lengths);
    token := seq(n + 1, _ => 'x');
    assert |token| == n + 1 && |token| !in lengths;
  }

  // The states of a removal that runs from its intent to its result; found says whether it met the entry.
  function RemovalOp(c: Certificate, found: bool, stage: Stage): TrustOp {
    TrustOp(Remove, c.id, c.fingerprint, true, found && stage != Prepared, stage)
  }

  function RemovalCourse(id: Id, token: Id, now: Time): seq<TrustEvent> {
    [PrepareRemoveStep(id, token, false, now), ChangeStore(token, true, false), Confirm(token, Present(false)),
     FinishStep(token, now)]
  }

  /** What a record owns can be given up, whatever else is in flight, and the entry is then gone. */
  lemma CanRemove(m: CertificateMap, r: Trust, id: Id, token: Id, now: Time)
    returns (ms: seq<CertificateMap>, rs: seq<Trust>)
    requires id in m && m[id].id == id && !Pending(m[id]) && m[id].installedByScopeNest && NewToken(r, token)
    ensures |ms| == |rs| == 5 && ms[0] == m && rs[0] == r
    ensures forall i: nat :: i < 4 ==> TrustNext(ms[i], rs[i], RemovalCourse(id, token, now)[i], ms[i + 1], rs[i + 1])
    ensures var c := WithRemoveIntent(m[id], token, now);
            ms[1] == ms[2] == ms[3] == m[id := c] && ms[4] == m[id := WithRemoved(c, now)]
    ensures rs[4] == r.(os := r.os - {m[id].fingerprint}, spent := r.spent + {token})
  {
    var c := WithRemoveIntent(m[id], token, now);
    var found := c.fingerprint in r.os;
    var a := r.(spent := r.spent + {token}, ops := r.ops[token := RemovalOp(m[id], found, Prepared)]);
    var b := a.(os := r.os - {c.fingerprint}, ops := a.ops[token := RemovalOp(c, found, Changed)]);
    var d := b.(ops := b.ops[token := RemovalOp(c, found, Confirmed)]);
    var e := d.(ops := d.ops - {token});
    assert e.ops == r.ops;
    ms, rs := [m, m[id := c], m[id := c], m[id := c], m[id := WithRemoved(c, now)]], [r, a, b, d, e];
    assert TrustNext(m, r, PrepareRemoveStep(id, token, false, now), ms[1], a);
    assert TrustNext(ms[1], a, ChangeStore(token, true, false), ms[2], b);
    assert TrustNext(ms[2], b, Confirm(token, Present(false)), ms[3], d);
    assert ms[4] == ms[3][id := WithRemoved(c, now)];
    assert TrustNext(ms[3], d, FinishStep(token, now), ms[4], e);
  }

  function InstallOp(c: Certificate, stage: Stage): TrustOp {
    TrustOp(Install, c.id, c.fingerprint, c.installedByScopeNest, false, stage)
  }

  function InstallCourse(id: Id, token: Id, now: Time): seq<TrustEvent> {
    [PrepareInstallStep(id, token, now), ChangeStore(token, true, false), Confirm(token, Present(true)),
     FinishStep(token, now)]
  }

  /** An entry that is not there can be installed, and is then owned. */
  lemma CanInstall(m: CertificateMap, r: Trust, id: Id, token: Id, now: Time)
    returns (ms: seq<CertificateMap>, rs: seq<Trust>)
    requires id in m && m[id].id == id && !Pending(m[id]) && NewToken(r, token) && m[id].fingerprint !in r.os
    ensures |ms| == |rs| == 5 && ms[0] == m && rs[0] == r
    ensures forall i: nat :: i < 4 ==> TrustNext(ms[i], rs[i], InstallCourse(id, token, now)[i], ms[i + 1], rs[i + 1])
    ensures var c := WithInstallIntent(m[id], token, false, now);
            && ms[1] == ms[2] == ms[3] == m[id := c]
            && ms[4] == m[id := WithInstalled(c, m[id].installedByScopeNest, false, now)]
    ensures rs[4] == r.(os := r.os + {m[id].fingerprint}, spent := r.spent + {token})
  {
    var c := WithInstallIntent(m[id], token, false, now);
    var result := WithInstalled(c, m[id].installedByScopeNest, false, now);
    var a := r.(spent := r.spent + {token}, ops := r.ops[token := InstallOp(m[id], Prepared)]);
    var b := a.(os := r.os + {c.fingerprint}, ops := a.ops[token := InstallOp(c, Changed)]);
    var d := b.(ops := b.ops[token := InstallOp(c, Confirmed)]);
    var e := d.(ops := d.ops - {token});
    assert e.ops == r.ops;
    ms, rs := [m, m[id := c], m[id := c], m[id := c], m[id := result]], [r, a, b, d, e];
    assert TrustNext(m, r, PrepareInstallStep(id, token, now), ms[1], a);
    assert TrustNext(ms[1], a, ChangeStore(token, true, false), ms[2], b);
    assert TrustNext(ms[2], b, Confirm(token, Present(true)), ms[3], d);
    assert ms[4] == ms[3][id := result];
    assert TrustNext(ms[3], d, FinishStep(token, now), ms[4], e);
  }
}
