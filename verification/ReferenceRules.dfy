/**
 * What proxy profiles and templates are accepted, and when they can go, in terms of their fields and of
 * what the database holds.
 */
module ReferenceRules {
  import opened Prelude
  import opened Records
  import opened Environment
  import opened References
  import opened ReferenceSafety
  import opened ReferenceSpec
  import opened Transactions

  // Listed certificates are named once each.
  predicate EachOnce(ids: seq<Id>) {
    "" !in ids && forall i, j :: 0 <= i < j < |ids| ==> ids[i] != ids[j]
  }

  predicate AllStoredIn(db: Database, ids: seq<Id>) {
    forall id :: id in ids ==> exists c :: c in db.certificates && c.id == id
  }

  // No rule is long, the list is short, and only empty rules repeat.
  predicate ShortRules(rules: seq<string>) {
    && |rules| <= 100 && TotalLength(rules) <= 8192 && (forall rule :: rule in rules ==> |rule| <= 256)
    && forall i, j :: 0 <= i < j < |rules| && rules[i] == rules[j] ==> rules[i] == ""
  }

  predicate GoodProxy(p: ProxyProfile) {
    && (p.protocol == "http" || p.protocol == "https" || p.protocol == "socks4" || p.protocol == "socks5")
    && 0 < p.port < 65536 && p.unavailableBehavior in {Warn, Block, DirectFallback}
    && ShortRules(p.bypassRules) && EachOnce(p.certificateIds)
  }

  // The stored profile is the one sent in, without its empty rules.
  predicate StoredAs(input: ProxyProfile, p: ProxyProfile, id: Id) {
    && p.id == id && p.enabled == input.enabled && p.protocol == input.protocol && p.host == input.host
    && p.port == input.port && p.certificateIds == input.certificateIds && p.healthCheck == input.healthCheck
    && p.unavailableBehavior == input.unavailableBehavior && p.bypassRules == NonEmpty(input.bypassRules)
  }

  /** Dropping empty rules keeps the others in order. */
  lemma {:induction false} NonEmptyInOrder(a: seq<string>, b: seq<string>)
    ensures NonEmpty(a + b) == NonEmpty(a) + NonEmpty(b)
    decreases |b|
  {
    if b == [] {
      assert a + b == a;
    } else {
      var front := b[..|b| - 1];
      NonEmptyInOrder(a, front);
      assert (a + b)[..|a + b| - 1] == a + front;
    }
  }

  lemma AllowedExactly(p: ProxyProfile)
    ensures ProxyAllowed(p) <==> GoodProxy(p)
  {
    assert Repeats(p.certificateIds) <==> exists i, j :: 0 <= i < j < |p.certificateIds|
                                                         && p.certificateIds[i] == p.certificateIds[j];
  }

  /** A profile is created exactly when it is good and its certificates are stored. */
  lemma ProxyCreatedExactly(db: Database, id: Id, input: ProxyProfile)
    ensures var r := CreateProxyIn(db, id, input);
            && (r == Err(INVALID_PROXY_PROFILE) <==> !GoodProxy(input))
            && (r == Err(CERTIFICATE_NOT_FOUND) <==> GoodProxy(input) && !AllStoredIn(db, input.certificateIds))
            && (r.Ok? <==> GoodProxy(input) && AllStoredIn(db, input.certificateIds))
            && (r.Ok? ==> && |r.value.proxyProfiles| == |db.proxyProfiles| + 1
                          && r.value == db.(proxyProfiles := r.value.proxyProfiles)
                          && r.value.proxyProfiles[..|db.proxyProfiles|] == db.proxyProfiles
                          && StoredAs(input, r.value.proxyProfiles[|db.proxyProfiles|], id))
  {
    AllowedExactly(input);
    assert CertificatesStored(db, input.certificateIds) <==> AllStoredIn(db, input.certificateIds);
  }

  // The database with one profile replaced.
  predicate OneProxyChanged(db: Database, t: Database, input: ProxyProfile) {
    && t == db.(proxyProfiles := t.proxyProfiles) && |t.proxyProfiles| == |db.proxyProfiles|
    && exists i :: 0 <= i < |db.proxyProfiles| && db.proxyProfiles[i].id == input.id
                   && StoredAs(input, t.proxyProfiles[i], input.id)
                   && forall k :: 0 <= k < |db.proxyProfiles| && k != i ==> t.proxyProfiles[k] == db.proxyProfiles[k]
  }

  /** A stored profile is replaced under the same conditions, in its place. */
  lemma ProxyUpdatedExactly(db: Database, input: ProxyProfile)
    ensures var r := UpdateProxyIn(db, input);
            && (r == Err(INVALID_PROXY_PROFILE) <==> !GoodProxy(input))
            && (r == Err(CERTIFICATE_NOT_FOUND) <==> GoodProxy(input) && !AllStoredIn(db, input.certificateIds))
            && (r == Err(NOT_FOUND) <==>
                  && GoodProxy(input) && AllStoredIn(db, input.certificateIds)
                  && forall p :: p in db.proxyProfiles ==> p.id != input.id)
            && (r.Ok? ==> OneProxyChanged(db, r.value, input))
  {
    AllowedExactly(input);
    assert CertificatesStored(db, input.certificateIds) <==> AllStoredIn(db, input.certificateIds);
    var i := ProxyAt(db.proxyProfiles, input.id);
    if i != -1 {
      assert db.proxyProfiles[i] in db.proxyProfiles;
    }
  }

  // The i-th element is gone and the others are as they were.
  predicate GoneAt<T(==)>(s: seq<T>, t: seq<T>, i: int) {
    0 <= i < |s| && t == s[..i] + s[i + 1..]
  }

  /** A profile goes exactly when it is there and neither a container nor a template names it. */
  lemma ProxyDeletedExactly(db: Database, id: Id)
    ensures var r := DeleteProxyIn(db, id);
            var known := exists p :: p in db.proxyProfiles && p.id == id;
            var named := (exists c :: c in db.containers && c.proxyProfileId == id)
                         || (exists t :: t in db.templates && t.proxyProfileId == id);
            && (r == Err(NOT_FOUND) <==> !known) && (r == Err(PROXY_REFERENCE_IN_USE) <==> known && named)
            && (r.Ok? ==> && r.value == db.(proxyProfiles := r.value.proxyProfiles)
                          && exists i :: GoneAt(db.proxyProfiles, r.value.proxyProfiles, i) && db.proxyProfiles[i].id == id)
  {
    var i := ProxyAt(db.proxyProfiles, id);
    if i != -1 {
      assert db.proxyProfiles[i] in db.proxyProfiles;
      assert GoneAt(db.proxyProfiles, RemoveAt(db.proxyProfiles, i), i);
    }
  }

  predicate GoodTemplate(t: EnvironmentTemplate) {
    |t.certificateIds| <= 50 && EachOnce(t.certificateIds)
  }

  predicate ProxyMissing(db: Database, t: EnvironmentTemplate) {
    t.proxyProfileId != "" && forall p :: p in db.proxyProfiles ==> p.id != t.proxyProfileId
  }

  lemma TemplateErrorExactly(db: Database, t: EnvironmentTemplate)
    ensures TemplateAllowed(t) <==> GoodTemplate(t)
    ensures TemplateError(db, t) == if ProxyMissing(db, t) then Some(PROXY_PROFILE_NOT_FOUND)
                                    else if AllStoredIn(db, t.certificateIds) then None else Some(CERTIFICATE_NOT_FOUND)
  {
    assert Repeats(t.certificateIds) <==> exists i, j :: 0 <= i < j < |t.certificateIds|
                                                         && t.certificateIds[i] == t.certificateIds[j];
    assert CertificatesStored(db, t.certificateIds) <==> AllStoredIn(db, t.certificateIds);
  }

  /** A template is created exactly when its list is good and its proxy and certificates are stored. */
  lemma TemplateCreatedExactly(db: Database, id: Id, input: EnvironmentTemplate)
    ensures var r := CreateTemplateIn(db, id, input);
            && (r == Err(INVALID_TEMPLATE) <==> !GoodTemplate(input))
            && (r == Err(PROXY_PROFILE_NOT_FOUND) <==> GoodTemplate(input) && ProxyMissing(db, input))
            && (r == Err(CERTIFICATE_NOT_FOUND) <==>
                  GoodTemplate(input) && !ProxyMissing(db, input) && !AllStoredIn(db, input.certificateIds))
            && (r.Ok? ==> && |r.value.templates| == |db.templates| + 1 && r.value == db.(templates := r.value.templates)
                          && r.value.templates[..|db.templates|] == db.templates
                          && var t := r.value.templates[|db.templates|];
                             t.id == id && t.proxyProfileId == input.proxyProfileId && t.certificateIds == input.certificateIds)
  {
    TemplateErrorExactly(db, input);
  }

  predicate OneTemplateChanged(db: Database, t: Database, input: EnvironmentTemplate) {
    && t == db.(templates := t.templates) && |t.templates| == |db.templates|
    && exists i :: 0 <= i < |db.templates| && db.templates[i].id == input.id && t.templates[i] == input
                   && forall k :: 0 <= k < |db.templates| && k != i ==> t.templates[k] == db.templates[k]
  }

  lemma TemplateUpdatedExactly(db: Database, input: EnvironmentTemplate)
    ensures var r := UpdateTemplateIn(db, input);
            && (r == Err(INVALID_TEMPLATE) <==> !GoodTemplate(input))
            && (r == Err(PROXY_PROFILE_NOT_FOUND) <==> GoodTemplate(input) && ProxyMissing(db, input))
            && (r == Err(CERTIFICATE_NOT_FOUND) <==>
                  GoodTemplate(input) && !ProxyMissing(db, input) && !AllStoredIn(db, input.certificateIds))
            && (r == Err(NOT_FOUND) <==>
                  && GoodTemplate(input) && !ProxyMissing(db, input) && AllStoredIn(db, input.certificateIds)
                  && forall t :: t in db.templates ==> t.id != input.id)
            && (r.Ok? ==> OneTemplateChanged(db, r.value, input))
  {
    TemplateErrorExactly(db, input);
    var i := TemplateAt(db.templates, input.id);
    if i != -1 {
      assert db.templates[i] in db.templates;
    }
  }

  /** A template goes exactly when it is there and no container names it. */
  lemma TemplateDeletedExactly(db: Database, id: Id)
    ensures var r := DeleteTemplateIn(db, id);
            var known := exists t :: t in db.templates && t.id == id;
            var named := exists c :: c in db.containers && c.environmentTemplateId == id;
            && (r == Err(NOT_FOUND) <==> !known) && (r == Err(TEMPLATE_REFERENCE_IN_USE) <==> known && named)
            && (r.Ok? ==> && r.value == db.(templates := r.value.templates)
                          && exists i :: GoneAt(db.templates, r.value.templates, i) && db.templates[i].id == id)
  {
    var i := TemplateAt(db.templates, id);
    if i != -1 {
      assert db.templates[i] in db.templates;
      assert GoneAt(db.templates, RemoveAt(db.templates, i), i);
    }
  }
}
