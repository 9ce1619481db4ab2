/** The reference graph of the metadata: what is broken, and what every mutator keeps whole. */
module References {
  import opened Records
  import opened Environment

  predicate HasProxy(db: Database, id: Id) {
    exists p :: p in db.proxyProfiles && p.id == id
  }

  predicate HasTemplate(db: Database, id: Id) {
    exists t :: t in db.templates && t.id == id
  }

  // ---- the report ----

  datatype Issue =
    | MissingProxyProfile(owner: Id, reference: Id)
    | MissingTemplate(owner: Id, reference: Id)
    | MissingCertificate(owner: Id, reference: Id)

  predicate RefsWhole(db: Database) {
    && (forall c :: c in db.containers ==>
          && (c.proxyProfileId != "" ==> HasProxy(db, c.proxyProfileId))
          && (c.environmentTemplateId != "" ==> HasTemplate(db, c.environmentTemplateId)))
    && (forall p :: p in db.proxyProfiles ==> CertificatesStored(db, p.certificateIds))
    && (forall t :: t in db.templates ==>
          && (t.proxyProfileId != "" ==> HasProxy(db, t.proxyProfileId))
          && CertificatesStored(db, t.certificateIds))
  }

  predicate Reported(db: Database, issue: Issue) {
    match issue
    case MissingProxyProfile(owner, reference) =>
      && reference != "" && !HasProxy(db, reference)
      && ((exists c :: c in db.containers && c.id == owner && c.proxyProfileId == reference)
          || (exists t :: t in db.templates && t.id == owner && t.proxyProfileId == reference))
    case MissingTemplate(owner, reference) =>
      && reference != "" && !HasTemplate(db, reference)
      && exists c :: c in db.containers && c.id == owner && c.environmentTemplateId == reference
    case MissingCertificate(owner, reference) =>
      && !HasCertificate(db, reference)
      && ((exists p :: p in db.proxyProfiles && p.id == owner && reference in p.certificateIds)
          || (exists t :: t in db.templates && t.id == owner && reference in t.certificateIds))
  }

  method MissingCertificates(owner: Id, ids: seq<Id>, known: set<Id>) returns (issues: seq<Issue>)
    ensures forall x :: x in issues <==> x.MissingCertificate? && x.owner == owner && x.reference in ids
                                         && x.reference !in known
  {
    issues := [];
    for i := 0 to |ids|
      invariant forall x :: x in issues <==> x.MissingCertificate? && x.owner == owner && x.reference in ids[..i]
                                             && x.reference !in known
    {
      assert ids[..i + 1] == ids[..i] + [ids[i]];
      if ids[i] !in known {
        issues := issues + [MissingCertificate(owner, ids[i])];
      }
    }
    assert ids[..|ids|] == ids;
  }

  method ContainerIssues(db: Database, proxyIds: set<Id>, templateIds: set<Id>) returns (issues: seq<Issue>)
    requires proxyIds == set p | p in db.proxyProfiles :: p.id
    requires templateIds == set t | t in db.templates :: t.id
    ensures forall x :: x in issues ==> Reported(db, x)
    ensures forall c :: c in db.containers && c.proxyProfileId != "" && !HasProxy(db, c.proxyProfileId)
              ==> MissingProxyProfile(c.id, c.proxyProfileId) in issues
    ensures forall c :: c in db.containers && c.environmentTemplateId != "" && !HasTemplate(db, c.environmentTemplateId)
              ==> MissingTemplate(c.id, c.environmentTemplateId) in issues
  {
    issues := [];
    for i := 0 to |db.containers|
      invariant forall x :: x in issues ==> Reported(db, x)
      invariant forall c :: c in db.containers[..i] && c.proxyProfileId != "" && c.proxyProfileId !in proxyIds
                  ==> MissingProxyProfile(c.id, c.proxyProfileId) in issues
      invariant forall c :: c in db.containers[..i] && c.environmentTemplateId != ""
                            && c.environmentTemplateId !in templateIds
                  ==> MissingTemplate(c.id, c.environmentTemplateId) in issues
    {
      var c := db.containers[i];
      assert db.containers[..i + 1] == db.containers[..i] + [c] && c in db.containers;
      if c.proxyProfileId != "" && c.proxyProfileId !in proxyIds {
        issues := issues + [MissingProxyProfile(c.id, c.proxyProfileId)];
      }
      if c.environmentTemplateId != "" && c.environmentTemplateId !in templateIds {
        issues := issues + [MissingTemplate(c.id, c.environmentTemplateId)];
      }
    }
    assert db.containers[..|db.containers|] == db.containers;
  }

  method ProxyIssues(db: Database, certificateIds: set<Id>) returns (issues: seq<Issue>)
    requires certificateIds == set c | c in db.certificates :: c.id
    ensures forall x :: x in issues ==> Reported(db, x)
    ensures forall p, id :: p in db.proxyProfiles && id in p.certificateIds && !HasCertificate(db, id)
              ==> MissingCertificate(p.id, id) in issues
  {
    issues := [];
    for i := 0 to |db.proxyProfiles|
      invariant forall x :: x in issues ==> Reported(db, x)
      invariant forall p, id :: p in db.proxyProfiles[..i] && id in p.certificateIds && id !in certificateIds
                  ==> MissingCertificate(p.id, id) in issues
    {
      var p := db.proxyProfiles[i];
      assert db.proxyProfiles[..i + 1] == db.proxyProfiles[..i] + [p] && p in db.proxyProfiles;
      var missing := MissingCertificates(p.id, p.certificateIds, certificateIds);
      issues := issues + missing;
    }
    assert db.proxyProfiles[..|db.proxyProfiles|] == db.proxyProfiles;
    assert forall id :: id in certificateIds ==> HasCertificate(db, id);
  }

  method TemplateIssues(db: Database, proxyIds: set<Id>, certificateIds: set<Id>) returns (issues: seq<Issue>)
    requires proxyIds == set p | p in db.proxyProfiles :: p.id
    requires certificateIds == set c | c in db.certificates :: c.id
    ensures forall x :: x in issues ==> Reported(db, x)
    ensures forall t :: t in db.templates && t.proxyProfileId != "" && !HasProxy(db, t.proxyProfileId)
              ==> MissingProxyProfile(t.id, t.proxyProfileId) in issues
    ensures forall t, id :: t in db.templates && id in t.certificateIds && !HasCertificate(db, id)
              ==> MissingCertificate(t.id, id) in issues
  {
    issues := [];
    for i := 0 to |db.templates|
      invariant forall x :: x in issues ==> Reported(db, x)
      invariant forall t :: t in db.templates[..i] && t.proxyProfileId != "" && t.proxyProfileId !in proxyIds
                  ==> MissingProxyProfile(t.id, t.proxyProfileId) in issues
      invariant forall t, id :: t in db.templates[..i] && id in t.certificateIds && id !in certificateIds
                  ==> MissingCertificate(t.id, id) in issues
    {
      var t := db.templates[i];
      assert db.templates[..i + 1] == db.templates[..i] + [t] && t in db.templates;
      if t.proxyProfileId != "" && t.proxyProfileId !in proxyIds {
        issues := issues + [MissingProxyProfile(t.id, t.proxyProfileId)];
      }
      var missing := MissingCertificates(t.id, t.certificateIds, certificateIds);
      issues := issues + missing;
    }
    assert db.templates[..|db.templates|] == db.templates;
    assert forall id :: id in certificateIds ==> HasCertificate(db, id);
  }

  method ProxyIds(proxies: seq<ProxyProfile>) returns (ids: set<Id>)
    ensures ids == set p | p in proxies :: p.id
  {
    ids := {};
    for i := 0 to |proxies|
      invariant ids == set p | p in proxies[..i] :: p.id
    {
      assert proxies[..i + 1] == proxies[..i] + [proxies[i]];
      ids := ids + {proxies[i].id};
    }
    assert proxies[..|proxies|] == proxies;
  }

  method TemplateIds(templates: seq<EnvironmentTemplate>) returns (ids: set<Id>)
    ensures ids == set t | t in templates :: t.id
  {
    ids := {};
    for i := 0 to |templates|
      invariant ids == set t | t in templates[..i] :: t.id
    {
      assert templates[..i + 1] == templates[..i] + [templates[i]];
      ids := ids + {templates[i].id};
    }
    assert templates[..|templates|] == templates;
  }

  /** Every entry of the report is a real broken reference, and the report is empty exactly when nothing is broken. */
  method BrokenReferences(db: Database) returns (issues: seq<Issue>)
    ensures forall x :: x in issues <==> Reported(db, x)
    ensures issues == [] <==> RefsWhole(db)
  {
    var proxyIds := ProxyIds(db.proxyProfiles);
    var certificateIds := CertificateIds(db.certificates);
    var templateIds := TemplateIds(db.templates);
    var ofContainers := ContainerIssues(db, proxyIds, templateIds);
    var ofProxies := ProxyIssues(db, certificateIds);
    var ofTemplates := TemplateIssues(db, proxyIds, certificateIds);
    issues := ofContainers + ofProxies + ofTemplates;
    if !RefsWhole(db) {
      BrokenIsReported(db);
    }
    assert issues != [] ==> issues[0] in issues;
  }

  lemma BrokenIsReported(db: Database)
    requires !RefsWhole(db)
    ensures exists x :: Reported(db, x)
  {
    if c :| c in db.containers && c.proxyProfileId != "" && !HasProxy(db, c.proxyProfileId) {
      assert Reported(db, MissingProxyProfile(c.id, c.proxyProfileId));
    } else if c :| c in db.containers && c.environmentTemplateId != "" && !HasTemplate(db, c.environmentTemplateId) {
      assert Reported(db, MissingTemplate(c.id, c.environmentTemplateId));
    } else if p, id :| p in db.proxyProfiles && id in p.certificateIds && !HasCertificate(db, id) {
      assert Reported(db, MissingCertificate(p.id, id));
    } else if t :| t in db.templates && t.proxyProfileId != "" && !HasProxy(db, t.proxyProfileId) {
      assert Reported(db, MissingProxyProfile(t.id, t.proxyProfileId));
    } else {
      var t, id :| t in db.templates && id in t.certificateIds && !HasCertificate(db, id);
      assert Reported(db, MissingCertificate(t.id, id));
    }
  }
}
