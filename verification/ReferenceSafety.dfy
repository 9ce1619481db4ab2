/** Every mutator of the metadata keeps the reference graph whole and every container resolvable. */
module ReferenceSafety {
  import opened Prelude
  import opened Records
  import opened Environment
  import opened References

  predicate WellConfigured(c: Container) {
    match Requested(c)
    case Direct => c.proxyProfileId == "" && c.environmentTemplateId == ""
    case Template => c.environmentTemplateId != "" && c.proxyProfileId == ""
    case Proxy => c.proxyProfileId != ""
    case _ => false
  }

  predicate KnownBehavior(p: ProxyProfile) {
    !p.unavailableBehavior.OtherBehavior?
  }

  predicate DistinctIds(db: Database) {
    && (forall i, j :: 0 <= i < j < |db.containers| ==> db.containers[i].id != db.containers[j].id)
    && (forall i, j :: 0 <= i < j < |db.proxyProfiles| ==> db.proxyProfiles[i].id != db.proxyProfiles[j].id)
    && (forall i, j :: 0 <= i < j < |db.templates| ==> db.templates[i].id != db.templates[j].id)
    && (forall i, j :: 0 <= i < j < |db.certificates| ==>
          && db.certificates[i].id != db.certificates[j].id
          && db.certificates[i].fingerprint != db.certificates[j].fingerprint)
  }

  /** The invariant of the stored metadata. */
  ghost predicate DbInv(db: Database) {
    && RefsWhole(db) && DistinctIds(db)
    && (forall c :: c in db.containers ==> WellConfigured(c))
    && (forall p :: p in db.proxyProfiles ==> KnownBehavior(p))
  }

  // The database of a store without a metadata file.
  const EMPTY: Database := Database([], [], [], [], [])

  lemma EmptyDbInv()
    ensures DbInv(EMPTY)
  {
  }

  function RemoveAt<T>(s: seq<T>, i: nat): seq<T>
    requires i < |s|
  {
    s[..i] + s[i + 1..]
  }

  predicate ProxyUsed(db: Database, id: Id) {
    || (exists c :: c in db.containers && c.proxyProfileId == id)
    || (exists t :: t in db.templates && t.proxyProfileId == id)
  }

  predicate TemplateUsed(db: Database, id: Id) {
    exists c :: c in db.containers && c.environmentTemplateId == id
  }

  predicate CertificateUsed(db: Database, id: Id) {
    || (exists p :: p in db.proxyProfiles && id in p.certificateIds)
    || (exists t :: t in db.templates && id in t.certificateIds)
  }

  predicate TemplateStored(db: Database, t: EnvironmentTemplate) {
    (t.proxyProfileId != "" ==> HasProxy(db, t.proxyProfileId)) && CertificatesStored(db, t.certificateIds)
  }

  predicate SameConfig(c: Container, d: Container) {
    && c.networkMode == d.networkMode && c.proxyProfileId == d.proxyProfileId
    && c.environmentTemplateId == d.environmentTemplateId
  }

  // The writes of all handlers, with the checks each makes inside its transaction.
  datatype Mutation =
    | AddProxy(proxy: ProxyProfile)
    | ReplaceProxy(at: nat, proxy: ProxyProfile)
    | DropProxy(at: nat)
    | AddTemplate(template: EnvironmentTemplate)
    | ReplaceTemplate(at: nat, template: EnvironmentTemplate)
    | DropTemplate(at: nat)
    | SetContainers(containers: seq<Container>)
    | AddCertificate(certificate: Certificate)
    | DropCertificate(at: nat)
    | SetCertificates(certificates: seq<Certificate>)
    | SetDeletionOps(ops: seq<DeletionOp>)

  ghost predicate Mutates(db: Database, m: Mutation, t: Database) {
    match m
    case AddProxy(p) =>
      && CertificatesStored(db, p.certificateIds) && KnownBehavior(p) && !HasProxy(db, p.id)
      && t == db.(proxyProfiles := db.proxyProfiles + [p])
    case ReplaceProxy(i, p) =>
      && i < |db.proxyProfiles| && db.proxyProfiles[i].id == p.id
      && CertificatesStored(db, p.certificateIds) && KnownBehavior(p)
      && t == db.(proxyProfiles := db.proxyProfiles[i := p])
    case DropProxy(i) =>
      && i < |db.proxyProfiles| && !ProxyUsed(db, db.proxyProfiles[i].id)
      && t == db.(proxyProfiles := RemoveAt(db.proxyProfiles, i))
    case AddTemplate(x) =>
      TemplateStored(db, x) && !HasTemplate(db, x.id) && t == db.(templates := db.templates + [x])
    case ReplaceTemplate(i, x) =>
      && i < |db.templates| && db.templates[i].id == x.id && TemplateStored(db, x)
      && t == db.(templates := db.templates[i := x])
    case DropTemplate(i) =>
      && i < |db.templates| && !TemplateUsed(db, db.templates[i].id)
      && t == db.(templates := RemoveAt(db.templates, i))
    case SetContainers(cs) =>
      && (forall i, j :: 0 <= i < j < |cs| ==> cs[i].id != cs[j].id)
      && (forall c :: c in cs ==> Resolve(db, c).error.None? || exists d :: d in db.containers && SameConfig(c, d))
      && t == db.(containers := cs)
    case AddCertificate(c) =>
      && !HasCertificate(db, c.id)
      && (forall d :: d in db.certificates ==> d.fingerprint != c.fingerprint)
      && t == db.(certificates := db.certificates + [c])
    case DropCertificate(i) =>
      && i < |db.certificates| && !CertificateUsed(db, db.certificates[i].id)
      && t == db.(certificates := RemoveAt(db.certificates, i))
    case SetCertificates(cs) =>
      && |cs| == |db.certificates|
      && (forall i :: 0 <= i < |cs| ==>
            cs[i].id == db.certificates[i].id && cs[i].fingerprint == db.certificates[i].fingerprint)
      && t == db.(certificates := cs)
    case SetDeletionOps(ops) => t == db.(deletionOps := ops)
  }

  /** A container that resolves is well configured and its references exist. */
  lemma ResolvedIsWhole(db: Database, c: Container)
    requires Resolve(db, c).error.None?
    ensures WellConfigured(c)
    ensures c.proxyProfileId != "" ==> HasProxy(db, c.proxyProfileId)
    ensures c.environmentTemplateId != "" ==> HasTemplate(db, c.environmentTemplateId)
  {
  }

  lemma ProxyMutationKeepsInv(db: Database, m: Mutation, t: Database)
    requires DbInv(db) && Mutates(db, m, t) && (m.AddProxy? || m.ReplaceProxy? || m.DropProxy?)
    ensures DbInv(t)
  {
    assert forall id :: HasCertificate(t, id) <==> HasCertificate(db, id);
    assert forall id :: HasTemplate(t, id) <==> HasTemplate(db, id);
    if m.DropProxy? {
      DroppedLeavesOthers(db, m.at, t);
    } else if m.ReplaceProxy? {
      forall id | HasProxy(db, id) ensures HasProxy(t, id) {
        var p :| p in db.proxyProfiles && p.id == id;
        var k :| 0 <= k < |db.proxyProfiles| && db.proxyProfiles[k] == p;
        assert t.proxyProfiles[k].id == id && t.proxyProfiles[k] in t.proxyProfiles;
      }
    } else {
      assert forall p :: p in db.proxyProfiles ==> p in t.proxyProfiles;
    }
  }

  lemma DroppedLeavesOthers(db: Database, i: nat, t: Database)
    requires i < |db.proxyProfiles| && t == db.(proxyProfiles := RemoveAt(db.proxyProfiles, i))
    ensures forall id :: HasProxy(db, id) && id != db.proxyProfiles[i].id ==> HasProxy(t, id)
  {
    forall p | p in db.proxyProfiles && p.id != db.proxyProfiles[i].id ensures p in t.proxyProfiles {
      var k :| 0 <= k < |db.proxyProfiles| && db.proxyProfiles[k] == p;
      assert t.proxyProfiles[if k < i then k else k - 1] == p;
    }
  }

  // The templates change, the new ones refer to what exists, and every one in use stays.
  lemma TemplatesChange(db: Database, t: Database)
    requires RefsWhole(db) && t == db.(templates := t.templates)
    requires forall x :: x in t.templates ==> TemplateStored(db, x)
    requires forall id :: HasTemplate(db, id) && TemplateUsed(db, id) ==> HasTemplate(t, id)
    ensures RefsWhole(t)
  {
    assert forall id :: HasCertificate(t, id) <==> HasCertificate(db, id);
    assert forall id :: HasProxy(t, id) <==> HasProxy(db, id);
    forall c | c in t.containers && c.environmentTemplateId != "" ensures HasTemplate(t, c.environmentTemplateId) {
      assert TemplateUsed(db, c.environmentTemplateId);
    }
  }

  lemma TemplateStays(db: Database, m: Mutation, t: Database, id: Id)
    requires Mutates(db, m, t) && (m.AddTemplate? || m.ReplaceTemplate? || m.DropTemplate?)
    requires HasTemplate(db, id) && (m.DropTemplate? ==> id != db.templates[m.at].id)
    ensures HasTemplate(t, id)
  {
    var x :| x in db.templates && x.id == id;
    var k :| 0 <= k < |db.templates| && db.templates[k] == x;
    var y := if m.DropTemplate? && k > m.at then t.templates[k - 1] else t.templates[k];
    assert y.id == id && y in t.templates;
  }

  lemma TemplateMutationKeepsInv(db: Database, m: Mutation, t: Database)
    requires DbInv(db) && Mutates(db, m, t) && (m.AddTemplate? || m.ReplaceTemplate? || m.DropTemplate?)
    ensures DbInv(t)
  {
    forall id | HasTemplate(db, id) && TemplateUsed(db, id) ensures HasTemplate(t, id) {
      TemplateStays(db, m, t, id);
    }
    TemplatesChange(db, t);
  }

  // The certificates change, and every one that is referenced stays.
  lemma CertificatesChange(db: Database, t: Database)
    requires RefsWhole(db) && t == db.(certificates := t.certificates)
    requires forall id :: HasCertificate(db, id) && CertificateUsed(db, id) ==> HasCertificate(t, id)
    ensures RefsWhole(t)
  {
    assert forall id :: HasTemplate(t, id) <==> HasTemplate(db, id);
    assert forall id :: HasProxy(t, id) <==> HasProxy(db, id);
    forall p, id | p in t.proxyProfiles && id in p.certificateIds ensures HasCertificate(t, id) {
      assert CertificateUsed(db, id);
    }
    forall x, id | x in t.templates && id in x.certificateIds ensures HasCertificate(t, id) {
      assert CertificateUsed(db, id);
    }
  }

  lemma CertificateStays(db: Database, m: Mutation, t: Database, id: Id)
    requires Mutates(db, m, t) && (m.AddCertificate? || m.DropCertificate? || m.SetCertificates?)
    requires HasCertificate(db, id) && (m.DropCertificate? ==> id != db.certificates[m.at].id)
    ensures HasCertificate(t, id)
  {
    var c :| c in db.certificates && c.id == id;
    var k :| 0 <= k < |db.certificates| && db.certificates[k] == c;
    var d := if m.DropCertificate? && k > m.at then t.certificates[k - 1] else t.certificates[k];
    assert d.id == id && d in t.certificates;
  }

  lemma CertificateMutationKeepsInv(db: Database, m: Mutation, t: Database)
    requires DbInv(db) && Mutates(db, m, t) && (m.AddCertificate? || m.DropCertificate? || m.SetCertificates?)
    ensures DbInv(t)
  {
    forall id | HasCertificate(db, id) && CertificateUsed(db, id) ensures HasCertificate(t, id) {
      CertificateStays(db, m, t, id);
    }
    CertificatesChange(db, t);
  }

  lemma ContainerMutationKeepsInv(db: Database, m: Mutation, t: Database)
    requires DbInv(db) && Mutates(db, m, t) && (m.SetContainers? || m.SetDeletionOps?)
    ensures DbInv(t)
  {
    assert forall id :: HasCertificate(t, id) <==> HasCertificate(db, id);
    assert forall id :: HasTemplate(t, id) <==> HasTemplate(db, id);
    assert forall id :: HasProxy(t, id) <==> HasProxy(db, id);
    forall c | c in t.containers && Resolve(db, c).error.None?
      ensures WellConfigured(c)
      ensures c.proxyProfileId != "" ==> HasProxy(t, c.proxyProfileId)
      ensures c.environmentTemplateId != "" ==> HasTemplate(t, c.environmentTemplateId)
    {
      ResolvedIsWhole(db, c);
    }
  }

  /** Every write of every handler keeps the invariant. */
  lemma MutationKeepsInv(db: Database, m: Mutation, t: Database)
    requires DbInv(db) && Mutates(db, m, t)
    ensures DbInv(t)
  {
    match m
    case AddProxy(_) => ProxyMutationKeepsInv(db, m, t);
    case ReplaceProxy(_, _) => ProxyMutationKeepsInv(db, m, t);
    case DropProxy(_) => ProxyMutationKeepsInv(db, m, t);
    case AddTemplate(_) => TemplateMutationKeepsInv(db, m, t);
    case ReplaceTemplate(_, _) => TemplateMutationKeepsInv(db, m, t);
    case DropTemplate(_) => TemplateMutationKeepsInv(db, m, t);
    case SetContainers(_) => ContainerMutationKeepsInv(db, m, t);
    case SetDeletionOps(_) => ContainerMutationKeepsInv(db, m, t);
    case _ => CertificateMutationKeepsInv(db, m, t);
  }

  ghost predicate History(dbs: seq<Database>, ms: seq<Mutation>) {
    && |dbs| == |ms| + 1 && DbInv(dbs[0])
    && forall i :: 0 <= i < |ms| ==> Mutates(dbs[i], ms[i], dbs[i + 1])
  }

  /** Every reachable database has whole references, distinct IDs and pairwise distinct fingerprints. */
  lemma {:induction false} ReachableDbInv(dbs: seq<Database>, ms: seq<Mutation>, i: nat)
    requires History(dbs, ms) && i < |dbs|
    ensures DbInv(dbs[i])
  {
    if i > 0 {
      ReachableDbInv(dbs, ms, i - 1);
      MutationKeepsInv(dbs[i - 1], ms[i - 1], dbs[i]);
    }
  }

  /**
   * In a reachable database every stored container resolves, except that a disabled proxy is
   * refused: no lookup fails and no configuration is bad.
   */
  lemma StoredContainerResolves(dbs: seq<Database>, ms: seq<Mutation>, i: nat, c: Container)
    requires History(dbs, ms) && i < |dbs| && c in dbs[i].containers
    ensures var db := dbs[i]; var error := Resolve(db, c).error;
            && (error.None? || error == Some(PROXY_PROFILE_DISABLED))
            && (error.Some? <==> exists p :: p in db.proxyProfiles && p.id == SelectedProxy(db, c)
                                             && SelectedProxy(db, c) != "" && !p.enabled)
  {
    ReachableDbInv(dbs, ms, i);
    ContainerResolves(dbs[i], c);
  }

  lemma ContainerResolves(db: Database, c: Container)
    requires DbInv(db) && c in db.containers
    ensures var error := Resolve(db, c).error;
            && (error.None? || error == Some(PROXY_PROFILE_DISABLED))
            && (error.Some? <==> exists p :: p in db.proxyProfiles && p.id == SelectedProxy(db, c)
                                             && SelectedProxy(db, c) != "" && !p.enabled)
  {
    var template := if c.environmentTemplateId != "" then FindTemplate(db.templates, c.environmentTemplateId) else None;
    var id := SelectedProxy(db, c);
    var proxy := FindProxy(db.proxyProfiles, id);
    assert template.Some? ==> TemplateStored(db, template.value);
    ResolutionErrors(db, c);
    assert Chooses(db, c);
    assert id != "" ==> proxy.Some?;
    forall p | p in db.proxyProfiles && proxy.Some? && p.id == id ensures p == proxy.value {
      var j :| 0 <= j < |db.proxyProfiles| && db.proxyProfiles[j] == p;
      var k :| 0 <= k < |db.proxyProfiles| && db.proxyProfiles[k] == proxy.value;
    }
  }
}
