/**
 * What every command keeps: the reference graph, the record shapes, and databases that a load leaves
 * exactly as they are written.
 */
module CommandSafety {
  import opened Prelude
  import opened Records
  import opened LaunchSpec
  import opened Environment
  import opened References
  import opened ReferenceSafety
  import opened ReferenceSpec
  import opened CertificateSpec
  import opened Normalization
  import opened Transactions
  import opened Commands

  // ---- the invariant of the stored database ----

  ghost predicate Shaped(db: Database) {
    forall c :: c in db.containers ==> Shape(c)
  }

  // Acknowledged records are found on Linux only.
  ghost predicate NormalOn(machine: Machine, db: Database) {
    Normal(db) && (!machine.linux ==> forall c :: c in db.certificates ==> c.acknowledgment.None?)
  }

  ghost predicate Linked(db: Database) {
    DbInv(db) && DistinctOps(db)
  }

  ghost predicate Good(machine: Machine, db: Database) {
    Linked(db) && Shaped(db) && NormalOn(machine, db)
  }

  lemma EmptyIsGood(machine: Machine)
    ensures Good(machine, EMPTY)
  {
    EmptyDbInv();
  }

  // Every identifier of a record or an operation in the database.
  function IdsOf(db: Database): set<Id> {
    (set c | c in db.containers :: c.id) + (set p | p in db.proxyProfiles :: p.id)
    + (set t | t in db.templates :: t.id) + (set c | c in db.certificates :: c.id)
    + (set x | x in db.deletionOps :: x.operationId)
  }

  // The identifier a command brings in.
  function NewIds(c: Command): set<Id> {
    match c
    case Create(id, _, _, _) => {id}
    case CreateProxy(id, _) => {id}
    case CreateTemplate(id, _) => {id}
    case Import(id, _, _) => {id}
    case Tombstone(_, op) => {op}
    case _ => {}
  }

  // Reservation tokens are identifiers, so not empty.
  predicate WellFormed(c: Command) {
    c.Reserve? ==> c.token != ""
  }

  // ---- containers ----

  lemma PutMutates(db: Database, i: nat, c: Container)
    requires DbInv(db) && i < |db.containers| && c.id == db.containers[i].id
    requires SameConfig(c, db.containers[i]) || Resolve(db, c).error.None?
    ensures Mutates(db, SetContainers(db.containers[i := c]), PutContainer(db, i, c))
    ensures IdsOf(PutContainer(db, i, c)) <= IdsOf(db)
  {
    var cs := db.containers[i := c];
    forall x | x in cs
      ensures x.id in IdsOf(db)
      ensures Resolve(db, x).error.None? || exists d :: d in db.containers && SameConfig(x, d)
    {
      var k :| 0 <= k < |cs| && cs[k] == x;
      assert db.containers[k] in db.containers && SameConfig(db.containers[k], db.containers[k]);
    }
  }

  lemma DropMutates(db: Database, i: nat)
    requires DbInv(db) && i < |db.containers|
    ensures var t := db.(containers := RemoveAt(db.containers, i));
            Mutates(db, SetContainers(t.containers), t) && IdsOf(t) <= IdsOf(db)
  {
    var cs := RemoveAt(db.containers, i);
    forall x | x in cs ensures x in db.containers && SameConfig(x, x) {
    }
  }

  lemma AppendMutates(db: Database, c: Container)
    requires DbInv(db) && c.id !in IdsOf(db) && Resolve(db, c).error.None?
    ensures var t := db.(containers := db.containers + [c]);
            Mutates(db, SetContainers(t.containers), t) && IdsOf(t) <= IdsOf(db) + {c.id}
  {
    forall k | 0 <= k < |db.containers| ensures db.containers[k].id != c.id {
      assert db.containers[k] in db.containers;
    }
    forall x | x in db.containers ensures SameConfig(x, x) {
    }
  }

  lemma ReconcileMutates(db: Database, owned: map<Id, int>, probes: map<Id, Probe>, now: Time)
    requires DbInv(db)
    ensures var t := db.(containers := ReconciledContainers(db.containers, owned, probes, now));
            Mutates(db, SetContainers(t.containers), t) && IdsOf(t) <= IdsOf(db)
  {
    var cs := ReconciledContainers(db.containers, owned, probes, now);
    forall x | x in cs ensures x.id in IdsOf(db) && exists d :: d in db.containers && SameConfig(x, d) {
      var k :| 0 <= k < |cs| && cs[k] == x;
      assert db.containers[k] in db.containers && SameConfig(x, db.containers[k]);
    }
  }

  lemma ConfiguredResolves(db: Database, c: Container, config: Config, now: Time)
    ensures Resolve(db, Configured(c, config, now)) == Resolve(db, NewContainer("", config, false, now))
  {
  }

  // The lifecycle commands leave everything alone, or rewrite one record with its configuration.
  ghost predicate RewritesOne(db: Database, t: Database, i: int) {
    || t == db
    || (0 <= i < |db.containers| && |t.containers| == |db.containers| && t == PutContainer(db, i, t.containers[i])
        && t.containers[i].id == db.containers[i].id && SameConfig(t.containers[i], db.containers[i]))
  }

  lemma LifecycleRewrites(c: Command, db: Database)
    requires (c.Reserve? || c.Commit? || c.Release? || c.Watch?) && PerformContainer(c, db).Ok?
    ensures RewritesOne(db, PerformContainer(c, db).value, ContainerAt(db.containers, c.id))
  {
  }

  lemma RewriteMutates(db: Database, t: Database, i: int)
    requires DbInv(db) && RewritesOne(db, t, i)
    ensures Mutates(db, SetContainers(t.containers), t) && IdsOf(t) <= IdsOf(db)
  {
    if t == db {
      Unchanged(db);
    } else {
      PutMutates(db, i, t.containers[i]);
    }
  }

  lemma UpdateMutates(db: Database, id: Id, config: Config, expectedName: string, restrict: bool, now: Time)
    requires DbInv(db) && UpdateIn(db, id, config, expectedName, restrict, now).Ok?
    ensures var t := UpdateIn(db, id, config, expectedName, restrict, now).value;
            Mutates(db, SetContainers(t.containers), t) && IdsOf(t) <= IdsOf(db)
  {
    var i := ContainerAt(db.containers, id);
    ConfiguredResolves(db, db.containers[i], config, now);
    PutMutates(db, i, Configured(db.containers[i], config, now));
  }

  lemma DeleteTemporaryMutates(db: Database, id: Id, probe: Probe, removed: bool)
    requires DbInv(db) && DeleteTemporaryIn(db, id, probe, removed).Ok?
    ensures var t := DeleteTemporaryIn(db, id, probe, removed).value;
            Mutates(db, SetContainers(t.containers), t) && IdsOf(t) <= IdsOf(db)
  {
    var i := ContainerAt(db.containers, id);
    if i == -1 {
      Unchanged(db);
    } else if probe.InUse? || !removed {
      PutMutates(db, i, db.containers[i].(pendingCleanup := true));
    } else {
      DropMutates(db, i);
    }
  }

  lemma DeleteMutates(db: Database, id: Id, owned: map<Id, int>, probe: Probe, removed: bool)
    requires DbInv(db) && DeleteIn(db, id, owned, probe, removed).Ok?
    ensures var t := DeleteIn(db, id, owned, probe, removed).value;
            Mutates(db, SetContainers(t.containers), t) && IdsOf(t) <= IdsOf(db)
  {
    DropMutates(db, ContainerAt(db.containers, id));
  }

  lemma LifecycleMutates(c: Command, db: Database)
    requires DbInv(db) && (c.Reserve? || c.Commit? || c.Release? || c.Watch?) && PerformContainer(c, db).Ok?
    ensures var t := PerformContainer(c, db).value;
            Mutates(db, SetContainers(t.containers), t) && IdsOf(t) <= IdsOf(db)
  {
    LifecycleRewrites(c, db);
    RewriteMutates(db, PerformContainer(c, db).value, ContainerAt(db.containers, c.id));
  }

  // Commands on the containers the database has.
  lemma StoredContainerMutates(c: Command, db: Database)
    requires DbInv(db) && OfContainers(c) && !c.Create? && !c.Reconcile? && PerformContainer(c, db).Ok?
    ensures var t := PerformContainer(c, db).value;
            IdsOf(t) <= IdsOf(db) && Mutates(db, SetContainers(t.containers), t)
  {
    if c.Delete? {
      DeleteMutates(db, c.id, c.owned, c.probe, c.directoryRemoved);
    } else if c.DeleteTemporary? {
      DeleteTemporaryMutates(db, c.id, c.probe, c.directoryRemoved);
    } else if c.Update? {
      UpdateMutates(db, c.id, c.config, c.expectedName, c.restrict, c.now);
    } else {
      LifecycleMutates(c, db);
    }
  }

  lemma ContainerCommandMutates(c: Command, db: Database)
    requires DbInv(db) && OfContainers(c) && NewIds(c) !! IdsOf(db) && PerformContainer(c, db).Ok?
    ensures var t := PerformContainer(c, db).value;
            IdsOf(t) <= IdsOf(db) + NewIds(c) && Mutates(db, SetContainers(t.containers), t)
  {
    if c.Reconcile? {
      ReconcileMutates(db, c.owned, c.probes, c.now);
    } else if c.Create? {
      AppendMutates(db, NewContainer(c.id, c.config, c.temporary, c.now));
    } else {
      StoredContainerMutates(c, db);
    }
  }

  lemma Unchanged(db: Database)
    requires DbInv(db)
    ensures Mutates(db, SetContainers(db.containers), db)
  {
    forall x | x in db.containers ensures SameConfig(x, x) {
    }
  }

  // ---- proxies and templates ----

  lemma DroppedIds(db: Database, t: Database)
    requires forall c :: c in t.containers ==> c in db.containers
    requires forall p :: p in t.proxyProfiles ==> p in db.proxyProfiles
    requires forall x :: x in t.templates ==> x in db.templates
    requires forall c :: c in t.certificates ==> c in db.certificates
    requires forall x :: x in t.deletionOps ==> x in db.deletionOps
    ensures IdsOf(t) <= IdsOf(db)
  {
  }

  lemma CreateProxyMutates(db: Database, id: Id, input: ProxyProfile)
    requires id !in IdsOf(db) && CreateProxyIn(db, id, input).Ok?
    ensures var t := CreateProxyIn(db, id, input).value;
            && IdsOf(t) <= IdsOf(db) + {id}
            && Mutates(db, AddProxy(input.(id := id, bypassRules := NonEmpty(input.bypassRules))), t)
  {
  }

  lemma UpdateProxyMutates(db: Database, input: ProxyProfile)
    requires UpdateProxyIn(db, input).Ok?
    ensures var t, i := UpdateProxyIn(db, input).value, ProxyAt(db.proxyProfiles, input.id);
            && i >= 0 && IdsOf(t) <= IdsOf(db)
            && Mutates(db, ReplaceProxy(i, input.(bypassRules := NonEmpty(input.bypassRules))), t)
  {
    assert db.proxyProfiles[ProxyAt(db.proxyProfiles, input.id)] in db.proxyProfiles;
  }

  lemma DeleteProxyMutates(db: Database, id: Id)
    requires DeleteProxyIn(db, id).Ok?
    ensures var t, i := DeleteProxyIn(db, id).value, ProxyAt(db.proxyProfiles, id);
            i >= 0 && IdsOf(t) <= IdsOf(db) && Mutates(db, DropProxy(i), t)
  {
    DroppedIds(db, DeleteProxyIn(db, id).value);
  }

  lemma CreateTemplateMutates(db: Database, id: Id, input: EnvironmentTemplate)
    requires id !in IdsOf(db) && CreateTemplateIn(db, id, input).Ok?
    ensures var t := CreateTemplateIn(db, id, input).value;
            IdsOf(t) <= IdsOf(db) + {id} && Mutates(db, AddTemplate(input.(id := id)), t)
  {
  }

  lemma UpdateTemplateMutates(db: Database, input: EnvironmentTemplate)
    requires UpdateTemplateIn(db, input).Ok?
    ensures var t, i := UpdateTemplateIn(db, input).value, TemplateAt(db.templates, input.id);
            i >= 0 && IdsOf(t) <= IdsOf(db) && Mutates(db, ReplaceTemplate(i, input), t)
  {
    assert db.templates[TemplateAt(db.templates, input.id)] in db.templates;
  }

  lemma DeleteTemplateMutates(db: Database, id: Id)
    requires DeleteTemplateIn(db, id).Ok?
    ensures var t, i := DeleteTemplateIn(db, id).value, TemplateAt(db.templates, id);
            i >= 0 && IdsOf(t) <= IdsOf(db) && Mutates(db, DropTemplate(i), t)
  {
    DroppedIds(db, DeleteTemplateIn(db, id).value);
  }

  lemma ReferenceCommandMutates(c: Command, db: Database) returns (m: Mutation)
    requires OfReferences(c) && NewIds(c) !! IdsOf(db) && PerformReference(c, db).Ok?
    ensures var t := PerformReference(c, db).value; IdsOf(t) <= IdsOf(db) + NewIds(c) && Mutates(db, m, t)
  {
    match c
    case CreateProxy(id, proxy) =>
      CreateProxyMutates(db, id, proxy);
      m := AddProxy(proxy.(id := id, bypassRules := NonEmpty(proxy.bypassRules)));
    case UpdateProxy(proxy) =>
      UpdateProxyMutates(db, proxy);
      m := ReplaceProxy(ProxyAt(db.proxyProfiles, proxy.id), proxy.(bypassRules := NonEmpty(proxy.bypassRules)));
    case DeleteProxy(id) =>
      DeleteProxyMutates(db, id);
      m := DropProxy(ProxyAt(db.proxyProfiles, id));
    case CreateTemplate(id, template) =>
      CreateTemplateMutates(db, id, template);
      m := AddTemplate(template.(id := id));
    case UpdateTemplate(template) =>
      UpdateTemplateMutates(db, template);
      m := ReplaceTemplate(TemplateAt(db.templates, template.id), template);
    case DeleteTemplate(id) =>
      DeleteTemplateMutates(db, id);
      m := DropTemplate(TemplateAt(db.templates, id));
  }

  // ---- certificates ----

  // Every record keeps its identity.
  ghost predicate KeepsIdentities(db: Database, t: Database) {
    && t == db.(certificates := t.certificates) && |t.certificates| == |db.certificates|
    && forall k :: 0 <= k < |t.certificates| ==>
         && t.certificates[k].id == db.certificates[k].id
         && t.certificates[k].fingerprint == db.certificates[k].fingerprint
  }

  lemma PutKeepsIdentities(db: Database, i: nat, c: Certificate)
    requires i < |db.certificates| && c.id == db.certificates[i].id && c.fingerprint == db.certificates[i].fingerprint
    ensures KeepsIdentities(db, PutCertificate(db, i, c))
  {
  }

  lemma IntentKeepsIdentities(db: Database, id: Id, token: Id, readable: bool, verify: Answer, now: Time)
    requires InstallIntentIn(db, id, token, readable, verify, now).Ok?
    ensures KeepsIdentities(db, InstallIntentIn(db, id, token, readable, verify, now).value)
  {
    var i := CertificateAt(db.certificates, id);
    PutKeepsIdentities(db, i, PrepareInstall(db.certificates[i], token, readable, verify, now).value);
  }

  lemma RemovalIntentKeepsIdentities(db: Database, id: Id, token: Id, readable: bool, now: Time)
    requires RemoveIntentIn(db, id, token, readable, now).Ok?
    ensures KeepsIdentities(db, RemoveIntentIn(db, id, token, readable, now).value)
  {
    var i := CertificateAt(db.certificates, id);
    PutKeepsIdentities(db, i, PrepareRemove(db.certificates[i], token, CertificateUsed(db, id), readable, now).value);
  }

  lemma InstalledKeepsIdentities(db: Database, id: Id, token: Id, owned: bool, already: bool, now: Time)
    requires FinishInstallIn(db, id, token, owned, already, now).Ok?
    ensures KeepsIdentities(db, FinishInstallIn(db, id, token, owned, already, now).value)
  {
    var i := CertificateAt(db.certificates, id);
    PutKeepsIdentities(db, i, WithInstalled(db.certificates[i], owned, already, now));
  }

  lemma RemovedKeepsIdentities(db: Database, id: Id, token: Id, now: Time)
    requires FinishRemovalIn(db, id, token, now).Ok?
    ensures KeepsIdentities(db, FinishRemovalIn(db, id, token, now).value)
  {
    var i := CertificateAt(db.certificates, id);
    PutKeepsIdentities(db, i, WithRemoved(db.certificates[i], now));
  }

  lemma ErrorKeepsIdentities(db: Database, id: Id, token: Id, message: string, now: Time)
    ensures KeepsIdentities(db, MarkErrorIn(db, id, token, message, now).value)
  {
    var i := CertificateAt(db.certificates, id);
    if AwaitsIn(db, id, token) {
      PutKeepsIdentities(db, i, WithTrustError(db.certificates[i], message, now));
    }
  }

  lemma RecoveryKeepsIdentities(db: Database, answers: map<Id, Answer>, now: Time)
    ensures KeepsIdentities(db, RecoverIn(db, answers, now).value)
  {
  }

  lemma AcknowledgmentKeepsIdentities(db: Database, id: Id, fingerprint: Fingerprint, now: Time)
    requires AcknowledgeIn(db, id, fingerprint, now).Ok?
    ensures KeepsIdentities(db, AcknowledgeIn(db, id, fingerprint, now).value)
  {
    var i := CertificateAt(db.certificates, id);
    PutKeepsIdentities(db, i, Acknowledged(db.certificates[i], now));
  }

  lemma TrustCommandKeepsIdentities(c: Command, db: Database)
    requires ChangesTrust(c) && PerformTrust(c, db).Ok?
    ensures KeepsIdentities(db, PerformTrust(c, db).value)
  {
    match c
    case InstallIntent(id, token, readable, verify, now) => IntentKeepsIdentities(db, id, token, readable, verify, now);
    case RemoveIntent(id, token, readable, now) => RemovalIntentKeepsIdentities(db, id, token, readable, now);
    case FinishInstall(id, token, owned, already, now) => InstalledKeepsIdentities(db, id, token, owned, already, now);
    case FinishRemoval(id, token, now) => RemovedKeepsIdentities(db, id, token, now);
    case MarkError(id, token, message, now) => ErrorKeepsIdentities(db, id, token, message, now);
    case RecoverTrust(answers, now) => RecoveryKeepsIdentities(db, answers, now);
  }

  lemma IdentitiesMutate(db: Database, t: Database)
    requires KeepsIdentities(db, t)
    ensures Mutates(db, SetCertificates(t.certificates), t) && IdsOf(t) <= IdsOf(db)
  {
    forall c | c in t.certificates ensures c.id in IdsOf(db) {
      var k :| 0 <= k < |t.certificates| && t.certificates[k] == c;
      assert db.certificates[k] in db.certificates;
    }
  }

  lemma OpsMutate(db: Database, t: Database)
    requires t == db.(deletionOps := t.deletionOps)
    ensures Mutates(db, SetDeletionOps(t.deletionOps), t)
  {
  }

  lemma OpIds(db: Database, k: nat)
    requires k < |db.deletionOps|
    ensures db.deletionOps[k].operationId in IdsOf(db)
  {
    assert db.deletionOps[k] in db.deletionOps;
  }

  // Only the tombstones differ: they stay distinct and bring in no other identifiers.
  ghost predicate KeepsTombs(db: Database, t: Database, brought: set<Id>) {
    t == db.(deletionOps := t.deletionOps) && DistinctOps(t) && IdsOf(t) <= IdsOf(db) + brought
  }

  lemma TombstoneKeeps(db: Database, id: Id, op: Id)
    requires DistinctOps(db) && op !in IdsOf(db) && TombstoneIn(db, id, op).Ok?
    ensures KeepsTombs(db, TombstoneIn(db, id, op).value, {op})
  {
    forall k | 0 <= k < |db.deletionOps| ensures db.deletionOps[k].operationId != op {
      OpIds(db, k);
    }
  }

  lemma UntombKeeps(db: Database, op: Id)
    requires DistinctOps(db)
    ensures KeepsTombs(db, UntombIn(db, op).value, {})
  {
  }

  lemma MarkTombKeeps(db: Database, op: Id, message: string)
    requires DistinctOps(db)
    ensures KeepsTombs(db, MarkTombIn(db, op, message).value, {})
  {
    forall k | 0 <= k < |db.deletionOps| ensures db.deletionOps[k].operationId in IdsOf(db) {
      OpIds(db, k);
    }
  }

  lemma TombstoneCommandKeeps(c: Command, db: Database)
    requires DistinctOps(db) && (c.Tombstone? || c.Untomb? || c.MarkTomb?)
    requires NewIds(c) !! IdsOf(db) && PerformLibrary(c, db).Ok?
    ensures KeepsTombs(db, PerformLibrary(c, db).value, NewIds(c))
  {
    match c
    case Tombstone(id, op) => TombstoneKeeps(db, id, op);
    case Untomb(op) => UntombKeeps(db, op);
    case MarkTomb(op, message) => MarkTombKeeps(db, op, message);
  }

  lemma ImportMutates(db: Database, c: Certificate)
    requires c.id !in IdsOf(db) && ImportIn(db, c).Ok?
    ensures var t := ImportIn(db, c).value; Mutates(db, AddCertificate(c), t) && IdsOf(t) <= IdsOf(db) + {c.id}
  {
  }

  lemma DropCertificateMutates(db: Database, id: Id, op: Id)
    requires DropIn(db, id, op).Ok?
    ensures var t := DropIn(db, id, op).value;
            Mutates(db, DropCertificate(CertificateAt(db.certificates, id)), t) && IdsOf(t) <= IdsOf(db)
  {
  }

  // ---- records that a load leaves alone ----

  // In normal form, and if asked for in the full shape.
  predicate Fits(c: Container, shape: bool) {
    NormalLifecycle(c) && (shape ==> Shape(c))
  }

  ghost predicate ContainersFit(db: Database, shape: bool) {
    forall c :: c in db.containers ==> Fits(c, shape)
  }

  lemma ListedFits(db: Database, shape: bool, i: int)
    requires ContainersFit(db, shape) && 0 <= i < |db.containers|
    ensures Fits(db.containers[i], shape)
  {
    assert db.containers[i] in db.containers;
  }

  lemma PutFits(db: Database, shape: bool, i: nat, c: Container)
    requires ContainersFit(db, shape) && i < |db.containers| && Fits(c, shape)
    ensures ContainersFit(PutContainer(db, i, c), shape)
  {
    var cs := db.containers[i := c];
    forall x | x in cs ensures Fits(x, shape) {
      var k :| 0 <= k < |cs| && cs[k] == x;
      if k != i {
        ListedFits(db, shape, k);
      }
    }
  }

  lemma LifecycleFits(c: Command, db: Database, shape: bool)
    requires ContainersFit(db, shape) && WellFormed(c)
    requires (c.Reserve? || c.Commit? || c.Release? || c.Watch?) && PerformContainer(c, db).Ok?
    ensures var t, i := PerformContainer(c, db).value, ContainerAt(db.containers, c.id);
            t == db || (0 <= i < |db.containers| && |t.containers| == |db.containers|
                        && t == PutContainer(db, i, t.containers[i]) && Fits(t.containers[i], shape))
  {
    var i := ContainerAt(db.containers, c.id);
    if i != -1 {
      ListedFits(db, shape, i);
    }
  }

  lemma ReconciledFits(db: Database, owned: map<Id, int>, probes: map<Id, Probe>, now: Time, shape: bool)
    requires ContainersFit(db, shape)
    ensures ContainersFit(db.(containers := ReconciledContainers(db.containers, owned, probes, now)), shape)
  {
    var cs := ReconciledContainers(db.containers, owned, probes, now);
    forall x | x in cs ensures Fits(x, shape) {
      var k :| 0 <= k < |cs| && cs[k] == x;
      ListedFits(db, shape, k);
    }
  }

  lemma RemovedFits(db: Database, shape: bool, i: nat)
    requires ContainersFit(db, shape) && i < |db.containers|
    ensures ContainersFit(db.(containers := RemoveAt(db.containers, i)), shape)
  {
    forall x | x in RemoveAt(db.containers, i) ensures Fits(x, shape) {
      assert x in db.containers;
    }
  }

  lemma DeleteTemporaryFits(db: Database, id: Id, probe: Probe, removed: bool, shape: bool)
    requires ContainersFit(db, shape) && DeleteTemporaryIn(db, id, probe, removed).Ok?
    ensures ContainersFit(DeleteTemporaryIn(db, id, probe, removed).value, shape)
  {
    var i := ContainerAt(db.containers, id);
    if i != -1 {
      ListedFits(db, shape, i);
      PutFits(db, shape, i, db.containers[i].(pendingCleanup := true));
      RemovedFits(db, shape, i);
    }
  }

  lemma UpdateFits(db: Database, id: Id, config: Config, expectedName: string, restrict: bool, now: Time, shape: bool)
    requires ContainersFit(db, shape) && UpdateIn(db, id, config, expectedName, restrict, now).Ok?
    ensures ContainersFit(UpdateIn(db, id, config, expectedName, restrict, now).value, shape)
  {
    var i := ContainerAt(db.containers, id);
    ListedFits(db, shape, i);
    PutFits(db, shape, i, Configured(db.containers[i], config, now));
  }

  lemma StoredContainerFits(c: Command, db: Database, shape: bool)
    requires ContainersFit(db, shape) && (c.Delete? || c.DeleteTemporary? || c.Update?) && PerformContainer(c, db).Ok?
    ensures ContainersFit(PerformContainer(c, db).value, shape)
  {
    if c.Delete? {
      RemovedFits(db, shape, ContainerAt(db.containers, c.id));
    } else if c.DeleteTemporary? {
      DeleteTemporaryFits(db, c.id, c.probe, c.directoryRemoved, shape);
    } else {
      UpdateFits(db, c.id, c.config, c.expectedName, c.restrict, c.now, shape);
    }
  }

  lemma ContainerCommandFits(c: Command, db: Database, shape: bool)
    requires ContainersFit(db, shape) && WellFormed(c) && OfContainers(c) && PerformContainer(c, db).Ok?
    ensures ContainersFit(PerformContainer(c, db).value, shape)
  {
    if c.Reconcile? {
      ReconciledFits(db, c.owned, c.probes, c.now, shape);
    } else if c.Create? {
      var x := NewContainer(c.id, c.config, c.temporary, c.now);
      ShapeIsNormal(x);
    } else if c.Delete? || c.DeleteTemporary? || c.Update? {
      StoredContainerFits(c, db, shape);
    } else {
      LifecycleFits(c, db, shape);
      var t, i := PerformContainer(c, db).value, ContainerAt(db.containers, c.id);
      if t != db {
        PutFits(db, shape, i, t.containers[i]);
      }
    }
  }

  predicate CertificateFits(machine: Machine, c: Certificate) {
    NormalTrust(c) && (!machine.linux ==> c.acknowledgment.None?)
  }

  ghost predicate CertificatesFit(machine: Machine, db: Database) {
    forall c :: c in db.certificates ==> CertificateFits(machine, c)
  }

  lemma ListedCertificateFits(machine: Machine, db: Database, i: int)
    requires CertificatesFit(machine, db) && 0 <= i < |db.certificates|
    ensures CertificateFits(machine, db.certificates[i])
  {
    assert db.certificates[i] in db.certificates;
  }

  lemma PutCertificateFits(machine: Machine, db: Database, i: nat, c: Certificate)
    requires CertificatesFit(machine, db) && i < |db.certificates| && CertificateFits(machine, c)
    ensures CertificatesFit(machine, PutCertificate(db, i, c))
  {
    var cs := db.certificates[i := c];
    forall x | x in cs ensures CertificateFits(machine, x) {
      var k :| 0 <= k < |cs| && cs[k] == x;
      if k != i {
        ListedCertificateFits(machine, db, k);
      }
    }
  }

  // What one trust command makes of one record, where no record is acknowledged.
  lemma TrustCommandFits(machine: Machine, c: Command, db: Database)
    requires !machine.linux && CertificatesFit(machine, db)
    requires ChangesTrust(c) && !c.RecoverTrust? && PerformTrust(c, db).Ok?
    ensures var t, i := PerformTrust(c, db).value, CertificateAt(db.certificates, c.id);
            t == db || (0 <= i < |db.certificates| && |t.certificates| == |db.certificates|
                        && t == PutCertificate(db, i, t.certificates[i]) && CertificateFits(machine, t.certificates[i]))
  {
    var i := CertificateAt(db.certificates, c.id);
    if i != -1 {
      ListedCertificateFits(machine, db, i);
      TrustWritesAreNormal(db.certificates[i], c.token, c.InstallIntent? && c.verify.Present? && c.verify.trusted, false, "",
                           Unreadable, c.now);
    }
  }

  lemma RecoveredFits(machine: Machine, db: Database, answers: map<Id, Answer>, now: Time)
    requires !machine.linux && CertificatesFit(machine, db)
    ensures CertificatesFit(machine, RecoverIn(db, answers, now).value)
  {
    var cs := RecoveredCertificates(db.certificates, answers, now);
    forall x | x in cs ensures CertificateFits(machine, x) {
      var k :| 0 <= k < |cs| && cs[k] == x;
      ListedCertificateFits(machine, db, k);
      TrustWritesAreNormal(db.certificates[k], "", false, false, "", AnswerOf(answers, db.certificates[k].id), now);
    }
  }

  lemma CertificateCommandFits(machine: Machine, c: Command, db: Database)
    requires Sane(machine) && CertificatesFit(machine, db) && Perform(machine, c, db).Ok?
    requires !OfContainers(c) && !OfReferences(c)
    ensures CertificatesFit(machine, Perform(machine, c, db).value)
  {
    var t := Perform(machine, c, db).value;
    if c.RecoverTrust? {
      RecoveredFits(machine, db, c.answers, c.now);
    } else if ChangesTrust(c) {
      TrustCommandFits(machine, c, db);
      if t != db {
        var i := CertificateAt(db.certificates, c.id);
        PutCertificateFits(machine, db, i, t.certificates[i]);
      }
    } else if c.Acknowledge? {
      var i := CertificateAt(db.certificates, c.id);
      AcknowledgmentIsNormal(db.certificates[i], c.now);
      PutCertificateFits(machine, db, i, Acknowledged(db.certificates[i], c.now));
    } else if c.Import? {
      ImportIsNormal(c.id, c.fingerprint, c.now);
    }
  }

  lemma ContainersTouchOneList(c: Command, db: Database)
    requires PerformContainer(c, db).Ok?
    ensures PerformContainer(c, db).value.certificates == db.certificates
  {
  }

  lemma ReferencesTouchTheirLists(c: Command, db: Database)
    requires PerformReference(c, db).Ok?
    ensures var t := PerformReference(c, db).value; t.certificates == db.certificates && t.containers == db.containers
  {
  }

  lemma CertificatesTouchTheirLists(machine: Machine, c: Command, db: Database)
    requires !OfContainers(c) && !OfReferences(c) && Perform(machine, c, db).Ok?
    ensures Perform(machine, c, db).value.containers == db.containers
  {
  }

  lemma PerformFits(machine: Machine, c: Command, db: Database, shape: bool)
    requires Sane(machine) && WellFormed(c) && Perform(machine, c, db).Ok?
    requires ContainersFit(db, shape) && CertificatesFit(machine, db)
    ensures var t := Perform(machine, c, db).value; ContainersFit(t, shape) && CertificatesFit(machine, t)
  {
    if OfContainers(c) {
      ContainersTouchOneList(c, db);
      ContainerCommandFits(c, db, shape);
    } else if OfReferences(c) {
      ReferencesTouchTheirLists(c, db);
    } else {
      CertificatesTouchTheirLists(machine, c, db);
      CertificateCommandFits(machine, c, db);
    }
  }

  /**
   * Every command writes databases that the next load leaves as they are, as long as acknowledgments
   * are made on Linux only.
   */
  lemma PerformKeepsNormal(machine: Machine, c: Command, db: Database)
    requires Sane(machine) && WellFormed(c) && NormalOn(machine, db) && Perform(machine, c, db).Ok?
    ensures NormalOn(machine, Perform(machine, c, db).value)
  {
    PerformFits(machine, c, db, false);
  }

  // ---- put together ----

  lemma CertificateCommandKeepsLinked(machine: Machine, c: Command, db: Database)
    requires Linked(db) && NewIds(c) !! IdsOf(db) && Perform(machine, c, db).Ok?
    requires !OfContainers(c) && !OfReferences(c)
    ensures var t := Perform(machine, c, db).value; Linked(t) && IdsOf(t) <= IdsOf(db) + NewIds(c)
  {
    var t := Perform(machine, c, db).value;
    if ChangesTrust(c) || c.Acknowledge? {
      if c.Acknowledge? {
        AcknowledgmentKeepsIdentities(db, c.id, c.fingerprint, c.now);
      } else {
        TrustCommandKeepsIdentities(c, db);
      }
      IdentitiesMutate(db, t);
      MutationKeepsInv(db, SetCertificates(t.certificates), t);
    } else if c.Import? {
      ImportMutates(db, ImportedCertificate(c.id, c.fingerprint, c.now));
      MutationKeepsInv(db, AddCertificate(ImportedCertificate(c.id, c.fingerprint, c.now)), t);
    } else if c.Drop? {
      DropCertificateMutates(db, c.id, c.op);
      MutationKeepsInv(db, DropCertificate(CertificateAt(db.certificates, c.id)), t);
    } else if !c.Rewrite? {
      TombstoneCommandKeeps(c, db);
      OpsMutate(db, t);
      MutationKeepsInv(db, SetDeletionOps(t.deletionOps), t);
    }
  }

  lemma MutatedStaysLinked(db: Database, m: Mutation, t: Database)
    requires Linked(db) && Mutates(db, m, t) && t.deletionOps == db.deletionOps
    ensures Linked(t)
  {
    MutationKeepsInv(db, m, t);
  }

  lemma ContainerCommandKeepsLinked(c: Command, db: Database)
    requires Linked(db) && OfContainers(c) && NewIds(c) !! IdsOf(db) && PerformContainer(c, db).Ok?
    ensures var t := PerformContainer(c, db).value; Linked(t) && IdsOf(t) <= IdsOf(db) + NewIds(c)
  {
    ContainerCommandMutates(c, db);
    MutatedStaysLinked(db, SetContainers(PerformContainer(c, db).value.containers), PerformContainer(c, db).value);
  }

  lemma ReferenceCommandKeepsLinked(c: Command, db: Database)
    requires Linked(db) && OfReferences(c) && NewIds(c) !! IdsOf(db) && PerformReference(c, db).Ok?
    ensures var t := PerformReference(c, db).value; Linked(t) && IdsOf(t) <= IdsOf(db) + NewIds(c)
  {
    var m := ReferenceCommandMutates(c, db);
    MutatedStaysLinked(db, m, PerformReference(c, db).value);
  }

  /** Every command keeps the reference graph whole and all identities distinct, if what it brings in is new. */
  lemma PerformKeepsLinked(machine: Machine, c: Command, db: Database)
    requires Linked(db) && NewIds(c) !! IdsOf(db) && Perform(machine, c, db).Ok?
    ensures var t := Perform(machine, c, db).value; Linked(t) && IdsOf(t) <= IdsOf(db) + NewIds(c)
  {
    if OfContainers(c) {
      ContainerCommandKeepsLinked(c, db);
    } else if OfReferences(c) {
      ReferenceCommandKeepsLinked(c, db);
    } else {
      CertificateCommandKeepsLinked(machine, c, db);
    }
  }

  /** Every command keeps all of it: references, identities, record shapes and the normal form. */
  lemma PerformKeepsGood(machine: Machine, c: Command, db: Database)
    requires Sane(machine) && WellFormed(c) && Good(machine, db) && NewIds(c) !! IdsOf(db) && Perform(machine, c, db).Ok?
    ensures var t := Perform(machine, c, db).value; Good(machine, t) && IdsOf(t) <= IdsOf(db) + NewIds(c)
  {
    PerformKeepsLinked(machine, c, db);
    PerformFits(machine, c, db, true);
  }
}
