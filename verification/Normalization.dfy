/** What every load makes of the metadata file: older and hand-edited records are brought into shape. */
module Normalization {
  import opened Prelude
  import opened Records
  import opened LaunchSpec
  import opened CertificateSpec
  import opened ReferenceSafety

  const CURRENT_VERSION := 2

  // The decoded file; no file stands for an empty database.
  datatype Stored = Stored(version: int, db: Database)

  datatype LoadError = UnsupportedVersion | InvalidLifecycleState

  function NormalState(c: Container): LifecycleState {
    if c.state != NoState then c.state else if c.running then Running else Stopped
  }

  function NormalContainer(c: Container, version: int): Container {
    c.(networkMode := if version == 1 && c.networkMode == NoMode then Direct else c.networkMode,
       state := NormalState(c), running := NormalState(c) == Running)
  }

  predicate AckMatches(c: Certificate) {
    && c.acknowledgment.Some?
    && c.acknowledgment.value.certificateId == c.id && c.acknowledgment.value.fingerprint == c.fingerprint
    && c.acknowledgment.value.platform == "linux"
  }

  function NormalCertificate(c: Certificate): Certificate {
    var state := if c.trustState == NoTrustState then if c.trusted then Trusted else Untrusted else c.trustState;
    if AckMatches(c) then c.(trustState := ManualAcknowledged, trusted := false, installedByScopeNest := false)
    else if c.acknowledgment.Some? || state == ManualAcknowledged then
      c.(trustState := Untrusted, trusted := false, acknowledgment := None)
    else c.(trustState := state)
  }

  function NormalContainers(cs: seq<Container>, version: int): (r: seq<Container>)
    ensures |r| == |cs| && forall i :: 0 <= i < |cs| ==> r[i] == NormalContainer(cs[i], version)
  {
    seq(|cs|, i requires 0 <= i < |cs| => NormalContainer(cs[i], version))
  }

  function NormalCertificates(cs: seq<Certificate>): (r: seq<Certificate>)
    ensures |r| == |cs| && forall i :: 0 <= i < |cs| ==> r[i] == NormalCertificate(cs[i])
  {
    seq(|cs|, i requires 0 <= i < |cs| => NormalCertificate(cs[i]))
  }

  predicate KnownState(c: Container) {
    !c.state.OtherState?
  }

  function Normalize(file: Option<Stored>): Result<Database, LoadError> {
    if file.None? then Ok(EMPTY)
    else
      var f := file.value;
      if f.version < 1 || f.version > CURRENT_VERSION then Err(UnsupportedVersion)
      else if exists c :: c in f.db.containers && !KnownState(c) then Err(InvalidLifecycleState)
      else Ok(f.db.(containers := NormalContainers(f.db.containers, f.version),
                    certificates := NormalCertificates(f.db.certificates)))
  }

  // ---- what a load makes of each record, field by field ----

  // The state comes from the running mark only where there is no state; the mark always follows the state.
  predicate LoadedContainer(c: Container, d: Container, version: int) {
    && (c.state == NoState ==> d.state == (if c.running then Running else Stopped))
    && (c.state != NoState ==> d.state == c.state)
    && (d.running <==> d.state == Running)
    && (c.networkMode == NoMode && version == 1 ==> d.networkMode == Direct)
    && (c.networkMode != NoMode || version != 1 ==> d.networkMode == c.networkMode)
    && d.id == c.id && d.name == c.name && d.temporary == c.temporary && d.pendingCleanup == c.pendingCleanup
    && d.browserType == c.browserType && d.automationEnabled == c.automationEnabled && d.pid == c.pid
    && d.launchToken == c.launchToken && d.launchReservedAt == c.launchReservedAt
    && d.lastLaunchedAt == c.lastLaunchedAt && d.updatedAt == c.updatedAt
    && d.proxyProfileId == c.proxyProfileId && d.environmentTemplateId == c.environmentTemplateId
  }

  // An acknowledgment counts only for this certificate, these bytes and Linux.
  predicate Acknowledges(a: Acknowledgment, c: Certificate) {
    a.certificateId == c.id && a.fingerprint == c.fingerprint && a.platform == "linux"
  }

  // Trust that was acknowledged by hand is owned by nobody; acknowledgments that do not fit are dropped with it.
  predicate LoadedTrust(c: Certificate, d: Certificate) {
    if c.acknowledgment.Some? && Acknowledges(c.acknowledgment.value, c) then
      && d.acknowledgment == c.acknowledgment && d.trustState == ManualAcknowledged && !d.trusted && !d.installedByScopeNest
    else
      && d.acknowledgment == None && d.installedByScopeNest == c.installedByScopeNest
      && if c.acknowledgment.Some? || c.trustState == ManualAcknowledged then d.trustState == Untrusted && !d.trusted
         else && d.trusted == c.trusted
              && d.trustState == (if c.trustState != NoTrustState then c.trustState
                                  else if c.trusted then Trusted else Untrusted)
  }

  predicate LoadedCertificate(c: Certificate, d: Certificate) {
    && LoadedTrust(c, d) && d.id == c.id && d.fingerprint == c.fingerprint && d.operationId == c.operationId
    && d.operationFingerprint == c.operationFingerprint && d.operationWasTrusted == c.operationWasTrusted
    && d.trustError == c.trustError && d.updatedAt == c.updatedAt
  }

  predicate LoadedFrom(f: Stored, db: Database) {
    && |db.containers| == |f.db.containers| && |db.certificates| == |f.db.certificates|
    && (forall k :: 0 <= k < |db.containers| ==> LoadedContainer(f.db.containers[k], db.containers[k], f.version))
    && (forall k :: 0 <= k < |db.certificates| ==> LoadedCertificate(f.db.certificates[k], db.certificates[k]))
    && db.proxyProfiles == f.db.proxyProfiles && db.templates == f.db.templates && db.deletionOps == f.db.deletionOps
  }

  // A file this program cannot read: another version, or a lifecycle state that is none.
  predicate Rejected(f: Stored) {
    f.version !in {1, 2} || exists k :: 0 <= k < |f.db.containers| && f.db.containers[k].state.OtherState?
  }

  lemma FailsExactly(f: Stored)
    ensures Normalize(Some(f)).Err? <==> Rejected(f)
    ensures Normalize(Some(f)) == Err(UnsupportedVersion) <==> f.version !in {1, 2}
  {
    if c :| c in f.db.containers && !KnownState(c) {
      var k :| 0 <= k < |f.db.containers| && f.db.containers[k] == c;
      assert f.db.containers[k].state.OtherState?;
    } else {
      forall k | 0 <= k < |f.db.containers| ensures !f.db.containers[k].state.OtherState? {
        assert f.db.containers[k] in f.db.containers;
      }
    }
  }

  lemma FieldsLoaded(f: Stored)
    requires Normalize(Some(f)).Ok?
    ensures LoadedFrom(f, Normalize(Some(f)).value)
  {
    forall k | 0 <= k < |f.db.containers|
      ensures LoadedContainer(f.db.containers[k], Normalize(Some(f)).value.containers[k], f.version)
    {
      assert f.db.containers[k] in f.db.containers && KnownState(f.db.containers[k]);
    }
  }

  /** A load fails exactly on these files, and otherwise every record of the file is there with its fields. */
  lemma LoadsExactly(file: Option<Stored>)
    ensures file.None? ==> Normalize(file) == Ok(Database([], [], [], [], []))
    ensures file.Some? ==> (Normalize(file).Err? <==> Rejected(file.value))
    ensures file.Some? ==> (Normalize(file) == Err(UnsupportedVersion) <==> file.value.version !in {1, 2})
    ensures file.Some? && Normalize(file).Ok? ==> LoadedFrom(file.value, Normalize(file).value)
  {
    if file.Some? {
      FailsExactly(file.value);
      if Normalize(file).Ok? {
        FieldsLoaded(file.value);
      }
    }
  }

  /** loadUnlocked: the loops over containers and certificates, rewriting each record in place. */
  method LoadUnlocked(file: Option<Stored>) returns (r: Result<Database, LoadError>)
    ensures r == Normalize(file)
    ensures file.Some? ==> if Rejected(file.value) then r.Err? else r.Ok? && LoadedFrom(file.value, r.value)
  {
    LoadsExactly(file);
    if file.None? {
      return Ok(EMPTY);
    }
    var version, db := file.value.version, file.value.db;
    if version < 1 || version > CURRENT_VERSION {
      return Err(UnsupportedVersion);
    }
    var cs := db.containers;
    for i := 0 to |cs|
      invariant |cs| == |db.containers|
      invariant forall k :: 0 <= k < i ==> KnownState(db.containers[k]) && cs[k] == NormalContainer(db.containers[k], version)
      invariant forall k :: i <= k < |cs| ==> cs[k] == db.containers[k]
    {
      var c := NormalizeContainer(cs[i], version);
      if c.None? {
        assert db.containers[i] in db.containers && !KnownState(db.containers[i]);
        return Err(InvalidLifecycleState);
      }
      cs := cs[i := c.value];
    }
    var certificates := db.certificates;
    for i := 0 to |certificates|
      invariant |certificates| == |db.certificates|
      invariant forall k :: 0 <= k < i ==> certificates[k] == NormalCertificate(db.certificates[k])
      invariant forall k :: i <= k < |certificates| ==> certificates[k] == db.certificates[k]
    {
      var c := NormalizeCertificate(certificates[i]);
      certificates := certificates[i := c];
    }
    assert cs == NormalContainers(db.containers, version) && certificates == NormalCertificates(db.certificates);
    r := Ok(db.(containers := cs, certificates := certificates));
  }

  method NormalizeContainer(container: Container, version: int) returns (r: Option<Container>)
    ensures r == if KnownState(container) then Some(NormalContainer(container, version)) else None
  {
    var c := container;
    if version == 1 {
      if c.networkMode == NoMode {
        c := c.(networkMode := Direct);
      }
    }
    match c.state {
      case NoState =>
        if c.running {
          c := c.(state := Running);
        } else {
          c := c.(state := Stopped);
        }
      case Stopped => c := c.(running := false);
      case Launching => c := c.(running := false);
      case Running => c := c.(running := true);
      case OtherState(_) => return None;
    }
    r := Some(c);
  }

  method NormalizeCertificate(certificate: Certificate) returns (c: Certificate)
    ensures c == NormalCertificate(certificate)
  {
    c := certificate;
    if c.trustState == NoTrustState {
      if c.trusted {
        c := c.(trustState := Trusted);
      } else {
        c := c.(trustState := Untrusted);
      }
    }
    if c.acknowledgment.Some?
       && (c.acknowledgment.value.certificateId != c.id || c.acknowledgment.value.fingerprint != c.fingerprint
           || c.acknowledgment.value.platform != "linux")
    {
      c := c.(acknowledgment := None, trustState := Untrusted, trusted := false);
    } else if c.acknowledgment.Some? {
      c := c.(trustState := ManualAcknowledged, trusted := false, installedByScopeNest := false);
    } else if c.trustState == ManualAcknowledged {
      c := c.(trustState := Untrusted, trusted := false);
    }
  }

  // ---- which databases a load leaves alone ----

  predicate NormalLifecycle(c: Container) {
    && c.state in {Stopped, Launching, Running} && (c.running <==> c.state == Running)
  }

  predicate NormalTrust(c: Certificate) {
    && c.trustState != NoTrustState
    && (c.acknowledgment.Some? <==> c.trustState == ManualAcknowledged)
    && (c.acknowledgment.Some? ==> AckMatches(c) && !c.trusted && !c.installedByScopeNest)
  }

  predicate Normal(db: Database) {
    && (forall c :: c in db.containers ==> NormalLifecycle(c))
    && (forall c :: c in db.certificates ==> NormalTrust(c))
  }

  lemma CertificateIsFixed(c: Certificate)
    ensures NormalTrust(NormalCertificate(c))
    ensures NormalCertificate(c) == c <==> NormalTrust(c)
  {
  }

  lemma ContainerIsFixed(c: Container, version: int)
    requires KnownState(c)
    ensures NormalLifecycle(NormalContainer(c, version))
    ensures NormalContainer(c, CURRENT_VERSION) == c <==> NormalLifecycle(c)
  {
  }

  /** A load yields a normal database, and changes a current file exactly when it is not one already. */
  lemma LoadYieldsNormal(file: Option<Stored>)
    ensures Normalize(file).Ok? ==> Normal(Normalize(file).value)
    ensures file.Some? && file.value.version == CURRENT_VERSION ==>
              (Normalize(file) == Ok(file.value.db) <==> Normal(file.value.db))
  {
    if file.Some? && Normalize(file).Ok? {
      var f := file.value;
      var r := Normalize(file).value;
      forall c | c in r.containers ensures NormalLifecycle(c) {
        var k :| 0 <= k < |r.containers| && r.containers[k] == c;
        ContainerIsFixed(f.db.containers[k], f.version);
      }
      forall c | c in r.certificates ensures NormalTrust(c) {
        var k :| 0 <= k < |r.certificates| && r.certificates[k] == c;
        CertificateIsFixed(f.db.certificates[k]);
      }
    }
    if file.Some? && file.value.version == CURRENT_VERSION && Normal(file.value.db) {
      NormalIsKept(file.value.db);
    }
  }

  lemma NormalIsKept(db: Database)
    requires Normal(db)
    ensures Normalize(Some(Stored(CURRENT_VERSION, db))) == Ok(db)
  {
    forall k | 0 <= k < |db.containers| ensures NormalContainer(db.containers[k], CURRENT_VERSION) == db.containers[k] {
      assert db.containers[k] in db.containers;
      ContainerIsFixed(db.containers[k], CURRENT_VERSION);
    }
    forall k | 0 <= k < |db.certificates| ensures NormalCertificate(db.certificates[k]) == db.certificates[k] {
      assert db.certificates[k] in db.certificates;
      CertificateIsFixed(db.certificates[k]);
    }
    assert NormalContainers(db.containers, CURRENT_VERSION) == db.containers;
    assert NormalCertificates(db.certificates) == db.certificates;
  }

  /** Loading what a load produced changes nothing more, whatever version the file had. */
  lemma NormalizationIsIdempotent(file: Option<Stored>)
    requires Normalize(file).Ok?
    ensures Normalize(Some(Stored(CURRENT_VERSION, Normalize(file).value))) == Normalize(file)
  {
    LoadYieldsNormal(file);
    NormalIsKept(Normalize(file).value);
  }

  // ---- what the handlers write ----

  lemma ShapeIsNormal(c: Container)
    requires Shape(c)
    ensures NormalLifecycle(c)
  {
  }

  /** Every trust transaction keeps an unacknowledged record normal, so the next load keeps it as written. */
  lemma TrustWritesAreNormal(c: Certificate, token: Id, flag: bool, already: bool, message: string, answer: Answer, now: Time)
    requires NormalTrust(c) && c.acknowledgment.None?
    ensures NormalTrust(WithInstallIntent(c, token, flag, now)) && NormalTrust(WithRemoveIntent(c, token, now))
    ensures NormalTrust(WithInstalled(c, flag, already, now)) && NormalTrust(WithRemoved(c, now))
    ensures NormalTrust(WithTrustError(c, message, now)) && NormalTrust(RecoverOne(c, answer, now))
  {
  }

  lemma ImportIsNormal(id: Id, f: Fingerprint, now: Time)
    ensures NormalTrust(ImportedCertificate(id, f, now))
  {
  }

  lemma AcknowledgmentIsNormal(c: Certificate, now: Time)
    ensures NormalTrust(Acknowledged(c, now))
  {
  }

  /**
   * The exception: an installation intent over an acknowledged record is not normal, and the next
   * load takes the pending state away. Acknowledgment exists only where trust is unsupported.
   */
  lemma IntentSurvivesLoadExactly(c: Certificate, token: Id, wasTrusted: bool, now: Time)
    requires NormalTrust(c)
    ensures var intent := WithInstallIntent(c, token, wasTrusted, now);
            && (NormalCertificate(intent) == intent <==> c.acknowledgment.None?)
            && (c.acknowledgment.Some? ==> NormalCertificate(intent).trustState == ManualAcknowledged)
  {
  }
}
