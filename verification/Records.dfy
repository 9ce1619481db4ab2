/** Optional values and results, as the native host's nil pointers and Go errors. */
module Prelude {

  datatype Option<+T> = None | Some(value: T)

  datatype Result<+T, +E> = Ok(value: T) | Err(error: E)

  /** A number above all of these. */
  lemma Above(s: set<nat>) returns (n: nat)
    ensures forall x :: x in s ==> x < n
  {
    n := 0;
    if s != {} {
      var x :| x in s;
      var above := Above(s - {x});
      n := if x < above then above else x + 1;
      assert forall y :: y in s ==> y == x || y in s - {x};
    }
  }
}

/** The persisted metadata records and the error codes the handlers return. */
module Records {
  import opened Prelude

  // Identifiers are opaque text; "" means "no reference" exactly as in the JSON.
  type Id = string

  type Fingerprint = string

  // Nanoseconds, the unit of the Go clock.
  type Time = int

  const LAUNCH_RESERVATION_TTL: Time := 120_000_000_000

  // The lifecycle text of a container. Anything else in the file is rejected on load.
  datatype LifecycleState = NoState | Stopped | Launching | Running | OtherState(text: string)

  datatype NetworkMode = NoMode | Direct | Template | Proxy | OtherMode(text: string)

  datatype TrustState =
    | NoTrustState | Untrusted | Installing | Trusted | Removing | TrustError | ManualAcknowledged
    | OtherTrustState(text: string)

  datatype BrowserType = Chrome | Chromium | Edge | Brave | Custom

  datatype Container = Container(
    id: Id,
    name: string,
    temporary: bool,
    pendingCleanup: bool,
    browserType: BrowserType,
    automationEnabled: bool,
    state: LifecycleState,
    running: bool,
    pid: int,
    launchToken: Id,
    launchReservedAt: Option<Time>,
    lastLaunchedAt: Option<Time>,
    updatedAt: Time,
    networkMode: NetworkMode,
    proxyProfileId: Id,
    environmentTemplateId: Id)

  datatype Unavailable = Warn | Block | DirectFallback | OtherBehavior(text: string)

  datatype ProxyProfile = ProxyProfile(
    id: Id,
    enabled: bool,
    protocol: string,
    host: string,
    port: int,
    bypassRules: seq<string>,
    certificateIds: seq<Id>,
    healthCheck: bool,
    unavailableBehavior: Unavailable)

  datatype EnvironmentTemplate = EnvironmentTemplate(
    id: Id,
    proxyProfileId: Id,
    certificateIds: seq<Id>)

  datatype Acknowledgment = Acknowledgment(certificateId: Id, fingerprint: Fingerprint, platform: string)

  datatype Certificate = Certificate(
    id: Id,
    fingerprint: Fingerprint,
    trusted: bool,
    installedByScopeNest: bool,
    trustState: TrustState,
    operationId: Id,
    operationFingerprint: Fingerprint,
    operationWasTrusted: bool,
    trustError: string,
    acknowledgment: Option<Acknowledgment>,
    updatedAt: Time)

  datatype DeletionOp = DeletionOp(certificateId: Id, operationId: Id, failed: bool, error: string)

  datatype Database = Database(
    containers: seq<Container>,
    proxyProfiles: seq<ProxyProfile>,
    certificates: seq<Certificate>,
    deletionOps: seq<DeletionOp>,
    templates: seq<EnvironmentTemplate>)

  datatype ErrorCode =
    | NOT_FOUND
    | CONTAINER_NAME_MISMATCH
    | CUSTOM_BROWSER_REQUIRES_HUMAN_LAUNCH
    | AUTOMATION_CONSENT_REQUIRED
    | AUTOMATION_REQUIRES_STANDARD_BROWSER
    | ALREADY_LAUNCHING
    | ALREADY_RUNNING
    | PROFILE_IN_USE
    | LAUNCH_RESERVATION_LOST
    | CONTAINER_BUSY
    | CONTAINER_RUNNING
    | DELETE_FAILED
    | INTERNAL_ERROR
    | ENVIRONMENT_TEMPLATE_NOT_FOUND
    | INVALID_NETWORK_CONFIGURATION
    | INVALID_NETWORK_MODE
    | PROXY_PROFILE_NOT_FOUND
    | PROXY_PROFILE_DISABLED
    | PROXY_LISTENER_UNAVAILABLE
    | AUTOMATION_INITIALIZATION_FAILED
    | INVALID_BROWSER_PATH
    | LAUNCH_FAILED
    | PROCESS_NOT_OWNED
    | CLOSE_FAILED
    | INVALID_PROXY_PROFILE
    | INVALID_TEMPLATE
    | PROXY_REFERENCE_IN_USE
    | TEMPLATE_REFERENCE_IN_USE
    | CERTIFICATE_NOT_FOUND
    | CERTIFICATE_NOT_READY
    | CERTIFICATE_FINGERPRINT_MISMATCH
    | MANUAL_TRUST_ACKNOWLEDGMENT_UNSUPPORTED
    | CERTIFICATE_DER_MISSING_OR_MISMATCHED
    | CERTIFICATE_TRUST_VERIFICATION_FAILED
    | CERTIFICATE_READ_FAILED
    | CERTIFICATE_TRUST_VERIFY_FAILED
    | CERTIFICATE_TRUST_INSTALL_FAILED
    | CERTIFICATE_TRUST_REMOVE_FAILED
    | CERTIFICATE_TRUST_UNSUPPORTED
    | CERTIFICATE_TRUST_OPERATION_PENDING
    | CERTIFICATE_TRUST_MUST_BE_REMOVED_FIRST
    | CERTIFICATE_NOT_INSTALLED_BY_SCOPENEST
    | CERTIFICATE_REFERENCE_IN_USE
    | CERTIFICATE_DELETE_OPERATION_PENDING
    | CERTIFICATE_ALREADY_EXISTS
}
