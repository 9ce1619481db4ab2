/** What must hold before a browser starts, what readiness reports, and the arguments that result. */
module LaunchGate {
  import opened Prelude
  import opened Records
  import opened Environment
  import opened References
  import opened ReferenceSafety

  // ---- certificate readiness ----

  datatype Verification = Verified(present: bool) | VerifyFailed

  // What the certificate directory and the trust store answer: stored bytes that match, and presence.
  datatype TrustView = TrustView(supported: bool, linux: bool, readable: set<Fingerprint>,
                                 verify: map<Fingerprint, Verification>)

  predicate LastCertificateAt(certificates: seq<Certificate>, id: Id, i: int) {
    0 <= i < |certificates| && certificates[i].id == id && forall j :: i < j < |certificates| ==> certificates[j].id != id
  }

  function FindCertificate(certificates: seq<Certificate>, id: Id): (r: Option<Certificate>)
    ensures r.Some? ==> r.value in certificates && r.value.id == id
    ensures r.Some? ==> exists i :: LastCertificateAt(certificates, id, i) && r.value == certificates[i]
    ensures r.None? ==> forall c :: c in certificates ==> c.id != id
  {
    if certificates == [] then None
    else
      var last := certificates[|certificates| - 1];
      assert certificates == certificates[..|certificates| - 1] + [last];
      if last.id == id then
        assert LastCertificateAt(certificates, id, |certificates| - 1);
        Some(last)
      else
        var r := FindCertificate(certificates[..|certificates| - 1], id);
        assert forall i :: LastCertificateAt(certificates[..|certificates| - 1], id, i) ==>
                             LastCertificateAt(certificates, id, i);
        r
  }

  function CertificateError(c: Certificate, view: TrustView): Option<ErrorCode> {
    if c.fingerprint !in view.readable then Some(CERTIFICATE_DER_MISSING_OR_MISMATCHED)
    else if view.supported then
      if c.fingerprint !in view.verify || view.verify[c.fingerprint].VerifyFailed? then
        Some(CERTIFICATE_TRUST_VERIFICATION_FAILED)
      else if view.verify[c.fingerprint].present && c.trusted && c.trustState == Trusted then None
      else Some(CERTIFICATE_NOT_READY)
    else if view.linux && c.trustState == ManualAcknowledged && c.acknowledgment.Some?
            && c.acknowledgment.value.fingerprint == c.fingerprint then None
    else Some(CERTIFICATE_NOT_READY)
  }

  /**
   * When a certificate is good for a launch: its bytes are there, and where there is a trust store it has
   * the entry and the record says trusted; elsewhere the user has acknowledged these very bytes on Linux.
   */
  predicate Ready(c: Certificate, view: TrustView) {
    && c.fingerprint in view.readable
    && if view.supported
       then c.fingerprint in view.verify && view.verify[c.fingerprint] == Verified(true) && c.trusted && c.trustState == Trusted
       else view.linux && c.trustState == ManualAcknowledged && c.acknowledgment.Some?
            && c.acknowledgment.value.fingerprint == c.fingerprint
  }

  // The store was asked and did not answer.
  predicate Unanswered(c: Certificate, view: TrustView) {
    view.supported && (c.fingerprint in view.verify ==> view.verify[c.fingerprint].VerifyFailed?)
  }

  lemma CertificateErrors(c: Certificate, view: TrustView)
    ensures CertificateError(c, view).None? <==> Ready(c, view)
    ensures CertificateError(c, view) == Some(CERTIFICATE_DER_MISSING_OR_MISMATCHED) <==> c.fingerprint !in view.readable
    ensures CertificateError(c, view) == Some(CERTIFICATE_TRUST_VERIFICATION_FAILED)
            <==> c.fingerprint in view.readable && Unanswered(c, view)
    ensures CertificateError(c, view) == Some(CERTIFICATE_NOT_READY)
            <==> c.fingerprint in view.readable && !Unanswered(c, view) && !Ready(c, view)
  {
  }

  // A stored certificate of this ID, the last one if there are several, is ready.
  predicate RequirementMet(db: Database, id: Id, view: TrustView) {
    FindCertificate(db.certificates, id).Some? && Ready(FindCertificate(db.certificates, id).value, view)
  }

  function RequirementError(db: Database, id: Id, view: TrustView): Option<ErrorCode> {
    var c := FindCertificate(db.certificates, id);
    if c.None? then Some(CERTIFICATE_NOT_FOUND) else CertificateError(c.value, view)
  }

  /** The first requirement that is not met. */
  function FirstError(db: Database, ids: seq<Id>, view: TrustView): (r: Option<ErrorCode>)
    ensures r.None? <==> forall id :: id in ids ==> RequirementError(db, id, view).None?
    ensures r.Some? ==> exists i :: FailsFirst(db, ids, view, i) && r == RequirementError(db, ids[i], view)
  {
    if ids == [] then None
    else if RequirementError(db, ids[0], view).Some? then
      assert FailsFirst(db, ids, view, 0);
      RequirementError(db, ids[0], view)
    else
      var r := FirstError(db, ids[1..], view);
      assert forall i :: FailsFirst(db, ids[1..], view, i) ==> FailsFirst(db, ids, view, i + 1);
      r
  }

  predicate FailsFirst(db: Database, ids: seq<Id>, view: TrustView, i: int) {
    && 0 <= i < |ids| && RequirementError(db, ids[i], view).Some?
    && forall j :: 0 <= j < i ==> RequirementError(db, ids[j], view).None?
  }

  lemma RequirementErrors(db: Database, id: Id, view: TrustView)
    ensures RequirementError(db, id, view).None? <==> RequirementMet(db, id, view)
    ensures RequirementError(db, id, view) == Some(CERTIFICATE_NOT_FOUND) <==> !HasCertificate(db, id)
  {
    var c := FindCertificate(db.certificates, id);
    if c.Some? {
      CertificateErrors(c.value, view);
    }
  }

  function CertificateIndex(certificates: seq<Certificate>): (m: map<Id, Certificate>)
    ensures forall id :: id in m <==> FindCertificate(certificates, id).Some?
    ensures forall id :: id in m ==> m[id] == FindCertificate(certificates, id).value
  {
    if certificates == [] then map[]
    else
      CertificateIndex(certificates[..|certificates| - 1])
        [certificates[|certificates| - 1].id := certificates[|certificates| - 1]]
  }

  method CertificateReadiness(db: Database, ids: seq<Id>, view: TrustView) returns (error: Option<ErrorCode>)
    ensures error == FirstError(db, ids, view)
    ensures error.None? <==> forall id :: id in ids ==> RequirementMet(db, id, view)
  {
    forall id ensures RequirementError(db, id, view).None? <==> RequirementMet(db, id, view) {
      RequirementErrors(db, id, view);
    }
    var index: map<Id, Certificate> := map[];
    for i := 0 to |db.certificates|
      invariant index == CertificateIndex(db.certificates[..i])
    {
      assert db.certificates[..i + 1][..i] == db.certificates[..i];
      index := index[db.certificates[i].id := db.certificates[i]];
    }
    assert db.certificates[..|db.certificates|] == db.certificates;
    for i := 0 to |ids|
      invariant FirstError(db, ids, view) == FirstError(db, ids[i..], view)
    {
      assert ids[i..][1..] == ids[i + 1..];
      error := if ids[i] in index then CertificateError(index[ids[i]], view) else Some(CERTIFICATE_NOT_FOUND);
      if error.Some? {
        return;
      }
    }
    error := None;
  }

  /** What the reservation transaction learns about the environment. */
  function EnvironmentError(db: Database, c: Container, view: TrustView): Option<ErrorCode> {
    var r := Resolve(db, c);
    if r.error.Some? then r.error else FirstError(db, r.network.required, view)
  }

  ghost predicate CertificatesReady(db: Database, ids: seq<Id>, view: TrustView) {
    forall id :: id in ids ==> RequirementError(db, id, view).None?
  }

  // ---- launch against readiness ----

  // The proxy the browser will use, and what the caller is told about an unreachable listener.
  datatype Decision = Go(proxy: Option<ProxyProfile>, warning: bool, fallback: bool) | Refuse(error: ErrorCode)

  // The listener was looked for and is not there.
  predicate Unreachable(proxy: Option<ProxyProfile>, reachable: bool) {
    proxy.Some? && proxy.value.healthCheck && !reachable
  }

  method DecideProxy(network: Effective, reachable: bool) returns (d: Decision)
    requires network.viaProxy <==> network.proxy.Some?
    ensures d.Go? <==> LaunchProceeds(network, reachable)
    ensures if !Unreachable(network.proxy, reachable) then d == Go(network.proxy, false, false)
            else match network.proxy.value.unavailableBehavior
                 case Warn => d == Go(network.proxy, true, false)
                 case DirectFallback => d == Go(None, false, true)
                 case Block => d == Refuse(PROXY_LISTENER_UNAVAILABLE)
                 case OtherBehavior(_) => d == Refuse(INVALID_PROXY_PROFILE)
  {
    d := Go(None, false, false);
    if network.viaProxy && network.proxy.Some? {
      var proxy := network.proxy.value;
      d := Go(Some(proxy), false, false);
      if proxy.healthCheck {
        if !reachable {
          match proxy.unavailableBehavior
          case Warn => d := Go(Some(proxy), true, false);
          case Block => d := Refuse(PROXY_LISTENER_UNAVAILABLE);
          case DirectFallback => d := Go(None, false, true);
          case _ => d := Refuse(INVALID_PROXY_PROFILE);
        }
      }
    }
  }

  /** A launch proceeds without a proxy, without a check, with a listener, or where the user accepts its absence. */
  lemma ProceedsExactly(network: Effective, reachable: bool)
    ensures LaunchProceeds(network, reachable) <==>
              network.proxy.Some? && network.proxy.value.healthCheck && !reachable ==>
                network.proxy.value.unavailableBehavior == Warn || network.proxy.value.unavailableBehavior == DirectFallback
  {
  }

  predicate LaunchProceeds(network: Effective, reachable: bool) {
    Unreachable(network.proxy, reachable) ==> network.proxy.value.unavailableBehavior in {Warn, DirectFallback}
  }

  /** Launch gets past its environment: the reservation's checks, then the listener check. */
  ghost predicate LaunchPasses(db: Database, c: Container, view: TrustView, reachable: bool) {
    var r := Resolve(db, c);
    r.error.None? && CertificatesReady(db, r.network.required, view) && LaunchProceeds(r.network, reachable)
  }

  /** get_container_readiness. */
  method Readiness(db: Database, c: Container, view: TrustView, reachable: bool) returns (ready: bool, network: Effective)
    ensures network == Resolve(db, c).network
    ensures ready <==> ReportedReady(db, c, view, reachable)
  {
    var error;
    network, error := ResolveEffectiveEnvironment(db, c);
    if error.Some? {
      return false, network;
    }
    error := CertificateReadiness(db, network.required, view);
    if error.Some? {
      return false, network;
    }
    ready := true;
    if network.proxy.Some? && network.proxy.value.healthCheck {
      if !reachable {
        if network.proxy.value.unavailableBehavior == Block {
          ready := false;
        }
      }
    }
  }

  ghost predicate ReportedReady(db: Database, c: Container, view: TrustView, reachable: bool) {
    var r := Resolve(db, c);
    && r.error.None? && CertificatesReady(db, r.network.required, view)
    && !(Unreachable(r.network.proxy, reachable) && r.network.proxy.value.unavailableBehavior == Block)
  }

  /** Ready means: the environment resolves, every required certificate is ready, and no missing listener blocks. */
  lemma ReadyExactly(db: Database, c: Container, view: TrustView, reachable: bool)
    ensures ReportedReady(db, c, view, reachable) <==>
              var r := Resolve(db, c);
              && r.error.None? && (forall id :: id in r.network.required ==> RequirementMet(db, id, view))
              && (r.network.proxy.Some? && r.network.proxy.value.healthCheck && !reachable ==>
                    r.network.proxy.value.unavailableBehavior != Block)
  {
    forall id ensures RequirementError(db, id, view).None? <==> RequirementMet(db, id, view) {
      RequirementErrors(db, id, view);
    }
  }

  /**
   * For arbitrary file contents the two disagree exactly on a missing listener of a proxy whose
   * stored behaviour is none of the three known ones: readiness accepts it, launch refuses it.
   */
  lemma ReadinessDisagreesExactly(db: Database, c: Container, view: TrustView, reachable: bool)
    ensures LaunchPasses(db, c, view, reachable) ==> ReportedReady(db, c, view, reachable)
    ensures ReportedReady(db, c, view, reachable) ==>
              (!LaunchPasses(db, c, view, reachable) <==>
               Unreachable(Resolve(db, c).network.proxy, reachable)
               && Resolve(db, c).network.proxy.value.unavailableBehavior.OtherBehavior?)
  {
  }

  /** Such a file: a container behind an enabled proxy with an unknown behaviour and no listener. */
  lemma ReadinessCanDisagree(p: ProxyProfile, c: Container, view: TrustView)
    requires p.id != "" && p.enabled && p.healthCheck && p.unavailableBehavior.OtherBehavior? && p.certificateIds == []
    requires c.networkMode == Proxy && c.proxyProfileId == p.id && c.environmentTemplateId == ""
    ensures var db := Database([c], [p], [], [], []);
            RefsWhole(db) && ReportedReady(db, c, view, false) && !LaunchPasses(db, c, view, false)
  {
    var db := Database([c], [p], [], [], []);
    assert FindProxy(db.proxyProfiles, p.id) == Some(p);
    assert p in db.proxyProfiles && HasProxy(db, p.id);
    assert Unique([] + []) == [];
  }

  /** In a reachable database readiness says ready exactly when launch passes its environment checks. */
  lemma ReadinessAgreesWithLaunch(dbs: seq<Database>, ms: seq<Mutation>, i: nat, c: Container, view: TrustView,
                                  reachable: bool)
    requires History(dbs, ms) && i < |dbs| && c in dbs[i].containers
    ensures ReportedReady(dbs[i], c, view, reachable) <==> LaunchPasses(dbs[i], c, view, reachable)
  {
    ReachableDbInv(dbs, ms, i);
    ReadinessDisagreesExactly(dbs[i], c, view, reachable);
    var proxy := Resolve(dbs[i], c).network.proxy;
    assert proxy.Some? ==> proxy.value in dbs[i].proxyProfiles;
  }

  // ---- browser arguments ----

  datatype Route = Socks(protocol: string, host: string, port: int) | Web(scheme: string, host: string, port: int)

  datatype Argument =
    | UserDataDir(path: string) | ProfileDirectory | NewWindow | NoFirstRun | WindowName(caption: string)
    | RemoteDebuggingPort
    | ProxyServer(route: Route) | DisableQuic | ProxyBypassList(rules: seq<string>)
    | Url(url: string)

  function RouteOf(p: ProxyProfile): Route {
    if p.protocol == "socks4" || p.protocol == "socks5" then Socks(p.protocol, p.host, p.port)
    else Web(if p.protocol == "https" then "https" else "http", p.host, p.port)
  }

  /** The browser is pointed at the listener of the profile, with its protocol. */
  lemma RouteLeadsToListener(p: ProxyProfile)
    ensures RouteOf(p).host == p.host && RouteOf(p).port == p.port
    ensures RouteOf(p).Socks? <==> p.protocol in {"socks4", "socks5"}
    ensures RouteOf(p).Socks? ==> RouteOf(p).protocol == p.protocol
    ensures RouteOf(p).Web? ==> RouteOf(p).scheme == (if p.protocol == "https" then "https" else "http")
  {
  }

  function ProxyArguments(proxy: Option<ProxyProfile>): seq<Argument> {
    if proxy.None? then []
    else
      [ProxyServer(RouteOf(proxy.value)), DisableQuic] +
      if proxy.value.bypassRules != [] then [ProxyBypassList(proxy.value.bypassRules)] else []
  }

  function CommandLine(profile: string, caption: string, automation: bool, proxy: Option<ProxyProfile>, url: string)
    : seq<Argument>
  {
    [UserDataDir(profile), ProfileDirectory, NewWindow, NoFirstRun, WindowName(caption)]
    + (if automation then [RemoteDebuggingPort] else [])
    + ProxyArguments(proxy)
    + (if url != "" then [Url(url)] else [])
  }

  method Arguments(profile: string, caption: string, automation: bool, proxy: Option<ProxyProfile>, url: string)
    returns (args: seq<Argument>)
    ensures args == CommandLine(profile, caption, automation, proxy, url)
  {
    args := [UserDataDir(profile), ProfileDirectory, NewWindow, NoFirstRun, WindowName(caption)];
    if automation {
      args := args + [RemoteDebuggingPort];
    }
    if proxy.Some? {
      args := args + [ProxyServer(RouteOf(proxy.value))];
      args := args + [DisableQuic];
      if |proxy.value.bypassRules| > 0 {
        args := args + [ProxyBypassList(proxy.value.bypassRules)];
      }
    }
    if url != "" {
      args := args + [Url(url)];
    }
  }

  lemma ProxyArgumentsMembers(proxy: Option<ProxyProfile>, a: Argument)
    ensures a in ProxyArguments(proxy) <==>
            && proxy.Some?
            && (a == ProxyServer(RouteOf(proxy.value)) || a == DisableQuic
                || (proxy.value.bypassRules != [] && a == ProxyBypassList(proxy.value.bypassRules)))
  {
    if proxy.Some? {
      var args := ProxyArguments(proxy);
      assert args[0] == ProxyServer(RouteOf(proxy.value)) && args[1] == DisableQuic;
      assert proxy.value.bypassRules != [] ==> args[2] == ProxyBypassList(proxy.value.bypassRules);
    }
  }

  /** Proxy, QUIC, bypass and debugging arguments are there exactly when asked for, and with nothing else's values. */
  lemma CommandLineMembers(profile: string, caption: string, automation: bool, proxy: Option<ProxyProfile>, url: string,
                           a: Argument)
    ensures a in CommandLine(profile, caption, automation, proxy, url) <==>
            match a
            case UserDataDir(path) => path == profile
            case WindowName(c) => c == caption
            case RemoteDebuggingPort => automation
            case ProxyServer(route) => proxy.Some? && route == RouteOf(proxy.value)
            case DisableQuic => proxy.Some?
            case ProxyBypassList(rules) => proxy.Some? && rules != [] && rules == proxy.value.bypassRules
            case Url(u) => u != "" && u == url
            case _ => true
  {
    var base := [UserDataDir(profile), ProfileDirectory, NewWindow, NoFirstRun, WindowName(caption)];
    assert base[0] == UserDataDir(profile) && base[1] == ProfileDirectory && base[2] == NewWindow
           && base[3] == NoFirstRun && base[4] == WindowName(caption);
    ProxyArgumentsMembers(proxy, a);
  }

  /** The page to open comes last, and no argument is there twice. */
  lemma CommandLineOrder(profile: string, caption: string, automation: bool, proxy: Option<ProxyProfile>, url: string)
    ensures var args := CommandLine(profile, caption, automation, proxy, url);
            && |args| >= 5 && args[0] == UserDataDir(profile)
            && (url != "" ==> args[|args| - 1] == Url(url))
            && forall i, j :: 0 <= i < j < |args| ==> args[i] != args[j]
  {
  }

  datatype Prepared = Prepared(arguments: seq<Argument>, warning: bool, fallback: bool)

  /**
   * From the resolved environment to the command line: the browser is routed through the
   * resolved proxy unless the environment is direct or the direct fallback is reported.
   */
  method PrepareBrowser(network: Effective, reachable: bool, profile: string, caption: string, automation: bool, url: string)
    returns (r: Result<Prepared, ErrorCode>)
    requires network.viaProxy <==> network.proxy.Some?
    ensures r.Ok? <==> LaunchProceeds(network, reachable)
    ensures r.Ok? ==> ServesNetwork(r.value, network, reachable, profile, caption, automation, url)
    ensures r.Err? ==> && Unreachable(network.proxy, reachable)
                       && r.error == if network.proxy.value.unavailableBehavior == Block
                                     then PROXY_LISTENER_UNAVAILABLE else INVALID_PROXY_PROFILE
  {
    var d := DecideProxy(network, reachable);
    if d.Refuse? {
      return Err(d.error);
    }
    var args := Arguments(profile, caption, automation, d.proxy, url);
    forall a {
      CommandLineMembers(profile, caption, automation, d.proxy, url, a);
    }
    r := Ok(Prepared(args, d.warning, d.fallback));
  }

  // The routing arguments are those of the resolved proxy; a fallback or a warning has its reason.
  ghost predicate ServesNetwork(p: Prepared, network: Effective, reachable: bool, profile: string, caption: string,
                                automation: bool, url: string)
  {
    && (p.fallback <==> Unreachable(network.proxy, reachable)
                        && network.proxy.value.unavailableBehavior == DirectFallback)
    && (p.warning <==> Unreachable(network.proxy, reachable) && network.proxy.value.unavailableBehavior == Warn)
    && p.arguments == CommandLine(profile, caption, automation, if p.fallback then None else network.proxy, url)
    && (DisableQuic in p.arguments <==> network.viaProxy && !p.fallback)
    && (forall route :: ProxyServer(route) in p.arguments <==>
                          network.viaProxy && !p.fallback && network.proxy.Some? && route == RouteOf(network.proxy.value))
  }
}
