/** Effective environment of a container: which proxy it uses and which certificates it requires. */
module Environment {
  import opened Prelude
  import opened Records

  // ---- duplicate-free lists ----

  /** The nonempty values in order of first occurrence. */
  function Unique(s: seq<Id>): (r: seq<Id>)
    ensures forall x :: x in r <==> x in s && x != ""
    ensures forall i, j :: 0 <= i < j < |r| ==> r[i] != r[j]
  {
    if s == [] then []
    else
      var x := s[|s| - 1];
      var r := Unique(s[..|s| - 1]);
      assert s == s[..|s| - 1] + [x];
      if x == "" || x in r then r else r + [x]
  }

  lemma {:induction false} UniqueAbsorbs(a: seq<Id>, b: seq<Id>)
    ensures Unique(Unique(a) + b) == Unique(a + b)
    decreases |b|
  {
    if b == [] {
      assert a + b == a && Unique(a) + b == Unique(a);
      UniqueIdempotent(a);
    } else {
      var c := b[..|b| - 1];
      UniqueAbsorbs(a, c);
      assert (Unique(a) + b)[..|Unique(a) + b| - 1] == Unique(a) + c;
      assert (a + b)[..|a + b| - 1] == a + c;
    }
  }

  lemma {:induction false} UniqueIdempotent(a: seq<Id>)
    ensures Unique(Unique(a)) == Unique(a)
    decreases |a|
  {
    if a != [] {
      var front := a[..|a| - 1];
      UniqueIdempotent(front);
      var r := Unique(front);
      if Unique(a) != r {
        assert Unique(a)[..|Unique(a)| - 1] == r;
      }
    }
  }

  // The position at which a value first occurs.
  function First(s: seq<Id>, x: Id): (k: nat)
    requires x in s
    ensures k < |s| && s[k] == x && forall i :: 0 <= i < k ==> s[i] != x
  {
    if s[0] == x then 0 else 1 + First(s[1..], x)
  }

  /** Values keep the order in which they first occurred. */
  lemma {:induction false} UniqueKeepsOrder(s: seq<Id>, i: nat, j: nat)
    requires i < j < |Unique(s)|
    ensures First(s, Unique(s)[i]) < First(s, Unique(s)[j])
    decreases |s|
  {
    var front, x := s[..|s| - 1], s[|s| - 1];
    assert s == front + [x];
    var r := Unique(front);
    if j < |r| {
      UniqueKeepsOrder(front, i, j);
      FirstInFront(front, x, r[i]);
      FirstInFront(front, x, r[j]);
    } else {
      FirstInFront(front, x, r[i]);
    }
  }

  lemma FirstInFront(front: seq<Id>, x: Id, y: Id)
    requires y in front
    ensures First(front + [x], y) == First(front, y)
  {
    var k := First(front, y);
    assert (front + [x])[k] == y;
    assert forall i :: 0 <= i < k ==> (front + [x])[i] != y;
  }

  // One of the two loops of appendUnique: the values not seen so far are added at the end.
  method AddNew(result: seq<Id>, seen: set<Id>, values: seq<Id>) returns (extended: seq<Id>, all: set<Id>)
    requires seen == set x | x in result
    ensures extended == Extended(result, values) && all == set x | x in extended
  {
    extended, all := result, seen;
    for i := 0 to |values|
      invariant extended == Extended(result, values[..i]) && all == set x | x in extended
    {
      assert values[..i + 1][..i] == values[..i];
      if values[i] != "" && values[i] !in all {
        all := all + {values[i]};
        extended := extended + [values[i]];
      }
    }
    assert values[..|values|] == values;
  }

  function Extended(result: seq<Id>, values: seq<Id>): seq<Id> {
    if values == [] then result
    else
      var front, x := Extended(result, values[..|values| - 1]), values[|values| - 1];
      if x == "" || x in front then front else front + [x]
  }

  lemma {:induction false} ExtendedIsUnique(values: seq<Id>, additions: seq<Id>)
    ensures Extended(Unique(values), additions) == Unique(values + additions)
    decreases |additions|
  {
    if additions == [] {
      assert values + additions == values;
    } else {
      var front := additions[..|additions| - 1];
      ExtendedIsUnique(values, front);
      assert (values + additions)[..|values + additions| - 1] == values + front;
    }
  }

  method AppendUnique(values: seq<Id>, additions: seq<Id>) returns (result: seq<Id>)
    ensures result == Unique(values + additions)
  {
    var seen: set<Id>;
    result, seen := AddNew([], {}, values);
    assert [] + values == values;
    ExtendedIsUnique([], values);
    result, seen := AddNew(result, seen, additions);
    ExtendedIsUnique(values, additions);
  }

  // ---- lookups ----

  predicate FirstTemplateAt(templates: seq<EnvironmentTemplate>, id: Id, i: int) {
    0 <= i < |templates| && templates[i].id == id && forall j :: 0 <= j < i ==> templates[j].id != id
  }

  predicate LastProxyAt(proxies: seq<ProxyProfile>, id: Id, i: int) {
    0 <= i < |proxies| && proxies[i].id == id && forall j :: i < j < |proxies| ==> proxies[j].id != id
  }

  /** The first template with this ID. */
  function FindTemplate(templates: seq<EnvironmentTemplate>, id: Id): (r: Option<EnvironmentTemplate>)
    ensures r.Some? ==> r.value in templates && r.value.id == id
    ensures r.Some? ==> exists i :: FirstTemplateAt(templates, id, i) && r.value == templates[i]
    ensures r.None? ==> forall t :: t in templates ==> t.id != id
  {
    if templates == [] then None
    else if templates[0].id == id then
      assert FirstTemplateAt(templates, id, 0);
      Some(templates[0])
    else
      var r := FindTemplate(templates[1..], id);
      assert forall i :: FirstTemplateAt(templates[1..], id, i) ==> FirstTemplateAt(templates, id, i + 1);
      r
  }

  /** The last proxy with this ID: later entries overwrite earlier ones in the lookup map. */
  function FindProxy(proxies: seq<ProxyProfile>, id: Id): (r: Option<ProxyProfile>)
    ensures r.Some? ==> r.value in proxies && r.value.id == id
    ensures r.Some? ==> exists i :: LastProxyAt(proxies, id, i) && r.value == proxies[i]
    ensures r.None? ==> forall p :: p in proxies ==> p.id != id
  {
    if proxies == [] then None
    else
      var last := proxies[|proxies| - 1];
      assert proxies == proxies[..|proxies| - 1] + [last];
      if last.id == id then
        assert LastProxyAt(proxies, id, |proxies| - 1);
        Some(last)
      else
        var r := FindProxy(proxies[..|proxies| - 1], id);
        assert forall i :: LastProxyAt(proxies[..|proxies| - 1], id, i) ==> LastProxyAt(proxies, id, i);
        r
  }

  // ---- resolution ----

  datatype Effective = Effective(
    requested: NetworkMode,
    viaProxy: bool,
    templateId: Id,
    required: seq<Id>,
    proxy: Option<ProxyProfile>)

  // What was resolved so far is reported together with the error.
  datatype Resolution = Resolution(network: Effective, error: Option<ErrorCode>)

  function Requested(c: Container): NetworkMode {
    if c.networkMode == NoMode then Direct else c.networkMode
  }

  // The proxy the mode selects: none, a proxy ID, or a configuration error.
  function ProxyChoice(c: Container, template: Option<EnvironmentTemplate>): Result<Id, ErrorCode> {
    match Requested(c)
    case Direct =>
      if c.proxyProfileId != "" || c.environmentTemplateId != "" then Err(INVALID_NETWORK_CONFIGURATION) else Ok("")
    case Template =>
      if template.None? then Err(ENVIRONMENT_TEMPLATE_NOT_FOUND)
      else if c.proxyProfileId != "" then Err(INVALID_NETWORK_CONFIGURATION)
      else Ok(template.value.proxyProfileId)
    case Proxy => if c.proxyProfileId == "" then Err(INVALID_NETWORK_CONFIGURATION) else Ok(c.proxyProfileId)
    case _ => Err(INVALID_NETWORK_MODE)
  }

  predicate HasCertificate(db: Database, id: Id) {
    exists c :: c in db.certificates && c.id == id
  }

  predicate CertificatesStored(db: Database, ids: seq<Id>) {
    forall id :: id in ids ==> HasCertificate(db, id)
  }

  function WithProxy(e: Effective, proxy: ProxyProfile): Effective {
    e.(viaProxy := true, proxy := Some(proxy), required := Unique(e.required + proxy.certificateIds))
  }

  function Resolve(db: Database, c: Container): Resolution {
    var template := if c.environmentTemplateId != "" then FindTemplate(db.templates, c.environmentTemplateId) else None;
    var plain := Effective(Requested(c), false, "", [], None);
    if c.environmentTemplateId != "" && template.None? then Resolution(plain, Some(ENVIRONMENT_TEMPLATE_NOT_FOUND))
    else
      var base := if template.Some?
                  then plain.(templateId := template.value.id, required := Unique(template.value.certificateIds))
                  else plain;
      var choice := ProxyChoice(c, template);
      if choice.Err? then Resolution(base, Some(choice.error))
      else
        var proxy := FindProxy(db.proxyProfiles, choice.value);
        if choice.value != "" && proxy.None? then Resolution(base, Some(PROXY_PROFILE_NOT_FOUND))
        else if choice.value != "" && !proxy.value.enabled then Resolution(base, Some(PROXY_PROFILE_DISABLED))
        else
          var network := if choice.value != "" then WithProxy(base, proxy.value) else base;
          Resolution(network, if CertificatesStored(db, network.required) then None else Some(CERTIFICATE_NOT_FOUND))
  }

  // ---- what a resolved environment means ----

  predicate GoesThrough(e: Effective, id: Id) {
    e.viaProxy && e.proxy.Some? && e.proxy.value.id == id
  }

  predicate GoesDirect(e: Effective) {
    !e.viaProxy && e.proxy.None?
  }

  /** The container's mode decides where its browser goes: nowhere else than the user said. */
  predicate RoutedByMode(db: Database, c: Container, e: Effective) {
    match c.networkMode
    case Template =>
      var t := FindTemplate(db.templates, c.environmentTemplateId);
      && c.environmentTemplateId != "" && c.proxyProfileId == "" && t.Some? && e.requested == Template
      && if t.value.proxyProfileId == "" then GoesDirect(e) else GoesThrough(e, t.value.proxyProfileId)
    case Proxy => c.proxyProfileId != "" && GoesThrough(e, c.proxyProfileId) && e.requested == Proxy
    case OtherMode(_) => false
    case _ => c.proxyProfileId == "" && c.environmentTemplateId == "" && GoesDirect(e) && e.requested == Direct
  }

  // The proxy is the stored one, and enabled; its certificates and the template's are required.
  predicate RequiresAll(db: Database, c: Container, e: Effective) {
    && (e.proxy.Some? ==> && FindProxy(db.proxyProfiles, e.proxy.value.id) == e.proxy && e.proxy.value.enabled
                          && forall id :: id in e.proxy.value.certificateIds && id != "" ==> id in e.required)
    && (c.environmentTemplateId == "" ==> e.templateId == "")
    && (c.environmentTemplateId != "" ==>
          var t := FindTemplate(db.templates, c.environmentTemplateId);
          t.Some? && e.templateId == t.value.id && forall id :: id in t.value.certificateIds && id != "" ==> id in e.required)
    && CertificatesStored(db, e.required)
  }

  lemma ResolvedRequiresAll(db: Database, c: Container)
    requires Resolve(db, c).error.None?
    ensures RequiresAll(db, c, Resolve(db, c).network)
  {
    RequiredCertificates(db, c);
  }

  /** Every successful resolution routes by the mode and requires the certificates that go with it. */
  lemma ResolvedByMode(db: Database, c: Container)
    requires Resolve(db, c).error.None?
    ensures RoutedByMode(db, c, Resolve(db, c).network) && RequiresAll(db, c, Resolve(db, c).network)
  {
    ResolvedRequiresAll(db, c);
  }

  // ---- which error a resolution reports ----

  // The template the container names is missing, or it names none and needs one.
  predicate LacksTemplate(db: Database, c: Container) {
    if c.environmentTemplateId == "" then c.networkMode == Template
    else FindTemplate(db.templates, c.environmentTemplateId).None?
  }

  // References that do not go with the mode.
  predicate Misconfigured(c: Container) {
    match c.networkMode
    case Template => c.proxyProfileId != ""
    case Proxy => c.proxyProfileId == ""
    case OtherMode(_) => false
    case _ => c.proxyProfileId != "" || c.environmentTemplateId != ""
  }

  /** The proxy the mode selects, "" for none. */
  function SelectedProxy(db: Database, c: Container): Id {
    if c.networkMode == Proxy then c.proxyProfileId
    else
      var t := FindTemplate(db.templates, c.environmentTemplateId);
      if c.networkMode == Template && c.environmentTemplateId != "" && t.Some? then t.value.proxyProfileId else ""
  }

  // Up to the choice of the proxy all is well.
  predicate Chooses(db: Database, c: Container) {
    !LacksTemplate(db, c) && !Misconfigured(c) && !c.networkMode.OtherMode?
  }

  /** Each error has its cause, and the earlier ones win. */
  lemma ResolutionErrors(db: Database, c: Container)
    ensures var error, proxy := Resolve(db, c).error, FindProxy(db.proxyProfiles, SelectedProxy(db, c));
            && (error == Some(ENVIRONMENT_TEMPLATE_NOT_FOUND) <==> LacksTemplate(db, c))
            && (error == Some(INVALID_NETWORK_CONFIGURATION) <==> !LacksTemplate(db, c) && Misconfigured(c))
            && (error == Some(INVALID_NETWORK_MODE) <==> !LacksTemplate(db, c) && c.networkMode.OtherMode?)
            && (error == Some(PROXY_PROFILE_NOT_FOUND) <==>
                  Chooses(db, c) && SelectedProxy(db, c) != "" && proxy.None?)
            && (error == Some(PROXY_PROFILE_DISABLED) <==>
                  Chooses(db, c) && SelectedProxy(db, c) != "" && proxy.Some? && !proxy.value.enabled)
            && (error.Some? ==> error.value in {ENVIRONMENT_TEMPLATE_NOT_FOUND, INVALID_NETWORK_CONFIGURATION,
                                                INVALID_NETWORK_MODE, PROXY_PROFILE_NOT_FOUND, PROXY_PROFILE_DISABLED,
                                                CERTIFICATE_NOT_FOUND})
  {
  }

  /** A missing certificate is reported exactly when one that is required is not stored and nothing else is wrong. */
  lemma MissingCertificateReported(db: Database, c: Container)
    ensures var r := Resolve(db, c); var proxy := FindProxy(db.proxyProfiles, SelectedProxy(db, c));
            r.error == Some(CERTIFICATE_NOT_FOUND) <==>
              && Chooses(db, c) && (SelectedProxy(db, c) != "" ==> proxy.Some? && proxy.value.enabled)
              && exists id :: id in r.network.required && !HasCertificate(db, id)
  {
    ResolutionErrors(db, c);
  }

  // ---- the loops of the native host ----

  function ProxyIndex(proxies: seq<ProxyProfile>): (m: map<Id, ProxyProfile>)
    ensures forall id :: id in m <==> FindProxy(proxies, id).Some?
    ensures forall id :: id in m ==> m[id] == FindProxy(proxies, id).value
  {
    if proxies == [] then map[]
    else ProxyIndex(proxies[..|proxies| - 1])[proxies[|proxies| - 1].id := proxies[|proxies| - 1]]
  }

  method IndexProxies(proxies: seq<ProxyProfile>) returns (index: map<Id, ProxyProfile>)
    ensures forall id :: id in index <==> FindProxy(proxies, id).Some?
    ensures forall id :: id in index ==> index[id] == FindProxy(proxies, id).value
  {
    index := map[];
    for i := 0 to |proxies|
      invariant index == ProxyIndex(proxies[..i])
    {
      assert proxies[..i + 1][..i] == proxies[..i];
      index := index[proxies[i].id := proxies[i]];
    }
    assert proxies[..|proxies|] == proxies;
  }

  method CertificateIds(certificates: seq<Certificate>) returns (ids: set<Id>)
    ensures ids == set c | c in certificates :: c.id
  {
    ids := {};
    for i := 0 to |certificates|
      invariant ids == set c | c in certificates[..i] :: c.id
    {
      assert certificates[..i + 1] == certificates[..i] + [certificates[i]];
      ids := ids + {certificates[i].id};
    }
    assert certificates[..|certificates|] == certificates;
  }

  method FirstTemplate(templates: seq<EnvironmentTemplate>, id: Id) returns (found: Option<EnvironmentTemplate>)
    ensures found == FindTemplate(templates, id)
  {
    for i := 0 to |templates|
      invariant FindTemplate(templates, id) == FindTemplate(templates[i..], id)
    {
      assert templates[i..][1..] == templates[i + 1..];
      if templates[i].id == id {
        return Some(templates[i]);
      }
    }
    found := None;
  }

  method ChooseProxy(c: Container, template: Option<EnvironmentTemplate>) returns (r: Result<Id, ErrorCode>)
    ensures r == ProxyChoice(c, template)
  {
    match Requested(c) {
      case Direct =>
        if c.proxyProfileId != "" || c.environmentTemplateId != "" {
          return Err(INVALID_NETWORK_CONFIGURATION);
        }
        r := Ok("");
      case Template =>
        if template.None? {
          return Err(ENVIRONMENT_TEMPLATE_NOT_FOUND);
        }
        if c.proxyProfileId != "" {
          return Err(INVALID_NETWORK_CONFIGURATION);
        }
        r := Ok(template.value.proxyProfileId);
      case Proxy =>
        if c.proxyProfileId == "" {
          return Err(INVALID_NETWORK_CONFIGURATION);
        }
        r := Ok(c.proxyProfileId);
      case _ =>
        r := Err(INVALID_NETWORK_MODE);
    }
  }

  method AllStored(db: Database, ids: seq<Id>, certificates: set<Id>) returns (stored: bool)
    requires certificates == set c | c in db.certificates :: c.id
    ensures stored <==> CertificatesStored(db, ids)
  {
    for i := 0 to |ids|
      invariant forall k :: 0 <= k < i ==> ids[k] in certificates
    {
      if ids[i] !in certificates {
        assert ids[i] in ids && !HasCertificate(db, ids[i]);
        return false;
      }
    }
    assert forall id :: id in ids ==> id in certificates && HasCertificate(db, id);
    stored := true;
  }

  method ResolveEffectiveEnvironment(db: Database, c: Container) returns (network: Effective, error: Option<ErrorCode>)
    ensures Resolution(network, error) == Resolve(db, c)
    ensures error.None? ==> RoutedByMode(db, c, network) && RequiresAll(db, c, network)
  {
    network := Effective(Requested(c), false, "", [], None);
    var proxies := IndexProxies(db.proxyProfiles);
    var certificates := CertificateIds(db.certificates);
    var template: Option<EnvironmentTemplate> := None;
    if c.environmentTemplateId != "" {
      template := FirstTemplate(db.templates, c.environmentTemplateId);
      if template.None? {
        return network, Some(ENVIRONMENT_TEMPLATE_NOT_FOUND);
      }
      var required := AppendUnique(network.required, template.value.certificateIds);
      assert network.required + template.value.certificateIds == template.value.certificateIds;
      network := network.(templateId := template.value.id, required := required);
    }
    var choice := ChooseProxy(c, template);
    if choice.Err? {
      return network, Some(choice.error);
    }
    var selected := choice.value;
    if selected != "" {
      if selected !in proxies {
        return network, Some(PROXY_PROFILE_NOT_FOUND);
      }
      var proxy := proxies[selected];
      if !proxy.enabled {
        return network, Some(PROXY_PROFILE_DISABLED);
      }
      var required := AppendUnique(network.required, proxy.certificateIds);
      network := network.(viaProxy := true, proxy := Some(proxy), required := required);
    }
    var stored := AllStored(db, network.required, certificates);
    error := if stored then None else Some(CERTIFICATE_NOT_FOUND);
    if stored {
      ResolvedByMode(db, c);
    }
  }

  /** The list is the union of the template's and then the chosen proxy's lists, in order of first occurrence. */
  lemma RequiredCertificates(db: Database, c: Container)
    requires Resolve(db, c).error.None?
    ensures var e := Resolve(db, c).network;
            var template := if c.environmentTemplateId != ""
                            then FindTemplate(db.templates, c.environmentTemplateId) else None;
            e.required == Unique((if template.Some? then template.value.certificateIds else []) +
                                 (if e.viaProxy then e.proxy.value.certificateIds else []))
  {
    var template := if c.environmentTemplateId != "" then FindTemplate(db.templates, c.environmentTemplateId) else None;
    var listed := if template.Some? then template.value.certificateIds else [];
    var e := Resolve(db, c).network;
    if e.viaProxy {
      UniqueAbsorbs(listed, e.proxy.value.certificateIds);
    } else {
      assert listed + [] == listed;
    }
  }
}
