/** Proxy profile and environment template commands, loop by loop. */
module ReferenceHandlers {
  import opened Prelude
  import opened Records
  import opened Environment
  import opened References
  import opened ReferenceSafety
  import opened ReferenceSpec
  import opened Transactions
  import opened MetadataFile

  /** The rules come in trimmed; empty ones are dropped, and repeated or oversized ones are refused. */
  method CleanRules(rules: seq<string>) returns (r: Option<seq<string>>)
    ensures r.Some? <==> RulesAllowed(rules)
    ensures r.Some? ==> r.value == NonEmpty(rules)
  {
    if |rules| > MAX_BYPASS_RULES {
      return None;
    }
    var seen: set<string> := {};
    var total := 0;
    var clean: seq<string> := [];
    for i := 0 to |rules|
      invariant clean == NonEmpty(rules[..i]) && RulesAllowed(rules[..i])
      invariant total == TotalLength(rules[..i]) && forall x :: x in seen <==> x in rules[..i] && x != ""
    {
      var rule := rules[i];
      assert rules[..i + 1] == rules[..i] + [rule];
      OneRuleMore(rules[..i], rule);
      if RulesAllowed(rules) {
        PrefixIsAllowed(rules, i + 1);
      }
      if rule == "" {
        continue;
      }
      if |rule| > MAX_BYPASS_RULE_LENGTH {
        return None;
      }
      if rule in seen {
        return None;
      }
      seen := seen + {rule};
      total := total + |rule|;
      if total > MAX_BYPASS_RULES_LENGTH {
        return None;
      }
      clean := clean + [rule];
    }
    assert rules[..|rules|] == rules;
    r := Some(clean);
  }

  /** Accepts a certificate list without repeated or empty IDs. */
  method ListsEachOnce(ids: seq<Id>) returns (ok: bool)
    ensures ok <==> "" !in ids && !Repeats(ids)
  {
    var seen: set<Id> := {};
    for i := 0 to |ids|
      invariant seen == set x | x in ids[..i]
      invariant "" !in ids[..i] && forall j, k :: 0 <= j < k < i ==> ids[j] != ids[k]
    {
      if ids[i] == "" {
        return false;
      }
      if ids[i] in seen {
        return false;
      }
      seen := seen + {ids[i]};
      assert ids[..i + 1] == ids[..i] + [ids[i]];
    }
    assert ids[..|ids|] == ids;
    ok := true;
  }

  method ValidateProxyInput(p: ProxyProfile) returns (r: Option<ProxyProfile>)
    ensures r.Some? <==> ProxyAllowed(p)
    ensures r.Some? ==> r.value == p.(bypassRules := NonEmpty(p.bypassRules))
  {
    if p.protocol != "http" && p.protocol != "https" && p.protocol != "socks4" && p.protocol != "socks5" {
      return None;
    }
    if p.port < 1 || p.port > 65535 {
      return None;
    }
    if p.unavailableBehavior != Warn && p.unavailableBehavior != Block && p.unavailableBehavior != DirectFallback {
      return None;
    }
    var rules := CleanRules(p.bypassRules);
    if rules.None? {
      return None;
    }
    var once := ListsEachOnce(p.certificateIds);
    if !once {
      return None;
    }
    r := Some(p.(bypassRules := rules.value));
  }

  method CertificateIdsExist(db: Database, ids: seq<Id>) returns (ok: bool)
    ensures ok <==> CertificatesStored(db, ids)
  {
    var certificates := CertificateIds(db.certificates);
    ok := AllStored(db, ids, certificates);
  }

  method ProxyPosition(proxies: seq<ProxyProfile>, id: Id) returns (at: int)
    ensures at == ProxyAt(proxies, id)
    ensures at == -1 ==> forall p :: p in proxies ==> p.id != id
  {
    for i := 0 to |proxies|
      invariant forall k :: 0 <= k < i ==> proxies[k].id != id
    {
      if proxies[i].id == id {
        return i;
      }
    }
    at := -1;
  }

  method TemplatePosition(templates: seq<EnvironmentTemplate>, id: Id) returns (at: int)
    ensures at == TemplateAt(templates, id)
    ensures at == -1 ==> forall t :: t in templates ==> t.id != id
  {
    for i := 0 to |templates|
      invariant forall k :: 0 <= k < i ==> templates[k].id != id
    {
      if templates[i].id == id {
        return i;
      }
    }
    at := -1;
  }

  method CreateProxyProfile(store: Store, id: Id, input: ProxyProfile) returns (r: Result<ProxyProfile, ErrorCode>)
    requires !HasProxy(store.file, id)
    modifies store
    ensures store.file == After(CreateProxyIn(old(store.file), id, input), old(store.file))
    ensures r == if !ProxyAllowed(input) then Err(INVALID_PROXY_PROFILE)
                 else if !CertificatesStored(old(store.file), input.certificateIds) then Err(CERTIFICATE_NOT_FOUND)
                 else Ok(input.(id := id, bypassRules := NonEmpty(input.bypassRules)))
    ensures r.Ok? ==> Mutates(old(store.file), AddProxy(r.value), store.file)
    ensures r.Err? ==> store.file == old(store.file)
    ensures old(DbInv(store.file)) ==> DbInv(store.file)
  {
    var valid := ValidateProxyInput(input);
    if valid.None? {
      return Err(INVALID_PROXY_PROFILE);
    }
    var proxy := valid.value.(id := id);
    var db := store.file;
    var exist := CertificateIdsExist(db, proxy.certificateIds);
    if !exist {
      return Err(CERTIFICATE_NOT_FOUND);
    }
    store.file := db.(proxyProfiles := db.proxyProfiles + [proxy]);
    if DbInv(db) {
      MutationKeepsInv(db, AddProxy(proxy), store.file);
    }
    r := Ok(proxy);
  }

  method UpdateProxyProfile(store: Store, input: ProxyProfile) returns (r: Result<ProxyProfile, ErrorCode>)
    modifies store
    ensures store.file == After(UpdateProxyIn(old(store.file), input), old(store.file))
    ensures r == if !ProxyAllowed(input) then Err(INVALID_PROXY_PROFILE)
                 else if !CertificatesStored(old(store.file), input.certificateIds) then Err(CERTIFICATE_NOT_FOUND)
                 else if !HasProxy(old(store.file), input.id) then Err(NOT_FOUND)
                 else Ok(input.(bypassRules := NonEmpty(input.bypassRules)))
    ensures r.Ok? ==> exists i: nat :: Mutates(old(store.file), ReplaceProxy(i, r.value), store.file)
    ensures r.Err? ==> store.file == old(store.file)
    ensures old(DbInv(store.file)) ==> DbInv(store.file)
  {
    var valid := ValidateProxyInput(input);
    if valid.None? {
      return Err(INVALID_PROXY_PROFILE);
    }
    var proxy := valid.value;
    var db := store.file;
    var exist := CertificateIdsExist(db, proxy.certificateIds);
    if !exist {
      return Err(CERTIFICATE_NOT_FOUND);
    }
    var i := ProxyPosition(db.proxyProfiles, proxy.id);
    if i == -1 {
      return Err(NOT_FOUND);
    }
    store.file := db.(proxyProfiles := db.proxyProfiles[i := proxy]);
    assert Mutates(db, ReplaceProxy(i, proxy), store.file);
    if DbInv(db) {
      MutationKeepsInv(db, ReplaceProxy(i, proxy), store.file);
    }
    r := Ok(proxy);
  }

  method ProxyInUse(db: Database, id: Id) returns (used: bool)
    ensures used <==> ProxyUsed(db, id)
  {
    for i := 0 to |db.containers|
      invariant forall k :: 0 <= k < i ==> db.containers[k].proxyProfileId != id
    {
      if db.containers[i].proxyProfileId == id {
        return true;
      }
    }
    for i := 0 to |db.templates|
      invariant forall k :: 0 <= k < i ==> db.templates[k].proxyProfileId != id
    {
      if db.templates[i].proxyProfileId == id {
        return true;
      }
    }
    used := false;
  }

  method DeleteProxyProfile(store: Store, id: Id) returns (r: Option<ErrorCode>)
    modifies store
    ensures store.file == After(DeleteProxyIn(old(store.file), id), old(store.file))
    ensures r == if !HasProxy(old(store.file), id) then Some(NOT_FOUND)
                 else if ProxyUsed(old(store.file), id) then Some(PROXY_REFERENCE_IN_USE) else None
    ensures r.Some? ==> store.file == old(store.file)
    ensures r.None? ==> exists i: nat :: Mutates(old(store.file), DropProxy(i), store.file)
                                         && old(store.file).proxyProfiles[i].id == id
    ensures old(DbInv(store.file)) ==> DbInv(store.file) && (r.None? ==> !HasProxy(store.file, id))
  {
    var db := store.file;
    var i := ProxyPosition(db.proxyProfiles, id);
    if i == -1 {
      return Some(NOT_FOUND);
    }
    var used := ProxyInUse(db, id);
    if used {
      return Some(PROXY_REFERENCE_IN_USE);
    }
    store.file := db.(proxyProfiles := RemoveAt(db.proxyProfiles, i));
    assert Mutates(db, DropProxy(i), store.file);
    if DbInv(db) {
      MutationKeepsInv(db, DropProxy(i), store.file);
    }
    r := None;
  }

  method ValidateTemplateInput(t: EnvironmentTemplate) returns (ok: bool)
    ensures ok <==> TemplateAllowed(t)
  {
    if |t.certificateIds| > MAX_TEMPLATE_CERTIFICATES {
      return false;
    }
    ok := ListsEachOnce(t.certificateIds);
  }

  method TemplateReferencesExist(db: Database, t: EnvironmentTemplate) returns (error: Option<ErrorCode>)
    ensures error == TemplateError(db, t)
  {
    if t.proxyProfileId != "" {
      var at := ProxyPosition(db.proxyProfiles, t.proxyProfileId);
      if at == -1 {
        return Some(PROXY_PROFILE_NOT_FOUND);
      }
      assert db.proxyProfiles[at] in db.proxyProfiles;
    }
    var exist := CertificateIdsExist(db, t.certificateIds);
    error := if exist then None else Some(CERTIFICATE_NOT_FOUND);
  }

  method CreateEnvironmentTemplate(store: Store, id: Id, input: EnvironmentTemplate) returns (r: Option<ErrorCode>)
    requires !HasTemplate(store.file, id)
    modifies store
    ensures store.file == After(CreateTemplateIn(old(store.file), id, input), old(store.file))
    ensures r == if !TemplateAllowed(input) then Some(INVALID_TEMPLATE) else TemplateError(old(store.file), input)
    ensures r.None? ==> Mutates(old(store.file), AddTemplate(input.(id := id)), store.file)
    ensures r.Some? ==> store.file == old(store.file)
    ensures old(DbInv(store.file)) ==> DbInv(store.file)
  {
    var valid := ValidateTemplateInput(input);
    if !valid {
      return Some(INVALID_TEMPLATE);
    }
    var db := store.file;
    var template := input.(id := id);
    r := TemplateReferencesExist(db, template);
    if r.None? {
      store.file := db.(templates := db.templates + [template]);
      if DbInv(db) {
        MutationKeepsInv(db, AddTemplate(template), store.file);
      }
    }
  }

  method UpdateEnvironmentTemplate(store: Store, input: EnvironmentTemplate) returns (r: Option<ErrorCode>)
    modifies store
    ensures store.file == After(UpdateTemplateIn(old(store.file), input), old(store.file))
    ensures r == if !TemplateAllowed(input) then Some(INVALID_TEMPLATE)
                 else if TemplateError(old(store.file), input).Some? then TemplateError(old(store.file), input)
                 else if !HasTemplate(old(store.file), input.id) then Some(NOT_FOUND) else None
    ensures r.None? ==> exists i: nat :: Mutates(old(store.file), ReplaceTemplate(i, input), store.file)
    ensures r.Some? ==> store.file == old(store.file)
    ensures old(DbInv(store.file)) ==> DbInv(store.file)
  {
    var valid := ValidateTemplateInput(input);
    if !valid {
      return Some(INVALID_TEMPLATE);
    }
    var db := store.file;
    r := TemplateReferencesExist(db, input);
    if r.Some? {
      return;
    }
    var i := TemplatePosition(db.templates, input.id);
    if i == -1 {
      return Some(NOT_FOUND);
    }
    store.file := db.(templates := db.templates[i := input]);
    assert Mutates(db, ReplaceTemplate(i, input), store.file);
    if DbInv(db) {
      MutationKeepsInv(db, ReplaceTemplate(i, input), store.file);
    }
  }

  method DeleteEnvironmentTemplate(store: Store, id: Id) returns (r: Option<ErrorCode>)
    modifies store
    ensures store.file == After(DeleteTemplateIn(old(store.file), id), old(store.file))
    ensures r == if !HasTemplate(old(store.file), id) then Some(NOT_FOUND)
                 else if TemplateUsed(old(store.file), id) then Some(TEMPLATE_REFERENCE_IN_USE) else None
    ensures r.Some? ==> store.file == old(store.file)
    ensures r.None? ==> exists i: nat :: Mutates(old(store.file), DropTemplate(i), store.file)
                                         && old(store.file).templates[i].id == id
    ensures old(DbInv(store.file)) ==> DbInv(store.file) && (r.None? ==> !HasTemplate(store.file, id))
  {
    var db := store.file;
    var i := TemplatePosition(db.templates, id);
    if i == -1 {
      return Some(NOT_FOUND);
    }
    for k := 0 to |db.containers|
      invariant forall j :: 0 <= j < k ==> db.containers[j].environmentTemplateId != id
    {
      if db.containers[k].environmentTemplateId == id {
        return Some(TEMPLATE_REFERENCE_IN_USE);
      }
    }
    store.file := db.(templates := RemoveAt(db.templates, i));
    assert Mutates(db, DropTemplate(i), store.file);
    if DbInv(db) {
      MutationKeepsInv(db, DropTemplate(i), store.file);
    }
    r := None;
  }
}
