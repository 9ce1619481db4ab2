/** What makes a proxy profile or an environment template acceptable. */
module ReferenceSpec {
  import opened Prelude
  import opened Records
  import opened Environment
  import opened References
  import opened ReferenceSafety

  const MAX_BYPASS_RULES := 100
  const MAX_BYPASS_RULE_LENGTH := 256
  const MAX_BYPASS_RULES_LENGTH := 8192

  predicate Repeats<T(==)>(s: seq<T>) {
    exists i, j :: 0 <= i < j < |s| && s[i] == s[j]
  }

  function NonEmpty(s: seq<string>): (r: seq<string>)
    ensures forall x :: x in r <==> x in s && x != ""
  {
    if s == [] then []
    else
      assert s == s[..|s| - 1] + [s[|s| - 1]];
      NonEmpty(s[..|s| - 1]) + if s[|s| - 1] == "" then [] else [s[|s| - 1]]
  }

  function TotalLength(s: seq<string>): nat {
    if s == [] then 0 else TotalLength(s[..|s| - 1]) + |s[|s| - 1]|
  }

  /** A bounded list of bounded rules, with a bounded sum and no rule twice; empty ones do not count. */
  predicate RulesAllowed(rules: seq<string>) {
    && |rules| <= MAX_BYPASS_RULES && TotalLength(rules) <= MAX_BYPASS_RULES_LENGTH
    && (forall rule :: rule in rules ==> |rule| <= MAX_BYPASS_RULE_LENGTH) && OnlyEmptyRepeats(rules)
  }

  predicate OnlyEmptyRepeats(rules: seq<string>) {
    forall i, j :: 0 <= i < j < |rules| && rules[i] == rules[j] ==> rules[i] == ""
  }

  lemma RepeatsOn(front: seq<string>, rule: string)
    requires OnlyEmptyRepeats(front)
    ensures OnlyEmptyRepeats(front + [rule]) <==> rule == "" || rule !in front
  {
    var rules := front + [rule];
    if rule != "" && rule in front {
      var k :| 0 <= k < |front| && front[k] == rule;
      assert rules[k] == rules[|front|];
    } else {
      forall i, j | 0 <= i < j < |rules| && rules[i] == rules[j] ensures rules[i] == "" {
        assert rules[i] == front[i];
        if j < |front| {
          assert rules[j] == front[j];
        }
      }
    }
  }

  lemma {:induction false} PrefixIsShorter(rules: seq<string>, n: nat)
    requires n <= |rules|
    ensures TotalLength(rules[..n]) <= TotalLength(rules)
    decreases |rules|
  {
    if n == |rules| {
      assert rules[..n] == rules;
    } else {
      PrefixIsShorter(rules[..|rules| - 1], n);
      assert rules[..|rules| - 1][..n] == rules[..n];
    }
  }

  // One rule more, after rules that are allowed.
  lemma OneRuleMore(front: seq<string>, rule: string)
    requires RulesAllowed(front) && |front| < MAX_BYPASS_RULES
    ensures NonEmpty(front + [rule]) == NonEmpty(front) + if rule == "" then [] else [rule]
    ensures TotalLength(front + [rule]) == TotalLength(front) + |rule|
    ensures RulesAllowed(front + [rule]) <==>
              rule == "" || (|rule| <= MAX_BYPASS_RULE_LENGTH && rule !in front
                             && TotalLength(front) + |rule| <= MAX_BYPASS_RULES_LENGTH)
  {
    var rules := front + [rule];
    assert rules[..|front|] == front && rules[|front|] == rule;
    RepeatsOn(front, rule);
  }

  // What allows the whole list allows every part of it.
  lemma PrefixIsAllowed(rules: seq<string>, n: nat)
    requires RulesAllowed(rules) && n <= |rules|
    ensures RulesAllowed(rules[..n])
  {
    PrefixIsShorter(rules, n);
  }

  predicate ProxyAllowed(p: ProxyProfile) {
    && p.protocol in {"http", "https", "socks4", "socks5"}
    && 1 <= p.port <= 65535
    && KnownBehavior(p)
    && RulesAllowed(p.bypassRules)
    && "" !in p.certificateIds && !Repeats(p.certificateIds)
  }

  const MAX_TEMPLATE_CERTIFICATES := 50

  predicate TemplateAllowed(t: EnvironmentTemplate) {
    |t.certificateIds| <= MAX_TEMPLATE_CERTIFICATES && "" !in t.certificateIds && !Repeats(t.certificateIds)
  }

  function TemplateError(db: Database, t: EnvironmentTemplate): (error: Option<ErrorCode>)
    ensures error.None? <==> TemplateStored(db, t)
  {
    if t.proxyProfileId != "" && !HasProxy(db, t.proxyProfileId) then Some(PROXY_PROFILE_NOT_FOUND)
    else if !CertificatesStored(db, t.certificateIds) then Some(CERTIFICATE_NOT_FOUND)
    else None
  }
}
