/** Which resolver answers for a host of a node's configuration: parsing of the domain
    rules, their order of precedence, and the selection by first match.
    */
module NodeDns {
  import opened Common
  import opened Text
  import ProviderHosts

  datatype Kind = Exact | Star | Plus  // "a.b", "*.a.b" (descendants), "+.a.b" (apex and descendants)

  datatype Server = Server(net: string, addr: string)

  datatype RuleConfig = RuleConfig(domain: string, nameservers: seq<string>)

  datatype Config = Config(nameservers: seq<string>, bootstrap: seq<string>, rules: seq<RuleConfig>)

  datatype Resolver = Upstream(main: seq<Server>, bootstrap: seq<Server>)

  datatype Rule = Rule(kind: Kind, domain: string, resolver: Resolver, nameservers: seq<string>)

  datatype Policy = Policy(config: Config, fallback: Option<Resolver>, rules: seq<Rule>)

  datatype Selection =
    | ByRule(pattern: string, resolver: Resolver, nameservers: seq<string>)
    | Default(resolver: Resolver, nameservers: seq<string>)
    | System

  // What the libraries decide: nameserver syntax (the flag asks for a bootstrap server), and
  // whether a host is a literal address.
  datatype Syntax = Syntax(server: (string, bool) -> Option<Server>, address: string -> bool)

  const MaxRules: nat := 256
  const MaxServers: nat := 16

  // ---- Parsing ----

  predicate LabelChar(c: char) { 'a' <= c <= 'z' || '0' <= c <= '9' || c == '-' }

  predicate ValidLabel(part: string) {
    0 < |part| <= 63 && part[0] != '-' && part[|part| - 1] != '-' && forall c :: c in part ==> LabelChar(c)
  }

  function Labels(s: string): (parts: seq<string>)
    ensures |parts| > 0
  {
    if s == "" then [""]
    else if s[0] == '.' then [""] + Labels(s[1..])
    else [[s[0]] + Labels(s[1..])[0]] + Labels(s[1..])[1..]
  }

  // The labels are what stands between the dots.
  function Dotted(parts: seq<string>): string {
    if parts == [] then "" else if |parts| == 1 then parts[0] else parts[0] + ("." + Dotted(parts[1..]))
  }

  lemma {:induction false} LabelsAreDotted(s: string)
    ensures Dotted(Labels(s)) == s && forall part :: part in Labels(s) ==> '.' !in part
  {
    if s != "" {
      var rest := Labels(s[1..]);
      LabelsAreDotted(s[1..]);
      assert rest == [rest[0]] + rest[1..] && rest[0] in rest;
      if s[0] == '.' {
        assert Labels(s)[1..] == rest && "" + ("." + s[1..]) == s;
      } else {
        assert Labels(s)[1..] == rest[1..] && [s[0]] + s[1..] == s;
        if |rest| > 1 { assert [s[0]] + rest[0] + ("." + Dotted(rest[1..])) == [s[0]] + (rest[0] + ("." + Dotted(rest[1..]))); }
      }
    }
  }

  lemma {:induction false} LabelsSplit(a: string, b: string)
    ensures Labels(a + ("." + b)) == Labels(a) + Labels(b)
  {
    var s := a + ("." + b);
    if a == "" {
      assert s[1..] == b;
    } else {
      assert s[1..] == a[1..] + ("." + b) && s[0] == a[0];
      LabelsSplit(a[1..], b);
      LabelsAhead(a[0], Labels(a[1..]), Labels(b));
    }
  }

  lemma LabelsAhead(c: char, first: seq<string>, more: seq<string>)
    requires first != []
    ensures [""] + (first + more) == ([""] + first) + more
    ensures [[c] + (first + more)[0]] + (first + more)[1..] == ([[c] + first[0]] + first[1..]) + more
  {
  }

  lemma {:induction false} DottedSplits(parts: seq<string>, k: nat)
    requires 0 < k < |parts|
    ensures Dotted(parts) == Dotted(parts[..k]) + ("." + Dotted(parts[k..]))
  {
    if k == 1 {
      assert parts[..1] == [parts[0]];
    } else {
      DottedSplits(parts[1..], k - 1);
      assert parts[1..][..k - 1] == parts[..k][1..] && parts[1..][k - 1..] == parts[k..];
      var a, b := Dotted(parts[1..k]), Dotted(parts[k..]);
      assert parts[0] + ("." + (a + ("." + b))) == parts[0] + ("." + a) + ("." + b);
    }
  }

  predicate ValidDomain(x: Syntax, domain: string) {
    0 < |domain| <= 253 && !x.address(domain) && forall part :: part in Labels(domain) ==> ValidLabel(part)
  }

  function SplitKind(domain: string): (Kind, string) {
    if |domain| >= 2 && domain[..2] == "*." then (Star, domain[2..])
    else if |domain| >= 2 && domain[..2] == "+." then (Plus, domain[2..])
    else (Exact, domain)
  }

  function ParsePattern(raw: string): (Kind, string) {
    SplitKind(ProviderHosts.Canonical(TrimSpace(raw)))
  }

  // Parsing forgets white space around a pattern, one dot at its end and the case, and no more.
  lemma ParsedIsCanonical(raw: string)
    ensures var (kind, domain) := ParsePattern(raw);
            && Pattern(kind, domain) == ProviderHosts.Canonical(TrimSpace(raw))
            && (kind == Exact ==> |domain| < 2 || (domain[..2] != "*." && domain[..2] != "+."))
  {
    var s := ProviderHosts.Canonical(TrimSpace(raw));
    if |s| >= 2 { assert s == s[..2] + s[2..]; }
  }

  function Pattern(kind: Kind, domain: string): string {
    match kind
    case Exact => domain
    case Star => "*." + domain
    case Plus => "+." + domain
  }

  lemma LabelsCover(s: string)
    requires forall part :: part in Labels(s) ==> ValidLabel(part)
    ensures forall c :: c in s ==> LabelChar(c) || c == '.'
    ensures s != "" && s[0] != '.' && s[|s| - 1] != '.'
  {
    LabelsAreDotted(s);
    DottedCovers(Labels(s));
  }

  lemma {:induction false} DottedCovers(parts: seq<string>)
    requires parts != [] && forall part :: part in parts ==> ValidLabel(part)
    ensures var s := Dotted(parts);
            s != "" && s[0] != '.' && s[|s| - 1] != '.' && forall c :: c in s ==> LabelChar(c) || c == '.'
  {
    assert ValidLabel(parts[0]) && parts[0][0] in parts[0] && parts[0][|parts[0]| - 1] in parts[0];
    if |parts| > 1 { DottedCovers(parts[1..]); }
  }

  predicate PatternChar(c: char) { LabelChar(c) || c == '*' || c == '+' || c == '.' }

  lemma NotSpace(c: char)
    requires PatternChar(c)
    ensures !Space(c)
  {
  }

  lemma CleanIsKept(p: string)
    requires p != "" && p[|p| - 1] != '.' && forall c :: c in p ==> PatternChar(c)
    ensures ProviderHosts.Canonical(TrimSpace(p)) == p
  {
    assert PatternChar(p[0]) && PatternChar(p[|p| - 1]);
    NotSpace(p[0]);
    NotSpace(p[|p| - 1]);
    NothingToTrim(p);
    LowerIsKept(p);
  }

  lemma LowerIsKept(p: string)
    requires forall c :: c in p ==> PatternChar(c)
    ensures ProviderHosts.Lower(p) == p
  {
    forall i | 0 <= i < |p| ensures ProviderHosts.ToLower(p[i]) == p[i] { assert PatternChar(p[i]); }
  }

  // The pattern shown for a rule is one that parses back to the rule.
  lemma PatternRoundTrip(x: Syntax, kind: Kind, domain: string)
    requires ValidDomain(x, domain)
    ensures ParsePattern(Pattern(kind, domain)) == (kind, domain)
  {
    LabelsCover(domain);
    var p := Pattern(kind, domain);
    assert forall c :: c in p ==> PatternChar(c);
    assert p[|p| - 1] == domain[|domain| - 1];
    CleanIsKept(p);
    assert domain[0] in domain;
  }

  ghost predicate ServersOk(x: Syntax, values: seq<string>, bootstrap: bool) {
    && |values| <= MaxServers
    && (forall i :: 0 <= i < |values| ==> x.server(values[i], bootstrap).Some?)
    && (forall i, j :: 0 <= i < j < |values| ==> x.server(values[i], bootstrap) != x.server(values[j], bootstrap))
  }

  function Servers(x: Syntax, values: seq<string>, bootstrap: bool): seq<Server> {
    Map(value => x.server(value, bootstrap).GetOr(Server("", "")), values)
  }

  method ParseServers(x: Syntax, values: seq<string>, bootstrap: bool) returns (servers: Option<seq<Server>>)
    ensures servers.Some? <==> ServersOk(x, values, bootstrap)
    ensures servers.Some? ==> servers.value == Servers(x, values, bootstrap)
  {
    if |values| > MaxServers { return None; }
    var list, seen := [], {};
    for i := 0 to |values|
      invariant ServersOk(x, values[..i], bootstrap)
      invariant list == Servers(x, values[..i], bootstrap)
      invariant forall k :: 0 <= k < i ==> x.server(values[k], bootstrap).value in seen
      invariant forall v :: v in seen ==> exists k :: 0 <= k < i && x.server(values[k], bootstrap) == Some(v)
    {
      var server := x.server(values[i], bootstrap);
      if server.None? || server.value in seen { return None; }
      seen, list := seen + {server.value}, list + [server.value];
    }
    assert values[..|values|] == values;
    servers := Some(list);
  }

  ghost predicate RuleOk(x: Syntax, rule: RuleConfig) {
    ValidDomain(x, ParsePattern(rule.domain).1) && rule.nameservers != [] && ServersOk(x, rule.nameservers, false)
  }

  function Keys(rules: seq<RuleConfig>): seq<(Kind, string)> {
    Map((rule: RuleConfig) => ParsePattern(rule.domain), rules)
  }

  ghost predicate RulesOk(x: Syntax, rules: seq<RuleConfig>) {
    (forall i :: 0 <= i < |rules| ==> RuleOk(x, rules[i])) && Distinct(Keys(rules))
  }

  // The configurations parsing accepts.
  ghost predicate Accepted(x: Syntax, c: Config) {
    && |c.rules| <= MaxRules
    && ServersOk(x, c.bootstrap, true) && ServersOk(x, c.nameservers, false)
    && RulesOk(x, c.rules)
  }

  function CompiledRule(x: Syntax, bootstrap: seq<Server>, rule: RuleConfig): Rule {
    var (kind, domain) := ParsePattern(rule.domain);
    Rule(kind, domain, Upstream(Servers(x, rule.nameservers, false), bootstrap), rule.nameservers)
  }

  function CompiledRules(x: Syntax, bootstrap: seq<Server>, rules: seq<RuleConfig>): seq<Rule> {
    Map(rule => CompiledRule(x, bootstrap, rule), rules)
  }

  method ParseRule(x: Syntax, bootstrap: seq<Server>, rule: RuleConfig, seen: set<(Kind, string)>)
    returns (parsed: Option<Rule>)
    ensures parsed.Some? <==> RuleOk(x, rule) && ParsePattern(rule.domain) !in seen
    ensures parsed.Some? ==> parsed.value == CompiledRule(x, bootstrap, rule)
  {
    var (kind, domain) := ParsePattern(rule.domain);
    if !ValidDomain(x, domain) || (kind, domain) in seen || rule.nameservers == [] { return None; }
    var servers := ParseServers(x, rule.nameservers, false);
    if servers.None? { return None; }
    parsed := Some(Rule(kind, domain, Upstream(servers.value, bootstrap), rule.nameservers));
  }

  lemma PrefixDistinct(rules: seq<RuleConfig>, i: nat)
    requires i < |rules| && Distinct(Keys(rules[..i]))
    ensures Distinct(Keys(rules[..i + 1])) <==> ParsePattern(rules[i].domain) !in Keys(rules[..i])
    ensures Distinct(Keys(rules)) ==> Distinct(Keys(rules[..i + 1]))
  {
    var keys := Keys(rules[..i + 1]);
    assert keys == Keys(rules[..i]) + [ParsePattern(rules[i].domain)] && forall k :: 0 <= k <= i ==> keys[k] == Keys(rules)[k];
    if ParsePattern(rules[i].domain) in Keys(rules[..i]) {
      var k :| 0 <= k < i && Keys(rules[..i])[k] == ParsePattern(rules[i].domain);
      assert keys[k] == keys[i];
    }
  }

  // The rules parsed so far.
  ghost predicate Parsed(x: Syntax, bootstrap: seq<Server>, rules: seq<RuleConfig>, list: seq<Rule>, seen: set<(Kind, string)>) {
    RulesOk(x, rules) && list == CompiledRules(x, bootstrap, rules) && forall k :: k in seen <==> k in Keys(rules)
  }

  lemma OneRuleMore(x: Syntax, bootstrap: seq<Server>, rules: seq<RuleConfig>, i: nat, list: seq<Rule>, seen: set<(Kind, string)>)
    requires i < |rules| && Parsed(x, bootstrap, rules[..i], list, seen)
    ensures var rule, key := rules[i], ParsePattern(rules[i].domain);
            if RuleOk(x, rule) && key !in seen
            then Parsed(x, bootstrap, rules[..i + 1], list + [CompiledRule(x, bootstrap, rule)], seen + {key})
            else !RulesOk(x, rules)
  {
    RulesGrow(x, bootstrap, rules, i);
    RuleJoins(x, rules, i);
  }

  lemma RulesGrow(x: Syntax, bootstrap: seq<Server>, rules: seq<RuleConfig>, i: nat)
    requires i < |rules|
    ensures Keys(rules[..i + 1]) == Keys(rules[..i]) + [ParsePattern(rules[i].domain)]
    ensures CompiledRules(x, bootstrap, rules[..i + 1]) == CompiledRules(x, bootstrap, rules[..i]) + [CompiledRule(x, bootstrap, rules[i])]
  {
  }

  lemma RuleJoins(x: Syntax, rules: seq<RuleConfig>, i: nat)
    requires i < |rules| && RulesOk(x, rules[..i])
    ensures if RuleOk(x, rules[i]) && ParsePattern(rules[i].domain) !in Keys(rules[..i]) then RulesOk(x, rules[..i + 1]) else !RulesOk(x, rules)
  {
    PrefixDistinct(rules, i);
    if RuleOk(x, rules[i]) {
      var before, more := rules[..i], rules[..i + 1];
      assert forall k :: 0 <= k < i ==> more[k] == before[k];
    }
  }

  method ParseRules(x: Syntax, bootstrap: seq<Server>, rules: seq<RuleConfig>) returns (parsed: Option<seq<Rule>>)
    ensures parsed.Some? <==> RulesOk(x, rules)
    ensures parsed.Some? ==> parsed.value == CompiledRules(x, bootstrap, rules)
  {
    var list: seq<Rule>, seen: set<(Kind, string)> := [], {};
    for i := 0 to |rules|
      invariant Parsed(x, bootstrap, rules[..i], list, seen)
    {
      OneRuleMore(x, bootstrap, rules, i, list, seen);
      var rule := ParseRule(x, bootstrap, rules[i], seen);
      if rule.None? { return None; }
      seen, list := seen + {ParsePattern(rules[i].domain)}, list + [rule.value];
    }
    assert rules[..|rules|] == rules;
    parsed := Some(list);
  }

  // ---- Precedence ----

  function Weight(kind: Kind): nat {
    match kind case Exact => 0 case Star => 1 case Plus => 2
  }

  // The order of the compiled rules.
  predicate Less(a: Rule, b: Rule) {
    if (a.kind == Exact) != (b.kind == Exact) then a.kind == Exact
    else if |a.domain| != |b.domain| then |a.domain| > |b.domain|
    else if a.domain != b.domain then Before(a.domain, b.domain)
    else Weight(a.kind) < Weight(b.kind)
  }

  lemma LessIsTotal(a: Rule, b: Rule)
    ensures (a.kind, a.domain) != (b.kind, b.domain) ==> Less(a, b) || Less(b, a)
    ensures !(Less(a, b) && Less(b, a)) && !Less(a, a)
  {
    BeforeIsTotal(a.domain, b.domain);
  }

  lemma LessIsTransitive(a: Rule, b: Rule, c: Rule)
    requires Less(a, b) && Less(b, c)
    ensures Less(a, c)
  {
    if |a.domain| == |b.domain| == |c.domain| {
      BeforeIsTotal(a.domain, b.domain);
      if Before(a.domain, b.domain) && Before(b.domain, c.domain) { BeforeIsTransitive(a.domain, b.domain, c.domain); }
    }
  }

  ghost predicate Sorted(rules: seq<Rule>) {
    forall i, j :: 0 <= i < j < |rules| ==> Less(rules[i], rules[j])
  }

  ghost predicate DistinctRules(rules: seq<Rule>) {
    forall i, j :: 0 <= i < j < |rules| ==> (rules[i].kind, rules[i].domain) != (rules[j].kind, rules[j].domain)
  }

  function Insert(rule: Rule, rules: seq<Rule>): seq<Rule> {
    if rules == [] || Less(rule, rules[0]) then [rule] + rules else [rules[0]] + Insert(rule, rules[1..])
  }

  // The library's sort.
  function Sort(rules: seq<Rule>): seq<Rule> {
    if rules == [] then [] else Insert(rules[0], Sort(rules[1..]))
  }

  lemma {:induction false} InsertedIsOld(rule: Rule, rules: seq<Rule>, q: Rule)
    requires q in Insert(rule, rules)
    ensures q == rule || q in rules
  {
    if rules != [] && !Less(rule, rules[0]) && q != rules[0] { InsertedIsOld(rule, rules[1..], q); }
  }

  lemma {:induction false} InsertSorts(rule: Rule, rules: seq<Rule>)
    requires Sorted(rules) && forall q :: q in rules ==> (q.kind, q.domain) != (rule.kind, rule.domain)
    ensures Sorted(Insert(rule, rules)) && multiset(Insert(rule, rules)) == multiset{rule} + multiset(rules)
  {
    if rules != [] {
      LessIsTotal(rule, rules[0]);
      if Less(rule, rules[0]) {
        forall k | 0 < k < |rules| ensures Less(rule, rules[k]) { LessIsTransitive(rule, rules[0], rules[k]); }
      } else {
        InsertSorts(rule, rules[1..]);
        assert rules == [rules[0]] + rules[1..];
        var rest := Insert(rule, rules[1..]);
        forall k | 0 <= k < |rest| ensures Less(rules[0], rest[k]) { InsertedIsOld(rule, rules[1..], rest[k]); }
      }
    }
  }

  lemma {:induction false} SortSorts(rules: seq<Rule>)
    requires DistinctRules(rules)
    ensures Sorted(Sort(rules)) && multiset(Sort(rules)) == multiset(rules)
  {
    if rules != [] {
      SortSorts(rules[1..]);
      assert rules == [rules[0]] + rules[1..];
      forall q | q in Sort(rules[1..]) ensures (q.kind, q.domain) != (rules[0].kind, rules[0].domain) {
        assert q in multiset(rules[1..]);
      }
      InsertSorts(rules[0], Sort(rules[1..]));
    }
  }

  lemma LeastIsFirst(a: seq<Rule>, b: seq<Rule>)
    requires a != [] && b != [] && Sorted(a) && Sorted(b) && multiset(a) == multiset(b)
    ensures a[0] == b[0]
  {
    SameElements(a, b);
    assert a[0] in b && b[0] in a;
    LessIsTotal(a[0], b[0]);
  }

  // Any two sorted lists of the same rules are equal: what the library's sort does inside
  // does not matter.
  lemma {:induction false} SortedIsUnique(a: seq<Rule>, b: seq<Rule>)
    requires Sorted(a) && Sorted(b) && multiset(a) == multiset(b)
    ensures a == b
    decreases |a|
  {
    SameElements(a, b);
    if a != [] {
      LeastIsFirst(a, b);
      TailCounts(a, b);
      SortedTail(a);
      SortedTail(b);
      SortedIsUnique(a[1..], b[1..]);
      assert a == [a[0]] + a[1..] && b == [b[0]] + b[1..];
    }
  }

  lemma SortedTail(a: seq<Rule>)
    requires a != [] && Sorted(a)
    ensures Sorted(a[1..])
  {
  }

  // ---- Selection ----

  function MakeResolver(servers: seq<Server>, bootstrap: seq<Server>): Option<Resolver> {
    if servers == [] then None else Some(Upstream(servers, bootstrap))
  }

  function Compiled(x: Syntax, c: Config): Policy {
    var bootstrap := Servers(x, c.bootstrap, true);
    Policy(c, MakeResolver(Servers(x, c.nameservers, false), bootstrap), Sort(CompiledRules(x, bootstrap, c.rules)))
  }

  method CompileNodeDns(x: Syntax, c: Config) returns (policy: Option<Policy>)
    ensures policy.Some? <==> Accepted(x, c)
    ensures policy.Some? ==> policy.value == Compiled(x, c)
  {
    if |c.rules| > MaxRules { return None; }
    var bootstrap := ParseServers(x, c.bootstrap, true);
    if bootstrap.None? { return None; }
    var main := ParseServers(x, c.nameservers, false);
    if main.None? { return None; }
    var rules := ParseRules(x, bootstrap.value, c.rules);
    if rules.None? { return None; }
    policy := Some(Policy(c, MakeResolver(main.value, bootstrap.value), Sort(rules.value)));
  }

  predicate HasSuffix(s: string, suffix: string) {
    |suffix| <= |s| && s[|s| - |suffix|..] == suffix
  }

  predicate Matches(rule: Rule, host: string) {
    (host == rule.domain && rule.kind != Star) || (rule.kind != Exact && HasSuffix(host, "." + rule.domain))
  }

  function Chosen(rule: Rule): Selection {
    ByRule(Pattern(rule.kind, rule.domain), rule.resolver, rule.nameservers)
  }

  // First match in the list.
  function FirstMatch(rules: seq<Rule>, host: string): Option<Rule> {
    if rules == [] then None else if Matches(rules[0], host) then Some(rules[0]) else FirstMatch(rules[1..], host)
  }

  function Select(policy: Option<Policy>, host: string): Selection {
    if policy.None? then System
    else match FirstMatch(policy.value.rules, host)
      case Some(rule) => Chosen(rule)
      case None =>
        match policy.value.fallback
        case Some(r) => Default(r, policy.value.config.nameservers)
        case None => System
  }

  method SelectDomain(policy: Option<Policy>, host: string) returns (s: Selection)
    ensures s == Select(policy, host) && (policy.None? ==> s == System)
  {
    if policy.Some? {
      var rules := policy.value.rules;
      for i := 0 to |rules|
        invariant FirstMatch(rules, host) == FirstMatch(rules[i..], host)
      {
        if Matches(rules[i], host) { return Chosen(rules[i]); }
        assert rules[i..][1..] == rules[i + 1..];
      }
      if policy.value.fallback.Some? { return Default(policy.value.fallback.value, policy.value.config.nameservers); }
    }
    s := System;
  }

  // Precedence as documented: an exact rule, then the longest suffix, and '*' before '+'.
  predicate Stronger(a: Rule, b: Rule) {
    || (a.kind == Exact && b.kind != Exact)
    || (a.kind != Exact && b.kind != Exact && |a.domain| > |b.domain|)
    || (a.kind == Star && b.kind == Plus && a.domain == b.domain)
  }

  ghost predicate IsBest(rules: seq<Rule>, host: string, best: Rule) {
    best in rules && Matches(best, host) && forall q :: q in rules && Matches(q, host) && q != best ==> Stronger(best, q)
  }

  lemma BestIsUnique(rules: seq<Rule>, host: string, a: Rule, b: Rule)
    requires IsBest(rules, host, a) && IsBest(rules, host, b)
    ensures a == b
  {
  }

  lemma SuffixesAgree(host: string, a: string, b: string)
    requires HasSuffix(host, a) && HasSuffix(host, b) && |a| == |b|
    ensures a == b
  {
  }

  // Two different rules that match one host: the order of the list is their precedence.
  lemma OrderIsPrecedence(a: Rule, b: Rule, host: string)
    requires Matches(a, host) && Matches(b, host) && (a.kind, a.domain) != (b.kind, b.domain)
    ensures Less(a, b) <==> Stronger(a, b)
    ensures Stronger(a, b) || Stronger(b, a)
  {
    if a.kind != Exact && b.kind != Exact && |a.domain| == |b.domain| {
      if host != a.domain && host != b.domain {
        SuffixesAgree(host, "." + a.domain, "." + b.domain);
        assert ("." + a.domain)[1..] == a.domain && ("." + b.domain)[1..] == b.domain;
      }
      BeforeIsTotal(a.domain, b.domain);
    }
  }

  lemma {:induction false} FirstIsBest(rules: seq<Rule>, host: string)
    requires Sorted(rules)
    ensures FirstMatch(rules, host) == None ==> forall q :: q in rules ==> !Matches(q, host)
    ensures FirstMatch(rules, host).Some? ==> IsBest(rules, host, FirstMatch(rules, host).value)
  {
    if rules != [] {
      FirstIsBest(rules[1..], host);
      assert rules == [rules[0]] + rules[1..];
      if Matches(rules[0], host) {
        forall q | q in rules && Matches(q, host) && q != rules[0] ensures Stronger(rules[0], q) {
          assert Less(rules[0], q);
          LessIsTotal(rules[0], q);
          LessIsTotal(rules[0], rules[0]);
          assert (q.kind, q.domain) != (rules[0].kind, rules[0].domain);
          OrderIsPrecedence(rules[0], q, host);
        }
      }
    }
  }

  lemma CompiledAreDistinct(x: Syntax, bootstrap: seq<Server>, rules: seq<RuleConfig>)
    requires RulesOk(x, rules)
    ensures DistinctRules(CompiledRules(x, bootstrap, rules))
  {
    var compiled := CompiledRules(x, bootstrap, rules);
    forall i, j | 0 <= i < j < |compiled|
      ensures (compiled[i].kind, compiled[i].domain) != (compiled[j].kind, compiled[j].domain)
    {
      assert Keys(rules)[i] != Keys(rules)[j];
    }
  }

  // The selection is the best of the configured rules, else the default, else the system.
  lemma SelectionIsBest(x: Syntax, c: Config, host: string)
    requires Accepted(x, c)
    ensures var rules := CompiledRules(x, Servers(x, c.bootstrap, true), c.rules);
            match Select(Some(Compiled(x, c)), host) {
              case ByRule(pattern, resolver, nameservers) =>
                exists best :: IsBest(rules, host, best) && Chosen(best) == ByRule(pattern, resolver, nameservers)
              case Default(resolver, nameservers) =>
                (forall q :: q in rules ==> !Matches(q, host)) && c.nameservers == nameservers != []
                && resolver == Upstream(Servers(x, nameservers, false), Servers(x, c.bootstrap, true))
              case System => (forall q :: q in rules ==> !Matches(q, host)) && c.nameservers == []
            }
  {
    var rules := CompiledRules(x, Servers(x, c.bootstrap, true), c.rules);
    CompiledAreDistinct(x, Servers(x, c.bootstrap, true), c.rules);
    SortSorts(rules);
    FirstIsBest(Sort(rules), host);
    SameElements(rules, Sort(rules));
    if FirstMatch(Sort(rules), host).Some? {
      assert IsBest(rules, host, FirstMatch(Sort(rules), host).value);
    }
  }

  // ---- What is selected, in terms of the configuration ----

  // A rule is for a name, for the names below it, or for both: whole labels count.
  ghost predicate IsFor(kind: Kind, domain: string, host: string) {
    var above, here := Labels(domain), Labels(host);
    match kind
    case Exact => here == above
    case Star => LabelsEnd(above, here)
    case Plus => here == above || LabelsEnd(above, here)
  }

  lemma MatchesByLabels(rule: Rule, host: string)
    ensures Matches(rule, host) <==> IsFor(rule.kind, rule.domain, host)
  {
    SuffixByLabels(rule.domain, host);
    LabelsAreDotted(rule.domain);
    LabelsAreDotted(host);
  }

  // The labels of one name are the last of another's, behind others.
  ghost predicate LabelsEnd(above: seq<string>, here: seq<string>) {
    |above| < |here| && here[|here| - |above|..] == above
  }

  lemma SuffixByLabels(domain: string, host: string)
    ensures HasSuffix(host, "." + domain) <==> LabelsEnd(Labels(domain), Labels(host))
  {
    if HasSuffix(host, "." + domain) { LabelsOfSuffix(domain, host); }
    if LabelsEnd(Labels(domain), Labels(host)) { SuffixOfLabels(domain, host); }
  }

  lemma LabelsOfSuffix(domain: string, host: string)
    requires HasSuffix(host, "." + domain)
    ensures LabelsEnd(Labels(domain), Labels(host))
  {
    var front := host[..|host| - |domain| - 1];
    assert host == front + ("." + domain);
    LabelsSplit(front, domain);
    TailOf(Labels(front), Labels(domain));
  }

  lemma SuffixOfLabels(domain: string, host: string)
    requires LabelsEnd(Labels(domain), Labels(host))
    ensures HasSuffix(host, "." + domain)
  {
    var here, k := Labels(host), |Labels(host)| - |Labels(domain)|;
    LabelsAreDotted(domain);
    LabelsAreDotted(host);
    DottedSplits(here, k);
    assert host == Dotted(here[..k]) + ("." + domain);
    TailOf(Dotted(here[..k]), "." + domain);
  }

  lemma TailOf<T>(a: seq<T>, b: seq<T>)
    ensures (a + b)[|a + b| - |b|..] == b
  {
  }

  // A resolver asks the named servers, through the bootstrap servers of the configuration.
  ghost predicate Asks(x: Syntax, c: Config, nameservers: seq<string>, r: Resolver) {
    && |r.main| == |nameservers| && |r.bootstrap| == |c.bootstrap|
    && (forall i :: 0 <= i < |nameservers| ==> x.server(nameservers[i], false) == Some(r.main[i]))
    && (forall i :: 0 <= i < |c.bootstrap| ==> x.server(c.bootstrap[i], true) == Some(r.bootstrap[i]))
  }

  ghost predicate Fits(rule: RuleConfig, host: string) {
    var (kind, domain) := ParsePattern(rule.domain);
    IsFor(kind, domain, host)
  }

  // An exact rule goes before any other, a longer domain before a shorter one, and the names
  // below a domain before those that include it.
  ghost predicate GoesBefore(a: RuleConfig, b: RuleConfig) {
    var (kind, domain) := ParsePattern(a.domain);
    var (other, shorter) := ParsePattern(b.domain);
    if kind == Exact || other == Exact then kind == Exact && other != Exact
    else |domain| > |shorter| || (domain == shorter && kind == Star && other == Plus)
  }

  // The k-th configured rule is for a host, and goes before all others that are.
  ghost predicate Wins(c: Config, host: string, k: nat) {
    k < |c.rules| && Fits(c.rules[k], host)
    && forall i :: 0 <= i < |c.rules| && i != k && Fits(c.rules[i], host) ==> GoesBefore(c.rules[k], c.rules[i])
  }

  ghost predicate NoneFits(c: Config, host: string) {
    forall i :: 0 <= i < |c.rules| ==> !Fits(c.rules[i], host)
  }

  // A host is answered by the servers of the configured rule that wins for it; by the default
  // ones when none is for it; and by the system when there are no default ones.
  lemma SelectionIsConfigured(x: Syntax, c: Config, host: string)
    requires Accepted(x, c)
    ensures match Select(Some(Compiled(x, c)), host) {
              case ByRule(pattern, resolver, nameservers) =>
                exists k: nat ::
                  && Wins(c, host, k) && nameservers == c.rules[k].nameservers && Asks(x, c, nameservers, resolver)
                  && pattern == ProviderHosts.Canonical(TrimSpace(c.rules[k].domain))
              case Default(resolver, nameservers) =>
                NoneFits(c, host) && nameservers == c.nameservers != [] && Asks(x, c, nameservers, resolver)
              case System => NoneFits(c, host) && c.nameservers == []
            }
  {
    var bootstrap := Servers(x, c.bootstrap, true);
    var rules := CompiledRules(x, bootstrap, c.rules);
    SelectionIsBest(x, c, host);
    match Select(Some(Compiled(x, c)), host)
    case ByRule(pattern, resolver, nameservers) =>
      var best :| IsBest(rules, host, best) && Chosen(best) == ByRule(pattern, resolver, nameservers);
      var k: nat :| k < |rules| && rules[k] == best;
      BestWins(x, c, host, k);
      WinnerAnswers(x, c, k);
    case Default(_, _) => NoneMatches(x, c, host);
    case System => NoneMatches(x, c, host);
  }

  lemma FitsWhenMatching(x: Syntax, bootstrap: seq<Server>, rule: RuleConfig, host: string)
    ensures Fits(rule, host) <==> Matches(CompiledRule(x, bootstrap, rule), host)
  {
    MatchesByLabels(CompiledRule(x, bootstrap, rule), host);
  }

  lemma NoneMatches(x: Syntax, c: Config, host: string)
    requires forall q :: q in CompiledRules(x, Servers(x, c.bootstrap, true), c.rules) ==> !Matches(q, host)
    ensures NoneFits(c, host)
  {
    var bootstrap := Servers(x, c.bootstrap, true);
    var rules := CompiledRules(x, bootstrap, c.rules);
    forall i | 0 <= i < |c.rules| ensures !Fits(c.rules[i], host) {
      assert rules[i] in rules;
      FitsWhenMatching(x, bootstrap, c.rules[i], host);
    }
  }

  lemma WinnerAnswers(x: Syntax, c: Config, k: nat)
    requires Accepted(x, c) && k < |c.rules|
    ensures match Chosen(CompiledRule(x, Servers(x, c.bootstrap, true), c.rules[k])) {
              case ByRule(pattern, resolver, nameservers) =>
                && nameservers == c.rules[k].nameservers && Asks(x, c, nameservers, resolver)
                && pattern == ProviderHosts.Canonical(TrimSpace(c.rules[k].domain))
              case _ => false
            }
  {
    ParsedIsCanonical(c.rules[k].domain);
    assert RuleOk(x, c.rules[k]);
  }

  lemma BestWins(x: Syntax, c: Config, host: string, k: nat)
    requires Accepted(x, c) && k < |c.rules|
    requires var rules := CompiledRules(x, Servers(x, c.bootstrap, true), c.rules); IsBest(rules, host, rules[k])
    ensures Wins(c, host, k)
  {
    var bootstrap := Servers(x, c.bootstrap, true);
    var rules := CompiledRules(x, bootstrap, c.rules);
    FitsWhenMatching(x, bootstrap, c.rules[k], host);
    forall i | 0 <= i < |c.rules| && i != k && Fits(c.rules[i], host) ensures GoesBefore(c.rules[k], c.rules[i]) {
      FitsWhenMatching(x, bootstrap, c.rules[i], host);
      assert Keys(c.rules)[i] != Keys(c.rules)[k];
      assert rules[i] in rules && rules[i] != rules[k];
      assert Stronger(rules[k], rules[i]);
    }
  }

  // The configurations that are accepted: at most 256 rules with different patterns, each for a
  // domain of at most 253 characters that is no address, with labels of up to 63 letters,
  // digits and inner hyphens; and everywhere at most 16 servers, all different.
  lemma AcceptedExactly(x: Syntax, c: Config)
    ensures Accepted(x, c) <==>
              && |c.rules| <= 256 && ListOk(x, c.bootstrap, true) && ListOk(x, c.nameservers, false)
              && (forall i :: 0 <= i < |c.rules| ==>
                    DomainOk(x, ParsePattern(c.rules[i].domain).1) && |c.rules[i].nameservers| > 0 && ListOk(x, c.rules[i].nameservers, false))
              && (forall i, j :: 0 <= i < j < |c.rules| ==> ParsePattern(c.rules[i].domain) != ParsePattern(c.rules[j].domain))
  {
    var keys := Keys(c.rules);
    assert forall i :: 0 <= i < |c.rules| ==> keys[i] == ParsePattern(c.rules[i].domain);
    forall i | 0 <= i < |c.rules| ensures ValidDomain(x, keys[i].1) <==> DomainOk(x, keys[i].1) {
      forall part ensures ValidLabel(part) <==> LabelOk(part) { LabelExactly(part); }
    }
  }

  ghost predicate ListOk(x: Syntax, values: seq<string>, bootstrap: bool) {
    && |values| <= 16 && (forall i :: 0 <= i < |values| ==> x.server(values[i], bootstrap).Some?)
    && (forall i, j :: 0 <= i < j < |values| ==> x.server(values[i], bootstrap) != x.server(values[j], bootstrap))
  }

  ghost predicate LabelOk(part: string) {
    && 1 <= |part| <= 63 && part[0] != '-' && part[|part| - 1] != '-'
    && forall i :: 0 <= i < |part| ==> 'a' <= part[i] <= 'z' || '0' <= part[i] <= '9' || part[i] == '-'
  }

  lemma LabelExactly(part: string)
    ensures ValidLabel(part) <==> LabelOk(part)
  {
    if LabelOk(part) {
      forall c | c in part ensures LabelChar(c) { var i :| 0 <= i < |part| && part[i] == c; }
    }
    if ValidLabel(part) {
      forall i | 0 <= i < |part| ensures LabelChar(part[i]) { assert part[i] in part; }
    }
  }

  ghost predicate DomainOk(x: Syntax, domain: string) {
    1 <= |domain| <= 253 && !x.address(domain) && forall part :: part in Labels(domain) ==> LabelOk(part)
  }

  // ---- The order of the configured rules is irrelevant ----

  lemma AcceptedPermutation(x: Syntax, a: Config, b: Config)
    requires b == a.(rules := b.rules) && multiset(a.rules) == multiset(b.rules) && Accepted(x, a)
    ensures Accepted(x, b)
  {
    SameElements(a.rules, b.rules);
    forall i | 0 <= i < |b.rules| ensures RuleOk(x, b.rules[i]) {
      assert b.rules[i] in a.rules;
    }
    MapPermutes((rule: RuleConfig) => ParsePattern(rule.domain), a.rules, b.rules);
    DistinctPermutes(Keys(a.rules), Keys(b.rules));
  }

  // Reordering the configured rules changes neither whether they are accepted nor what any
  // host selects.
  lemma OrderIsIrrelevant(x: Syntax, a: Config, b: Config, host: string)
    requires b == a.(rules := b.rules) && multiset(a.rules) == multiset(b.rules)
    ensures Accepted(x, a) <==> Accepted(x, b)
    ensures Accepted(x, a) ==> Select(Some(Compiled(x, a)), host) == Select(Some(Compiled(x, b)), host)
  {
    if Accepted(x, b) { AcceptedPermutation(x, b, a); }
    if Accepted(x, a) {
      AcceptedPermutation(x, a, b);
      var s := Servers(x, a.bootstrap, true);
      MapPermutes(rule => CompiledRule(x, s, rule), a.rules, b.rules);
      CompiledAreDistinct(x, s, a.rules);
      CompiledAreDistinct(x, s, b.rules);
      SortSorts(CompiledRules(x, s, a.rules));
      SortSorts(CompiledRules(x, s, b.rules));
      SortedIsUnique(Sort(CompiledRules(x, s, a.rules)), Sort(CompiledRules(x, s, b.rules)));
    }
  }
}
