/** The stored configuration: what the runtime is set up with, and the changes made to it. */
module Configuration {
  import opened Common
  import opened Text
  import PolicyPaths
  import M = Manager

  datatype Settings = Settings(bind: string, host: string, port: nat, prefix: bool, projectionKey: string, dns: M.Dns, management: string, other: nat)

  datatype Config = Config(settings: Settings, providers: seq<PolicyPaths.Provider>, paths: seq<PolicyPaths.PolicyPath>)

  // The syntax of settings, providers, names and tokens; key and identifier derivation; case
  // folding; and the content of a provider with defaults, or with what an existing one has.
  datatype Rules = Rules(
    wellFormed: Config -> bool,
    masterKey: string -> string,
    providerId: string -> string,
    fold: string -> string,
    complete: nat -> nat,
    inherit: (nat, nat) -> nat)

  function Definitions(c: Config): seq<M.Definition> {
    FlatMap((p: PolicyPaths.Provider) => if p.enabled then [M.Definition(p.id, p.name, p.content)] else [], c.providers)
  }

  // The runtime is given exactly the enabled providers, in the stored order.
  lemma DefinitionsAreEnabled(c: Config) returns (at: seq<nat>)
    ensures Kept(c.providers, (p: PolicyPaths.Provider) => p.enabled,
                 (p: PolicyPaths.Provider) => M.Definition(p.id, p.name, p.content), Definitions(c), at)
    ensures forall d :: d in Definitions(c) <==> exists p :: p in c.providers && p.enabled && d == M.Definition(p.id, p.name, p.content)
  {
    at := FlatMapKeeps((p: PolicyPaths.Provider) => if p.enabled then [M.Definition(p.id, p.name, p.content)] else [], c.providers,
                       (p: PolicyPaths.Provider) => p.enabled, (p: PolicyPaths.Provider) => M.Definition(p.id, p.name, p.content));
    FlatMapHolds((p: PolicyPaths.Provider) => if p.enabled then [M.Definition(p.id, p.name, p.content)] else [], c.providers);
  }

  lemma EnabledId(c: Config, id: string)
    ensures (exists d :: d in Definitions(c) && d.id == id) <==> exists p :: p in c.providers && p.enabled && p.id == id
  {
    var at := DefinitionsAreEnabled(c);
    if p :| p in c.providers && p.enabled && p.id == id { assert M.Definition(p.id, p.name, p.content) in Definitions(c); }
  }

  function RuntimeSettings(rules: Rules, s: Settings): M.Settings {
    M.Settings(s.bind, s.host, s.port, s.prefix, rules.masterKey(s.projectionKey), s.dns)
  }

  function FoldedNames(rules: Rules, providers: seq<PolicyPaths.Provider>): seq<string> {
    Map((p: PolicyPaths.Provider) => rules.fold(p.name), providers)
  }

  // Identifiers are derived from the names, which differ by more than case.
  ghost predicate NamesOk(rules: Rules, providers: seq<PolicyPaths.Provider>) {
    && (forall p :: p in providers ==> p.id == rules.providerId(p.name))
    && Distinct(FoldedNames(rules, providers))
  }

  function Named(rules: Rules, p: PolicyPaths.Provider): PolicyPaths.Provider {
    p.(name := TrimSpace(p.name), id := rules.providerId(TrimSpace(p.name)))
  }

  // A provider as it is added, and as it replaces an existing one.
  function Completed(rules: Rules, p: PolicyPaths.Provider): PolicyPaths.Provider {
    Named(rules, p).(content := rules.complete(p.content))
  }

  function Inherited(rules: Rules, existing: PolicyPaths.Provider, p: PolicyPaths.Provider): PolicyPaths.Provider {
    Named(rules, p).(content := rules.inherit(existing.content, p.content))
  }

  // ValidateConfig.
  ghost predicate ValidConfig(rules: Rules, c: Config) {
    && rules.wellFormed(c)
    && NamesOk(rules, c.providers)
    && Distinct(PolicyPaths.Ids(c.providers))
    && PolicyPaths.ReferencesOk(c.paths, PolicyPaths.Ids(c.providers))
  }

  // A valid configuration is one the runtime can be configured with.
  ghost predicate Sound(rules: Rules, m: M.Rules) {
    forall c :: rules.wellFormed(c) ==> M.SettingsOk(RuntimeSettings(rules, c.settings)) && m.compiles(c.settings.dns)
  }

  lemma ReorderPermutesDefinitions(a: Config, b: Config)
    requires multiset(a.providers) == multiset(b.providers)
    ensures multiset(Definitions(a)) == multiset(Definitions(b))
  {
    FlatMapPermutes((p: PolicyPaths.Provider) => if p.enabled then [M.Definition(p.id, p.name, p.content)] else [], a.providers, b.providers);
  }

  const DefaultPath := "default"

  // The token of the default path.
  function DefaultToken(paths: seq<PolicyPaths.PolicyPath>): string {
    if paths == [] then "" else if paths[0].id == DefaultPath then paths[0].token else DefaultToken(paths[1..])
  }

  function WithDefaultToken(paths: seq<PolicyPaths.PolicyPath>, token: string): seq<PolicyPaths.PolicyPath> {
    if paths == [] then []
    else if paths[0].id == DefaultPath then [paths[0].(token := token)] + paths[1..]
    else [paths[0]] + WithDefaultToken(paths[1..], token)
  }

  // New settings; credentials and DNS that are not given keep their values.
  function Patched(c: Config, s: Settings, management: Option<string>, token: Option<string>, dns: Option<M.Dns>): Config {
    c.(settings := s.(management := management.GetOr(c.settings.management), dns := dns.GetOr(c.settings.dns)),
       paths := WithDefaultToken(c.paths, token.GetOr(DefaultToken(c.paths))))
  }

  // The first path with the identifier of the default one, if there is one.
  ghost predicate IsDefault(paths: seq<PolicyPaths.PolicyPath>, k: nat) {
    k < |paths| && paths[k].id == DefaultPath && forall i :: 0 <= i < k ==> paths[i].id != DefaultPath
  }

  // A change of settings leaves alone what it does not give: the providers, the tokens of
  // other paths, and omitted credentials and DNS.
  lemma PatchKeepsTheRest(c: Config, s: Settings, management: Option<string>, token: Option<string>, dns: Option<M.Dns>)
    ensures var d := Patched(c, s, management, token, dns);
            && d.providers == c.providers
            && d.settings == s.(management := d.settings.management, dns := d.settings.dns)
            && d.settings.management == (if management.Some? then management.value else c.settings.management)
            && d.settings.dns == (if dns.Some? then dns.value else c.settings.dns)
            && (token.None? ==> d.paths == c.paths)
            && |d.paths| == |c.paths|
            && forall i :: 0 <= i < |c.paths| ==>
                 d.paths[i] == if IsDefault(c.paths, i) && token.Some? then c.paths[i].(token := token.value) else c.paths[i]
  {
    TokenIsSet(c.paths, token.GetOr(DefaultToken(c.paths)));
    TokenIsFound(c.paths);
    var d := Patched(c, s, management, token, dns);
    if token.None? { assert forall i :: 0 <= i < |c.paths| ==> d.paths[i] == c.paths[i]; }
  }

  lemma {:induction false} TokenIsFound(paths: seq<PolicyPaths.PolicyPath>)
    ensures forall k: nat :: IsDefault(paths, k) ==> DefaultToken(paths) == paths[k].token
  {
    if paths != [] {
      TokenIsFound(paths[1..]);
      forall k: nat | IsDefault(paths, k) ensures DefaultToken(paths) == paths[k].token {
        if k > 0 {
          assert paths[0].id != DefaultPath && forall i :: 0 <= i < k - 1 ==> paths[1..][i] == paths[i + 1];
          assert IsDefault(paths[1..], k - 1);
        }
      }
    }
  }

  lemma {:induction false} TokenIsSet(paths: seq<PolicyPaths.PolicyPath>, token: string)
    ensures |WithDefaultToken(paths, token)| == |paths|
    ensures forall i :: 0 <= i < |paths| ==>
              WithDefaultToken(paths, token)[i] == if IsDefault(paths, i) then paths[i].(token := token) else paths[i]
  {
    if paths != [] {
      TokenIsSet(paths[1..], token);
      forall i | 0 <= i < |paths|
        ensures WithDefaultToken(paths, token)[i] == if IsDefault(paths, i) then paths[i].(token := token) else paths[i]
      {
        TokenAt(paths, token, i);
      }
    }
  }

  lemma TokenAt(paths: seq<PolicyPaths.PolicyPath>, token: string, i: nat)
    requires i < |paths| && |WithDefaultToken(paths[1..], token)| == |paths| - 1
    requires i > 0 ==> WithDefaultToken(paths[1..], token)[i - 1] == if IsDefault(paths[1..], i - 1) then paths[i].(token := token) else paths[i]
    ensures |WithDefaultToken(paths, token)| == |paths|
    ensures WithDefaultToken(paths, token)[i] == if IsDefault(paths, i) then paths[i].(token := token) else paths[i]
  {
    if paths[0].id == DefaultPath {
      assert i > 0 ==> !IsDefault(paths, i);
    } else if i > 0 {
      DefaultMoves(paths, i);
    }
  }

  lemma DefaultMoves(paths: seq<PolicyPaths.PolicyPath>, i: nat)
    requires 0 < i < |paths| && paths[0].id != DefaultPath
    ensures IsDefault(paths, i) <==> IsDefault(paths[1..], i - 1)
  {
    assert forall k :: 0 <= k < i - 1 ==> paths[1..][k] == paths[k + 1];
    assert forall k :: 0 < k < i ==> paths[1..][k - 1] == paths[k];
  }

  function Selecting(paths: seq<PolicyPaths.PolicyPath>, change: seq<string> -> seq<string>): seq<PolicyPaths.PolicyPath> {
    Map((path: PolicyPaths.PolicyPath) => path.(providerIds := change(path.providerIds)), paths)
  }

  // The configuration without its k-th provider.
  function Deleted(c: Config, k: nat): Config
    requires k < |c.providers|
  {
    c.(providers := Without(c.providers, k),
       paths := Selecting(c.paths, ids => PolicyPaths.Removed(ids, c.providers[k].id)))
  }

  // The configuration with its k-th provider replaced, and followed where it is renamed.
  function Replaced(c: Config, k: nat, p: PolicyPaths.Provider): Config
    requires k < |c.providers|
  {
    c.(providers := c.providers[k := p],
       paths := if p.id == c.providers[k].id then c.paths
                else Selecting(c.paths, ids => PolicyPaths.Renamed(ids, c.providers[k].id, p.id)))
  }

  // Deleting and replacing change the k-th provider and what the paths select, and no more.
  lemma ChangesAreLocal(c: Config, k: nat, p: PolicyPaths.Provider)
    requires k < |c.providers|
    ensures var d := Deleted(c, k);
            && d.settings == c.settings && |d.providers| == |c.providers| - 1
            && (forall i :: 0 <= i < |d.providers| ==> d.providers[i] == c.providers[if i < k then i else i + 1])
            && SamePaths(c, d)
    ensures var r := Replaced(c, k, p);
            && r.settings == c.settings && |r.providers| == |c.providers|
            && (forall i :: 0 <= i < |r.providers| ==> r.providers[i] == if i == k then p else c.providers[i])
            && SamePaths(c, r) && (p.id == c.providers[k].id ==> r.paths == c.paths)
  {
  }

  // But for the providers they select.
  ghost predicate SamePaths(c: Config, d: Config) {
    && |d.paths| == |c.paths|
    && forall i :: 0 <= i < |c.paths| ==> d.paths[i] == c.paths[i].(providerIds := d.paths[i].providerIds)
  }

  // A provider is added or replaced under its trimmed name, which gives the identifier; whether
  // it is enabled is as asked for.
  lemma NamesAreTrimmed(rules: Rules, existing: PolicyPaths.Provider, p: PolicyPaths.Provider)
    ensures forall q :: q in {Completed(rules, p), Inherited(rules, existing, p)} ==>
              q.name == TrimSpace(p.name) && q.id == rules.providerId(q.name) && q.enabled == p.enabled
    ensures Completed(rules, p).content == rules.complete(p.content)
    ensures Inherited(rules, existing, p).content == rules.inherit(existing.content, p.content)
  {
  }

  lemma {:induction false} WithoutIds(ids: seq<string>, k: nat)
    requires k < |ids| && Distinct(ids)
    ensures Without(ids, k) == PolicyPaths.Removed(ids, ids[k])
  {
    var n := |ids| - 1;
    assert ids == ids[..n] + [ids[n]];
    if k == n {
      PolicyPaths.RemovedIs(ids[..n], ids[n]);
    } else {
      WithoutIds(ids[..n], k);
      assert Without(ids, k) == Without(ids[..n], k) + [ids[n]];
    }
  }

  // Names stay distinct when one goes, and are distinct with another exactly when it is free.
  lemma WithoutNames(rules: Rules, providers: seq<PolicyPaths.Provider>, k: nat)
    requires k < |providers| && NamesOk(rules, providers)
    ensures NamesOk(rules, Without(providers, k))
  {
    var names, rest := FoldedNames(rules, providers), FoldedNames(rules, Without(providers, k));
    assert forall i :: 0 <= i < |rest| ==> rest[i] == names[if i < k then i else i + 1];
    forall i, j | 0 <= i < j < |rest| ensures rest[i] != rest[j] {
      assert names[if i < k then i else i + 1] != names[if j < k then j else j + 1];
    }
  }

  lemma ReplacedNames(rules: Rules, providers: seq<PolicyPaths.Provider>, k: nat, p: PolicyPaths.Provider)
    requires k < |providers| && NamesOk(rules, providers) && p.id == rules.providerId(p.name)
    ensures NamesOk(rules, providers[k := p]) <==> rules.fold(p.name) !in FoldedNames(rules, Without(providers, k))
  {
    var names, rest, next := FoldedNames(rules, providers), FoldedNames(rules, Without(providers, k)), FoldedNames(rules, providers[k := p]);
    var name := rules.fold(p.name);
    assert next == names[k := name];
    assert forall i :: 0 <= i < |rest| ==> rest[i] == names[if i < k then i else i + 1];
    if name in rest {
      var i :| 0 <= i < |rest| && rest[i] == name;
      var j := if i < k then i else i + 1;
      assert next[j] == name == next[k];
      assert !Distinct(next) by { if j < k { assert next[j] == next[k]; } else { assert next[k] == next[j]; } }
    } else {
      forall i | 0 <= i < |names| && i != k ensures names[i] != name { assert names[i] == rest[if i < k then i else i - 1]; }
      assert Distinct(next);
    }
  }

  // Deleting a provider never leaves a reference behind: every path keeps exactly the rest.
  lemma DeletionKeepsReferences(rules: Rules, c: Config, k: nat)
    requires ValidConfig(rules, c) && k < |c.providers|
    ensures ValidConfig(rules, Deleted(c, k)) <==> rules.wellFormed(Deleted(c, k))
    ensures SamePaths(c, Deleted(c, k))
    ensures forall i :: 0 <= i < |c.paths| ==>
              forall id :: id in Deleted(c, k).paths[i].providerIds <==> id in c.paths[i].providerIds && id != c.providers[k].id
  {
    var d, ids := Deleted(c, k), PolicyPaths.Ids(c.providers);
    WithoutIds(ids, k);
    assert PolicyPaths.Ids(d.providers) == Without(ids, k);
    PolicyPaths.RemovedIs(ids, ids[k]);
    WithoutNames(rules, c.providers, k);
    forall path | path in d.paths ensures PolicyPaths.SelectionOk(path, PolicyPaths.Ids(d.providers)) {
      var i :| 0 <= i < |d.paths| && d.paths[i] == path;
      PolicyPaths.DeleteKeepsReferences(c.paths[i], ids, ids[k]);
    }
    forall i | 0 <= i < |c.paths|
      ensures forall id :: id in d.paths[i].providerIds <==> id in c.paths[i].providerIds && id != ids[k]
    {
      PolicyPaths.RemovedIs(c.paths[i].providerIds, ids[k]);
    }
  }

  // Renaming a provider keeps the configuration valid exactly when its new name is free.
  lemma RenameKeepsReferences(rules: Rules, c: Config, k: nat, p: PolicyPaths.Provider)
    requires ValidConfig(rules, c) && k < |c.providers| && p.id != c.providers[k].id && p.id == rules.providerId(p.name)
    ensures ValidConfig(rules, Replaced(c, k, p)) <==>
              && rules.wellFormed(Replaced(c, k, p)) && p.id !in PolicyPaths.Ids(c.providers)
              && rules.fold(p.name) !in FoldedNames(rules, Without(c.providers, k))
  {
    ReplacedNames(rules, c.providers, k, p);
    var r, ids := Replaced(c, k, p), PolicyPaths.Ids(c.providers);
    assert PolicyPaths.Ids(r.providers) == PolicyPaths.Renamed(ids, ids[k], p.id) by {
      forall i | 0 <= i < |ids| && ids[i] == ids[k] ensures i == k { }
    }
    PolicyPaths.RenamedDistinct(ids, ids[k], p.id);
    if p.id !in ids {
      forall path | path in r.paths ensures PolicyPaths.SelectionOk(path, PolicyPaths.Ids(r.providers)) {
        var i :| 0 <= i < |r.paths| && r.paths[i] == path;
        assert PolicyPaths.SelectionOk(c.paths[i], ids);
        PolicyPaths.RenameKeepsReferences(c.paths[i], ids, ids[k], p.id);
      }
    }
  }

  // Validation provider by provider: what one more adds, and that a bad prefix is final.
  lemma OneMoreProvider(rules: Rules, providers: seq<PolicyPaths.Provider>, i: nat)
    requires i < |providers| && Distinct(PolicyPaths.Ids(providers[..i])) && NamesOk(rules, providers[..i])
    ensures var p := providers[i];
            var fits := p.id == rules.providerId(p.name) && p.id !in PolicyPaths.Ids(providers[..i])
                        && rules.fold(p.name) !in FoldedNames(rules, providers[..i]);
            && (fits <==> Distinct(PolicyPaths.Ids(providers[..i + 1])) && NamesOk(rules, providers[..i + 1]))
            && (!fits ==> !(Distinct(PolicyPaths.Ids(providers)) && NamesOk(rules, providers)))
    ensures PolicyPaths.Ids(providers[..i + 1]) == PolicyPaths.Ids(providers[..i]) + [providers[i].id]
    ensures FoldedNames(rules, providers[..i + 1]) == FoldedNames(rules, providers[..i]) + [rules.fold(providers[i].name)]
  {
    var p, before := providers[i], providers[..i];
    assert providers[..i + 1] == before + [p];
    assert PolicyPaths.Ids(providers[..i + 1]) == PolicyPaths.Ids(before) + [p.id];
    assert FoldedNames(rules, providers[..i + 1]) == FoldedNames(rules, before) + [rules.fold(p.name)];
    DistinctGrows(PolicyPaths.Ids(before), p.id);
    DistinctGrows(FoldedNames(rules, before), rules.fold(p.name));
    DistinctPrefix(PolicyPaths.Ids(providers), PolicyPaths.Ids(providers[..i + 1]));
    DistinctPrefix(FoldedNames(rules, providers), FoldedNames(rules, providers[..i + 1]));
    assert p in providers && p in providers[..i + 1];
  }
}
