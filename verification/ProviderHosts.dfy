/** Provider hosts: the closure of aliases collected from a provider's hosts section, the
    resolver that follows it, and the merge over all providers.
    */
module ProviderHosts {
  import opened Common

  type Ip = nat

  datatype HostValue = Alias(domain: string) | Addresses(ips: seq<Ip>)

  datatype Target = Name(domain: string) | Ips(ips: seq<Ip>)

  datatype Error = Cycle | TooDeep | BadValue(pattern: string) | BadPattern | Conflict | Rejected

  // The domain trie: which patterns match a domain, and how strongly.
  datatype Trie = Trie(matches: (string, string) -> bool, rank: (string, string) -> nat)

  // Two patterns that match the same domain are never equally strong.
  ghost predicate Strict(t: Trie) {
    forall p: string, q: string, d: string ::
      t.matches(p, d) && t.matches(q, d) && p != q ==> t.rank(p, d) != t.rank(q, d)
  }

  predicate IsBest(t: Trie, patterns: set<string>, d: string, p: string) {
    p in patterns && t.matches(p, d) && forall q :: q in patterns && t.matches(q, d) ==> t.rank(q, d) <= t.rank(p, d)
  }

  // The search result of a trie that holds `patterns`.
  ghost function Best(t: Trie, patterns: set<string>, d: string): Option<string> {
    if p :| IsBest(t, patterns, d, p) then Some(p) else None
  }

  lemma {:induction false} SomeBest(t: Trie, patterns: set<string>, d: string)
    requires exists p :: p in patterns && t.matches(p, d)
    ensures exists p :: IsBest(t, patterns, d, p)
    decreases |patterns|
  {
    var p :| p in patterns && t.matches(p, d);
    var rest := patterns - {p};
    if exists q :: q in rest && t.matches(q, d) {
      SomeBest(t, rest, d);
      var b :| IsBest(t, rest, d, b);
      assert IsBest(t, patterns, d, if t.rank(b, d) >= t.rank(p, d) then b else p);
    } else {
      assert IsBest(t, patterns, d, p);
    }
  }

  lemma BestIs(t: Trie, patterns: set<string>, d: string, p: string)
    requires Strict(t) && IsBest(t, patterns, d, p)
    ensures Best(t, patterns, d) == Some(p)
  {
  }

  // A subset that holds the best match has the same best match.
  lemma BestOfSubset(t: Trie, sub: set<string>, full: set<string>, d: string)
    requires Strict(t) && sub <= full
    ensures Best(t, full, d) == None ==> Best(t, sub, d) == None
    ensures Best(t, full, d).Some? && Best(t, full, d).value in sub ==> Best(t, sub, d) == Best(t, full, d)
  {
    if Best(t, full, d) == None {
      if exists p :: p in full && t.matches(p, d) { SomeBest(t, full, d); }
    } else if Best(t, full, d).value in sub {
      BestIs(t, sub, d, Best(t, full, d).value);
    }
  }

  function ToLower(c: char): char {
    if 'A' <= c <= 'Z' then c - 'A' + 'a' else c
  }

  function Lower(s: string): string {
    seq(|s|, i requires 0 <= i < |s| => ToLower(s[i]))
  }

  // Removes one trailing dot.
  function TrimDot(s: string): string {
    if |s| > 0 && s[|s| - 1] == '.' then s[..|s| - 1] else s
  }

  function Canonical(s: string): string { Lower(TrimDot(s)) }

  // One dot at the end and the case of letters do not tell names apart.
  lemma CanonicalForgets(s: string)
    ensures var c := Canonical(s);
            && |c| == (if s != "" && s[|s| - 1] == '.' then |s| - 1 else |s|)
            && forall i :: 0 <= i < |c| ==> c[i] == if 'A' <= s[i] <= 'Z' then s[i] - 'A' + 'a' else s[i]
  {
  }

  // A hosts section: a value that cannot be normalised is None.
  type Section = map<string, Option<HostValue>>

  function Normalize(raw: Option<HostValue>): Option<HostValue> {
    if raw.Some? && raw.value.Alias? then Some(Alias(Lower(raw.value.domain))) else raw
  }

  // The resolver library returns names without a trailing dot.
  ghost predicate Trimmed(raw: Section) {
    forall p :: p in raw && raw[p].Some? && raw[p].value.Alias? ==> TrimDot(raw[p].value.domain) == raw[p].value.domain
  }

  const MaxSteps := 64

  // Following aliases through the complete section of a provider.
  ghost function Follow(t: Trie, raw: Section, current: string, seen: set<string>, steps: nat): Result<Target, Error>
    decreases MaxSteps + 1 - steps
  {
    var name := Canonical(current);
    if steps > MaxSteps then Err(TooDeep)
    else if name in seen then Err(Cycle)
    else match Best(t, raw.Keys, name)
      case None => Ok(Name(name))
      case Some(p) =>
        match Normalize(raw[p])
        case None => Err(BadValue(p))
        case Some(Addresses(ips)) => Ok(Ips(ips))
        case Some(Alias(d)) => Follow(t, raw, d, seen + {name}, steps + 1)
  }

  // The patterns met on the way.
  ghost function Visited(t: Trie, raw: Section, current: string, seen: set<string>, steps: nat): set<string>
    decreases MaxSteps + 1 - steps
  {
    var name := Canonical(current);
    if steps > MaxSteps || name in seen then {}
    else match Best(t, raw.Keys, name)
      case None => {}
      case Some(p) =>
        match Normalize(raw[p])
        case None => {}
        case Some(Addresses(ips)) => {p}
        case Some(Alias(d)) => {p} + Visited(t, raw, d, seen + {name}, steps + 1)
  }

  // One alias leads from a name to the next.
  ghost predicate Leads(t: Trie, raw: Section, current: string, next: string) {
    var p := Best(t, raw.Keys, Canonical(current));
    p.Some? && p.value in raw && Normalize(raw[p.value]) == Some(Alias(next))
  }

  // The pattern met at a name, if there is one.
  ghost function MetAt(t: Trie, raw: Section, current: string): set<string> {
    var p := Best(t, raw.Keys, Canonical(current));
    if p.Some? then {p.value} else {}
  }

  ghost function MetOn(t: Trie, raw: Section, walk: seq<string>): set<string> {
    if walk == [] then {} else MetOn(t, raw, walk[..|walk| - 1]) + MetAt(t, raw, walk[|walk| - 1])
  }

  function Names(walk: seq<string>): set<string> {
    set i | 0 <= i < |walk| :: Canonical(walk[i])
  }

  // Where the way ends, at a name after those in `seen`.
  ghost predicate Ends(t: Trie, raw: Section, current: string, seen: set<string>, r: Result<Target, Error>) {
    var name := Canonical(current);
    if name in seen then r == Err(Cycle)
    else match Best(t, raw.Keys, name)
      case None => r == Ok(Name(name))
      case Some(p) =>
        p in raw
        && match Normalize(raw[p])
           case None => r == Err(BadValue(p))
           case Some(Addresses(ips)) => r == Ok(Ips(ips))
           case Some(Alias(_)) => false
  }

  // A walk of different names, each leading to the next.
  ghost predicate Walked(t: Trie, raw: Section, walk: seq<string>, last: string) {
    forall i :: 0 <= i < |walk| ==> Stepped(t, raw, walk, i, last)
  }

  ghost predicate Stepped(t: Trie, raw: Section, walk: seq<string>, i: nat, last: string)
    requires i < |walk|
  {
    && Leads(t, raw, walk[i], if i + 1 < |walk| then walk[i + 1] else last)
    && Canonical(walk[i]) !in Names(walk[..i])
  }

  lemma NamesGrow(walk: seq<string>, name: string)
    ensures Names(walk + [name]) == Names(walk) + {Canonical(name)}
  {
    var all := walk + [name];
    assert all[|walk|] == name;
    assert forall i :: 0 <= i < |walk| ==> all[i] == walk[i];
  }

  lemma WalkGrows(t: Trie, raw: Section, walk: seq<string>, current: string, next: string)
    requires Walked(t, raw, walk, current) && Canonical(current) !in Names(walk) && Leads(t, raw, current, next)
    ensures Walked(t, raw, walk + [current], next)
    ensures MetOn(t, raw, walk + [current]) == MetOn(t, raw, walk) + MetAt(t, raw, current)
  {
    var all := walk + [current];
    assert all[..|walk|] == walk;
    forall i | 0 <= i < |all| ensures Stepped(t, raw, all, i, next) {
      if i < |walk| { assert Stepped(t, raw, walk, i, current) && all[..i] == walk[..i]; }
    }
  }

  lemma FollowOnce(t: Trie, raw: Section, current: string, next: string, seen: set<string>, k: nat)
    requires k <= MaxSteps && Canonical(current) !in seen && Leads(t, raw, current, next)
    ensures Follow(t, raw, current, seen, k) == Follow(t, raw, next, seen + {Canonical(current)}, k + 1)
    ensures Visited(t, raw, current, seen, k) == MetAt(t, raw, current) + Visited(t, raw, next, seen + {Canonical(current)}, k + 1)
  {
  }

  // Following from the start of a walk goes through what was met on it, and on from its end.
  lemma {:induction false} WalkIsFollowed(t: Trie, raw: Section, server: string, walk: seq<string>, last: string, k: nat)
    requires Walked(t, raw, walk, last) && k <= |walk| <= MaxSteps + 1 && server == (if walk == [] then last else walk[0])
    ensures var here := if k < |walk| then walk[k] else last;
            && Follow(t, raw, server, {}, 0) == Follow(t, raw, here, Names(walk[..k]), k)
            && Visited(t, raw, server, {}, 0) == MetOn(t, raw, walk[..k]) + Visited(t, raw, here, Names(walk[..k]), k)
  {
    if k == 0 {
      assert walk[..0] == [] && Names([]) == {};
    } else {
      WalkIsFollowed(t, raw, server, walk, last, k - 1);
      WalkStep(t, raw, walk, last, k - 1);
    }
  }

  lemma WalkStep(t: Trie, raw: Section, walk: seq<string>, last: string, k: nat)
    requires Walked(t, raw, walk, last) && k < |walk| <= MaxSteps + 1
    ensures MetOn(t, raw, walk[..k + 1]) == MetOn(t, raw, walk[..k]) + MetAt(t, raw, walk[k])
    ensures var next := if k + 1 < |walk| then walk[k + 1] else last;
            && Follow(t, raw, walk[k], Names(walk[..k]), k) == Follow(t, raw, next, Names(walk[..k + 1]), k + 1)
            && Visited(t, raw, walk[k], Names(walk[..k]), k)
               == MetAt(t, raw, walk[k]) + Visited(t, raw, next, Names(walk[..k + 1]), k + 1)
  {
    NamesGrow(walk[..k], walk[k]);
    assert walk[..k + 1] == walk[..k] + [walk[k]] && walk[..k + 1][..k] == walk[..k];
    assert Stepped(t, raw, walk, k, last);
    FollowOnce(t, raw, walk[k], if k + 1 < |walk| then walk[k + 1] else last, Names(walk[..k]), k);
  }

  // A walk that ends gives the result of following its start, and has met what that meets.
  lemma Arrive(t: Trie, raw: Section, server: string, walk: seq<string>, last: string, r: Result<Target, Error>)
    requires Walked(t, raw, walk, last) && |walk| <= MaxSteps + 1 && server == (if walk == [] then last else walk[0])
    requires if |walk| > MaxSteps then r == Err(TooDeep) else Ends(t, raw, last, Names(walk), r)
    ensures r == Follow(t, raw, server, {}, 0)
    ensures r.Ok? ==> Visited(t, raw, server, {}, 0) == MetOn(t, raw, walk) + MetAt(t, raw, last)
  {
    WalkIsFollowed(t, raw, server, walk, last, |walk|);
    assert walk[..|walk|] == walk;
  }

  // Following aliases through a set of accepted mappings, as the live resolver does.
  ghost function Trace(t: Trie, mappings: map<string, HostValue>, current: string, seen: set<string>, steps: nat)
    : Result<Target, Error>
    decreases MaxSteps + 1 - steps
  {
    if steps > MaxSteps then Err(TooDeep)
    else if current in seen then Err(Cycle)
    else match Best(t, mappings.Keys, current)
      case None => Ok(Name(current))
      case Some(p) =>
        match mappings[p]
        case Addresses(ips) => Ok(Ips(ips))
        case Alias(d) => Trace(t, mappings, Lower(d), seen + {current}, steps + 1)
  }

  ghost function Resolve(t: Trie, mappings: map<string, HostValue>, host: string): Result<Target, Error> {
    Trace(t, mappings, Canonical(host), {}, 0)
  }

  // The collected mappings are part of the section.
  ghost predicate Drawn(mappings: map<string, HostValue>, raw: Section) {
    forall p :: p in mappings ==> p in raw && Normalize(raw[p]) == Some(mappings[p])
  }

  lemma LowerTwice(s: string)
    ensures Lower(Lower(s)) == Lower(s)
  {
  }

  lemma LowerKeepsTrim(s: string)
    requires TrimDot(s) == s
    ensures TrimDot(Lower(s)) == Lower(s)
  {
  }

  // The closure refines the full table: once the patterns a server goes through have been
  // collected, the collected mappings lead it to the same target, whatever else they hold.
  lemma {:induction false} ClosureRefinesSection(
    t: Trie, raw: Section, mappings: map<string, HostValue>, current: string, seen: set<string>, steps: nat)
    requires Strict(t) && Trimmed(raw) && Drawn(mappings, raw)
    requires Follow(t, raw, current, seen, steps).Ok?
    requires Visited(t, raw, current, seen, steps) <= mappings.Keys
    ensures Trace(t, mappings, Canonical(current), seen, steps) == Follow(t, raw, current, seen, steps)
    decreases MaxSteps + 1 - steps
  {
    var name := Canonical(current);
    assert mappings.Keys <= raw.Keys;
    BestOfSubset(t, mappings.Keys, raw.Keys, name);
    match Best(t, raw.Keys, name)
    case None =>
    case Some(p) =>
      var value := Normalize(raw[p]).value;
      assert p in Visited(t, raw, current, seen, steps);
      if value.Alias? {
        LowerKeepsTrim(raw[p].value.domain);
        LowerTwice(raw[p].value.domain);
        ClosureRefinesSection(t, raw, mappings, value.domain, seen + {name}, steps + 1);
      }
  }

  method Search(t: Trie, patterns: set<string>, d: string) returns (r: Option<string>)
    requires Strict(t)
    ensures r == Best(t, patterns, d)
  {
    r := None;
    var rest := patterns;
    while rest != {}
      invariant rest <= patterns
      invariant r.None? ==> forall q :: q in patterns - rest ==> !t.matches(q, d)
      invariant r.Some? ==> IsBest(t, patterns - rest, d, r.value)
      decreases |rest|
    {
      var p :| p in rest;
      if t.matches(p, d) && (r.None? || t.rank(p, d) > t.rank(r.value, d)) { r := Some(p); }
      rest := rest - {p};
    }
    if r.Some? {
      assert patterns - rest == patterns;
      BestIs(t, patterns, d, r.value);
    }
  }

  // One accepted alias leads from a name to the next.
  ghost predicate Redirects(t: Trie, mappings: map<string, HostValue>, current: string, next: string) {
    var p := Best(t, mappings.Keys, current);
    p.Some? && p.value in mappings && mappings[p.value].Alias? && Lower(mappings[p.value].domain) == next
  }

  // Where the live resolver stops, at a name after those in `seen`.
  ghost predicate Stops(t: Trie, mappings: map<string, HostValue>, current: string, seen: set<string>, r: Result<Target, Error>) {
    if current in seen then r == Err(Cycle)
    else match Best(t, mappings.Keys, current)
      case None => r == Ok(Name(current))
      case Some(p) => p in mappings && mappings[p].Addresses? && r == Ok(Ips(mappings[p].ips))
  }

  function Distinguished(path: seq<string>): set<string> { set name | name in path }

  // Different names, each redirected to the next.
  ghost predicate Redirected(t: Trie, mappings: map<string, HostValue>, path: seq<string>) {
    forall i :: 0 <= i < |path| - 1 ==> RedirectedAt(t, mappings, path, i)
  }

  ghost predicate RedirectedAt(t: Trie, mappings: map<string, HostValue>, path: seq<string>, i: nat)
    requires i < |path| - 1
  {
    Redirects(t, mappings, path[i], path[i + 1]) && path[i] !in Distinguished(path[..i])
  }

  lemma PathGrows(t: Trie, mappings: map<string, HostValue>, path: seq<string>, next: string)
    requires path != [] && Redirected(t, mappings, path)
    requires var last := |path| - 1; path[last] !in Distinguished(path[..last]) && Redirects(t, mappings, path[last], next)
    ensures Redirected(t, mappings, path + [next])
    ensures Distinguished((path + [next])[..|path|]) == Distinguished(path[..|path| - 1]) + {path[|path| - 1]}
  {
    var all := path + [next];
    forall i | 0 <= i < |all| - 1 ensures RedirectedAt(t, mappings, all, i) {
      assert all[..i] == path[..i];
      if i < |path| - 1 { assert RedirectedAt(t, mappings, path, i); }
    }
    assert all[..|path|] == path[..|path| - 1] + [path[|path| - 1]];
  }

  lemma {:induction false} PathIsTraced(t: Trie, mappings: map<string, HostValue>, path: seq<string>, k: nat)
    requires Redirected(t, mappings, path) && k < |path| <= MaxSteps + 2
    ensures var last := |path| - 1;
            Trace(t, mappings, path[k], Distinguished(path[..k]), k) == Trace(t, mappings, path[last], Distinguished(path[..last]), last)
    decreases |path| - k
  {
    if k < |path| - 1 {
      assert RedirectedAt(t, mappings, path, k);
      assert path[..k + 1] == path[..k] + [path[k]];
      assert Distinguished(path[..k + 1]) == Distinguished(path[..k]) + {path[k]};
      PathIsTraced(t, mappings, path, k + 1);
    }
  }

  // A path that stops gives what its first name resolves to.
  lemma PathResolves(t: Trie, mappings: map<string, HostValue>, host: string, path: seq<string>, r: Result<Target, Error>)
    requires path != [] && path[0] == Canonical(host) && Redirected(t, mappings, path) && |path| <= MaxSteps + 2
    requires var last := |path| - 1;
             if last > MaxSteps then r == Err(TooDeep) else Stops(t, mappings, path[last], Distinguished(path[..last]), r)
    ensures r == Resolve(t, mappings, host)
  {
    PathIsTraced(t, mappings, path, 0);
    assert Distinguished(path[..0]) == {};
  }

  // ---- What resolving means ----

  // A pattern no other one of the table is stronger than, for a name.
  ghost predicate Strongest(t: Trie, patterns: set<string>, name: string, p: string) {
    p in patterns && t.matches(p, name) && forall q :: q in patterns && t.matches(q, name) ==> t.rank(q, name) <= t.rank(p, name)
  }

  ghost predicate AliasAt(t: Trie, mappings: map<string, HostValue>, name: string, next: string) {
    exists p :: Strongest(t, mappings.Keys, name, p) && mappings[p].Alias? && Lower(mappings[p].domain) == next
  }

  ghost predicate TargetAt(t: Trie, mappings: map<string, HostValue>, name: string, target: Target) {
    || (target == Name(name) && forall p :: p in mappings ==> !t.matches(p, name))
    || exists p :: Strongest(t, mappings.Keys, name, p) && mappings[p].Addresses? && target == Ips(mappings[p].ips)
  }

  // At most 65 different names, from the host on, each an alias of the next, and the last one
  // no alias.
  ghost predicate ResolvesBy(t: Trie, mappings: map<string, HostValue>, host: string, path: seq<string>, target: Target) {
    && 0 < |path| <= 65 && path[0] == Canonical(host)
    && (forall i, j :: 0 <= i < j < |path| ==> path[i] != path[j])
    && (forall i :: 0 <= i < |path| - 1 ==> AliasAt(t, mappings, path[i], path[i + 1]))
    && TargetAt(t, mappings, path[|path| - 1], target)
  }

  // A host resolves to a target exactly when such a path leads there.
  lemma ResolvesExactly(t: Trie, mappings: map<string, HostValue>, host: string, target: Target)
    requires Strict(t)
    ensures Resolve(t, mappings, host) == Ok(target) <==> exists path :: ResolvesBy(t, mappings, host, path, target)
  {
    if Resolve(t, mappings, host) == Ok(target) { var path := PathOf(t, mappings, host, target); }
    if path :| ResolvesBy(t, mappings, host, path, target) {
      DeclaredIsPath(t, mappings, host, path, target);
      PathResolves(t, mappings, host, path, Ok(target));
    }
  }

  lemma PathOf(t: Trie, mappings: map<string, HostValue>, host: string, target: Target) returns (path: seq<string>)
    requires Strict(t) && Resolve(t, mappings, host) == Ok(target)
    ensures ResolvesBy(t, mappings, host, path, target)
  {
    var start := [Canonical(host)];
    assert start[..0] == [] && Distinguished(start[..0]) == {};
    path := PathToTarget(t, mappings, start, target);
    assert path[0] == start[0];
    PathIsDeclared(t, mappings, host, path, target);
  }

  lemma StrongestIsBest(t: Trie, patterns: set<string>, name: string)
    requires Strict(t)
    ensures forall p :: Strongest(t, patterns, name, p) <==> Best(t, patterns, name) == Some(p)
    ensures Best(t, patterns, name) == None <==> forall p :: p in patterns ==> !t.matches(p, name)
  {
    forall p ensures Strongest(t, patterns, name, p) <==> Best(t, patterns, name) == Some(p) {
      if Strongest(t, patterns, name, p) { BestIs(t, patterns, name, p); }
    }
    if Best(t, patterns, name) == None && exists p :: p in patterns && t.matches(p, name) { SomeBest(t, patterns, name); }
  }

  lemma {:induction false} PathToTarget(t: Trie, mappings: map<string, HostValue>, path: seq<string>, target: Target) returns (full: seq<string>)
    requires path != [] && |path| <= MaxSteps + 2 && Redirected(t, mappings, path)
    requires var last := |path| - 1; Trace(t, mappings, path[last], Distinguished(path[..last]), last) == Ok(target)
    ensures path <= full && |full| <= MaxSteps + 1 && Redirected(t, mappings, full)
    ensures var last := |full| - 1; Stops(t, mappings, full[last], Distinguished(full[..last]), Ok(target))
    decreases MaxSteps + 3 - |path|
  {
    var last := |path| - 1;
    var p := Best(t, mappings.Keys, path[last]);
    if p.Some? && mappings[p.value].Alias? {
      var next := Lower(mappings[p.value].domain);
      PathGrows(t, mappings, path, next);
      full := PathToTarget(t, mappings, path + [next], target);
    } else {
      full := path;
    }
  }

  lemma PathIsDeclared(t: Trie, mappings: map<string, HostValue>, host: string, path: seq<string>, target: Target)
    requires Strict(t) && path != [] && |path| <= MaxSteps + 1 && path[0] == Canonical(host) && Redirected(t, mappings, path)
    requires var last := |path| - 1; Stops(t, mappings, path[last], Distinguished(path[..last]), Ok(target))
    ensures ResolvesBy(t, mappings, host, path, target)
  {
    forall i, j | 0 <= i < j < |path| ensures path[i] != path[j] {
      if j < |path| - 1 { assert RedirectedAt(t, mappings, path, j); }
      assert path[i] in path[..j];
    }
    forall i | 0 <= i < |path| - 1 ensures AliasAt(t, mappings, path[i], path[i + 1]) {
      assert RedirectedAt(t, mappings, path, i);
      StrongestIsBest(t, mappings.Keys, path[i]);
    }
    StrongestIsBest(t, mappings.Keys, path[|path| - 1]);
  }

  lemma DeclaredIsPath(t: Trie, mappings: map<string, HostValue>, host: string, path: seq<string>, target: Target)
    requires Strict(t) && ResolvesBy(t, mappings, host, path, target)
    ensures Redirected(t, mappings, path) && |path| <= MaxSteps + 1
    ensures var last := |path| - 1; Stops(t, mappings, path[last], Distinguished(path[..last]), Ok(target))
  {
    forall i | 0 <= i < |path| - 1 ensures RedirectedAt(t, mappings, path, i) {
      assert AliasAt(t, mappings, path[i], path[i + 1]);
      StrongestIsBest(t, mappings.Keys, path[i]);
    }
    StrongestIsBest(t, mappings.Keys, path[|path| - 1]);
  }

  ghost predicate RawAliasAt(t: Trie, raw: Section, name: string, next: string) {
    exists p :: Strongest(t, raw.Keys, name, p) && raw[p].Some? && raw[p].value.Alias? && Canonical(raw[p].value.domain) == next
  }

  ghost predicate RawTargetAt(t: Trie, raw: Section, name: string, target: Target) {
    || (target == Name(name) && forall p :: p in raw ==> !t.matches(p, name))
    || exists p :: Strongest(t, raw.Keys, name, p) && raw[p].Some? && raw[p].value.Addresses? && target == Ips(raw[p].value.ips)
  }

  // The same through a complete section, from a step and the names before it on.
  ghost predicate FollowsBy(t: Trie, raw: Section, current: string, seen: set<string>, path: seq<string>, target: Target) {
    && path != [] && path[0] == Canonical(current)
    && (forall i, j :: 0 <= i < j < |path| ==> path[i] != path[j])
    && (forall i :: 0 <= i < |path| ==> path[i] !in seen)
    && (forall i :: 0 <= i < |path| - 1 ==> RawAliasAt(t, raw, path[i], path[i + 1]))
    && RawTargetAt(t, raw, path[|path| - 1], target)
  }

  lemma FollowsExactly(t: Trie, raw: Section, server: string, target: Target)
    requires Strict(t)
    ensures Follow(t, raw, server, {}, 0) == Ok(target) <==> exists path :: |path| <= 65 && FollowsBy(t, raw, server, {}, path, target)
  {
    if Follow(t, raw, server, {}, 0) == Ok(target) { var path := WayOf(t, raw, server, {}, 0, target); }
    if path :| |path| <= 65 && FollowsBy(t, raw, server, {}, path, target) { WayLeads(t, raw, server, {}, 0, path, target); }
  }

  lemma CanonicalOfLower(s: string)
    ensures Canonical(Lower(s)) == Canonical(s)
  {
    assert s != "" ==> (Lower(s)[|s| - 1] == '.' <==> s[|s| - 1] == '.');
    assert forall i :: 0 <= i < |s| ==> ToLower(ToLower(s[i])) == ToLower(s[i]);
    assert |TrimDot(Lower(s))| == |TrimDot(s)|;
  }

  lemma {:induction false} WayOf(t: Trie, raw: Section, current: string, seen: set<string>, steps: nat, target: Target)
    returns (path: seq<string>)
    requires Strict(t) && Follow(t, raw, current, seen, steps) == Ok(target)
    ensures |path| + steps <= MaxSteps + 1 && FollowsBy(t, raw, current, seen, path, target)
    decreases MaxSteps + 1 - steps
  {
    var name := Canonical(current);
    StrongestIsBest(t, raw.Keys, name);
    var p := Best(t, raw.Keys, name);
    if p.Some? && Normalize(raw[p.value]).value.Alias? {
      var next := Normalize(raw[p.value]).value.domain;
      CanonicalOfLower(raw[p.value].value.domain);
      var rest := WayOf(t, raw, next, seen + {name}, steps + 1, target);
      path := [name] + rest;
      WayGrows(t, raw, current, next, seen, rest, target);
    } else {
      path := [name];
    }
  }

  lemma WayGrows(t: Trie, raw: Section, current: string, next: string, seen: set<string>, rest: seq<string>, target: Target)
    requires Canonical(current) !in seen && FollowsBy(t, raw, next, seen + {Canonical(current)}, rest, target)
    requires RawAliasAt(t, raw, Canonical(current), Canonical(next))
    ensures FollowsBy(t, raw, current, seen, [Canonical(current)] + rest, target)
  {
    var path := [Canonical(current)] + rest;
    forall i | 0 <= i < |path| - 1 ensures RawAliasAt(t, raw, path[i], path[i + 1]) {
      if i > 0 { assert RawAliasAt(t, raw, rest[i - 1], rest[i]); }
    }
  }

  lemma {:induction false} WayLeads(
    t: Trie, raw: Section, current: string, seen: set<string>, steps: nat, path: seq<string>, target: Target)
    requires Strict(t) && |path| + steps <= MaxSteps + 1 && FollowsBy(t, raw, current, seen, path, target)
    ensures Follow(t, raw, current, seen, steps) == Ok(target)
    decreases |path|
  {
    StrongestIsBest(t, raw.Keys, path[0]);
    if |path| > 1 {
      assert RawAliasAt(t, raw, path[0], path[1]);
      var p := Best(t, raw.Keys, path[0]).value;
      CanonicalOfLower(raw[p].value.domain);
      RestOfWay(t, raw, current, Lower(raw[p].value.domain), seen, path, target);
      WayLeads(t, raw, Lower(raw[p].value.domain), seen + {path[0]}, steps + 1, path[1..], target);
    }
  }

  lemma RestOfWay(t: Trie, raw: Section, current: string, next: string, seen: set<string>, path: seq<string>, target: Target)
    requires FollowsBy(t, raw, current, seen, path, target) && |path| > 1 && Canonical(next) == path[1]
    ensures FollowsBy(t, raw, next, seen + {path[0]}, path[1..], target)
  {
    var rest := path[1..];
    forall i | 0 <= i < |rest| - 1 ensures RawAliasAt(t, raw, rest[i], rest[i + 1]) {
      assert RawAliasAt(t, raw, path[i + 1], path[i + 2]);
    }
  }

  // One step of the live resolver: where it stops, or the next name.
  method Look(t: Trie, mappings: map<string, HostValue>, current: string, seen: set<string>)
    returns (stop: Option<Result<Target, Error>>, next: string)
    requires Strict(t)
    ensures stop.Some? ==> Stops(t, mappings, current, seen, stop.value)
    ensures stop.None? ==> current !in seen && Redirects(t, mappings, current, next)
  {
    next := "";
    if current in seen { return Some(Err(Cycle)), next; }
    var pattern := Search(t, mappings.Keys, current);
    if pattern.None? { return Some(Ok(Name(current))), next; }
    var value := mappings[pattern.value];
    if value.Addresses? { return Some(Ok(Ips(value.ips))), next; }
    stop, next := None, Lower(value.domain);
  }

  // traceProviderHost: resolves a host and reports the aliases it went through.
  method TraceProviderHost(t: Trie, mappings: map<string, HostValue>, host: string)
    returns (r: Result<Target, Error>, aliases: seq<string>)
    requires Strict(t)
    ensures r == Resolve(t, mappings, host)
    ensures |aliases| <= MaxSteps + 1
    ensures Redirected(t, mappings, [Canonical(host)] + aliases)
    ensures r.Ok? && r.value.Name? ==> r.value.domain == ([Canonical(host)] + aliases)[|aliases|]
  {
    r, aliases := TracePath(t, mappings, host);
    PathResolves(t, mappings, host, [Canonical(host)] + aliases, r);
  }

  method TracePath(t: Trie, mappings: map<string, HostValue>, host: string)
    returns (r: Result<Target, Error>, aliases: seq<string>)
    requires Strict(t)
    ensures |aliases| <= MaxSteps + 1
    ensures var path := [Canonical(host)] + aliases;
            && Redirected(t, mappings, path)
            && (if |aliases| > MaxSteps then r == Err(TooDeep)
                else Stops(t, mappings, path[|aliases|], Distinguished(path[..|aliases|]), r))
  {
    var current := Canonical(host);
    var seen: set<string> := {};
    aliases := [];
    var steps := 0;
    ghost var path := [current];
    while steps <= MaxSteps
      invariant |aliases| == steps <= MaxSteps + 1
      invariant path == [Canonical(host)] + aliases && current == path[steps]
      invariant Redirected(t, mappings, path) && seen == Distinguished(path[..steps])
    {
      var stop, next := Look(t, mappings, current, seen);
      if stop.Some? { return stop.value, aliases; }
      PathGrows(t, mappings, path, next);
      path := path + [next];
      seen, current := seen + {current}, next;
      aliases := aliases + [current];
      steps := steps + 1;
    }
    r := Err(TooDeep);
  }

  // The mappings collected for one provider, filled in while its servers are followed.
  class HostCollector {
    var collected: map<string, HostValue>

    constructor ()
      ensures collected == map[]
    {
      collected := map[];
    }

    // collectHostChain
    method CollectChain(t: Trie, raw: Section, server: string) returns (r: Result<Target, Error>)
      requires Strict(t) && Drawn(collected, raw)
      modifies this
      ensures Drawn(collected, raw) && old(collected).Keys <= collected.Keys
      ensures r == Follow(t, raw, server, {}, 0)
      ensures r.Ok? ==> collected.Keys == old(collected).Keys + Visited(t, raw, server, {}, 0)
    {
      ghost var way, last;
      r, way, last := Walk(t, raw, server);
      Arrive(t, raw, server, way, last, r);
    }

    // One server more.
    method CollectServer(t: Trie, raw: Section, expected: map<string, Target>, server: string) returns (r: Result<Target, Error>)
      requires Strict(t) && Gathered(t, raw, HostSet(collected, expected)) && server !in expected
      modifies this
      ensures r == Follow(t, raw, server, {}, 0)
      ensures r.Ok? ==> Gathered(t, raw, HostSet(collected, expected[server := r.value]))
    {
      r := CollectChain(t, raw, server);
      NeededGrows(t, raw, expected.Keys, server);
      assert expected.Keys + {server} == expected[server := if r.Ok? then r.value else Ips([])].Keys;
    }

    method Walk(t: Trie, raw: Section, server: string) returns (r: Result<Target, Error>, ghost way: seq<string>, ghost last: string)
      requires Strict(t) && Drawn(collected, raw)
      modifies this
      ensures Drawn(collected, raw) && old(collected).Keys <= collected.Keys
      ensures |way| <= MaxSteps + 1 && server == (if way == [] then last else way[0])
      ensures Walked(t, raw, way, last)
      ensures if |way| > MaxSteps then r == Err(TooDeep) else Ends(t, raw, last, Names(way), r)
      ensures r.Ok? ==> collected.Keys == old(collected).Keys + MetOn(t, raw, way) + MetAt(t, raw, last)
    {
      var current := server;
      var seen: set<string> := {};
      var steps := 0;
      way, last := [], server;
      while steps <= MaxSteps
        invariant |way| == steps <= MaxSteps + 1 && seen == Names(way) && last == current
        invariant OnWay(t, raw, old(collected).Keys, server, way, current)
      {
        var stop, next := Advance(t, raw, old(collected).Keys, server, way, current, seen);
        if stop.Some? {
          r := stop.value;
          return;
        }
        way, last := way + [current], next;
        seen, current := seen + {Canonical(current)}, next;
        steps := steps + 1;
      }
      r := Err(TooDeep);
    }

    // What has been collected since `before` was met on the way from a server to a name.
    ghost predicate OnWay(t: Trie, raw: Section, before: set<string>, server: string, way: seq<string>, current: string)
      reads this
    {
      && Drawn(collected, raw) && collected.Keys == before + MetOn(t, raw, way)
      && server == (if way == [] then current else way[0]) && Walked(t, raw, way, current)
    }

    // One turn of the loop.
    method Advance(t: Trie, raw: Section, ghost before: set<string>, ghost server: string, ghost way: seq<string>, current: string, seen: set<string>)
      returns (stop: Option<Result<Target, Error>>, next: string)
      requires Strict(t) && seen == Names(way) && OnWay(t, raw, before, server, way, current)
      modifies this
      ensures Drawn(collected, raw) && old(collected).Keys <= collected.Keys
      ensures stop.Some? ==> Ends(t, raw, current, Names(way), stop.value)
      ensures stop.Some? && stop.value.Ok? ==> collected.Keys == before + MetOn(t, raw, way) + MetAt(t, raw, current)
      ensures stop.None? ==> OnWay(t, raw, before, server, way + [current], next) && seen + {Canonical(current)} == Names(way + [current])
    {
      stop, next := Hop(t, raw, current, seen);
      if stop.None? {
        WalkGrows(t, raw, way, current, next);
        NamesGrow(way, current);
      }
    }

    // One step of the walk: the end of the way, or the next name.
    method Hop(t: Trie, raw: Section, current: string, seen: set<string>) returns (stop: Option<Result<Target, Error>>, next: string)
      requires Strict(t) && Drawn(collected, raw)
      modifies this
      ensures Drawn(collected, raw) && old(collected).Keys <= collected.Keys
      ensures stop.Some? ==> Ends(t, raw, current, seen, stop.value)
      ensures stop.None? ==> Canonical(current) !in seen && Leads(t, raw, current, next)
      ensures stop.None? || stop.value.Ok? ==> collected.Keys == old(collected).Keys + MetAt(t, raw, current)
    {
      next := "";
      var name := Canonical(current);
      if name in seen { return Some(Err(Cycle)), next; }
      var pattern, value := Meet(t, raw, name);
      if pattern.None? { return Some(Ok(Name(name))), next; }
      if value.None? { return Some(Err(BadValue(pattern.value))), next; }
      if value.value.Addresses? { return Some(Ok(Ips(value.value.ips))), next; }
      stop, next := None, value.value.domain;
    }

    // The best mapping for a name, collected.
    method Meet(t: Trie, raw: Section, name: string) returns (pattern: Option<string>, value: Option<HostValue>)
      requires Strict(t) && Drawn(collected, raw)
      modifies this
      ensures Drawn(collected, raw) && pattern == Best(t, raw.Keys, name)
      ensures pattern.Some? ==> pattern.value in raw && value == Normalize(raw[pattern.value])
      ensures collected.Keys == old(collected).Keys + if pattern.Some? && value.Some? then {pattern.value} else {}
    {
      value := None;
      pattern := Search(t, raw.Keys, name);
      if pattern.Some? { value := Collect(raw, pattern.value); }
    }

    // A mapping is normalised the first time it is met.
    method Collect(raw: Section, p: string) returns (value: Option<HostValue>)
      requires Drawn(collected, raw) && p in raw
      modifies this
      ensures Drawn(collected, raw) && value == Normalize(raw[p])
      ensures collected.Keys == old(collected).Keys + if value.Some? then {p} else {}
    {
      if p in collected { return Some(collected[p]); }
      value := Normalize(raw[p]);
      if value.Some? { collected := collected[p := value.value]; }
    }
  }

  // A provider's accepted hosts: the mappings its servers need, and where each must end.
  datatype HostSet = HostSet(mappings: map<string, HostValue>, expected: map<string, Target>)

  // Patterns are valid and do not differ by case only.
  ghost predicate PatternsOk(valid: string -> bool, hosts: Section) {
    && (forall p :: p in hosts ==> valid(p))
    && (forall p, q :: p in hosts && q in hosts && Lower(p) == Lower(q) ==> p == q)
  }

  ghost predicate SectionOf(hosts: Section, raw: Section) {
    && (forall p :: p in hosts ==> Lower(p) in raw && raw[Lower(p)] == hosts[p])
    && (forall c :: c in raw ==> exists p :: p in hosts && Lower(p) == c)
  }

  // The section by lower-case pattern.
  method CanonicalPatterns(valid: string -> bool, hosts: Section) returns (raw: Option<Section>)
    ensures raw.Some? <==> PatternsOk(valid, hosts)
    ensures raw.Some? ==> SectionOf(hosts, raw.value)
  {
    var section: Section, rest := map[], hosts.Keys;
    while rest != {}
      invariant rest <= hosts.Keys
      invariant forall p :: p in hosts.Keys - rest ==> valid(p) && Lower(p) in section && section[Lower(p)] == hosts[p]
      invariant forall c :: c in section ==> exists p :: p in hosts.Keys - rest && Lower(p) == c
      invariant forall p, q :: p in hosts.Keys - rest && q in hosts.Keys - rest && Lower(p) == Lower(q) ==> p == q
      decreases |rest|
    {
      var pattern :| pattern in rest;
      if Lower(pattern) in section || !valid(pattern) { return None; }
      section, rest := section[Lower(pattern) := hosts[pattern]], rest - {pattern};
    }
    raw := Some(section);
  }

  lemma SectionIsUnique(hosts: Section, a: Section, b: Section)
    requires SectionOf(hosts, a) && SectionOf(hosts, b)
    ensures a == b
  {
    assert forall c :: c in a ==> c in b && b[c] == a[c];
    assert forall c :: c in b ==> c in a;
  }

  // The patterns that following the servers goes through.
  ghost function Needed(t: Trie, raw: Section, servers: set<string>): set<string> {
    set server, p | server in servers && p in Visited(t, raw, server, {}, 0) :: p
  }

  // Without hosts or servers nothing is read: every server stands for itself.
  function Plain(servers: set<string>): HostSet {
    HostSet(map[], map server | server in servers :: Name(server))
  }

  // extractProviderHosts
  method ExtractProviderHosts(t: Trie, valid: string -> bool, servers: set<string>, hosts: Section)
    returns (r: Result<HostSet, Error>, ghost raw: Section)
    requires Strict(t)
    ensures hosts == map[] || servers == {} ==> r == Ok(HostSet(map[], map server | server in servers :: Name(server)))
    ensures hosts != map[] && servers != {} && !PatternsOk(valid, hosts) ==> r == Err(BadPattern)
    ensures hosts != map[] && servers != {} && PatternsOk(valid, hosts) ==>
              && SectionOf(hosts, raw)
              && (r.Ok? <==> forall server :: server in servers ==> Follow(t, raw, server, {}, 0).Ok?)
              // the main property: the collected part answers every server as the complete section does
              && (r.Ok? ==> r.value.expected.Keys == servers && Drawn(r.value.mappings, raw))
              && (r.Ok? ==> r.value.mappings.Keys == Needed(t, raw, servers))
              && (r.Ok? && Trimmed(raw) ==>
                    forall server :: server in servers ==>
                      && Follow(t, raw, server, {}, 0) == Ok(r.value.expected[server])
                      && Resolve(t, r.value.mappings, server) == Ok(r.value.expected[server]))
  {
    raw := map[];
    if hosts == map[] || servers == {} { return Ok(Plain(servers)), raw; }
    var section := CanonicalPatterns(valid, hosts);
    if section.None? { return Err(BadPattern), raw; }
    raw := section.value;
    r := ExtractSection(t, servers, section.value);
  }

  method ExtractSection(t: Trie, servers: set<string>, raw: Section) returns (r: Result<HostSet, Error>)
    requires Strict(t)
    ensures r.Ok? ==> r.value.expected.Keys == servers && Drawn(r.value.mappings, raw)
    ensures r.Ok? ==> r.value.mappings.Keys == Needed(t, raw, servers)
    ensures r.Ok? <==> forall server :: server in servers ==> Follow(t, raw, server, {}, 0).Ok?
    ensures r.Ok? && Trimmed(raw) ==>
              forall server :: server in servers ==>
                && Follow(t, raw, server, {}, 0) == Ok(r.value.expected[server])
                && Resolve(t, r.value.mappings, server) == Ok(r.value.expected[server])
  {
    r := FollowServers(t, servers, raw);
    if r.Ok? { CollectedServersResolve(t, raw, r.value); }
  }

  // What has been collected is what the servers so far need, and each has its target.
  ghost predicate Gathered(t: Trie, raw: Section, hosts: HostSet) {
    && Drawn(hosts.mappings, raw) && hosts.mappings.Keys == Needed(t, raw, hosts.expected.Keys)
    && forall server :: server in hosts.expected ==> Follow(t, raw, server, {}, 0) == Ok(hosts.expected[server])
  }

  method FollowServers(t: Trie, servers: set<string>, raw: Section) returns (r: Result<HostSet, Error>)
    requires Strict(t)
    ensures r.Ok? ==> r.value.expected.Keys == servers && Gathered(t, raw, r.value)
    ensures r.Err? ==> exists server :: server in servers && Follow(t, raw, server, {}, 0).Err?
  {
    var collector := new HostCollector();
    var expected: map<string, Target> := map[];
    var rest := servers;
    while rest != {}
      invariant rest <= servers && expected.Keys == servers - rest
      invariant Gathered(t, raw, HostSet(collector.collected, expected))
      decreases |rest|
    {
      var server :| server in rest;
      var target := collector.CollectServer(t, raw, expected, server);
      if target.Err? { return Err(target.error); }
      expected, rest := expected[server := target.value], rest - {server};
    }
    r := Ok(HostSet(collector.collected, expected));
  }

  lemma NeededGrows(t: Trie, raw: Section, servers: set<string>, server: string)
    ensures Needed(t, raw, servers + {server}) == Needed(t, raw, servers) + Visited(t, raw, server, {}, 0)
  {
  }

  lemma CollectedServersResolve(t: Trie, raw: Section, hosts: HostSet)
    requires Strict(t) && Drawn(hosts.mappings, raw)
    requires hosts.mappings.Keys == Needed(t, raw, hosts.expected.Keys)
    requires forall server :: server in hosts.expected ==> Follow(t, raw, server, {}, 0) == Ok(hosts.expected[server])
    ensures Trimmed(raw) ==>
              forall server :: server in hosts.expected ==>
                Resolve(t, hosts.mappings, server) == Ok(hosts.expected[server])
  {
    if Trimmed(raw) {
      forall server | server in hosts.expected
        ensures Resolve(t, hosts.mappings, server) == Ok(hosts.expected[server])
      {
        ClosureRefinesSection(t, raw, hosts.mappings, server, {}, 0);
      }
    }
  }

  // A provider among the definitions: its candidate hosts, and whether its last source was unusable.
  datatype Definition = Definition(hosts: HostSet, hostError: bool)

  ghost predicate Usable(d: Definition) {
    d.hostError ==> d.hosts != HostSet(map[], map[])
  }

  ghost predicate Covers(ds: set<Definition>, merged: map<string, HostValue>) {
    forall d, p :: d in ds && p in d.hosts.mappings ==> p in merged && merged[p] == d.hosts.mappings[p]
  }

  // `merged` holds exactly the mappings of all the definitions, which agree on them.
  ghost predicate IsMerge(ds: set<Definition>, merged: map<string, HostValue>) {
    Covers(ds, merged) && forall p :: p in merged ==> exists d :: d in ds && p in d.hosts.mappings
  }

  // Every provider's servers end exactly where that provider expects.
  ghost predicate Serves(t: Trie, ds: set<Definition>, merged: map<string, HostValue>) {
    forall d, server :: d in ds && server in d.hosts.expected ==>
      Resolve(t, merged, server) == Ok(d.hosts.expected[server])
  }

  ghost predicate Mergeable(t: Trie, ds: set<Definition>) {
    && (forall d :: d in ds ==> Usable(d))
    && exists merged :: IsMerge(ds, merged) && Serves(t, ds, merged)
  }

  // A provider whose source was unusable takes part while it still has hosts.
  lemma MergeableExactly(t: Trie, ds: set<Definition>)
    ensures Mergeable(t, ds) <==>
              && (forall d :: d in ds && d.hostError ==> d.hosts.mappings != map[] || d.hosts.expected != map[])
              && exists merged :: IsMerge(ds, merged) && Serves(t, ds, merged)
  {
  }

  function Elements(ds: seq<Definition>): (s: set<Definition>) {
    set d | d in ds
  }

  lemma MergeIsUnique(ds: set<Definition>, m: map<string, HostValue>, n: map<string, HostValue>)
    requires IsMerge(ds, m) && IsMerge(ds, n)
    ensures m == n
  {
  }

  // `expected` holds exactly the expectations of all the definitions, which agree on them.
  ghost predicate IsExpected(ds: set<Definition>, expected: map<string, Target>) {
    && (forall d, s :: d in ds && s in d.hosts.expected ==> s in expected && expected[s] == d.hosts.expected[s])
    && (forall s :: s in expected ==> exists d :: d in ds && s in d.hosts.expected)
  }

  lemma MergeGrows(ds: set<Definition>, d: Definition, merged: map<string, HostValue>)
    requires IsMerge(ds, merged)
    ensures (exists p :: p in d.hosts.mappings && p in merged && merged[p] != d.hosts.mappings[p])
            ==> forall m :: !Covers(ds + {d}, m)
    ensures !(exists p :: p in d.hosts.mappings && p in merged && merged[p] != d.hosts.mappings[p])
            ==> IsMerge(ds + {d}, merged + d.hosts.mappings)
  {
    var all := ds + {d};
    if p :| p in d.hosts.mappings && p in merged && merged[p] != d.hosts.mappings[p] {
      var e :| e in ds && p in e.hosts.mappings;
      assert d in all && e in all;
      forall m: map<string, HostValue> ensures !Covers(all, m) {
        assert p !in m || m[p] != d.hosts.mappings[p] || m[p] != e.hosts.mappings[p];
      }
    } else {
      var sum := merged + d.hosts.mappings;
      forall e, p | e in all && p in e.hosts.mappings ensures p in sum && sum[p] == e.hosts.mappings[p] {
        if e in ds { assert p in merged; }
      }
      forall p | p in sum ensures exists e :: e in all && p in e.hosts.mappings {
        if p in d.hosts.mappings { assert d in all; } else {
          var e :| e in ds && p in e.hosts.mappings;
          assert e in all;
        }
      }
    }
  }

  lemma ExpectationsGrow(t: Trie, ds: set<Definition>, d: Definition, expected: map<string, Target>)
    requires IsExpected(ds, expected)
    ensures (exists s :: s in d.hosts.expected && s in expected && expected[s] != d.hosts.expected[s])
            ==> forall m :: !Serves(t, ds + {d}, m)
    ensures !(exists s :: s in d.hosts.expected && s in expected && expected[s] != d.hosts.expected[s])
            ==> IsExpected(ds + {d}, expected + d.hosts.expected)
  {
    var all := ds + {d};
    if s :| s in d.hosts.expected && s in expected && expected[s] != d.hosts.expected[s] {
      var e :| e in ds && s in e.hosts.expected;
      assert d in all && e in all;
      forall m: map<string, HostValue> ensures !Serves(t, all, m) {
        assert Resolve(t, m, s) != Ok(d.hosts.expected[s]) || Resolve(t, m, s) != Ok(e.hosts.expected[s]);
      }
    } else {
      var sum := expected + d.hosts.expected;
      forall e, s | e in all && s in e.hosts.expected ensures s in sum && sum[s] == e.hosts.expected[s] {
        if e in ds { assert s in expected; }
      }
      forall s | s in sum ensures exists e :: e in all && s in e.hosts.expected {
        if s in d.hosts.expected { assert d in all; } else {
          var e :| e in ds && s in e.hosts.expected;
          assert e in all;
        }
      }
    }
  }

  // buildProviderHostResolver: merge, then check every expected target on the merged table.
  method BuildProviderHostResolver(t: Trie, ds: seq<Definition>) returns (r: Result<map<string, HostValue>, Error>)
    requires Strict(t)
    ensures r.Ok? <==> Mergeable(t, Elements(ds))
    ensures r.Ok? ==> IsMerge(Elements(ds), r.value) && Serves(t, Elements(ds), r.value)
  {
    var merged: map<string, HostValue> := map[];
    var expected: map<string, Target> := map[];
    for i := 0 to |ds|
      invariant IsMerge(Elements(ds[..i]), merged) && IsExpected(Elements(ds[..i]), expected)
      invariant forall d :: d in ds[..i] ==> Usable(d)
    {
      var d := ds[i];
      assert d in Elements(ds) && Elements(ds[..i + 1]) == Elements(ds[..i]) + {d} <= Elements(ds);
      if d.hostError && d.hosts == HostSet(map[], map[]) { return Err(Rejected); }
      MergeGrows(Elements(ds[..i]), d, merged);
      ExpectationsGrow(t, Elements(ds[..i]), d, expected);
      if (exists p :: p in d.hosts.mappings && p in merged && merged[p] != d.hosts.mappings[p])
         || (exists s :: s in d.hosts.expected && s in expected && expected[s] != d.hosts.expected[s]) {
        NoneServesMore(t, Elements(ds[..i + 1]), Elements(ds));
        return Err(Conflict);
      }
      merged := merged + d.hosts.mappings;
      expected := expected + d.hosts.expected;
    }
    assert ds[..|ds|] == ds;
    var ok := CheckExpected(t, merged, expected);
    NoOtherTable(t, Elements(ds), merged, expected);
    r := if ok then Ok(merged) else Err(Rejected);
  }

  lemma NoneServesMore(t: Trie, some: set<Definition>, all: set<Definition>)
    requires some <= all
    ensures (forall m :: !Covers(some, m)) || (forall m :: !Serves(t, some, m)) ==> !Mergeable(t, all)
  {
    if m :| IsMerge(all, m) && Serves(t, all, m) {
      assert Covers(some, m) && Serves(t, some, m);
    }
  }

  // The merged table is the only candidate, and its expectations are those of the definitions.
  lemma NoOtherTable(t: Trie, ds: set<Definition>, merged: map<string, HostValue>, expected: map<string, Target>)
    requires IsMerge(ds, merged) && IsExpected(ds, expected) && forall d :: d in ds ==> Usable(d)
    ensures Mergeable(t, ds) <==> Serves(t, ds, merged)
    ensures Serves(t, ds, merged) <==> forall s :: s in expected ==> Resolve(t, merged, s) == Ok(expected[s])
  {
    if m :| IsMerge(ds, m) && Serves(t, ds, m) { MergeIsUnique(ds, m, merged); }
    if Serves(t, ds, merged) {
      forall s | s in expected ensures Resolve(t, merged, s) == Ok(expected[s]) {
        var d :| d in ds && s in d.hosts.expected;
      }
    }
  }

  method CheckExpected(t: Trie, merged: map<string, HostValue>, expected: map<string, Target>) returns (ok: bool)
    requires Strict(t)
    ensures ok <==> forall s :: s in expected ==> Resolve(t, merged, s) == Ok(expected[s])
  {
    var rest := expected.Keys;
    while rest != {}
      invariant rest <= expected.Keys
      invariant forall s :: s in expected && s !in rest ==> Resolve(t, merged, s) == Ok(expected[s])
      decreases |rest|
    {
      var server :| server in rest;
      var got, _ := TraceProviderHost(t, merged, server);
      if got != Ok(expected[server]) { return false; }
      rest := rest - {server};
    }
    ok := true;
  }

  // Neither the outcome nor the merged table depends on the order of the definitions.
  lemma OrderOfDefinitionsIsIrrelevant(
    t: Trie, ds: seq<Definition>, es: seq<Definition>, m: map<string, HostValue>, n: map<string, HostValue>)
    requires multiset(ds) == multiset(es)
    ensures Mergeable(t, Elements(ds)) <==> Mergeable(t, Elements(es))
    ensures IsMerge(Elements(ds), m) && IsMerge(Elements(es), n) ==> m == n
  {
    forall d ensures d in ds <==> d in es {
      assert d in ds <==> d in multiset(ds);
      assert d in es <==> d in multiset(es);
    }
    assert Elements(ds) == Elements(es);
    if IsMerge(Elements(ds), m) && IsMerge(Elements(es), n) {
      MergeIsUnique(Elements(ds), m, n);
    }
  }
}
