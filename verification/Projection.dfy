/** The projection: the published nodes, with identities derived from provider and node
    names, and their lookup by user and by public identifier.
    */
module Projection {
  import opened Common
  import opened Text
  import DisplayNames

  datatype Proxy = Proxy(id: nat, name: string, kind: nat, udp: bool, uot: bool)

  datatype ProviderView = ProviderView(
    id: string, name: string, prefix: string, includes: string, excludes: string, kinds: set<nat>, proxies: seq<Proxy>)

  datatype Options = Options(masterKey: string, advertise: string, port: nat, prefixProvider: bool)

  datatype Entry = Entry(
    providerId: string, providerName: string, proxyName: string, displayName: string, publicId: string,
    host: string, port: nat, username: string, password: string, proxy: Proxy, udp: bool)

  datatype Snapshot = Snapshot(entries: seq<Entry>, byUser: map<string, Entry>, byId: map<string, Entry>)

  // Digests, case folding and regular expressions.
  datatype Libraries = Libraries(
    digest: string -> string,
    keyedDigest: (string, string) -> string,
    fold: string -> string,
    compiles: string -> bool,
    matches: (string, string) -> bool)

  // ---- What is published ----

  predicate Selected(x: Libraries, v: ProviderView, p: Proxy) {
    && (v.kinds == {} || p.kind in v.kinds)
    && (v.includes == "" || x.matches(v.includes, p.name))
    && (v.excludes == "" || !x.matches(v.excludes, p.name))
  }

  function CleanChar(c: char): char {
    if c == '=' then '-' else if c < ' ' || c == '\U{7F}' then ' ' else c
  }

  function SurgeName(raw: string): string {
    var value := TrimSpace(Map(CleanChar, raw));
    if value == "" then "Unnamed external node"
    else if value[0] == '#' || value[0] == ';' then "Node " + value
    else value
  }

  function NodeKey(v: ProviderView, p: Proxy): string { TrimSpace(v.name) + "\0" + p.name }

  function Prefix(v: ProviderView): string {
    if TrimSpace(v.prefix) == "" then TrimSpace(v.name) else TrimSpace(v.prefix)
  }

  function MakeEntry(x: Libraries, o: Options, v: ProviderView, p: Proxy): Entry {
    var key := NodeKey(v, p);
    Entry(v.id, v.name, p.name, SurgeName(if o.prefixProvider then Prefix(v) + " · " + p.name else p.name),
          "n_" + x.digest(key), o.advertise, o.port, "surgeeb_" + x.keyedDigest(o.masterKey, "user:" + key),
          x.keyedDigest(o.masterKey, "pass:" + key), p, p.udp || p.uot)
  }

  function Picked(x: Libraries, o: Options, v: ProviderView, p: Proxy): seq<Entry> {
    if Selected(x, v, p) then [MakeEntry(x, o, v, p)] else []
  }

  function EntriesOf(x: Libraries, o: Options, v: ProviderView, proxies: seq<Proxy>): seq<Entry> {
    FlatMap(p => Picked(x, o, v, p), proxies)
  }

  // Every selected node, provider after provider, before names are disambiguated.
  function Collected(x: Libraries, o: Options, views: seq<ProviderView>): seq<Entry> {
    FlatMap((v: ProviderView) => EntriesOf(x, o, v, v.proxies), views)
  }

  function Users(entries: seq<Entry>): seq<string> { Map((e: Entry) => e.username, entries) }

  function Ids(entries: seq<Entry>): seq<string> { Map((e: Entry) => e.publicId, entries) }

  function Names(entries: seq<Entry>): seq<string> { Map((e: Entry) => e.displayName, entries) }

  function ViewIds(views: seq<ProviderView>): seq<string> { Map((v: ProviderView) => v.id, views) }

  function ViewNames(x: Libraries, views: seq<ProviderView>): seq<string> {
    Map((v: ProviderView) => x.fold(TrimSpace(v.name)), views)
  }

  predicate ViewOk(x: Libraries, v: ProviderView) {
    && v.id != "" && TrimSpace(v.name) != ""
    && (v.includes == "" || x.compiles(v.includes)) && (v.excludes == "" || x.compiles(v.excludes))
  }

  ghost predicate ViewsOk(x: Libraries, views: seq<ProviderView>) {
    (forall v :: v in views ==> ViewOk(x, v)) && Distinct(ViewIds(views)) && Distinct(ViewNames(x, views))
  }

  ghost predicate EntriesOk(entries: seq<Entry>) {
    Distinct(Users(entries)) && Distinct(Ids(entries))
  }

  predicate OptionsOk(o: Options) {
    |o.masterKey| >= 32 && TrimSpace(o.advertise) != "" && o.port != 0
  }

  // The inputs a projection is built from.
  ghost predicate Buildable(x: Libraries, o: Options, views: seq<ProviderView>) {
    OptionsOk(o) && ViewsOk(x, views) && EntriesOk(Collected(x, o, views))
  }

  // An index of the entries by a key.
  ghost predicate IndexedBy(index: map<string, Entry>, entries: seq<Entry>, key: Entry -> string) {
    && (forall e :: e in entries ==> key(e) in index && index[key(e)] == e)
    && (forall k :: k in index ==> index[k] in entries && key(index[k]) == k)
  }

  ghost predicate Renamed(raw: seq<Entry>, entries: seq<Entry>) {
    && |raw| == |entries|
    && (forall i :: 0 <= i < |raw| ==> entries[i] == raw[i].(displayName := entries[i].displayName))
    && DisplayNames.Disambiguated(Names(raw), Names(entries))
  }

  ghost predicate Built(x: Libraries, o: Options, views: seq<ProviderView>, s: Snapshot) {
    && Renamed(Collected(x, o, views), s.entries)
    && IndexedBy(s.byUser, s.entries, (e: Entry) => e.username)
    && IndexedBy(s.byId, s.entries, (e: Entry) => e.publicId)
  }

  lemma IndexIsUnique(a: map<string, Entry>, b: map<string, Entry>, entries: seq<Entry>, key: Entry -> string)
    requires IndexedBy(a, entries, key) && IndexedBy(b, entries, key)
    ensures a == b
  {
  }

  // The inputs determine the snapshot.
  lemma BuildIsDeterministic(x: Libraries, o: Options, views: seq<ProviderView>, a: Snapshot, b: Snapshot)
    requires Built(x, o, views, a) && Built(x, o, views, b)
    ensures a == b
  {
    var raw := Collected(x, o, views);
    DisplayNames.ResultIsUnique(Names(raw), Names(a.entries), Names(b.entries));
    forall i | 0 <= i < |raw| ensures a.entries[i] == b.entries[i] {
      assert Names(a.entries)[i] == Names(b.entries)[i];
    }
    assert a.entries == b.entries;
    IndexIsUnique(a.byUser, b.byUser, a.entries, (e: Entry) => e.username);
    IndexIsUnique(a.byId, b.byId, a.entries, (e: Entry) => e.publicId);
  }

  // ---- Lookup ----

  function EntryByUser(s: Snapshot, user: string): Option<Entry> {
    if user in s.byUser then Some(s.byUser[user]) else None
  }

  function EntryById(s: Snapshot, id: string): Option<Entry> {
    if id in s.byId then Some(s.byId[id]) else None
  }

  function Verify(x: Libraries, s: Snapshot, user: string, pass: string): bool {
    var entry := EntryByUser(s, user);
    var expected := if entry.Some? then entry.value.password else x.keyedDigest(seq(32, _ => '\0'), "unknown");
    entry.Some? && expected == pass
  }

  // A linear scan of the entries.
  function Scan(entries: seq<Entry>, key: Entry -> string, k: string): Option<Entry> {
    if entries == [] then None else if key(entries[0]) == k then Some(entries[0]) else Scan(entries[1..], key, k)
  }

  lemma {:induction false} ScanFinds(index: map<string, Entry>, entries: seq<Entry>, rest: seq<Entry>, key: Entry -> string, k: string)
    requires IndexedBy(index, entries, key) && forall e :: e in rest ==> e in entries
    requires k in index ==> index[k] in rest
    ensures Scan(rest, key, k) == if k in index then Some(index[k]) else None
  {
    if rest != [] && key(rest[0]) != k {
      assert rest == [rest[0]] + rest[1..];
      ScanFinds(index, entries, rest[1..], key, k);
    } else if rest != [] {
      assert rest[0] in entries;
    }
  }

  // Both indexes agree with a scan of the entries, credentials are accepted exactly when some
  // entry carries them, and that entry alone is the one the user is routed to.
  lemma LookupIsScan(x: Libraries, o: Options, views: seq<ProviderView>, s: Snapshot, user: string, pass: string, id: string)
    requires Built(x, o, views, s)
    ensures EntryByUser(s, user) == Scan(s.entries, (e: Entry) => e.username, user)
    ensures EntryById(s, id) == Scan(s.entries, (e: Entry) => e.publicId, id)
    ensures Verify(x, s, user, pass) <==> exists e :: e in s.entries && e.username == user && e.password == pass
    ensures forall e :: e in s.entries && e.username == user ==> EntryByUser(s, user) == Some(e)
  {
    ScanFinds(s.byUser, s.entries, s.entries, (e: Entry) => e.username, user);
    ScanFinds(s.byId, s.entries, s.entries, (e: Entry) => e.publicId, id);
  }

  lemma RenamedKeepsKeys(raw: seq<Entry>, entries: seq<Entry>)
    requires Renamed(raw, entries)
    ensures Users(raw) == Users(entries) && Ids(raw) == Ids(entries) && Distinct(Names(entries))
  {
    DisplayNames.NamesAreDistinct(Names(raw), Names(entries));
    forall i | 0 <= i < |raw| ensures Users(raw)[i] == Users(entries)[i] && Ids(raw)[i] == Ids(entries)[i] {
      assert entries[i] == raw[i].(displayName := entries[i].displayName);
    }
  }

  // ---- What a snapshot holds ----

  // A node passes the filters of its provider.
  ghost predicate Passes(x: Libraries, v: ProviderView, p: Proxy) {
    && (v.kinds != {} ==> p.kind in v.kinds)
    && (v.includes != "" ==> x.matches(v.includes, p.name))
    && (v.excludes != "" ==> !x.matches(v.excludes, p.name))
  }

  // An entry is a node, under the identity of its provider's and its own name.
  ghost predicate IsNode(x: Libraries, o: Options, v: ProviderView, p: Proxy, e: Entry) {
    var key := TrimSpace(v.name) + "\0" + p.name;
    && e.providerId == v.id && e.providerName == v.name && e.proxyName == p.name && e.proxy == p
    && e.host == o.advertise && e.port == o.port && (e.udp <==> p.udp || p.uot)
    && e.publicId == "n_" + x.digest(key)
    && e.username == "surgeeb_" + x.keyedDigest(o.masterKey, "user:" + key)
    && e.password == x.keyedDigest(o.masterKey, "pass:" + key)
  }

  // The place of a node: its provider and its position there.
  datatype Place = Place(view: nat, proxy: nat)

  predicate Earlier(a: Place, b: Place) { a.view < b.view || (a.view == b.view && a.proxy < b.proxy) }

  predicate Within(views: seq<ProviderView>, a: Place) { a.view < |views| && a.proxy < |views[a.view].proxies| }

  ghost predicate Shown(x: Libraries, views: seq<ProviderView>, a: Place) {
    Within(views, a) && Passes(x, views[a.view], views[a.view].proxies[a.proxy])
  }

  // The places of all nodes that pass, each once, in the order of views and proxies.
  ghost predicate Places(x: Libraries, views: seq<ProviderView>, at: seq<Place>) {
    && (forall m, n :: 0 <= m < n < |at| ==> Earlier(at[m], at[n]))
    && (forall n :: 0 <= n < |at| ==> Shown(x, views, at[n]))
    && (forall a: Place :: Shown(x, views, a) ==> a in at)
  }

  // The entries are those nodes.
  ghost predicate Lists(x: Libraries, o: Options, views: seq<ProviderView>, entries: seq<Entry>, at: seq<Place>) {
    && |at| == |entries| && Places(x, views, at)
    && forall n :: 0 <= n < |at| ==> Shown(x, views, at[n]) && IsListed(x, o, views, entries[n], at[n])
  }

  ghost predicate IsListed(x: Libraries, o: Options, views: seq<ProviderView>, e: Entry, a: Place)
    requires Within(views, a)
  {
    && IsNode(x, o, views[a.view], views[a.view].proxies[a.proxy], e)
    && IsNamed(o, views[a.view], views[a.view].proxies[a.proxy], e.displayName)
  }

  // A node's name is shown cleaned, behind the prefix of its provider if that is asked for,
  // and with a number if it has been taken.
  ghost predicate IsNamed(o: Options, v: ProviderView, p: Proxy, name: string) {
    var prefix := if TrimSpace(v.prefix) != "" then TrimSpace(v.prefix) else TrimSpace(v.name);
    var base := SurgeName(if o.prefixProvider then prefix + " · " + p.name else p.name);
    name == base || exists n: nat :: name == DisplayNames.Numbered(base, n)
  }

  lemma EntriesAreTheNodes(x: Libraries, o: Options, views: seq<ProviderView>, s: Snapshot) returns (at: seq<Place>)
    requires Built(x, o, views, s)
    ensures Lists(x, o, views, s.entries, at)
  {
    at := CollectedPlaces(x, o, views);
    forall n | 0 <= n < |at| ensures Shown(x, views, at[n]) && IsListed(x, o, views, s.entries[n], at[n]) {
      assert MadeAt(x, o, views, Collected(x, o, views)[n], at[n]);
      EntryIsListed(x, o, views, s, n, at[n]);
    }
  }

  lemma EntryIsListed(x: Libraries, o: Options, views: seq<ProviderView>, s: Snapshot, n: nat, a: Place)
    requires Built(x, o, views, s) && n < |s.entries| && MadeAt(x, o, views, Collected(x, o, views)[n], a)
    ensures IsListed(x, o, views, s.entries[n], a)
  {
    var raw := Collected(x, o, views);
    assert s.entries[n] == raw[n].(displayName := s.entries[n].displayName);
    assert Names(raw)[n] == raw[n].displayName && Names(s.entries)[n] == s.entries[n].displayName;
    assert DisplayNames.NamedAt(Names(raw), Names(s.entries), n);
  }

  // Before names are disambiguated.
  ghost predicate Makes(x: Libraries, o: Options, views: seq<ProviderView>, entries: seq<Entry>, at: seq<Place>) {
    && |at| == |entries|
    && forall n :: 0 <= n < |at| ==> MadeAt(x, o, views, entries[n], at[n])
  }

  ghost predicate MadeAt(x: Libraries, o: Options, views: seq<ProviderView>, e: Entry, a: Place) {
    Within(views, a) && e == MakeEntry(x, o, views[a.view], views[a.view].proxies[a.proxy])
  }

  lemma {:induction false} CollectedPlaces(x: Libraries, o: Options, views: seq<ProviderView>) returns (at: seq<Place>)
    ensures Places(x, views, at) && Makes(x, o, views, Collected(x, o, views), at)
  {
    if views == [] {
      at := [];
    } else {
      var k := |views| - 1;
      var v := views[k];
      var before := CollectedPlaces(x, o, views[..k]);
      var more := FlatMapKeeps(p => Picked(x, o, v, p), v.proxies, p => Selected(x, v, p), p => MakeEntry(x, o, v, p));
      assert Collected(x, o, views) == Collected(x, o, views[..k]) + EntriesOf(x, o, v, v.proxies);
      at := Joined(before, k, more);
      OneViewMore(x, o, views, EntriesOf(x, o, v, v.proxies), before, more);
      var a, b := Collected(x, o, views[..k]), EntriesOf(x, o, v, v.proxies);
      forall n | 0 <= n < |at| ensures MadeAt(x, o, views, (a + b)[n], at[n]) {
        if n >= |a| { MadeLast(x, o, views, b, more, n - |a|); }
        MadeByOneMore(x, o, views, a, b, before, more, n);
      }
    }
  }

  // The nodes of the last view that pass, and what they make.
  ghost predicate LastView(x: Libraries, o: Options, views: seq<ProviderView>, entries: seq<Entry>, more: seq<nat>) {
    && views != []
    && var v := views[|views| - 1]; Kept(v.proxies, p => Selected(x, v, p), p => MakeEntry(x, o, v, p), entries, more)
  }

  function Joined(before: seq<Place>, k: nat, more: seq<nat>): seq<Place> {
    before + Map((i: nat) => Place(k, i), more)
  }

  lemma MadeByOneMore(
    x: Libraries, o: Options, views: seq<ProviderView>, a: seq<Entry>, b: seq<Entry>, before: seq<Place>, more: seq<nat>, n: nat)
    requires views != [] && |before| == |a| && |more| == |b| && n < |a| + |b|
    requires n < |a| ==> MadeAt(x, o, views[..|views| - 1], a[n], before[n])
    requires n >= |a| ==> MadeAt(x, o, views, b[n - |a|], Place(|views| - 1, more[n - |a|]))
    ensures MadeAt(x, o, views, (a + b)[n], Joined(before, |views| - 1, more)[n])
  {
    JoinedAt(before, |views| - 1, more, n);
    if n < |a| { MadeBefore(x, o, views, a[n], before[n]); } else { assert (a + b)[n] == b[n - |a|]; }
  }

  lemma JoinedAt(before: seq<Place>, k: nat, more: seq<nat>, n: nat)
    requires n < |before| + |more|
    ensures Joined(before, k, more)[n] == if n < |before| then before[n] else Place(k, more[n - |before|])
  {
  }

  lemma MadeBefore(x: Libraries, o: Options, views: seq<ProviderView>, e: Entry, a: Place)
    requires views != [] && MadeAt(x, o, views[..|views| - 1], e, a)
    ensures MadeAt(x, o, views, e, a)
  {
  }

  lemma MadeLast(x: Libraries, o: Options, views: seq<ProviderView>, b: seq<Entry>, more: seq<nat>, n: nat)
    requires LastView(x, o, views, b, more) && n < |more|
    ensures MadeAt(x, o, views, b[n], Place(|views| - 1, more[n])) && Shown(x, views, Place(|views| - 1, more[n]))
  {
    assert Selected(x, views[|views| - 1], views[|views| - 1].proxies[more[n]]);
  }

  lemma OneViewMore(x: Libraries, o: Options, views: seq<ProviderView>, entries: seq<Entry>, before: seq<Place>, more: seq<nat>)
    requires LastView(x, o, views, entries, more) && Places(x, views[..|views| - 1], before)
    ensures Places(x, views, Joined(before, |views| - 1, more))
  {
    var k, at := |views| - 1, Joined(before, |views| - 1, more);
    forall n | 0 <= n < |at| ensures Shown(x, views, at[n]) {
      if n < |before| {
        assert at[n] == before[n] && Shown(x, views[..k], before[n]);
      } else {
        MadeLast(x, o, views, entries, more, n - |before|);
      }
    }
    forall i | 0 <= i < |before| ensures before[i].view < k { assert Shown(x, views[..k], before[i]); }
    forall m, n | 0 <= m < n < |at| ensures Earlier(at[m], at[n]) { PlacesAscend(views, before, more, m, n); }
    forall c: Place | Shown(x, views, c) ensures c in at { PlaceIsThere(x, o, views, entries, before, more, c); }
  }

  lemma PlaceIsThere(
    x: Libraries, o: Options, views: seq<ProviderView>, entries: seq<Entry>, before: seq<Place>, more: seq<nat>, c: Place)
    requires LastView(x, o, views, entries, more) && Places(x, views[..|views| - 1], before) && Shown(x, views, c)
    ensures c in Joined(before, |views| - 1, more)
  {
    var k := |views| - 1;
    if c.view < k {
      assert Shown(x, views[..k], c) && c in before;
    } else {
      PlaceOf(x, views[k], more, k, c.proxy);
    }
  }

  lemma PlacesAscend(views: seq<ProviderView>, before: seq<Place>, more: seq<nat>, m: nat, n: nat)
    requires views != [] && m < n < |before| + |more|
    requires forall i :: 0 <= i < |before| ==> before[i].view < |views| - 1
    requires n < |before| ==> Earlier(before[m], before[n])
    requires m >= |before| ==> more[m - |before|] < more[n - |before|]
    ensures var at := Joined(before, |views| - 1, more); Earlier(at[m], at[n])
  {
  }

  lemma PlaceOf(x: Libraries, v: ProviderView, more: seq<nat>, k: nat, i: nat)
    requires i < |v.proxies| && Passes(x, v, v.proxies[i])
    requires Selected(x, v, v.proxies[i]) ==> i in more
    ensures Place(k, i) in Map((j: nat) => Place(k, j), more)
  {
    var n :| 0 <= n < |more| && more[n] == i;
    assert Map((j: nat) => Place(k, j), more)[n] == Place(k, i);
  }

  function KeyAt(views: seq<ProviderView>, a: Place): string
    requires Within(views, a)
  {
    TrimSpace(views[a.view].name) + "\0" + views[a.view].proxies[a.proxy].name
  }

  function UserAt(x: Libraries, o: Options, views: seq<ProviderView>, a: Place): string
    requires Within(views, a)
  {
    x.keyedDigest(o.masterKey, "user:" + KeyAt(views, a))
  }

  function IdAt(x: Libraries, views: seq<ProviderView>, a: Place): string
    requires Within(views, a)
  {
    x.digest(KeyAt(views, a))
  }

  // The derived names of two published nodes differ.
  ghost predicate KeysDiffer(x: Libraries, o: Options, views: seq<ProviderView>) {
    forall a: Place, b: Place :: Shown(x, views, a) && Shown(x, views, b) && a != b ==> Differ(x, o, views, a, b)
  }

  ghost predicate Differ(x: Libraries, o: Options, views: seq<ProviderView>, a: Place, b: Place)
    requires Within(views, a) && Within(views, b)
  {
    UserAt(x, o, views, a) != UserAt(x, o, views, b) && IdAt(x, views, a) != IdAt(x, views, b)
  }

  // A projection can be built exactly from usable options, named providers with filters that
  // compile, and nodes that derive different names.
  lemma BuildableExactly(x: Libraries, o: Options, views: seq<ProviderView>)
    ensures Buildable(x, o, views) <==>
              && |o.masterKey| >= 32 && TrimSpace(o.advertise) != "" && o.port > 0
              && (forall v :: v in views ==> Usable(x, v))
              && (forall i, j :: 0 <= i < j < |views| ==>
                    views[i].id != views[j].id && x.fold(TrimSpace(views[i].name)) != x.fold(TrimSpace(views[j].name)))
              && KeysDiffer(x, o, views)
  {
    var at := CollectedPlaces(x, o, views);
    KeysAreEntries(x, o, views, Collected(x, o, views), at);
    ViewsExactly(x, views);
  }

  ghost predicate Usable(x: Libraries, v: ProviderView) {
    && v.id != "" && TrimSpace(v.name) != ""
    && (v.includes != "" ==> x.compiles(v.includes)) && (v.excludes != "" ==> x.compiles(v.excludes))
  }

  lemma ViewsExactly(x: Libraries, views: seq<ProviderView>)
    ensures ViewsOk(x, views) <==>
              && (forall v :: v in views ==> Usable(x, v))
              && (forall i, j :: 0 <= i < j < |views| ==>
                    views[i].id != views[j].id && x.fold(TrimSpace(views[i].name)) != x.fold(TrimSpace(views[j].name)))
  {
    var ids, names := ViewIds(views), ViewNames(x, views);
    assert forall i :: 0 <= i < |views| ==> ids[i] == views[i].id && names[i] == x.fold(TrimSpace(views[i].name));
    assert forall v :: ViewOk(x, v) <==> Usable(x, v);
  }

  lemma KeysAreEntries(x: Libraries, o: Options, views: seq<ProviderView>, entries: seq<Entry>, at: seq<Place>)
    requires Places(x, views, at) && Makes(x, o, views, entries, at)
    ensures KeysDiffer(x, o, views) <==> EntriesOk(entries)
  {
    if KeysDiffer(x, o, views) { DistinctEntries(x, o, views, entries, at); }
    forall a: Place, b: Place | Shown(x, views, a) && Shown(x, views, b) && a != b && EntriesOk(entries)
      ensures Differ(x, o, views, a, b)
    {
      DistinctKeys(x, o, views, entries, at, a, b);
    }
  }

  lemma DistinctEntries(x: Libraries, o: Options, views: seq<ProviderView>, entries: seq<Entry>, at: seq<Place>)
    requires Places(x, views, at) && Makes(x, o, views, entries, at) && KeysDiffer(x, o, views)
    ensures EntriesOk(entries)
  {
    forall m: nat, n: nat | m < n < |entries| ensures Apart(entries, m, n) { TwoDiffer(x, o, views, entries, at, m, n); }
    AllApart(entries);
  }

  ghost predicate Apart(entries: seq<Entry>, m: nat, n: nat)
    requires m < |entries| && n < |entries|
  {
    entries[m].username != entries[n].username && entries[m].publicId != entries[n].publicId
  }

  lemma AllApart(entries: seq<Entry>)
    requires forall m: nat, n: nat :: m < n < |entries| ==> Apart(entries, m, n)
    ensures EntriesOk(entries)
  {
    var users, ids := Users(entries), Ids(entries);
    forall m: nat, n: nat | m < n < |entries| ensures users[m] != users[n] && ids[m] != ids[n] { assert Apart(entries, m, n); }
  }

  lemma TwoDiffer(x: Libraries, o: Options, views: seq<ProviderView>, entries: seq<Entry>, at: seq<Place>, m: nat, n: nat)
    requires Places(x, views, at) && Makes(x, o, views, entries, at) && KeysDiffer(x, o, views) && m < n < |at|
    ensures Users(entries)[m] != Users(entries)[n] && Ids(entries)[m] != Ids(entries)[n]
  {
    KeysOfTwo(x, o, views, entries, at, m, n);
    assert Differ(x, o, views, at[m], at[n]);
  }

  lemma DistinctKeys(x: Libraries, o: Options, views: seq<ProviderView>, entries: seq<Entry>, at: seq<Place>, a: Place, b: Place)
    requires Places(x, views, at) && Makes(x, o, views, entries, at) && EntriesOk(entries)
    requires Shown(x, views, a) && Shown(x, views, b) && a != b
    ensures Differ(x, o, views, a, b)
  {
    var m :| 0 <= m < |at| && at[m] == a;
    var n :| 0 <= n < |at| && at[n] == b;
    if m < n { KeysOfTwo(x, o, views, entries, at, m, n); } else { KeysOfTwo(x, o, views, entries, at, n, m); }
  }

  lemma KeysOfTwo(x: Libraries, o: Options, views: seq<ProviderView>, entries: seq<Entry>, at: seq<Place>, m: nat, n: nat)
    requires Places(x, views, at) && Makes(x, o, views, entries, at) && m < n < |at|
    ensures Shown(x, views, at[m]) && Shown(x, views, at[n]) && at[m] != at[n]
    ensures Users(entries)[m] == Users(entries)[n] <==> UserAt(x, o, views, at[m]) == UserAt(x, o, views, at[n])
    ensures Ids(entries)[m] == Ids(entries)[n] <==> IdAt(x, views, at[m]) == IdAt(x, views, at[n])
  {
    assert Earlier(at[m], at[n]) && MadeAt(x, o, views, entries[m], at[m]) && MadeAt(x, o, views, entries[n], at[n]);
    SameTail("surgeeb_", UserAt(x, o, views, at[m]), UserAt(x, o, views, at[n]));
    SameTail("n_", IdAt(x, views, at[m]), IdAt(x, views, at[n]));
  }

  lemma SameTail(front: string, a: string, b: string)
    ensures front + a == front + b <==> a == b
  {
    if front + a == front + b { assert (front + a)[|front|..] == a && (front + b)[|front|..] == b; }
  }

  // A name a line of a policy can carry.
  predicate SafeName(s: string) {
    s != "" && s[0] != '#' && s[0] != ';' && Clean(s)
  }

  // Cleaning makes a name safe, and leaves a safe one alone.
  lemma SurgeNameIsSafe(raw: string)
    ensures SafeName(SurgeName(raw)) && (SafeName(raw) ==> SurgeName(raw) == raw)
  {
    TrimmedIsClean(raw);
    NodeNameIsSafe(TrimSpace(Map(CleanChar, raw)));
    if SafeName(raw) { CleanIsKept(raw); }
  }

  lemma NodeNameIsSafe(s: string)
    requires Clean(s)
    ensures SafeName("Unnamed external node") && (s != "" && s[0] != '#' && s[0] != ';' ==> SafeName(s))
    ensures s != "" ==> SafeName("Node " + s)
  {
    if s != "" { BehindNode(s); }
  }

  lemma CleanIsKept(raw: string)
    requires Clean(raw)
    ensures Map(CleanChar, raw) == raw
  {
    forall i | 0 <= i < |raw| ensures Map(CleanChar, raw)[i] == raw[i] {
      assert raw[i] >= ' ' && raw[i] != '=' && raw[i] != '\U{7F}';
      assert Map(CleanChar, raw)[i] == CleanChar(raw[i]) == raw[i];
    }
  }

  lemma TrimmedIsClean(raw: string)
    ensures Clean(TrimSpace(Map(CleanChar, raw)))
  {
    var cleaned := Map(CleanChar, raw);
    var from, to := TrimIsExact(cleaned);
    assert forall i :: 0 <= i < to - from ==> cleaned[from..to][i] == CleanChar(raw[from + i]);
  }

  // But for its first character and for being there at all.
  predicate Clean(s: string) {
    && (s != "" ==> !Space(s[0]) && !Space(s[|s| - 1]))
    && forall i :: 0 <= i < |s| ==> s[i] >= ' ' && s[i] != '=' && s[i] != '\U{7F}'
  }

  lemma BehindNode(s: string)
    requires s != "" && Clean(s)
    ensures SafeName("Node " + s)
  {
    var r := "Node " + s;
    assert forall i :: 5 <= i < |r| ==> r[i] == s[i - 5];
  }

  // Every published name is safe.
  lemma NamesAreSafe(x: Libraries, o: Options, views: seq<ProviderView>, s: Snapshot)
    requires Built(x, o, views, s)
    ensures forall e :: e in s.entries ==> SafeName(e.displayName)
  {
    var at := EntriesAreTheNodes(x, o, views, s);
    forall e | e in s.entries ensures SafeName(e.displayName) {
      var n :| 0 <= n < |at| && s.entries[n] == e;
      assert IsListed(x, o, views, e, at[n]);
      NameIsSafe(o, views[at[n].view], views[at[n].view].proxies[at[n].proxy], e.displayName);
    }
  }

  lemma NameIsSafe(o: Options, v: ProviderView, p: Proxy, name: string)
    requires IsNamed(o, v, p, name)
    ensures SafeName(name)
  {
    var base := SurgeName(if o.prefixProvider then Prefix(v) + " · " + p.name else p.name);
    SurgeNameIsSafe(if o.prefixProvider then Prefix(v) + " · " + p.name else p.name);
    if name != base {
      var n: nat :| name == DisplayNames.Numbered(base, n);
      NumberedIsSafe(base, n);
    }
  }

  lemma NumberedIsSafe(base: string, n: nat)
    requires SafeName(base)
    ensures SafeName(DisplayNames.Numbered(base, n))
  {
    DisplayNames.NumberedReadsBack(base, n);
    var name, k := DisplayNames.Numbered(base, n), |base|;
    assert forall i :: 0 <= i < k ==> name[i] == name[..k][i];
    assert forall i :: k <= i < k + 3 ==> name[i] == name[k..k + 3][i - k];
  }

  // ---- The order of the providers ----

  // Reordering providers changes neither whether a snapshot is built nor which nodes are
  // published under which credentials.
  lemma OrderKeepsIdentities(x: Libraries, o: Options, a: seq<ProviderView>, b: seq<ProviderView>)
    requires multiset(a) == multiset(b)
    ensures Buildable(x, o, a) <==> Buildable(x, o, b)
    ensures multiset(Collected(x, o, a)) == multiset(Collected(x, o, b))
  {
    SameElements(a, b);
    MapPermutes((v: ProviderView) => v.id, a, b);
    DistinctPermutes(ViewIds(a), ViewIds(b));
    MapPermutes((v: ProviderView) => x.fold(TrimSpace(v.name)), a, b);
    DistinctPermutes(ViewNames(x, a), ViewNames(x, b));
    FlatMapPermutes((v: ProviderView) => EntriesOf(x, o, v, v.proxies), a, b);
    var ea, eb := Collected(x, o, a), Collected(x, o, b);
    MapPermutes((e: Entry) => e.username, ea, eb);
    DistinctPermutes(Users(ea), Users(eb));
    MapPermutes((e: Entry) => e.publicId, ea, eb);
    DistinctPermutes(Ids(ea), Ids(eb));
  }

  // A user routed before a reordering is routed to the same node, with the same password, after it.
  lemma OrderKeepsRoutes(x: Libraries, o: Options, a: seq<ProviderView>, b: seq<ProviderView>, s: Snapshot, t: Snapshot, user: string)
    requires multiset(a) == multiset(b) && Built(x, o, a, s) && Built(x, o, b, t) && EntryByUser(s, user).Some?
    ensures EntryByUser(t, user).Some?
    ensures EntryByUser(t, user).value == EntryByUser(s, user).value.(displayName := EntryByUser(t, user).value.displayName)
  {
    OrderKeepsIdentities(x, o, a, b);
    var ra, rb := Collected(x, o, a), Collected(x, o, b);
    SameElements(ra, rb);
    var e := s.byUser[user];
    assert e in s.entries;
    var i :| 0 <= i < |s.entries| && s.entries[i] == e;
    assert s.entries[i] == ra[i].(displayName := e.displayName) && ra[i] in rb;
    var j :| 0 <= j < |rb| && rb[j] == ra[i];
    assert t.entries[j] == rb[j].(displayName := t.entries[j].displayName);
    assert t.entries[j] in t.entries;
  }

  // ---- Building ----

  ghost predicate Seen(seen: set<string>, keys: seq<string>) {
    forall k :: k in seen <==> k in keys
  }

  // Duplicates are found as soon as a prefix has one.
  lemma DuplicateSpoils<T>(a: seq<T>, b: seq<T>)
    requires !Distinct(a)
    ensures !Distinct(a + b)
  {
    var i, j :| 0 <= i < j < |a| && a[i] == a[j];
    assert (a + b)[i] == (a + b)[j];
  }

  lemma AddEntry(entries: seq<Entry>, e: Entry)
    requires EntriesOk(entries)
    ensures Users(entries + [e]) == Users(entries) + [e.username] && Ids(entries + [e]) == Ids(entries) + [e.publicId]
    ensures EntriesOk(entries + [e]) <==> e.username !in Users(entries) && e.publicId !in Ids(entries)
  {
    assert Users(entries + [e]) == Users(entries) + [e.username];
    assert Ids(entries + [e]) == Ids(entries) + [e.publicId];
    DistinctGrows(Users(entries), e.username);
    DistinctGrows(Ids(entries), e.publicId);
  }

  lemma PrefixSpoils(entries: seq<Entry>, rest: seq<Entry>)
    requires !EntriesOk(entries)
    ensures !EntriesOk(entries + rest)
  {
    assert Users(entries + rest) == Users(entries) + Users(rest);
    assert Ids(entries + rest) == Ids(entries) + Ids(rest);
    if !Distinct(Users(entries)) { DuplicateSpoils(Users(entries), Users(rest)); } else { DuplicateSpoils(Ids(entries), Ids(rest)); }
  }

  method AddProxies(x: Libraries, o: Options, v: ProviderView, before: seq<Entry>, users: set<string>, ids: set<string>)
    returns (entries: Option<seq<Entry>>, seenUsers: set<string>, seenIds: set<string>)
    requires EntriesOk(before) && Seen(users, Users(before)) && Seen(ids, Ids(before))
    ensures entries.Some? <==> EntriesOk(before + EntriesOf(x, o, v, v.proxies))
    ensures entries.Some? ==> entries.value == before + EntriesOf(x, o, v, v.proxies)
    ensures entries.Some? ==> Seen(seenUsers, Users(entries.value)) && Seen(seenIds, Ids(entries.value))
  {
    var list := before;
    seenUsers, seenIds := users, ids;
    for i := 0 to |v.proxies|
      invariant list == before + EntriesOf(x, o, v, v.proxies[..i]) && EntriesOk(list)
      invariant Seen(seenUsers, Users(list)) && Seen(seenIds, Ids(list))
    {
      var p := v.proxies[i];
      assert v.proxies[..i + 1] == v.proxies[..i] + [p];
      EntriesGrow(x, o, v, before, v.proxies[..i], p);
      if Selected(x, v, p) {
        var e := MakeEntry(x, o, v, p);
        AddEntry(list, e);
        if e.username in seenUsers || e.publicId in seenIds {
          RestOfProxies(x, o, v, before, i + 1);
          return None, seenUsers, seenIds;
        }
        seenUsers, seenIds, list := seenUsers + {e.username}, seenIds + {e.publicId}, list + [e];
      }
    }
    assert v.proxies[..|v.proxies|] == v.proxies;
    entries := Some(list);
  }

  lemma RestOfProxies(x: Libraries, o: Options, v: ProviderView, before: seq<Entry>, k: nat)
    requires k <= |v.proxies| && !EntriesOk(before + EntriesOf(x, o, v, v.proxies[..k]))
    ensures !EntriesOk(before + EntriesOf(x, o, v, v.proxies))
  {
    var a, b := v.proxies[..k], v.proxies[k..];
    assert v.proxies == a + b;
    EntriesSplit(x, o, v, before, a, b);
    PrefixSpoils(before + EntriesOf(x, o, v, a), EntriesOf(x, o, v, b));
  }

  lemma EntriesSplit(x: Libraries, o: Options, v: ProviderView, before: seq<Entry>, a: seq<Proxy>, b: seq<Proxy>)
    ensures before + EntriesOf(x, o, v, a + b) == (before + EntriesOf(x, o, v, a)) + EntriesOf(x, o, v, b)
  {
    FlatMapAppends(p => Picked(x, o, v, p), a, b);
    Regroup(before, EntriesOf(x, o, v, a), EntriesOf(x, o, v, b));
  }

  lemma EntriesGrow(x: Libraries, o: Options, v: ProviderView, before: seq<Entry>, a: seq<Proxy>, p: Proxy)
    ensures before + EntriesOf(x, o, v, a + [p]) == before + EntriesOf(x, o, v, a) + Picked(x, o, v, p)
  {
  }

  // A prefix of the providers that cannot be projected spoils the whole.
  lemma PrefixViews(x: Libraries, o: Options, views: seq<ProviderView>, k: nat)
    requires k <= |views| && !(ViewsOk(x, views[..k]) && EntriesOk(Collected(x, o, views[..k])))
    ensures !Buildable(x, o, views)
  {
    var a, b := views[..k], views[k..];
    assert views == a + b;
    if !ViewsOk(x, a) { PrefixViewsBad(x, a, b); return; }
    FlatMapAppends((v: ProviderView) => EntriesOf(x, o, v, v.proxies), a, b);
    PrefixSpoils(Collected(x, o, a), Collected(x, o, b));
  }

  lemma PrefixViewsBad(x: Libraries, a: seq<ProviderView>, b: seq<ProviderView>)
    requires !ViewsOk(x, a)
    ensures !ViewsOk(x, a + b)
  {
    assert ViewIds(a + b) == ViewIds(a) + ViewIds(b);
    assert ViewNames(x, a + b) == ViewNames(x, a) + ViewNames(x, b);
    if !Distinct(ViewIds(a)) { DuplicateSpoils(ViewIds(a), ViewIds(b)); }
    if !Distinct(ViewNames(x, a)) { DuplicateSpoils(ViewNames(x, a), ViewNames(x, b)); }
  }

  lemma AddView(x: Libraries, views: seq<ProviderView>, v: ProviderView)
    requires ViewsOk(x, views)
    ensures ViewIds(views + [v]) == ViewIds(views) + [v.id]
    ensures ViewNames(x, views + [v]) == ViewNames(x, views) + [x.fold(TrimSpace(v.name))]
    ensures ViewsOk(x, views + [v]) <==>
              ViewOk(x, v) && v.id !in ViewIds(views) && x.fold(TrimSpace(v.name)) !in ViewNames(x, views)
  {
    assert ViewIds(views + [v]) == ViewIds(views) + [v.id];
    assert ViewNames(x, views + [v]) == ViewNames(x, views) + [x.fold(TrimSpace(v.name))];
    DistinctGrows(ViewIds(views), v.id);
    DistinctGrows(ViewNames(x, views), x.fold(TrimSpace(v.name)));
    assert v in views + [v];
  }

  lemma AddViewEntries(x: Libraries, o: Options, views: seq<ProviderView>, v: ProviderView)
    ensures Collected(x, o, views + [v]) == Collected(x, o, views) + EntriesOf(x, o, v, v.proxies)
  {
  }

  method AdmitView(x: Libraries, ghost before: seq<ProviderView>, v: ProviderView, ids: set<string>, names: set<string>)
    returns (ok: bool, seenIds: set<string>, seenNames: set<string>)
    requires ViewsOk(x, before) && Seen(ids, ViewIds(before)) && Seen(names, ViewNames(x, before))
    ensures ok <==> ViewsOk(x, before + [v])
    ensures ok ==> Seen(seenIds, ViewIds(before + [v])) && Seen(seenNames, ViewNames(x, before + [v]))
  {
    AddView(x, before, v);
    var name := x.fold(TrimSpace(v.name));
    ok := v.id !in ids && name !in names && ViewOk(x, v);
    seenIds, seenNames := ids + {v.id}, names + {name};
  }

  // The nodes of the views so far, and what must not come again.
  ghost predicate Gathered(
    x: Libraries, o: Options, views: seq<ProviderView>, list: seq<Entry>, ids: set<string>, names: set<string>, users: set<string>,
    publicIds: set<string>)
  {
    && ViewsOk(x, views) && EntriesOk(list) && list == Collected(x, o, views)
    && Seen(ids, ViewIds(views)) && Seen(names, ViewNames(x, views)) && Seen(users, Users(list)) && Seen(publicIds, Ids(list))
  }

  method CollectEntries(x: Libraries, o: Options, views: seq<ProviderView>) returns (entries: Option<seq<Entry>>)
    requires OptionsOk(o)
    ensures entries.Some? <==> Buildable(x, o, views)
    ensures entries.Some? ==> entries.value == Collected(x, o, views)
  {
    var list: seq<Entry> := [];
    var ids: set<string>, names: set<string>, users: set<string>, publicIds: set<string> := {}, {}, {}, {};
    for i := 0 to |views|
      invariant Gathered(x, o, views[..i], list, ids, names, users, publicIds)
    {
      var v := views[i];
      assert views[..i + 1] == views[..i] + [v];
      AddViewEntries(x, o, views[..i], v);
      var admitted;
      admitted, ids, names := AdmitView(x, views[..i], v, ids, names);
      if !admitted {
        PrefixViews(x, o, views, i + 1);
        return None;
      }
      var more;
      more, users, publicIds := AddProxies(x, o, v, list, users, publicIds);
      if more.None? {
        PrefixViews(x, o, views, i + 1);
        return None;
      }
      list := more.value;
    }
    assert views[..|views|] == views;
    entries := Some(list);
  }

  lemma IndexGrows(index: map<string, Entry>, entries: seq<Entry>, e: Entry, key: Entry -> string)
    requires IndexedBy(index, entries, key) && forall d :: d in entries ==> key(d) != key(e)
    ensures IndexedBy(index[key(e) := e], entries + [e], key)
  {
  }

  method IndexEntries(entries: seq<Entry>) returns (byUser: map<string, Entry>, byId: map<string, Entry>)
    requires EntriesOk(entries)
    ensures IndexedBy(byUser, entries, (e: Entry) => e.username) && IndexedBy(byId, entries, (e: Entry) => e.publicId)
  {
    byUser, byId := map[], map[];
    for i := 0 to |entries|
      invariant IndexedBy(byUser, entries[..i], (e: Entry) => e.username)
      invariant IndexedBy(byId, entries[..i], (e: Entry) => e.publicId)
    {
      var e := entries[i];
      forall d | d in entries[..i] ensures d.username != e.username && d.publicId != e.publicId {
        var k :| 0 <= k < i && entries[k] == d;
        assert Users(entries)[k] != Users(entries)[i] && Ids(entries)[k] != Ids(entries)[i];
      }
      IndexGrows(byUser, entries[..i], e, (e: Entry) => e.username);
      IndexGrows(byId, entries[..i], e, (e: Entry) => e.publicId);
      byUser, byId := byUser[e.username := e], byId[e.publicId := e];
      assert entries[..i + 1] == entries[..i] + [e];
    }
    assert entries[..|entries|] == entries;
  }

  method RenameEntries(raw: seq<Entry>) returns (entries: seq<Entry>)
    ensures Renamed(raw, entries)
  {
    var names := new string[|raw|](i requires 0 <= i < |raw| => raw[i].displayName);
    assert names[..] == Names(raw);
    DisplayNames.Disambiguate(names);
    entries := seq(|raw|, i requires 0 <= i < |raw| reads names => raw[i].(displayName := names[i]));
    assert Names(entries) == names[..];
  }

  method BuildProjection(x: Libraries, o: Options, views: seq<ProviderView>) returns (s: Option<Snapshot>)
    ensures s.Some? <==> Buildable(x, o, views)
    ensures s.Some? ==> Built(x, o, views, s.value) && exists at :: Lists(x, o, views, s.value.entries, at)
  {
    if !OptionsOk(o) { return None; }
    var raw := CollectEntries(x, o, views);
    if raw.None? { return None; }
    var entries := RenameEntries(raw.value);
    RenamedKeepsKeys(raw.value, entries);
    var byUser, byId := IndexEntries(entries);
    s := Some(Snapshot(entries, byUser, byId));
    ghost var _ := EntriesAreTheNodes(x, o, views, s.value);
  }
}
