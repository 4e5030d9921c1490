/** The runtime manager: the published snapshot and the live hosts resolver agree with the
    accepted provider states at every release of the manager's lock, and at most one manager
    of a process holds the embedded core.

    A snapshot is named by the inputs it is built from (module Projection shows they determine
    it), and a hosts resolver by the states and the DNS policy it is built from (module
    ProviderHosts shows the order of the definitions does not matter).
    */
module Manager {
  import opened Common
  import opened Text
  import opened ProviderFilter
  import Projection

  type Dns = nat  // a node DNS configuration, or the policy compiled from it

  datatype Definition = Definition(id: string, name: string, attributes: nat)

  datatype Settings = Settings(bind: string, advertise: string, port: nat, prefix: bool, masterKey: string, dns: Dns)

  datatype Options = Options(settings: Settings, providers: seq<Definition>)

  datatype View = View(definition: Definition, proxies: seq<Proxy>)

  datatype Snapshot =
    | Empty
    | Published(views: seq<View>, advertise: string, port: nat, prefix: bool, masterKey: string)

  datatype Table = NoTable | Table(states: map<string, State>, dns: Dns)

  datatype Status = Stopped | Starting | Running | Error

  // A configuration is an object: equal ids mean the same one.
  datatype Config = Config(id: nat, providers: map<string, Filter>)

  // What a provider fetches, if it does not fail, and the outcome of reading its hosts section.
  datatype Fetch = Fetch(native: Native, fails: bool, load: Option<ProviderHosts.HostSet>)

  datatype Address = Address(bind: string, port: nat)

  // What can be built is a function of the inputs; a hosts table also of the providers whose
  // last source was rejected.
  datatype Rules = Rules(buildable: Snapshot -> bool, mergeable: (Table, set<string>) -> bool, compiles: Dns -> bool)

  // Reordering providers keeps a projection buildable (Projection.OrderKeepsIdentities).
  ghost predicate OrderFree(rules: Rules) {
    forall a: Snapshot, b: Snapshot {:trigger rules.buildable(a), rules.buildable(b)} ::
      a.Published? && b.Published? && multiset(a.views) == multiset(b.views) && b == a.(views := b.views)
      ==> (rules.buildable(a) ==> rules.buildable(b))
  }

  // Building is what module Projection specifies, on the provider views made from these views.
  ghost predicate Projects(rules: Rules, x: Projection.Libraries, view: View -> Projection.ProviderView) {
    forall s: Snapshot :: s.Published? ==>
      (rules.buildable(s) <==>
         Projection.Buildable(x, Projection.Options(s.masterKey, s.advertise, s.port, s.prefix), Map(view, s.views)))
  }

  lemma ProjectionIsOrderFree(rules: Rules, x: Projection.Libraries, view: View -> Projection.ProviderView)
    requires Projects(rules, x, view)
    ensures OrderFree(rules)
  {
    forall a: Snapshot, b: Snapshot {:trigger rules.buildable(a), rules.buildable(b)}
      | a.Published? && b.Published? && multiset(a.views) == multiset(b.views) && b == a.(views := b.views) && rules.buildable(a)
      ensures rules.buildable(b)
    {
      MapPermutes(view, a.views, b.views);
      Projection.OrderKeepsIdentities(
        x, Projection.Options(a.masterKey, a.advertise, a.port, a.prefix), Map(view, a.views), Map(view, b.views));
    }
  }

  // ---- Provider states ----

  type Providers = map<string, Filter>

  function Candidate(f: Filter): Option<State> {
    if f.staged.Some? then f.staged else f.state
  }

  // The accepted states.
  function Contents(p: Providers): map<string, State> {
    map id | id in p && p[id].state.Some? :: p[id].state.value
  }

  function Candidates(p: Providers): map<string, State> {
    map id | id in p && Candidate(p[id]).Some? :: Candidate(p[id]).value
  }

  function AcceptStaged(p: Providers): Providers {
    map id | id in p :: if p[id].staged.Some? then Accept(p[id]) else p[id]
  }

  function Rejected(p: Providers, ids: set<string>): Providers {
    map id | id in p :: if id in ids then Reject(p[id]) else p[id]
  }

  function StagedIds(p: Providers): set<string> {
    set id | id in p && p[id].staged.Some?
  }

  // Rejecting changes nothing accepted.
  lemma RejectedKeeps(p: Providers, ids: set<string>)
    ensures SameAccepted(p, Rejected(p, ids))
    ensures forall id :: id in p ==> Rejected(p, ids)[id].staged == if id in ids then None else p[id].staged
  {
  }

  ghost predicate AllAccepted(p: Providers) {
    forall id :: id in p ==> p[id].state.Some?
  }

  ghost predicate AllStaged(p: Providers) {
    forall id :: id in p ==> p[id].state.None? && p[id].staged.Some?
  }

  ghost predicate SameAccepted(p: Providers, q: Providers) {
    p.Keys == q.Keys && forall id :: id in p ==> p[id].state == q[id].state
  }

  // Accepting publishes exactly the candidates.
  lemma AcceptPublishes(p: Providers)
    requires AllAccepted(p) || AllStaged(p)
    ensures AllAccepted(AcceptStaged(p)) && Contents(AcceptStaged(p)) == Candidates(p)
    ensures Candidates(p).Keys == p.Keys == AcceptStaged(p).Keys
    ensures forall id :: id in p ==> AcceptStaged(p)[id].state == if p[id].staged.Some? then p[id].staged else p[id].state
  {
  }

  lemma SameContents(p: Providers, q: Providers)
    requires SameAccepted(p, q)
    ensures Contents(p) == Contents(q) && (AllAccepted(p) ==> AllAccepted(q))
  {
  }

  // ---- What is published ----

  function Ids(defs: seq<Definition>): seq<string> { Map((d: Definition) => d.id, defs) }

  predicate Covered(states: map<string, State>, defs: seq<Definition>) {
    forall d :: d in defs ==> d.id in states
  }

  function ViewOf(states: map<string, State>, d: Definition): View {
    View(d, if d.id in states then states[d.id].proxies else [])
  }

  function Project(states: map<string, State>, defs: seq<Definition>, s: Settings): Snapshot {
    Published(Map(d => ViewOf(states, d), defs), s.advertise, s.port, s.prefix, s.masterKey)
  }

  function Merge(states: map<string, State>, defs: seq<Definition>, dns: Dns): Table {
    Table(map id | id in states && id in Ids(defs) :: states[id], dns)
  }

  function HostErrors(p: Providers): set<string> {
    set id | id in p && p[id].hostError
  }

  // What a provider contributes to the hosts table.
  function HostDefinition(states: map<string, State>, errors: set<string>, id: string): ProviderHosts.Definition
    requires id in states
  {
    ProviderHosts.Definition(states[id].hosts, id in errors)
  }

  function HostDefinitions(states: map<string, State>, errors: set<string>): set<ProviderHosts.Definition> {
    set id | id in states :: HostDefinition(states, errors, id)
  }

  // The contributions in the order of the definitions; a missing provider is skipped.
  function HostList(states: map<string, State>, errors: set<string>, defs: seq<Definition>): seq<ProviderHosts.Definition> {
    FlatMap((d: Definition) => if d.id in states then [HostDefinition(states, errors, d.id)] else [], defs)
  }

  lemma HostListHolds(states: map<string, State>, errors: set<string>, defs: seq<Definition>)
    ensures forall h :: h in HostList(states, errors, defs) <==>
              exists d :: d in defs && d.id in states && h == HostDefinition(states, errors, d.id)
  {
    FlatMapHolds((d: Definition) => if d.id in states then [HostDefinition(states, errors, d.id)] else [], defs);
  }

  // Merging is what module ProviderHosts specifies, on the contributions of a table.
  ghost predicate Merges(rules: Rules, trie: ProviderHosts.Trie) {
    forall t: Table, errors: set<string> :: t.Table? ==>
      (rules.mergeable(t, errors) <==> ProviderHosts.Mergeable(trie, HostDefinitions(t.states, errors)))
  }

  lemma ContributionsOf(states: map<string, State>, errors: set<string>, defs: seq<Definition>, dns: Dns)
    ensures ProviderHosts.Elements(HostList(states, errors, defs)) == HostDefinitions(Merge(states, defs, dns).states, errors)
  {
    HostListHolds(states, errors, defs);
    var m := Merge(states, defs, dns).states;
    forall h | h in HostDefinitions(m, errors) ensures h in HostList(states, errors, defs) {
      var id :| id in m && h == HostDefinition(m, errors, id);
      var i :| 0 <= i < |defs| && Ids(defs)[i] == id;
      assert defs[i] in defs && defs[i].id == id;
    }
    forall h | h in HostList(states, errors, defs) ensures h in HostDefinitions(m, errors) {
      var d :| d in defs && d.id in states && h == HostDefinition(states, errors, d.id);
      var i :| 0 <= i < |defs| && defs[i] == d;
      assert Ids(defs)[i] == d.id && h == HostDefinition(m, errors, d.id);
    }
  }

  // A provider of the list contributes the hosts of its candidate, staged or accepted, and
  // whether its last source was unusable.
  lemma ContributionsAre(p: Providers, defs: seq<Definition>, dns: Dns, h: ProviderHosts.Definition)
    ensures h in HostDefinitions(Merge(Candidates(p), defs, dns).states, HostErrors(p)) <==>
              exists d :: d in defs && d.id in p && Contributes(p[d.id], h)
  {
    ContributionsOf(Candidates(p), HostErrors(p), defs, dns);
    HostListHolds(Candidates(p), HostErrors(p), defs);
    assert h in HostDefinitions(Merge(Candidates(p), defs, dns).states, HostErrors(p))
           <==> h in ProviderHosts.Elements(HostList(Candidates(p), HostErrors(p), defs));
    if d :| d in defs && d.id in p && Contributes(p[d.id], h) {
      assert d.id in Candidates(p) && h == HostDefinition(Candidates(p), HostErrors(p), d.id);
    }
    if d :| d in defs && d.id in Candidates(p) && h == HostDefinition(Candidates(p), HostErrors(p), d.id) {
      assert Contributes(p[d.id], h);
    }
  }

  ghost predicate Contributes(f: Filter, h: ProviderHosts.Definition) {
    && h.hostError == f.hostError
    && ((f.staged.Some? && h.hosts == f.staged.value.hosts) || (f.staged.None? && f.state.Some? && h.hosts == f.state.value.hosts))
  }

  // A table can be merged exactly when the resolver can be built from the contributions in the
  // order of the definitions, or in any other; and its mappings are the same for all of them.
  lemma MergingIsOrderFree(
    rules: Rules, trie: ProviderHosts.Trie, states: map<string, State>, errors: set<string>, a: seq<Definition>, b: seq<Definition>,
    dns: Dns, m: map<string, ProviderHosts.HostValue>, n: map<string, ProviderHosts.HostValue>)
    requires Merges(rules, trie) && multiset(a) == multiset(b)
    ensures rules.mergeable(Merge(states, a, dns), errors)
            <==> ProviderHosts.Mergeable(trie, ProviderHosts.Elements(HostList(states, errors, a)))
    ensures ProviderHosts.Mergeable(trie, ProviderHosts.Elements(HostList(states, errors, a)))
            <==> ProviderHosts.Mergeable(trie, ProviderHosts.Elements(HostList(states, errors, b)))
    ensures (&& ProviderHosts.IsMerge(ProviderHosts.Elements(HostList(states, errors, a)), m)
             && ProviderHosts.IsMerge(ProviderHosts.Elements(HostList(states, errors, b)), n)) ==> m == n
  {
    ContributionsOf(states, errors, a, dns);
    FlatMapPermutes((d: Definition) => if d.id in states then [HostDefinition(states, errors, d.id)] else [], a, b);
    ProviderHosts.OrderOfDefinitionsIsIrrelevant(trie, HostList(states, errors, a), HostList(states, errors, b), m, n);
  }

  // The order of the definitions shows in the snapshot only, and there only as an order.
  lemma ReorderedViews(rules: Rules, states: map<string, State>, a: seq<Definition>, b: seq<Definition>, s: Settings)
    requires multiset(a) == multiset(b)
    ensures Covered(states, a) <==> Covered(states, b)
    ensures Merge(states, a, s.dns) == Merge(states, b, s.dns) && SameIds(a, b)
    ensures OrderFree(rules) && rules.buildable(Project(states, a, s)) ==> rules.buildable(Project(states, b, s))
  {
    SameElements(a, b);
    MapPermutes((d: Definition) => d.id, a, b);
    SameElements(Ids(a), Ids(b));
    MapPermutes(d => ViewOf(states, d), a, b);
  }

  predicate SameIds(a: seq<Definition>, b: seq<Definition>) {
    (set id | id in Ids(a)) == set id | id in Ids(b)
  }

  lemma IdsAre(defs: seq<Definition>)
    ensures forall id :: id in Ids(defs) <==> exists d :: d in defs && d.id == id
  {
    forall id ensures id in Ids(defs) <==> exists d :: d in defs && d.id == id {
      if id in Ids(defs) {
        var i :| 0 <= i < |defs| && Ids(defs)[i] == id;
        assert defs[i] in defs;
      }
      if d :| d in defs && d.id == id {
        var i :| 0 <= i < |defs| && defs[i] == d;
        assert Ids(defs)[i] == id;
      }
    }
  }

  lemma IdsCovered(states: map<string, State>, defs: seq<Definition>)
    requires Covered(states, defs)
    ensures forall id :: id in Ids(defs) ==> id in states
  {
  }

  // The hosts table tells which providers it was built for, and nothing else of their list.
  lemma MergedIds(states: map<string, State>, a: seq<Definition>, b: seq<Definition>, dns: Dns)
    requires Covered(states, a) && Covered(states, b)
    ensures Merge(states, a, dns) == Merge(states, b, dns) <==> SameIds(a, b)
  {
    IdsCovered(states, a);
    IdsCovered(states, b);
    var m, n := Merge(states, a, dns).states, Merge(states, b, dns).states;
    assert forall id :: (id in m <==> id in Ids(a)) && (id in n <==> id in Ids(b));
    var x, y := set id | id in Ids(a), set id | id in Ids(b);
    assert forall id :: (id in x <==> id in Ids(a)) && (id in y <==> id in Ids(b));
    if x == y { assert m == n; }
  }

  lemma ShorterProjection(
    rules: Rules, x: Projection.Libraries, view: View -> Projection.ProviderView,
    states: map<string, State>, defs: seq<Definition>, s: Settings)
    requires defs != [] && Projects(rules, x, view) && forall v :: view(v).id == v.definition.id
    requires rules.buildable(Project(states, defs, s))
    ensures rules.buildable(Project(states, defs[..|defs| - 1], s)) && !SameIds(defs[..|defs| - 1], defs)
  {
    var k := |defs| - 1;
    var all, some := Project(states, defs, s), Project(states, defs[..k], s);
    var o := Projection.Options(s.masterKey, s.advertise, s.port, s.prefix);
    assert Map(view, some.views) == Map(view, all.views)[..k];
    if !rules.buildable(some) { Projection.PrefixViews(x, o, Map(view, all.views), k); }
    var ids := Projection.ViewIds(Map(view, all.views));
    assert forall i :: 0 <= i < |defs| ==> ids[i] == defs[i].id == Ids(defs)[i];
    assert forall i :: 0 <= i < k ==> Ids(defs[..k])[i] == ids[i] && ids[i] != ids[k];
    var a, b := set id | id in Ids(defs[..k]), set id | id in Ids(defs);
    assert defs[k].id in b && defs[k].id !in a;
  }

  predicate SettingsOk(s: Settings) {
    TrimSpace(s.bind) != "" && TrimSpace(s.advertise) != "" && s.port != 0 && |s.masterKey| >= 32
  }

  // ---- Snapshots without a listener ----

  // Whether a manager has a configuration, a listener, and a snapshot that is not empty.
  datatype Plane = Plane(cored: bool, running: bool, published: bool)

  datatype Turn =
    | Up        // started
    | Unready   // a start refused, or failed while it was prepared
    | Unsound   // a start failed its checks before anything was published
    | Late      // a start failed after that
    | Unbound   // a start without a listener: the configuration stays
    | Renew     // a refresh published
    | Down      // stopped, or failed closed

  predicate Possible(p: Plane, t: Turn) {
    match t
    case Renew => p.cored
    case Down => true
    case _ => !p.running
  }

  function Turned(p: Plane, t: Turn): Plane {
    match t
    case Up => Plane(true, true, true)
    case Unready => p
    case Unsound => Plane(false, false, p.published)
    case Late => Plane(false, false, false)
    case Unbound => Plane(true, false, false)
    case Renew => p.(published := true)
    case Down => Plane(false, false, false)
  }

  // The outcomes of a start.
  predicate Starts(p: Plane, q: Plane) {
    !p.running
    && (q == Turned(p, Up) || q == Turned(p, Unready) || q == Turned(p, Unsound) || q == Turned(p, Late) || q == Turned(p, Unbound))
  }

  ghost predicate Turns(p: Plane, turns: seq<Turn>)
    decreases |turns|
  {
    turns == [] || (Turns(p, turns[..|turns| - 1]) && Possible(AfterTurns(p, turns[..|turns| - 1]), turns[|turns| - 1]))
  }

  function AfterTurns(p: Plane, turns: seq<Turn>): Plane
    decreases |turns|
  {
    if turns == [] then p else Turned(AfterTurns(p, turns[..|turns| - 1]), turns[|turns| - 1])
  }

  // An operation is at most one turn, and a run of operations a run of turns.
  ghost predicate Moves(p: Plane, q: Plane) {
    p == q || exists t :: Possible(p, t) && q == Turned(p, t)
  }

  ghost predicate Reaches(p: Plane, q: Plane) {
    exists turns :: Turns(p, turns) && AfterTurns(p, turns) == q
  }

  lemma ReachesItself(p: Plane)
    ensures Reaches(p, p)
  {
    assert Turns(p, []) && AfterTurns(p, []) == p;
  }

  lemma ReachesMore(p: Plane, q: Plane, r: Plane)
    requires Reaches(p, q) && Moves(q, r)
    ensures Reaches(p, r)
  {
    if q != r {
      var turns :| Turns(p, turns) && AfterTurns(p, turns) == q;
      var t :| Possible(q, t) && r == Turned(q, t);
      var more := turns + [t];
      assert more[..|more| - 1] == turns;
      assert Turns(p, more) && AfterTurns(p, more) == r;
    }
  }

  // The k-th turn is a refresh without a listener, and all that follows leaves its snapshot.
  ghost predicate Exposes(p: Plane, turns: seq<Turn>, k: nat) {
    && k < |turns| && turns[k] == Renew && !AfterTurns(p, turns[..k]).running
    && forall i :: k < i < |turns| ==> turns[i] in {Renew, Unready, Unsound}
  }

  // Over every run: a manager without a listener has a snapshot exactly when a refresh
  // published one without a listener and since then starts have failed early at most.
  lemma {:induction false} SnapshotWithoutListener(p: Plane, turns: seq<Turn>)
    requires p == Plane(false, false, false) && Turns(p, turns)
    ensures AfterTurns(p, turns).running ==> AfterTurns(p, turns).cored && AfterTurns(p, turns).published
    ensures !AfterTurns(p, turns).running ==>
              (AfterTurns(p, turns).published <==> exists k :: Exposes(p, turns, k))
    decreases |turns|
  {
    if turns != [] {
      var n := |turns| - 1;
      var before, t := turns[..n], turns[n];
      SnapshotWithoutListener(p, before);
      var q := AfterTurns(p, before);
      if !q.running && t == Renew {
        assert Exposes(p, turns, n);
      } else if !q.running && t in {Unready, Unsound} {
        if k: nat :| Exposes(p, before, k) { assert turns[..k] == before[..k] && Exposes(p, turns, k); }
        if k: nat :| Exposes(p, turns, k) { assert turns[..k] == before[..k] && Exposes(p, before, k); }
      }
    }
  }

  // Even without a configuration: the listener cannot be bound, a refresh publishes, and the
  // next start fails its checks.
  lemma SnapshotOutlivesConfiguration()
    ensures exists turns: seq<Turn> ::
              Turns(Plane(false, false, false), turns)
              && AfterTurns(Plane(false, false, false), turns) == Plane(false, false, true)
  {
    var p := Plane(false, false, false);
    var turns := [Unbound, Renew, Unsound];
    assert turns[..2] == [Unbound, Renew] && turns[..2][..1] == [Unbound] && [Unbound][..0] == [];
    assert Turns(p, []) && AfterTurns(p, []) == p;
    assert Turns(p, [Unbound]) && AfterTurns(p, [Unbound]) == Plane(true, false, false);
    assert Turns(p, turns[..2]) && AfterTurns(p, turns[..2]) == Plane(true, false, true);
    assert Turns(p, turns) && AfterTurns(p, turns) == Plane(false, false, true);
  }

  // All that a reader or a later operation can see of a manager.
  datatype Scene = Scene(
    snapshot: Snapshot, table: Table, options: Options, config: Option<Config>, listener: Option<Address>, status: Status)

  // Taken by a writer, once, before the first change it makes visible.
  class Guard {
    var locked: bool
    ghost var scene: Option<Scene>  // what was visible when it was taken

    constructor ()
      ensures !locked
    {
      locked, scene := false, None;
    }
  }

  // What the managers of one process share.
  class Process {
    var owner: Manager?
    var initialized: bool
    var table: Table  // the live hosts resolver
    var made: nat     // configurations made so far
    ghost var boots: nat  // attempts to apply the settings of the process

    constructor ()
      ensures owner == null && table == NoTable && !initialized && boots == 0
    {
      owner, initialized, table, made, boots := null, false, NoTable, 0, 0;
    }
  }

  class Manager {
    const process: Process
    const rules: Rules
    var options: Options
    var config: Option<Config>
    var coreReady: bool
    var listener: Option<Address>
    var snapshot: Snapshot
    var nodeDns: Dns
    var status: Status
    var queued: set<nat>  // configurations waiting to be failed closed
    ghost var faults: nat  // steps that have failed, and merges and projections refused
    ghost var checks: nat   // checks of what runs, or is about to
    ghost var unsound: nat  // how many of them have failed
    ghost var fetches: nat  // providers that have been updated
    ghost var binds: seq<Address>  // addresses that have been bound

    constructor (process: Process, rules: Rules, options: Options)
      requires SettingsOk(options.settings) && rules.compiles(options.settings.dns)
      requires process.owner == null ==> process.table == NoTable
      ensures Valid() && this.process == process && this.rules == rules && this.options == options
      ensures listener == None && config == None && snapshot == Empty && status == Stopped && faults == 0
    {
      this.process, this.rules, this.options := process, rules, options;
      config, coreReady, listener, snapshot := None, false, None, Empty;
      nodeDns, status, queued := options.settings.dns, Stopped, {};
      faults, checks, unsound, fetches, binds := 0, 0, 0, 0, [];
    }

    // Snapshot and resolver are those of the accepted states, under the current options.
    ghost predicate Current()
      reads this, process
    {
      && config.Some? && AllAccepted(config.value.providers)
      && Covered(Contents(config.value.providers), options.providers)
      && snapshot == Project(Contents(config.value.providers), options.providers, options.settings)
      && rules.buildable(snapshot)
      && process.table == Merge(Contents(config.value.providers), options.providers, options.settings.dns)
    }

    ghost predicate Agreement()
      reads this, process
    {
      Current() && listener == Some(Address(options.settings.bind, options.settings.port))
    }

    ghost predicate Valid()
      reads this, process
    {
      && (coreReady <==> config.Some?) && (coreReady ==> process.initialized)
      && (config.Some? <==> process.owner == this)
      && (config.Some? ==> AllAccepted(config.value.providers) && config.value.id < process.made)
      && (process.owner == null ==> process.table == NoTable)
      && (status == Running <==> listener.Some?)
      && nodeDns == options.settings.dns && rules.compiles(nodeDns) && SettingsOk(options.settings)
      && (listener.Some? ==> Agreement())
    }

    function View(): Plane
      reads this
    {
      Plane(config.Some?, listener.Some?, snapshot.Published?)
    }

    ghost function Sight(): Scene
      reads this, process
    {
      Scene(snapshot, process.table, options, config, listener, status)
    }

    // Another manager that owns the process is not disturbed, and ownership never passes to one.
    twostate predicate Polite()
      reads this, process
    {
      && (old(process.owner) != null && old(process.owner) != this ==>
            process.owner == old(process.owner) && process.table == old(process.table))
      && (process.owner == old(process.owner) || process.owner == this || process.owner == null)
      && process.made >= old(process.made) && (old(process.initialized) ==> process.initialized)
    }

    // Nothing a reader or a later operation depends on has changed.
    twostate predicate Untouched()
      reads this, process
    {
      Sight() == old(Sight()) && process.owner == old(process.owner)
    }

    // The accepted state of a provider.
    ghost predicate Accepts(id: string, state: State)
      reads this
    {
      config.Some? && id in config.value.providers && config.value.providers[id].state == Some(state)
    }

    // What is published, piece by piece: every provider of the options, in order, with the
    // accepted proxies, under the settings of the options; and the resolver holds exactly the
    // accepted states of these providers.
    lemma PublishedIsAccepted()
      requires Current()
      ensures snapshot.Published? && |snapshot.views| == |options.providers|
      ensures forall i :: 0 <= i < |options.providers| ==>
                && snapshot.views[i].definition == options.providers[i]
                && exists state :: Accepts(options.providers[i].id, state) && snapshot.views[i].proxies == state.proxies
      ensures snapshot.advertise == options.settings.advertise && snapshot.port == options.settings.port
              && snapshot.prefix == options.settings.prefix && snapshot.masterKey == options.settings.masterKey
      ensures process.table.Table? && process.table.dns == options.settings.dns
      ensures forall id :: id in process.table.states <==> exists d :: d in options.providers && d.id == id
      ensures forall id :: id in process.table.states ==> Accepts(id, process.table.states[id])
    {
      var states := Contents(config.value.providers);
      forall i | 0 <= i < |options.providers|
        ensures exists state :: Accepts(options.providers[i].id, state) && snapshot.views[i].proxies == state.proxies
      {
        assert options.providers[i] in options.providers;
        assert Accepts(options.providers[i].id, states[options.providers[i].id]);
      }
      IdsAre(options.providers);
    }

    // The same of a manager with a listener, which listens where the options say.
    lemma RunningIsAccepted()
      requires Valid() && listener.Some?
      ensures Current() && listener == Some(Address(options.settings.bind, options.settings.port))
    {
    }

    ghost predicate Closed()
      reads this, process
    {
      listener == None && config == None && process.owner != this && snapshot == Empty
    }

    // ---- Building ----

    method Chance() returns (ok: bool)
      modifies `faults
      ensures faults == old(faults) + if ok then 0 else 1
    {
      ok := *;
      if !ok { faults := faults + 1; }
    }

    // A check of what runs, or is about to.
    method Inspect() returns (sound: bool)
      modifies `faults, `checks, `unsound
      ensures faults == old(faults) + (if sound then 0 else 1) && checks == old(checks) + 1
      ensures unsound == old(unsound) + if sound then 0 else 1
    {
      sound := *;
      checks := checks + 1;
      if !sound { faults, unsound := faults + 1, unsound + 1; }
    }

    method Bind(address: Address) returns (ok: bool)
      modifies `faults, `binds
      ensures faults == old(faults) + if ok then 0 else 1
      ensures binds == old(binds) + if ok then [address] else []
    {
      ok := Chance();
      if ok { binds := binds + [address]; }
    }

    method BuildConfig(defs: seq<Definition>) returns (c: Option<Config>)
      modifies process`made, `faults
      ensures process.made >= old(process.made)
      ensures faults >= old(faults) && (c.Some? <==> faults == old(faults))
      ensures c.Some? ==> old(process.made) <= c.value.id < process.made
      ensures c.Some? ==> AllStaged(c.value.providers) && Covered(Candidates(c.value.providers), defs)
    {
      var parsed := Chance();
      if !parsed { return None; }
      var providers: Providers := map[];
      for i := 0 to |defs|
        invariant process.made == old(process.made) && faults == old(faults)
        invariant AllStaged(providers) && forall k :: 0 <= k < i ==> defs[k].id in providers
      {
        var f := InitializeProvider();
        if f.None? { return None; }
        providers := providers[defs[i].id := f.value];
      }
      c := Some(Config(process.made, providers));
      process.made := process.made + 1;
    }

    method InitializeProvider() returns (f: Option<Filter>)
      modifies `faults
      ensures faults == old(faults) + if f.Some? then 0 else 1
      ensures f.Some? ==> f.value.state.None? && f.value.staged.Some?
      ensures f.Some? ==> exists load :: f.value == ProviderFilter.Next(ProviderFilter.New(f.value.native), Initial(Some(load)))
    {
      var native: Native, load: Option<ProviderHosts.HostSet> := *, *;
      f := Some(ProviderFilter.Next(ProviderFilter.New(native), Initial(load)));
      if load.None? { f, faults := None, faults + 1; }
    }

    // buildProviderHostResolver over the candidate states.
    method MergeHosts(p: Providers, defs: seq<Definition>, dns: Dns) returns (table: Option<Table>)
      modifies `faults
      ensures faults == old(faults) + if table.Some? then 0 else 1
      ensures table == if rules.mergeable(Merge(Candidates(p), defs, dns), HostErrors(p)) then Some(Merge(Candidates(p), defs, dns)) else None
    {
      var merged := Merge(Candidates(p), defs, dns);
      table := if rules.mergeable(merged, HostErrors(p)) then Some(merged) else None;
      if table.None? { faults := faults + 1; }
    }

    method BuildSnapshot(states: map<string, State>, defs: seq<Definition>, s: Settings) returns (built: Option<Snapshot>)
      modifies `faults
      ensures faults == old(faults) + if built.Some? then 0 else 1
      ensures built == if Covered(states, defs) && rules.buildable(Project(states, defs, s)) then Some(Project(states, defs, s)) else None
    {
      for i := 0 to |defs|
        invariant faults == old(faults) && forall k :: 0 <= k < i ==> defs[k].id in states
      {
        if defs[i].id !in states {
          faults := faults + 1;
          return None;
        }
      }
      var projected := Project(states, defs, s);
      built := if rules.buildable(projected) then Some(projected) else None;
      if built.None? { faults := faults + 1; }
    }

    // ---- Taking down ----

    method ReleaseOwnership()
      modifies process`owner
      ensures process.owner == if old(process.owner) == this then null else old(process.owner)
    {
      if process.owner == this { process.owner := null; }
    }

    // The runtime is detached, the resolver emptied and the process given back.
    method ShutDown(state: Status)
      requires process.owner == this && nodeDns == options.settings.dns && rules.compiles(nodeDns) && SettingsOk(options.settings)
      requires state != Running
      modifies `coreReady, `config, `listener, `status, process`table, process`owner
      ensures Valid() && listener == None && config == None && status == state && process.owner == null
    {
      listener, config, coreReady, status := None, None, false, state;
      process.table := NoTable;
      ReleaseOwnership();
    }

    method FailClosed()
      requires Valid() && config.Some?
      modifies `coreReady, `config, `listener, `status, `snapshot, process`table, process`owner
      ensures Valid() && Polite() && Closed() && status == Error
    {
      snapshot := Empty;
      ShutDown(Error);
    }

    // failClosedAsync, when its turn comes: a failure of another configuration is dropped.
    method FailClosedQueued(id: nat)
      requires Valid() && id in queued
      modifies this, process
      ensures Valid() && Polite() && options == old(options) && queued == old(queued) - {id}
      ensures faults >= old(faults)
      ensures if old(config).Some? && old(config).value.id == id && old(listener).Some? then Closed() && faults > old(faults) else Untouched()
    {
      queued := queued - {id};
      if config.Some? && config.value.id == id && listener.Some? {
        faults := faults + 1;
        FailClosed();
      }
    }

    method Stop() returns (ok: bool)
      requires Valid()
      modifies this, process
      ensures Valid() && Polite() && Closed() && status == Stopped && options == old(options)
      ensures old(listener).None? ==> ok
      ensures faults == old(faults) + if ok then 0 else 1
    {
      ok := true;
      if listener.Some? { ok := Chance(); }
      snapshot := Empty;
      if config.Some? {
        ShutDown(Stopped);
      } else {
        status := Stopped;
      }
    }

    // ---- Starting ----

    // buildControlledConfig to prepareProviderStates.
    method PrepareStart() returns (c: Option<Config>, table: Table)
      modifies process`made, `faults
      ensures process.made >= old(process.made)
      ensures faults >= old(faults) && (faults == old(faults) ==> c.Some?)
      ensures c.Some? ==> c.value.id < process.made && AllStaged(c.value.providers)
                          && Covered(Candidates(c.value.providers), options.providers)
                          && table == Merge(Candidates(c.value.providers), options.providers, nodeDns)
    {
      table := NoTable;
      c := BuildConfig(options.providers);
      if c.None? { return; }
      var merged := MergeHosts(c.value.providers, options.providers, nodeDns);
      var staged := Chance();
      if merged.None? || !staged { return None, NoTable; }
      table := merged.value;
    }

    method StartLocked() returns (ok: bool)
      requires Valid()
      modifies this, process
      ensures Valid() && Polite() && options == old(options)
      ensures old(listener).Some? ==> !ok && Untouched()
      ensures old(listener).None? ==> (ok <==> listener.Some?) && Starts(old(View()), View())
      ensures faults >= old(faults)
      ensures faults == old(faults) && old(Available()) ==> (ok <==> old(listener).None?)
      ensures unsound >= old(unsound) && (unsound > old(unsound) ==> !ok && config.None?)
      ensures ok ==> process.initialized && binds == old(binds) + [listener.value] && checks > old(checks) + 1
      ensures process.boots == old(process.boots) || (!old(process.initialized) && process.boots == old(process.boots) + 1)
      ensures ok && !old(process.initialized) ==> process.boots > old(process.boots)
      ensures !ok && old(listener).None? && old(Available()) ==> status == Error
    {
      if listener.Some? || (process.owner != null && process.owner != this) { return false; }
      process.owner, status := this, Starting;
      if !coreReady && !process.initialized {
        var booted := Boot();
        if !booted { ShutDown(Error); return false; }
      }
      var c, table := PrepareStart();
      if c.None? {
        status := Error;
        if !coreReady { ShutDown(Error); }
        return false;
      }
      ok := TakeOver(c.value, table);
    }

    // The settings of the process, applied before any provider is parsed.
    method Boot() returns (booted: bool)
      modifies `faults, process`boots, process`initialized
      ensures faults == old(faults) + (if booted then 0 else 1) && process.boots == old(process.boots) + 1
      ensures process.initialized == (old(process.initialized) || booted)
    {
      process.boots := process.boots + 1;
      booted := Chance();
      if booted { process.initialized := true; }
    }

    // From the new providers on, which replace the old ones.
    method TakeOver(c: Config, table: Table) returns (ok: bool)
      requires process.owner == this && nodeDns == options.settings.dns && rules.compiles(nodeDns) && SettingsOk(options.settings)
      requires c.id < process.made && AllStaged(c.providers) && Covered(Candidates(c.providers), options.providers)
      requires process.initialized
      requires table == Merge(Candidates(c.providers), options.providers, nodeDns) && listener == None && status != Running
      modifies this, process
      ensures Valid() && options == old(options) && (ok <==> listener.Some?) && process.made >= old(process.made)
      ensures var p := old(View()); View() in {Turned(p, Unsound), Turned(p, Up), Turned(p, Late), Turned(p, Unbound)}
      ensures process.owner == this || process.owner == null
      ensures process.initialized && process.boots == old(process.boots) && (!ok ==> status == Error)
      ensures faults >= old(faults) && (faults == old(faults) ==> ok)
      ensures unsound >= old(unsound) && (unsound > old(unsound) ==> !ok && config.None?)
      ensures ok ==> binds == old(binds) + [listener.value] && checks == old(checks) + 2
    {
      process.table := table;
      var sound := Inspect();
      if !sound { ShutDown(Error); return false; }
      ok := Publish(c);
    }

    // No other manager has the process.
    ghost predicate Available()
      reads this, process
    {
      process.owner == null || process.owner == this
    }

    // From the first projection to the listener.
    method Publish(c: Config) returns (ok: bool)
      requires process.owner == this && nodeDns == options.settings.dns && rules.compiles(nodeDns) && SettingsOk(options.settings)
      requires c.id < process.made && AllStaged(c.providers) && Covered(Candidates(c.providers), options.providers)
      requires process.table == Merge(Candidates(c.providers), options.providers, nodeDns)
      requires listener == None && status != Running && process.initialized
      modifies this, process
      ensures Valid() && options == old(options) && (ok <==> listener.Some?)
      ensures var p := old(View()); View() == Turned(p, Up) || View() == Turned(p, Late) || View() == Turned(p, Unbound)
      ensures process.owner == this || process.owner == null
      ensures process.made >= old(process.made)
      ensures process.initialized && process.boots == old(process.boots) && (!ok ==> status == Error)
      ensures faults >= old(faults) && (faults == old(faults) ==> ok)
      ensures unsound >= old(unsound) && (unsound > old(unsound) ==> !ok && config.None?)
      ensures ok ==> binds == old(binds) + [listener.value] && checks == old(checks) + 1
    {
      ok := Activate(c);
      if ok { ok := Listen(); }
    }

    // The first projection, and the acceptance of what it shows.
    method Activate(c: Config) returns (ok: bool)
      requires process.owner == this && nodeDns == options.settings.dns && rules.compiles(nodeDns) && SettingsOk(options.settings)
      requires c.id < process.made && AllStaged(c.providers) && Covered(Candidates(c.providers), options.providers)
      requires process.table == Merge(Candidates(c.providers), options.providers, nodeDns)
      requires listener == None && status != Running && process.initialized
      modifies `snapshot, `coreReady, `config, `status, `listener, `faults, process`table, process`owner
      ensures ok ==> coreReady && Current() && config.value.id == c.id && process.owner == this && process.table == old(process.table)
                     && status == old(status) && listener == None
      ensures !ok ==> Valid() && View() == Plane(false, false, false) && status == Error && process.owner == null
      ensures faults >= old(faults) && (faults == old(faults) ==> ok)
    {
      var projected := BuildSnapshot(Candidates(c.providers), options.providers, options.settings);
      if projected.Some? { snapshot := projected.value; }
      var committed := Chance();
      if projected.None? || !committed {
        snapshot := Empty;
        ShutDown(Error);
        return false;
      }
      AcceptPublishes(c.providers);
      coreReady, config := true, Some(c.(providers := AcceptStaged(c.providers)));
      ok := true;
    }

    // A prepared data plane gets its listener.
    method Listen() returns (ok: bool)
      requires coreReady && Current() && config.value.id < process.made && process.owner == this && process.initialized
      requires nodeDns == options.settings.dns && rules.compiles(nodeDns) && SettingsOk(options.settings)
      requires listener == None && status != Running
      modifies this, process
      ensures Valid() && options == old(options) && (ok <==> listener.Some?)
      ensures View() in {Plane(true, true, true), Plane(false, false, false), Plane(true, false, false)}
      ensures process.owner == this || process.owner == null
      ensures process.made == old(process.made) && process.initialized && process.boots == old(process.boots) && (!ok ==> status == Error)
      ensures faults >= old(faults) && (faults == old(faults) ==> ok)
      ensures unsound >= old(unsound) && (unsound > old(unsound) ==> !ok && config.None?)
      ensures ok ==> binds == old(binds) + [listener.value] && checks == old(checks) + 1
    {
      var address := Address(options.settings.bind, options.settings.port);
      var bound := Bind(address);
      if !bound {
        snapshot, status := Empty, Error;
        return false;
      }
      var authenticated := Inspect();
      if !authenticated {
        snapshot := Empty;
        ShutDown(Error);
        return false;
      }
      listener, status := Some(address), Running;
      ok := true;
    }

    method StartWithProviders(defs: seq<Definition>) returns (ok: bool)
      requires Valid()
      modifies this, process
      ensures Valid() && Polite()
      ensures old(listener).Some? ==> !ok && Untouched()
      ensures old(listener).None? ==> options == old(options).(providers := defs) && (ok <==> listener.Some?)
                                      && Starts(old(View()), View())
      ensures faults >= old(faults)
      ensures faults == old(faults) && old(Available()) ==> (ok <==> old(listener).None?)
    {
      if listener.Some? { return false; }
      options := options.(providers := defs);
      ok := StartLocked();
    }

    method ConfigureWhenStopped(s: Settings, defs: seq<Definition>) returns (ok: bool)
      requires Valid()
      modifies `options, `nodeDns
      ensures Valid() && ok == (SettingsOk(s) && old(listener).None? && rules.compiles(s.dns))
      ensures ok ==> TrimSpace(s.bind) != "" && TrimSpace(s.advertise) != "" && s.port > 0 && |s.masterKey| >= 32
      ensures !ok ==> TrimSpace(s.bind) == "" || TrimSpace(s.advertise) == "" || s.port == 0 || |s.masterKey| < 32
                      || listener.Some? || !rules.compiles(s.dns)
      ensures ok ==> options == Options(s, defs)
      ensures !ok ==> options == old(options)
    {
      ok := SettingsOk(s) && listener.None? && rules.compiles(s.dns);
      if ok { options, nodeDns := Options(s, defs), s.dns; }
    }

    // ---- While running ----

    // Until the writer takes its guard, readers see what they saw before: nothing has changed
    // if it was not taken, and nothing had changed when it was.
    twostate predicate Guarded(guard: Guard?)
      reads this, process, guard
    {
      guard != null ==> if guard.locked then guard.scene == Some(old(Sight())) else Untouched()
    }

    ghost predicate Open(guard: Guard?)
      reads guard
    {
      guard != null ==> !guard.locked
    }

    method Lock(guard: Guard?)
      requires Open(guard)
      modifies guard
      ensures guard != null ==> guard.locked && guard.scene == Some(Sight())
    {
      if guard != null { guard.locked, guard.scene := true, Some(Sight()); }
    }

    method ApplyProviders(defs: seq<Definition>, guard: Guard?) returns (ok: bool)
      requires Valid() && Open(guard)
      modifies this, process, guard
      ensures Valid() && Polite() && Guarded(guard)
      ensures ok ==> options == old(options).(providers := defs) && listener == old(listener) && listener.Some?
      ensures ok ==> config.Some? && config.value.id >= old(process.made) && (guard != null ==> guard.locked)
      ensures !ok ==> Untouched() || (Closed() && options == old(options) && old(listener).Some? && (guard != null ==> guard.locked))
      ensures faults >= old(faults) && (faults == old(faults) ==> (ok <==> old(listener).Some?))
      ensures unsound >= old(unsound) && (unsound > old(unsound) <==> old(listener).Some? && Closed())
      ensures ok ==> checks > old(checks)
    {
      if listener.None? { return false; }
      var candidate := Assemble(defs);
      if candidate.None? { return false; }
      Lock(guard);
      var secure := Secure();
      if !secure { return false; }
      var committed := Chance();
      if !committed { return false; }
      var (c, table, projected) := candidate.value;
      AcceptPublishes(c.providers);
      process.table, snapshot := table, projected;
      config := Some(c.(providers := AcceptStaged(c.providers)));
      options := options.(providers := defs);
      ok := true;
    }

    // What can be prepared without disturbing anyone: the providers, their resolver and their
    // projection.
    method Assemble(defs: seq<Definition>) returns (candidate: Option<(Config, Table, Snapshot)>)
      requires Valid()
      modifies process`made, `faults
      ensures Valid() && process.made >= old(process.made)
      ensures faults >= old(faults) && (faults == old(faults) <==> candidate.Some?)
      ensures candidate.Some? ==>
                var (c, table, projected) := candidate.value;
                && old(process.made) <= c.id < process.made && AllStaged(c.providers) && Covered(Candidates(c.providers), defs)
                && table == Merge(Candidates(c.providers), defs, nodeDns)
                && projected == Project(Candidates(c.providers), defs, options.settings) && rules.buildable(projected)
    {
      var c := BuildConfig(defs);
      if c.None? { return None; }
      var table := MergeHosts(c.value.providers, defs, nodeDns);
      if table.None? { return None; }
      var projected := BuildSnapshot(Candidates(c.value.providers), defs, options.settings);
      if projected.None? { return None; }
      var prepared := Chance();
      candidate := if prepared then Some((c.value, table.value, projected.value)) else None;
    }

    ghost predicate Projectable(c: Option<Config>, defs: seq<Definition>, s: Settings) {
      c.Some? && Covered(Contents(c.value.providers), defs) && rules.buildable(Project(Contents(c.value.providers), defs, s))
    }

    // A reordering of a live snapshot is always possible, and keeps snapshot and resolver together.
    lemma ReorderingIsPossible(defs: seq<Definition>)
      requires Valid() && listener.Some? && multiset(defs) == multiset(options.providers)
      ensures SameIds(defs, options.providers)
      ensures OrderFree(rules) ==> Projectable(config, defs, options.settings)
    {
      ReorderedViews(rules, Contents(config.value.providers), options.providers, defs, options.settings);
    }

    // One that can: without its last provider a list can still be projected, and no longer
    // names the same providers.
    lemma ShorterListDisagrees(x: Projection.Libraries, view: View -> Projection.ProviderView)
      requires Valid() && listener.Some? && options.providers != []
      requires Projects(rules, x, view) && forall v :: view(v).id == v.definition.id
      ensures var defs := options.providers[..|options.providers| - 1];
              Projectable(config, defs, options.settings) && !SameIds(defs, options.providers)
    {
      ShorterProjection(rules, x, view, Contents(config.value.providers), options.providers, options.settings);
    }

    // The projection of any list that can be built is published, but the resolver stays: the
    // two agree afterwards exactly when the list names the providers of before.
    method ReorderProviders(defs: seq<Definition>, guard: Guard?) returns (ok: bool)
      requires Valid() && Open(guard)
      modifies this, guard
      ensures Polite() && Guarded(guard)
      ensures ok <==> old(listener).Some? && Projectable(old(config), defs, old(options).settings)
      ensures ok ==> options == old(options).(providers := defs) && listener == old(listener) && config == old(config)
                     && process.table == old(process.table)
                     && snapshot == Project(Contents(config.value.providers), defs, options.settings)
                     && (guard != null ==> guard.locked)
      ensures !ok ==> Untouched()
      ensures Valid() <==> (ok ==> SameIds(defs, old(options).providers))
      ensures faults >= old(faults) && (faults == old(faults) ==> (ok <==> old(listener).Some?))
    {
      if listener.None? || config.None? { return false; }
      var states := Contents(config.value.providers);
      if Covered(states, defs) { MergedIds(states, defs, options.providers, options.settings.dns); }
      var projected := BuildSnapshot(states, defs, options.settings);
      if projected.None? { return false; }
      Lock(guard);
      snapshot := projected.value;
      options := options.(providers := defs);
      ok := true;
    }

    method ApplyProjectionSettings(s: Settings, guard: Guard?) returns (ok: bool)
      requires Valid() && Open(guard)
      modifies this, process, guard
      ensures Valid() && Polite() && Guarded(guard)
      ensures ok ==> options == old(options).(settings := s) && config == old(config) && listener.Some? && old(listener).Some?
                     && (guard != null ==> guard.locked)
      ensures !ok ==> Untouched()
      ensures faults >= old(faults)
      ensures faults == old(faults) ==> (ok <==> old(listener).Some? && SettingsOk(s) && rules.compiles(s.dns))
      // nothing but a new address needs to be bound
      ensures ok ==> listener == Some(Address(s.bind, s.port))
                     && binds == old(binds) + if listener == old(listener) then [] else [listener.value]
      ensures old(listener) == Some(Address(s.bind, s.port)) ==>
                (ok <==> SettingsOk(s) && rules.compiles(s.dns) && Projectable(old(config), old(options).providers, s))
    {
      var projected := PrepareSettings(s);
      if projected.None? { return false; }
      Lock(guard);
      process.table := process.table.(dns := s.dns);
      snapshot, nodeDns := projected.value, s.dns;
      listener, options := Some(Address(s.bind, s.port)), options.(settings := s);
      ok := true;
    }

    // The projection under new settings, and their listener, if it is not the one there is.
    method PrepareSettings(s: Settings) returns (projected: Option<Snapshot>)
      requires Valid()
      modifies `faults, `binds
      ensures Valid()
      ensures projected.Some? ==>
                && listener.Some? && SettingsOk(s) && rules.compiles(s.dns) && Projectable(config, options.providers, s)
                && projected.value == Project(Contents(config.value.providers), options.providers, s)
                && binds == old(binds) + if listener == Some(Address(s.bind, s.port)) then [] else [Address(s.bind, s.port)]
      ensures faults >= old(faults)
      ensures faults == old(faults) ==> (projected.Some? <==> listener.Some? && SettingsOk(s) && rules.compiles(s.dns))
      ensures listener == Some(Address(s.bind, s.port)) ==>
                (projected.Some? <==> SettingsOk(s) && rules.compiles(s.dns) && Projectable(config, options.providers, s))
    {
      if !SettingsOk(s) || config.None? || listener.None? { return None; }
      projected := BuildSnapshot(Contents(config.value.providers), options.providers, s);
      if projected.None? || !rules.compiles(s.dns) { return None; }
      var address := Address(s.bind, s.port);
      if address != listener.value {
        var bound := Bind(address);
        if !bound { return None; }
      }
    }

    // ---- Provider content ----

    // One provider is updated, or merely asked for its version: only its candidate may change.
    method FetchProvider(id: string, native: Native, fails: bool, load: Option<ProviderHosts.HostSet>) returns (ok: bool)
      requires Valid() && config.Some? && id in config.value.providers
      modifies `config, `faults, `fetches
      ensures Valid() && config.Some? && config.value.id == old(config).value.id
      ensures SameAccepted(old(config).value.providers, config.value.providers)
      ensures faults == old(faults) + (if ok then 0 else 1) && fetches == old(fetches) + (if ok then 1 else 0)
      ensures ok <==> !fails && load.Some? && !RejectedBefore(old(config).value.providers[id], native)
      ensures ok ==> id in config.value.providers
                     && config.value.providers[id].staged == Some(ProviderFilter.Candidate(native, load.value))
    {
      var c := config.value;
      var f := Refresh(c.providers[id], native, fails, load);
      ok := !fails && load.Some? && !RejectedBefore(c.providers[id], native);
      if ok { fetches := fetches + 1; } else { faults := faults + 1; }
      config := Some(c.(providers := c.providers[id := f]));
      SameContents(c.providers, config.value.providers);
    }

    predicate RejectedBefore(f: Filter, native: Native) {
      f.hostError && f.rejectedVersion == native.version != 0
    }

    method RejectProviders(ids: set<string>)
      requires Valid() && config.Some?
      modifies `config
      ensures Valid() && config == Some(old(config).value.(providers := Rejected(old(config).value.providers, ids)))
      ensures SameAccepted(old(config).value.providers, config.value.providers)
    {
      RejectedKeeps(config.value.providers, ids);
      SameContents(config.value.providers, Rejected(config.value.providers, ids));
      config := Some(config.value.(providers := Rejected(config.value.providers, ids)));
    }

    // What a reader can see of a refresh: either all candidates are published together, or
    // nothing is.
    twostate predicate Refreshed()
      reads this, process
    {
      && options == old(options) && listener == old(listener) && status == old(status) && process.owner == old(process.owner)
      && old(config).Some? && config.Some? && config.value.id == old(config).value.id
      && (|| (SameAccepted(old(config).value.providers, config.value.providers)
              && snapshot == old(snapshot) && process.table == old(process.table))
          || (config.value.providers == AcceptStaged(old(config).value.providers) && Current()))
    }

    // Candidates are published together with the resolver and accepted. When they cannot be
    // merged or projected the given ones are rejected, and when a cache fails, staged ones.
    method PublishCandidates(keys: set<string>) returns (ok: bool, ghost gone: set<string>)
      requires Valid() && config.Some?
      modifies `config, `snapshot, process`table, `faults
      ensures Valid() && Refreshed()
      ensures faults >= old(faults) && (faults == old(faults) ==> ok)
      ensures ok ==> config.value.providers == AcceptStaged(old(config).value.providers) && Current()
      ensures !ok ==> config.value.providers == Rejected(old(config).value.providers, gone)
                      && (gone == keys || (gone != {} && gone <= StagedIds(old(config).value.providers)))
    {
      var c := config.value;
      gone := keys;
      var table := MergeHosts(c.providers, options.providers, nodeDns);
      if table.None? { RejectProviders(keys); return false, gone; }
      var projected := BuildSnapshot(Candidates(c.providers), options.providers, options.settings);
      if projected.None? { RejectProviders(keys); return false, gone; }
      var committed, staged := CommitCaches();
      if !committed {
        gone := staged;
        RejectProviders(staged);
        return false, gone;
      }
      AcceptPublishes(c.providers);
      process.table, snapshot := table.value, projected.value;
      config := Some(c.(providers := AcceptStaged(c.providers)));
      ok := true;
    }

    // The caches of what is staged: one that cannot be prepared stops the others from being
    // prepared; one that cannot be committed undoes them all.
    method CommitCaches() returns (ok: bool, taken: set<string>)
      requires config.Some?
      modifies `faults
      ensures faults == old(faults) + if ok then 0 else 1
      ensures taken <= StagedIds(config.value.providers) && (!ok ==> taken != {})
    {
      taken := StagedIds(config.value.providers);
      if taken == {} { return true, taken; }
      var some: set<string> := *;
      ok := Chance();
      if !ok && some * taken != {} { taken := some * taken; }
    }

    method RefreshProvider(id: string, fetch: Fetch) returns (ok: bool)
      requires Valid()
      modifies this, process
      ensures Valid() && Polite() && options == old(options)
      ensures old(config).None? ==> !ok && Untouched()
      ensures old(config).Some? ==> Closed() || (config.Some? && config.value.id == old(config).value.id && listener == old(listener))
      ensures ok ==> Current() && fetch.load.Some? && Accepts(id, ProviderFilter.Candidate(fetch.native, fetch.load.value))
      ensures config.Some? ==> snapshot == old(snapshot) || Current()
      ensures View() in {old(View()), Turned(old(View()), Renew), Turned(old(View()), Down)}
      ensures faults >= old(faults)
      ensures faults == old(faults) ==> listener == old(listener)
                                        && (ok <==> old(config).Some? && id in old(config).value.providers)
      ensures unsound >= old(unsound) && (unsound > old(unsound) <==> old(config).Some? && Closed())
      ensures checks - old(checks) == fetches - old(fetches) && (ok ==> checks > old(checks))
    {
      if config.None? || id !in config.value.providers { return false; }
      var updated := FetchProvider(id, fetch.native, fetch.fails, fetch.load);
      if !updated { return false; }
      var secure := Secure();
      if !secure { return false; }
      ghost var gone;
      ok, gone := PublishCandidates({id});
    }

    // A live configuration that fails its check is closed.
    method Secure() returns (secure: bool)
      requires Valid() && config.Some?
      modifies this, process
      ensures Valid() && Polite() && options == old(options) && queued == old(queued)
      ensures checks == old(checks) + 1 && fetches == old(fetches)
      ensures if secure then Untouched() && faults == old(faults) && unsound == old(unsound)
              else Closed() && faults > old(faults) && unsound > old(unsound)
    {
      secure := Inspect();
      if !secure { FailClosed(); }
    }

    // `due` says what is fetched, and `changed` whose version is found to differ.
    method PollProviders(due: map<string, Fetch>, changed: set<string>)
      requires Valid()
      modifies this, process
      ensures Valid() && Polite() && options == old(options) && listener == old(listener)
      ensures old(config).None? ==> Untouched() && queued == old(queued)
      ensures old(config).Some? ==> config.Some? && config.value.id == old(config).value.id
      ensures config.Some? ==> snapshot == old(snapshot) || Current()
      ensures View() in {old(View()), Turned(old(View()), Renew)}
      ensures faults >= old(faults) && unsound >= old(unsound)
      ensures queued == if unsound > old(unsound) && config.Some? then old(queued) + {config.value.id} else old(queued)
      ensures changed == {} ==> snapshot == old(snapshot) && process.table == old(process.table)
      // every update is checked, and once more what is published
      ensures config.Some? && unsound == old(unsound) ==> checks - old(checks) == fetches - old(fetches) + if changed == {} then 0 else 1
      ensures changed != {} && faults == old(faults) && config.Some? ==> Current() && StagedIds(config.value.providers) == {}
    {
      if config.None? { return; }
      var sound := FetchDue(due);
      if sound && changed != {} { sound := PublishChanged(changed); }
      if !sound { queued := queued + {config.value.id}; }
    }

    method PublishChanged(changed: set<string>) returns (sound: bool)
      requires Valid() && config.Some?
      modifies `config, `snapshot, `faults, `checks, `unsound, process`table
      ensures Valid() && Refreshed() && (snapshot == old(snapshot) || Current())
      ensures faults >= old(faults) && checks == old(checks) + 1 && unsound == old(unsound) + (if sound then 0 else 1)
      ensures faults == old(faults) ==> sound && Current() && StagedIds(config.value.providers) == {}
    {
      sound := Inspect();
      if sound {
        ghost var ok, gone := PublishCandidates(changed);
      }
    }

    // Fetches what is due, until the first check that fails.
    method FetchDue(due: map<string, Fetch>) returns (sound: bool)
      requires Valid() && config.Some?
      modifies `config, `faults, `fetches, `checks, `unsound
      ensures checks - old(checks) == fetches - old(fetches)
      ensures Valid() && config.Some? && config.value.id == old(config).value.id
      ensures SameAccepted(old(config).value.providers, config.value.providers)
      ensures faults >= old(faults) && unsound == old(unsound) + (if sound then 0 else 1)
      ensures !sound ==> faults > old(faults)
    {
      sound := true;
      var defs := options.providers;
      for i := 0 to |defs|
        invariant Valid() && config.Some? && config.value.id == old(config).value.id
        invariant SameAccepted(old(config).value.providers, config.value.providers)
        invariant faults >= old(faults) && unsound == old(unsound) && checks - old(checks) == fetches - old(fetches)
      {
        if defs[i].id in due {
          sound := FetchOne(defs[i].id, due[defs[i].id]);
          if !sound { return; }
        }
      }
    }

    method FetchOne(id: string, fetch: Fetch) returns (sound: bool)
      requires Valid() && config.Some?
      modifies `config, `faults, `fetches, `checks, `unsound
      ensures checks - old(checks) == fetches - old(fetches)
      ensures Valid() && config.Some? && config.value.id == old(config).value.id
      ensures SameAccepted(old(config).value.providers, config.value.providers)
      ensures faults >= old(faults) && unsound == old(unsound) + (if sound then 0 else 1)
      ensures !sound ==> faults > old(faults)
    {
      sound := true;
      if id in config.value.providers {
        var updated := FetchProvider(id, fetch.native, fetch.fails, fetch.load);
        if updated { sound := Inspect(); }
      }
    }
  }

  // ---- Any number of managers ----

  // At most one manager of a process has a ready core, and so at most one has a listener.
  lemma OnlyOneIsReady(a: Manager, b: Manager)
    requires a.process == b.process && a.Valid() && b.Valid()
    ensures a.coreReady && b.coreReady ==> a == b
    ensures a.listener.Some? && b.listener.Some? ==> a == b
  {
  }

  // Any operation of a manager, with any arguments: it is at most one turn of its plane.
  method Operate(m: Manager)
    requires m.Valid()
    modifies m, m.process
    ensures m.Valid() && m.Polite() && Moves(old(m.View()), m.View())
  {
    ghost var before := m.View();
    assert before.running ==> before == Plane(true, true, true);
    assert Possible(before, Down) && Turned(before, Down) == Plane(false, false, false);
    var kind: int := *;
    if kind < 3 { OperateStopped(m); } else { OperateAny(m); }
  }

  // Operations that start a manager or configure it while it is stopped.
  method OperateStopped(m: Manager)
    requires m.Valid()
    modifies m, m.process
    ensures m.Valid() && m.Polite() && Moves(old(m.View()), m.View())
  {
    var kind: int, defs: seq<Definition>, s: Settings := *, *, *;
    match kind
    case 0 => var _ := m.StartLocked();
    case 1 => var _ := m.StartWithProviders(defs);
    case _ => var _ := m.ConfigureWhenStopped(s, defs);
  }

  method OperateAny(m: Manager)
    requires m.Valid()
    modifies m, m.process
    ensures m.Valid() && m.Polite() && Moves(old(m.View()), m.View())
  {
    var kind: int, defs: seq<Definition>, s: Settings, id: string, failed: nat := *, *, *, *, *;
    var fetch: Fetch, due: map<string, Fetch>, changed: set<string> := *, *, *;
    ghost var before := m.View();
    assert Possible(before, Down) && Turned(before, Down) == Plane(false, false, false);
    assert before.cored ==> Possible(before, Renew);
    match kind
    case 0 => var _ := m.ApplyProviders(defs, null);
    case 1 => if SameIds(defs, m.options.providers) { var _ := m.ReorderProviders(defs, null); }
    case 2 => var _ := m.ApplyProjectionSettings(s, null);
    case 3 => var _ := m.RefreshProvider(id, fetch);
    case 4 => m.PollProviders(due, changed);
    case 5 => if failed in m.queued { m.FailClosedQueued(failed); }
    case _ => var _ := m.Stop();
  }

  ghost function Views(managers: seq<Manager>): (views: seq<Plane>)
    reads managers
    ensures |views| == |managers| && forall k :: 0 <= k < |views| ==> views[k] == managers[k].View()
  {
    seq(|managers|, k requires 0 <= k < |managers| reads managers => managers[k].View())
  }

  // Whatever one manager does, the others stay valid, and as they are.
  method TakeTurn(process: Process, managers: seq<Manager>, m: Manager)
    requires m in managers && forall other :: other in managers ==> other.process == process && other.Valid()
    modifies process, m
    ensures forall other :: other in managers ==> other.Valid()
    ensures forall k :: 0 <= k < |managers| ==> Moves(old(Views(managers))[k], Views(managers)[k])
  {
    Operate(m);
  }

  // Any run of operations on any number of managers of one process keeps all of them valid,
  // so at every point at most one has a ready core or a listener; and it takes each of them
  // through a run of turns.
  method Interleave(process: Process, managers: seq<Manager>, turns: seq<nat>)
    requires forall m :: m in managers ==> m.process == process && m.Valid()
    modifies process, managers
    ensures forall m :: m in managers ==> m.Valid()
    ensures forall a, b :: a in managers && b in managers && a.coreReady && b.coreReady ==> a == b
    ensures forall a, b :: a in managers && b in managers && a.listener.Some? && b.listener.Some? ==> a == b
    ensures forall k :: 0 <= k < |managers| ==> Reaches(old(Views(managers))[k], Views(managers)[k])
  {
    ghost var start := Views(managers);
    forall k | 0 <= k < |managers| ensures Reaches(start[k], Views(managers)[k]) { ReachesItself(start[k]); }
    for i := 0 to |turns|
      invariant forall m :: m in managers ==> m.Valid()
      invariant forall k :: 0 <= k < |managers| ==> Reaches(start[k], Views(managers)[k])
    {
      if turns[i] < |managers| {
        ghost var before := Views(managers);
        TakeTurn(process, managers, managers[turns[i]]);
        forall k | 0 <= k < |managers| ensures Reaches(start[k], Views(managers)[k]) {
          ReachesMore(start[k], before[k], Views(managers)[k]);
        }
      }
    }
    forall a, b | a in managers && b in managers ensures a.coreReady && b.coreReady ==> a == b { OnlyOneIsReady(a, b); }
  }
}
