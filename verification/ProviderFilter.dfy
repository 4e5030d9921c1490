/** One provider's filter: native content is staged, and becomes visible only when accepted.

    Native content changes only when the provider is updated, and every new version comes
    with new proxies.
    */
module ProviderFilter {
  import opened Common
  import opened Text
  import opened ProviderHosts

  // A proxy is an object: equal ids mean the same adapter.
  datatype Proxy = Proxy(id: nat, name: string, dialer: string, host: Option<string>)

  datatype Report = Report(sourceCount: nat, availableCount: nat, filtered: seq<(string, string)>)

  datatype State = State(version: nat, proxies: seq<Proxy>, report: Report, hosts: HostSet)

  datatype Native = Native(version: nat, proxies: seq<Proxy>)

  datatype Filter = Filter(
    native: Native,
    state: Option<State>,   // accepted; None until the first acceptance
    staged: Option<State>,
    rejectedVersion: nat,
    hostError: bool,        // the last source was rejected
    closed: set<nat>)       // adapters that have been closed

  function Ids(proxies: seq<Proxy>): (ids: set<nat>) {
    set p | p in proxies :: p.id
  }

  function Proxies(s: Option<State>): seq<Proxy> {
    if s.Some? then s.value.proxies else []
  }

  function Visible(f: Filter): Option<State> {
    if f.state.Some? then f.state else f.staged
  }

  function Available(source: seq<Proxy>): seq<Proxy> {
    FlatMap((p: Proxy) => if p.dialer == "" then [p] else [], source)
  }

  function Dropped(source: seq<Proxy>): seq<Proxy> {
    FlatMap((p: Proxy) => if p.dialer != "" then [p] else [], source)
  }

  function FilteredNodes(source: seq<Proxy>): seq<(string, string)> {
    FlatMap((p: Proxy) => if p.dialer != "" then [(p.name, p.dialer)] else [], source)
  }

  // Every source address that the hosts section says nothing about is expected to stay itself.
  function WithAddresses(hosts: HostSet, source: seq<Proxy>): HostSet
    decreases |source|
  {
    if source == [] then hosts else WithAddresses(WithAddress(hosts, source[0]), source[1..])
  }

  function WithAddress(hosts: HostSet, p: Proxy): HostSet {
    if p.host.None? || Canonical(p.host.value) == "" || Canonical(p.host.value) in hosts.expected then hosts
    else hosts.(expected := hosts.expected[Canonical(p.host.value) := Name(Canonical(p.host.value))])
  }

  function Candidate(native: Native, hosts: HostSet): State {
    State(native.version, Available(native.proxies),
      Report(|native.proxies|, |Available(native.proxies)|, FilteredNodes(native.proxies)),
      WithAddresses(hosts, native.proxies))
  }

  predicate RejectedNow(f: Filter) {
    f.rejectedVersion == f.native.version && f.hostError
  }

  // Bringing the filter up to date with the native content; `load` is the outcome of
  // reading the hosts section of the source.
  function Synced(f: Filter, force: bool, load: Option<HostSet>): Filter {
    var current := f.state.Some? && f.state.value.version == f.native.version && f.staged.None?;
    var staged := f.staged.Some? && f.staged.value.version == f.native.version;
    var committed := Ids(Proxies(f.state));
    if !force && (RejectedNow(f) || current || staged) then f
    else if load.None? then
      f.(staged := None, rejectedVersion := f.native.version, hostError := true,
         closed := f.closed + (Ids(Proxies(f.staged)) - committed) + (Ids(f.native.proxies) - committed))
    else
      var candidate := Candidate(f.native, load.value);
      f.(staged := Some(candidate), rejectedVersion := 0, hostError := false,
         closed := f.closed + Ids(Dropped(f.native.proxies))
                   + (Ids(Proxies(f.staged)) - (committed + Ids(candidate.proxies))))
  }

  predicate SyncOk(f: Filter, force: bool, load: Option<HostSet>) {
    var current := f.state.Some? && f.state.value.version == f.native.version && f.staged.None?;
    var staged := f.staged.Some? && f.staged.value.version == f.native.version;
    if !force && RejectedNow(f) then false
    else if !force && (current || staged) then true
    else load.Some?
  }

  // Native content changes here, whether or not the update reports an error.
  function Refresh(f: Filter, native: Native, fails: bool, load: Option<HostSet>): Filter {
    var g := f.(native := native);
    if fails || (f.rejectedVersion != 0 && f.rejectedVersion == native.version && f.hostError) then g
    else Synced(g, true, load)
  }

  function Accept(f: Filter): Filter {
    f.(state := if f.staged.Some? then f.staged else f.state, staged := None, rejectedVersion := 0, hostError := false)
  }

  function Reject(f: Filter): Filter {
    f.(staged := None, rejectedVersion := f.native.version, hostError := true,
       closed := f.closed + (Ids(Proxies(f.staged)) - Ids(Proxies(f.state))))
  }

  datatype Event =
    | Initial(load: Option<HostSet>)
    | Update(native: Native, fails: bool, load: Option<HostSet>)
    | Poll(load: Option<HostSet>)
    | Acceptance
    | Rejection

  function Next(f: Filter, e: Event): Filter {
    match e
    case Initial(load) => Synced(f, true, load)
    case Update(native, fails, load) => Refresh(f, native, fails, load)
    case Poll(load) => Synced(f, false, load)
    case Acceptance => Accept(f)
    case Rejection => Reject(f)
  }

  // The same content as before, or a later version whose proxies nobody has seen.
  ghost predicate Fresh(f: Filter, native: Native) {
    native == f.native
    || (native.version > f.native.version && Identified(native.proxies)
        && Ids(native.proxies) !! f.closed + Ids(Proxies(f.state)) + Ids(Proxies(f.staged)) + Ids(f.native.proxies))
  }

  ghost predicate Identified(proxies: seq<Proxy>) {
    forall p, q :: p in proxies && q in proxies && p.id == q.id ==> p == q
  }

  // Only a staged provider takes part in a publication, and `Initial` runs once, first.
  ghost predicate Enabled(f: Filter, e: Event) {
    match e
    case Initial(_) => f.state.None? && !f.hostError
    case Update(native, _, _) => Fresh(f, native)
    case Poll(_) => true
    case Acceptance => f.staged.Some?
    case Rejection => true
  }

  ghost predicate Open(s: Option<State>, closed: set<nat>) {
    Ids(Proxies(s)) !! closed && forall p :: p in Proxies(s) ==> p.dialer == ""
  }

  ghost predicate Inv(f: Filter) {
    && f.native.version >= 1 && f.rejectedVersion <= f.native.version
    && Open(f.state, f.closed) && Open(f.staged, f.closed)
    && (f.staged.Some? ==> !f.hostError)
    && Identified(f.native.proxies + Proxies(f.state) + Proxies(f.staged))
    && (!RejectedNow(f) ==> Ids(Available(f.native.proxies)) !! f.closed)
  }

  lemma Partition(source: seq<Proxy>)
    ensures forall p :: p in Available(source) <==> p in source && p.dialer == ""
    ensures forall p :: p in Dropped(source) <==> p in source && p.dialer != ""
  {
    FlatMapHolds((p: Proxy) => if p.dialer == "" then [p] else [], source);
    FlatMapHolds((p: Proxy) => if p.dialer != "" then [p] else [], source);
  }

  // A candidate is the source without what dials through another proxy, in its order, and the
  // report names the rest in theirs.
  lemma CandidateIsExact(native: Native, hosts: HostSet) returns (at: seq<nat>, off: seq<nat>)
    ensures var c := Candidate(native, hosts);
            && c.version == native.version
            && Kept(native.proxies, (p: Proxy) => p.dialer == "", (p: Proxy) => p, c.proxies, at)
            && Kept(native.proxies, (p: Proxy) => p.dialer != "", (p: Proxy) => (p.name, p.dialer), c.report.filtered, off)
            && c.report.sourceCount == |native.proxies| && c.report.availableCount == |c.proxies|
  {
    var source := native.proxies;
    at := FlatMapKeeps((p: Proxy) => if p.dialer == "" then [p] else [], source, (p: Proxy) => p.dialer == "", (p: Proxy) => p);
    off := FlatMapKeeps((p: Proxy) => if p.dialer != "" then [(p.name, p.dialer)] else [], source,
                        (p: Proxy) => p.dialer != "", (p: Proxy) => (p.name, p.dialer));
  }

  // The address of a proxy, as the hosts section would name it.
  ghost predicate Addressed(source: seq<Proxy>, host: string) {
    host != "" && exists p :: p in source && p.host.Some? && Canonical(p.host.value) == host
  }

  // What the hosts section expects is kept, and every other address is expected to stay itself.
  lemma AddressesStay(native: Native, hosts: HostSet)
    ensures var c := Candidate(native, hosts).hosts;
            && c.mappings == hosts.mappings
            && (forall h :: h in c.expected <==> h in hosts.expected || Addressed(native.proxies, h))
            && (forall h :: h in c.expected ==> c.expected[h] == if h in hosts.expected then hosts.expected[h] else Name(h))
  {
    AddressesAdded(hosts, native.proxies);
  }

  lemma {:induction false} AddressesAdded(hosts: HostSet, source: seq<Proxy>)
    ensures var c := WithAddresses(hosts, source);
            && c.mappings == hosts.mappings
            && (forall h :: h in c.expected <==> h in hosts.expected || Addressed(source, h))
            && (forall h :: h in c.expected ==> c.expected[h] == if h in hosts.expected then hosts.expected[h] else Name(h))
    decreases |source|
  {
    if source != [] {
      var p, rest := source[0], source[1..];
      var more := WithAddress(hosts, p);
      AddressesAdded(more, rest);
      assert source == [p] + rest;
      forall h ensures Addressed(source, h) <==> Addressed(rest, h) || (h != "" && p.host.Some? && Canonical(p.host.value) == h) {
        if Addressed(source, h) { var q :| q in source && q.host.Some? && Canonical(q.host.value) == h; }
        if h != "" && p.host.Some? && Canonical(p.host.value) == h { assert p in source; }
      }
    }
  }

  lemma SyncKeepsInv(f: Filter, force: bool, load: Option<HostSet>)
    requires Inv(f) && (force ==> !RejectedNow(f))
    ensures Inv(Synced(f, force, load))
  {
    Partition(f.native.proxies);
    var g := Synced(f, force, load);
    forall p, q | p in g.native.proxies + Proxies(g.state) + Proxies(g.staged)
                  && q in g.native.proxies + Proxies(g.state) + Proxies(g.staged) && p.id == q.id
      ensures p == q
    {
      assert p in f.native.proxies + Proxies(f.state) + Proxies(f.staged);
      assert q in f.native.proxies + Proxies(f.state) + Proxies(f.staged);
    }
  }

  lemma RefreshKeepsInv(f: Filter, native: Native, fails: bool, load: Option<HostSet>)
    requires Inv(f) && Fresh(f, native)
    ensures Inv(Refresh(f, native, fails, load))
  {
    var g := f.(native := native);
    Partition(native.proxies);
    if native != f.native {
      var all := native.proxies + Proxies(f.state) + Proxies(f.staged);
      forall p | p in Proxies(f.state) + Proxies(f.staged) ensures p.id !in Ids(native.proxies) {
        assert p.id in Ids(Proxies(f.state)) + Ids(Proxies(f.staged));
      }
      forall p, q | p in all && q in all && p.id == q.id ensures p == q {
        assert p in native.proxies ==> p.id in Ids(native.proxies);
        assert q in native.proxies ==> q.id in Ids(native.proxies);
        if p !in native.proxies && q !in native.proxies {
          assert p in f.native.proxies + Proxies(f.state) + Proxies(f.staged);
          assert q in f.native.proxies + Proxies(f.state) + Proxies(f.staged);
        }
      }
    }
    assert Inv(g);
    if !RejectedNow(g) { SyncKeepsInv(g, true, load); }
  }

  lemma RejectKeepsInv(f: Filter)
    requires Inv(f)
    ensures Inv(Reject(f))
  {
    var g := Reject(f);
    forall p, q | p in g.native.proxies + Proxies(g.state) + Proxies(g.staged)
                  && q in g.native.proxies + Proxies(g.state) + Proxies(g.staged) && p.id == q.id
      ensures p == q
    {
      assert p in f.native.proxies + Proxies(f.state) + Proxies(f.staged);
      assert q in f.native.proxies + Proxies(f.state) + Proxies(f.staged);
    }
  }

  lemma AcceptKeepsInv(f: Filter)
    requires Inv(f) && f.staged.Some?
    ensures Inv(Accept(f))
  {
    var g := Accept(f);
    forall p, q | p in g.native.proxies + Proxies(g.state) + Proxies(g.staged)
                  && q in g.native.proxies + Proxies(g.state) + Proxies(g.staged) && p.id == q.id
      ensures p == q
    {
      assert p in f.native.proxies + Proxies(f.state) + Proxies(f.staged);
      assert q in f.native.proxies + Proxies(f.state) + Proxies(f.staged);
    }
  }

  lemma StepKeepsInv(f: Filter, e: Event)
    requires Inv(f) && Enabled(f, e)
    ensures Inv(Next(f, e))
  {
    match e
    case Initial(load) => SyncKeepsInv(f, true, load);
    case Update(native, fails, load) => RefreshKeepsInv(f, native, fails, load);
    case Poll(load) => SyncKeepsInv(f, false, load);
    case Acceptance => AcceptKeepsInv(f);
    case Rejection => RejectKeepsInv(f);
  }

  ghost predicate Runs(f: Filter, events: seq<Event>)
    decreases |events|
  {
    events == [] || (Enabled(f, events[0]) && Runs(Next(f, events[0]), events[1..]))
  }

  function After(f: Filter, events: seq<Event>): Filter
    decreases |events|
  {
    if events == [] then f else After(Next(f, events[0]), events[1..])
  }

  // Once a provider has been accepted, proxies, report and hosts change in one step only, and
  // become exactly what was staged; every other event leaves them alone.
  lemma OnlyAcceptanceIsVisible(f: Filter, e: Event)
    requires Inv(f) && Enabled(f, e) && f.state.Some?
    ensures Visible(Next(f, e)) == if e.Acceptance? then f.staged else Visible(f)
  {
  }

  // The native content has been dealt with: it is rejected, staged, or accepted with nothing
  // else staged.
  ghost predicate Read(f: Filter) {
    var version := f.native.version;
    || (f.hostError && f.rejectedVersion == version)
    || (f.staged.Some? && f.staged.value.version == version)
    || (f.staged.None? && f.state.Some? && f.state.value.version == version)
  }

  // Content is read once: polling again changes nothing and reports what the first reading
  // came to. Reading stages the candidate, or drops what is staged and remembers the version.
  lemma ContentIsReadOnce(f: Filter, load: Option<HostSet>)
    ensures Read(f) ==> Next(f, Poll(load)) == f
    ensures !Read(f) ==> ReadAs(f, Next(f, Poll(load)), load)
    ensures SyncOk(f, false, load) <==> if Read(f) then !(f.hostError && f.rejectedVersion == f.native.version) else load.Some?
  {
  }

  ghost predicate ReadAs(f: Filter, n: Filter, load: Option<HostSet>) {
    && n.native == f.native && n.state == f.state && Read(n)
    && n.staged == (if load.Some? then Some(Candidate(f.native, load.value)) else None)
    && (n.hostError <==> load.None?)
  }

  // An update reads the content it brings, unless it fails or brings what was rejected before;
  // a rejection is remembered, an acceptance forgets it.
  lemma EventsAreRead(f: Filter, native: Native, fails: bool, load: Option<HostSet>)
    ensures !fails && !(f.hostError && f.rejectedVersion == native.version != 0)
            ==> ReadAs(f.(native := native), Next(f, Update(native, fails, load)), load)
    ensures fails || (f.hostError && f.rejectedVersion == native.version != 0)
            ==> Next(f, Update(native, fails, load)) == f.(native := native)
    ensures ReadAs(f, Next(f, Initial(load)), load)
    ensures var n := Next(f, Rejection); n.staged == None && n.hostError && n.rejectedVersion == f.native.version && n.state == f.state
    ensures var n := Next(f, Acceptance); !n.hostError && n.staged == None && (f.staged.Some? ==> n.state == f.staged)
  {
  }

  // What was staged stays staged, is accepted, or is closed; and of content that is read
  // nothing stays open that is neither.
  lemma DiscardedAreClosed(f: Filter, e: Event)
    requires Inv(f) && Enabled(f, e)
    ensures var n := Next(f, e);
            Ids(Proxies(f.staged)) <= Ids(Proxies(n.staged)) + Ids(Proxies(n.state)) + n.closed
    ensures var n := Next(f, e);
            e.Initial? || (e.Poll? && !Read(f)) || (e.Update? && !e.fails && !(f.hostError && f.rejectedVersion == e.native.version != 0))
            ==> Ids(n.native.proxies) <= Ids(Proxies(n.staged)) + Ids(Proxies(n.state)) + n.closed
  {
    Partition(Next(f, e).native.proxies);
  }

  // No run closes an accepted adapter, or shows or stages one that dials through another proxy.
  lemma {:induction false} AcceptedStayOpen(f: Filter, events: seq<Event>)
    requires Inv(f) && Runs(f, events)
    ensures Inv(After(f, events))
    ensures Ids(Proxies(After(f, events).state)) !! After(f, events).closed
    ensures forall p :: p in Proxies(Visible(After(f, events))) ==> p.dialer == ""
    decreases |events|
  {
    if events != [] {
      StepKeepsInv(f, events[0]);
      AcceptedStayOpen(Next(f, events[0]), events[1..]);
    }
  }

  // Without an acceptance a whole run leaves an accepted provider as it was.
  lemma {:induction false} NothingAcceptedNothingVisible(f: Filter, events: seq<Event>)
    requires Inv(f) && Runs(f, events) && f.state.Some? && Acceptance !in events
    ensures Visible(After(f, events)) == Visible(f)
    decreases |events|
  {
    if events != [] {
      StepKeepsInv(f, events[0]);
      OnlyAcceptanceIsVisible(f, events[0]);
      NothingAcceptedNothingVisible(Next(f, events[0]), events[1..]);
    }
  }

  // A provider before its first synchronisation.
  function New(native: Native): Filter { Filter(native, None, None, 0, false, {}) }

  // From a new provider on, no run closes an accepted adapter, or shows one that dials through
  // another proxy.
  lemma NewProviderStaysOpen(native: Native, events: seq<Event>)
    requires native.version >= 1 && Identified(native.proxies) && Runs(New(native), events)
    ensures var f := After(New(native), events);
            Inv(f) && Ids(Proxies(f.state)) !! f.closed && forall p :: p in Proxies(Visible(f)) ==> p.dialer == ""
  {
    assert native.proxies + [] + [] == native.proxies;
    AcceptedStayOpen(New(native), events);
  }

  class FilteredProvider {
    var native: Native
    var state: Option<State>
    var staged: Option<State>
    var rejectedVersion: nat
    var hostError: bool
    var closed: set<nat>

    constructor (native: Native)
      ensures View() == New(native)
    {
      this.native := native;
      state, staged, rejectedVersion, hostError, closed := None, None, 0, false, {};
    }

    function View(): Filter
      reads this
    {
      Filter(native, state, staged, rejectedVersion, hostError, closed)
    }

    // closeUncommittedProxies
    method CloseUncommitted(candidate: seq<Proxy>, committed: seq<Proxy>)
      requires Identified(candidate + committed)
      modifies `closed
      ensures closed == old(closed) + (Ids(candidate) - Ids(committed))
    {
      for i := 0 to |candidate|
        invariant closed == old(closed) + (Ids(candidate[..i]) - Ids(committed))
      {
        assert candidate[..i + 1] == candidate[..i] + [candidate[i]];
        assert candidate[i] in candidate + committed;
        if candidate[i] !in committed {
          forall q | q in committed ensures q.id != candidate[i].id { assert q in candidate + committed; }
          closed := closed + {candidate[i].id};
        }
        assert Ids(candidate[..i + 1]) == Ids(candidate[..i]) + {candidate[i].id};
      }
      assert candidate[..|candidate|] == candidate;
    }

    // Splits the source, closing what is filtered out.
    method Split(source: seq<Proxy>) returns (available: seq<Proxy>, filtered: seq<(string, string)>)
      modifies `closed
      ensures available == Available(source) && filtered == FilteredNodes(source)
      ensures closed == old(closed) + Ids(Dropped(source))
    {
      available, filtered := [], [];
      for i := 0 to |source|
        invariant available == Available(source[..i]) && filtered == FilteredNodes(source[..i])
        invariant closed == old(closed) + Ids(Dropped(source[..i]))
      {
        assert source[..i + 1][..i] == source[..i];
        if source[i].dialer != "" {
          assert Dropped(source[..i + 1]) == Dropped(source[..i]) + [source[i]];
          assert Ids(Dropped(source[..i + 1])) == Ids(Dropped(source[..i])) + {source[i].id};
          filtered := filtered + [(source[i].name, source[i].dialer)];
          closed := closed + {source[i].id};
        } else {
          assert Dropped(source[..i + 1]) == Dropped(source[..i]);
          available := available + [source[i]];
        }
      }
      assert source[..|source|] == source;
    }

    method Sync(force: bool, load: Option<HostSet>) returns (ok: bool)
      requires Inv(View())
      modifies this
      ensures View() == Synced(old(View()), force, load)
      ensures ok == SyncOk(old(View()), force, load)
    {
      var version := native.version;
      var current := state.Some? && state.value.version == version && staged.None?;
      var same := staged.Some? && staged.value.version == version;
      if !force && rejectedVersion == version && hostError { return false; }
      if !force && (current || same) { return true; }
      var source := native.proxies;
      var committed, previous := Proxies(state), Proxies(staged);
      DistinctParts(native.proxies, committed, previous);
      if load.None? {
        staged, rejectedVersion, hostError := None, version, true;
        CloseUncommitted(previous, committed);
        CloseUncommitted(source, committed);
        return false;
      }
      var hosts := WithAddresses(load.value, source);
      var available, filtered := Split(source);
      staged := Some(State(version, available, Report(|source|, |available|, filtered), hosts));
      rejectedVersion, hostError := 0, false;
      Partition(source);
      CloseUncommitted(previous, committed + available);
      assert Ids(committed + available) == Ids(committed) + Ids(available);
      ok := true;
    }

    lemma DistinctParts(source: seq<Proxy>, committed: seq<Proxy>, previous: seq<Proxy>)
      requires Identified(source + committed + previous)
      ensures Identified(previous + committed) && Identified(source + committed)
      ensures Identified(previous + (committed + Available(source)))
    {
      Partition(source);
      forall p | p in previous + (committed + Available(source)) ensures p in source + committed + previous { }
      forall p | p in previous + committed ensures p in source + committed + previous { }
      forall p | p in source + committed ensures p in source + committed + previous { }
    }

    // The native refresh may change the content even when it reports an error.
    method Update(fetched: Native, fails: bool, load: Option<HostSet>) returns (ok: bool)
      requires Inv(View()) && Fresh(View(), fetched)
      modifies this
      ensures View() == Refresh(old(View()), fetched, fails, load)
      ensures ok <==> !fails && load.Some? && !(old(hostError) && old(rejectedVersion) == fetched.version != 0)
      ensures ok ==> staged == Some(Candidate(fetched, load.value))
    {
      var rejected, rejectedError := rejectedVersion, hostError;
      ghost var before := View();
      native := fetched;
      if fails { return false; }
      if rejected != 0 && rejected == native.version && rejectedError { return false; }
      RefreshKeepsInv(before, fetched, true, load);
      ok := Sync(true, load);
    }

    method AcceptCurrent()
      modifies this
      ensures View() == Accept(old(View()))
    {
      if staged.Some? {
        state := staged;
        staged := None;
      }
      rejectedVersion, hostError := 0, false;
    }

    method RejectCurrent()
      requires Inv(View())
      modifies this
      ensures View() == Reject(old(View()))
    {
      var discarded, committed := Proxies(staged), Proxies(state);
      DistinctParts(native.proxies, committed, discarded);
      staged, rejectedVersion, hostError := None, native.version, true;
      CloseUncommitted(discarded, committed);
    }
  }
}
