/** The UDP association registry of the SOCKS listener (section 7 of RFC 1928): which
    datagram source belongs to which authenticated user.
    */
module Associations {
  import opened Common

  type Ip = nat  // an unmapped address

  datatype Endpoint = Endpoint(ip: Ip, port: nat)

  datatype Entry = Entry(id: nat, user: string, ip: Ip, endpoint: Option<Endpoint>, lastSeen: int, control: Option<nat>)

  datatype Limits = Limits(total: nat, perIp: nat, idle: int)

  datatype Registry = Registry(
    nextId: nat,
    byId: map<nat, Entry>,
    byEndpoint: map<Endpoint, nat>,
    closed: set<nat>)  // controls the registry has closed

  // The address a client announces for its datagrams; the ip is None when it is malformed.
  datatype Requested = Requested(ip: Option<Ip>, unspecified: bool, port: nat)

  datatype Operation =
    | Add(user: string, source: Option<Ip>, requested: Option<Requested>, now: int)
    | Resolve(datagram: Option<Endpoint>, now: int)
    | Attach(id: nat, control: nat)
    | Remove(id: nat)
    | Expire(now: int)
    | CloseAll

  function FromIp(r: Registry, ip: Ip): (ids: set<nat>) {
    set id | id in r.byId && r.byId[id].ip == ip
  }

  // Associations a datagram from an unknown source may still be bound to.
  function Candidates(r: Registry, ip: Ip): (ids: set<nat>) {
    set id | id in r.byId && r.byId[id].endpoint.None? && r.byId[id].ip == ip
  }

  predicate Announced(requested: Option<Requested>) {
    requested.Some? && requested.value.port != 0
  }

  predicate AnnouncesOwnIp(requested: Requested, ip: Ip) {
    requested.ip.Some? && (requested.unspecified || requested.ip.value == ip)
  }

  predicate AddAdmitted(r: Registry, l: Limits, user: string, source: Option<Ip>) {
    source.Some? && user != "" && |r.byId| < l.total && |FromIp(r, source.value)| < l.perIp
  }

  predicate AnnouncementOk(r: Registry, ip: Ip, requested: Option<Requested>) {
    Announced(requested) ==> AnnouncesOwnIp(requested.value, ip) && Endpoint(ip, requested.value.port) !in r.byEndpoint
  }

  predicate AddOk(r: Registry, l: Limits, user: string, source: Option<Ip>, requested: Option<Requested>) {
    AddAdmitted(r, l, user, source) && AnnouncementOk(r, source.value, requested)
  }

  function AnnouncedEndpoint(ip: Ip, requested: Option<Requested>): Option<Endpoint> {
    if Announced(requested) then Some(Endpoint(ip, requested.value.port)) else None
  }

  // An admitted client takes an identifier, even when the address it announces is refused.
  function Entered(r: Registry, user: string, ip: Ip, requested: Option<Requested>, now: int): Registry {
    var taken := r.(nextId := r.nextId + 1);
    if !AnnouncementOk(r, ip, requested) then taken
    else With(taken, Entry(r.nextId + 1, user, ip, AnnouncedEndpoint(ip, requested), now, None))
  }

  function AfterAdd(r: Registry, l: Limits, user: string, source: Option<Ip>, requested: Option<Requested>, now: int)
    : Registry
  {
    if AddAdmitted(r, l, user, source) then Entered(r, user, source.value, requested, now) else r
  }

  function With(r: Registry, item: Entry): Registry {
    r.(byId := r.byId[item.id := item],
       byEndpoint := if item.endpoint.Some? then r.byEndpoint[item.endpoint.value := item.id] else r.byEndpoint)
  }

  // The association a datagram belongs to: the one bound to its source, else the only
  // unbound one from its address.
  ghost function Owner(r: Registry, source: Endpoint): Option<nat> {
    if source in r.byEndpoint then Some(r.byEndpoint[source])
    else if id :| Candidates(r, source.ip) == {id} then Some(id)
    else None
  }

  function Bound(r: Registry, id: nat, source: Endpoint, now: int): Registry
    requires id in r.byId
  {
    r.(byId := r.byId[id := r.byId[id].(endpoint := Some(source), lastSeen := now)], byEndpoint := r.byEndpoint[source := id])
  }

  ghost function AfterResolve(r: Registry, source: Option<Endpoint>, now: int): Registry {
    if source.None? then r
    else match Owner(r, source.value)
      case None => r
      case Some(id) =>
        if id !in r.byId then r else Bound(r, id, source.value, now)
  }

  ghost function Attributed(r: Registry, source: Option<Endpoint>): Option<string> {
    if source.None? then None
    else match Owner(r, source.value)
      case None => None
      case Some(id) => if id in r.byId then Some(r.byId[id].user) else None
  }

  function Without(r: Registry, ids: set<nat>, closing: set<nat>): Registry {
    r.(closed := r.closed + closing, byId := r.byId - ids, byEndpoint := map e | e in r.byEndpoint && r.byEndpoint[e] !in ids :: r.byEndpoint[e])
  }

  function WithControl(r: Registry, id: nat, control: nat): Registry
    requires id in r.byId
  {
    r.(byId := r.byId[id := r.byId[id].(control := Some(control))])
  }

  function Idle(r: Registry, l: Limits, now: int): set<nat> {
    set id | id in r.byId && now - r.byId[id].lastSeen >= l.idle
  }

  function Controls(r: Registry, ids: set<nat>): set<nat> {
    set id | id in ids && id in r.byId && r.byId[id].control.Some? :: r.byId[id].control.value
  }

  ghost function Next(r: Registry, l: Limits, op: Operation): Registry {
    match op
    case Add(user, source, requested, now) => AfterAdd(r, l, user, source, requested, now)
    case Resolve(source, now) => AfterResolve(r, source, now)
    case Attach(id, control) =>
      if id in r.byId then WithControl(r, id, control) else r
    case Remove(id) => Without(r, {id}, {})
    case Expire(now) => Expired(r, Idle(r, l, now))
    case CloseAll => Without(r, r.byId.Keys, Controls(r, r.byId.Keys))
  }

  // `byEndpoint` is exactly the index of the bound associations.
  ghost predicate Indexed(r: Registry) {
    && (forall e :: e in r.byEndpoint ==> r.byEndpoint[e] in r.byId && r.byId[r.byEndpoint[e]].endpoint == Some(e))
    && (forall id :: id in r.byId && r.byId[id].endpoint.Some? ==>
          r.byId[id].endpoint.value in r.byEndpoint && r.byEndpoint[r.byId[id].endpoint.value] == id)
  }

  ghost predicate WithinCaps(r: Registry, l: Limits) {
    |r.byId| <= l.total && forall ip: Ip :: |FromIp(r, ip)| <= l.perIp
  }

  ghost predicate Inv(r: Registry, l: Limits) {
    && Indexed(r)
    && (forall id :: id in r.byId ==> r.byId[id].id == id <= r.nextId && r.byId[id].user != "")
    && (forall id :: id in r.byId && r.byId[id].endpoint.Some? ==> r.byId[id].endpoint.value.ip == r.byId[id].ip)
    && WithinCaps(r, l)
  }

  lemma SmallerSet(a: set<nat>, b: set<nat>)
    requires a <= b
    ensures |a| <= |b|
  {
    assert b == a + (b - a);
  }

  lemma FewerKeepLimits(r: Registry, n: Registry, l: Limits)
    requires WithinCaps(r, l)
    requires forall id :: id in n.byId ==> id in r.byId && n.byId[id].ip == r.byId[id].ip
    ensures WithinCaps(n, l)
  {
    SmallerSet(n.byId.Keys, r.byId.Keys);
    forall ip: Ip ensures |FromIp(n, ip)| <= l.perIp { SmallerSet(FromIp(n, ip), FromIp(r, ip)); }
  }

  lemma AddKeepsIndex(r: Registry, l: Limits, user: string, source: Option<Ip>, requested: Option<Requested>, now: int)
    requires Inv(r, l)
    ensures Indexed(AfterAdd(r, l, user, source, requested, now))
  {
  }

  lemma OneMoreKeepsCaps(r: Registry, n: Registry, l: Limits, e: Entry)
    requires WithinCaps(r, l) && e.id !in r.byId && n.byId == r.byId[e.id := e]
    requires |r.byId| < l.total && |FromIp(r, e.ip)| < l.perIp
    ensures WithinCaps(n, l)
  {
    assert n.byId.Keys == r.byId.Keys + {e.id} && |n.byId| == |n.byId.Keys| && |r.byId| == |r.byId.Keys|;
    forall ip: Ip ensures |FromIp(n, ip)| <= l.perIp {
      OneMoreFrom(r, n, e, ip);
    }
  }

  lemma OneMoreFrom(r: Registry, n: Registry, e: Entry, ip: Ip)
    requires e.id !in r.byId && n.byId == r.byId[e.id := e]
    ensures |FromIp(n, ip)| == |FromIp(r, ip)| + if e.ip == ip then 1 else 0
  {
    assert FromIp(n, ip) == FromIp(r, ip) + if ip == e.ip then {e.id} else {};
  }

  lemma AddKeepsCaps(r: Registry, l: Limits, user: string, source: Option<Ip>, requested: Option<Requested>, now: int)
    requires WithinCaps(r, l) && r.nextId + 1 !in r.byId
    ensures WithinCaps(AfterAdd(r, l, user, source, requested, now), l)
  {
    var n := AfterAdd(r, l, user, source, requested, now);
    if AddOk(r, l, user, source, requested) {
      OneMoreKeepsCaps(r, n, l, n.byId[r.nextId + 1]);
    } else {
      FewerKeepLimits(r, n, l);
    }
  }

  // Binding the owner of a source keeps the index exact.
  lemma BoundKeepsInv(r: Registry, l: Limits, id: nat, source: Endpoint, now: int)
    requires Inv(r, l) && id in r.byId && r.byId[id].ip == source.ip
    requires source in r.byEndpoint ==> r.byEndpoint[source] == id
    requires source !in r.byEndpoint ==> r.byId[id].endpoint.None?
    ensures Inv(Bound(r, id, source, now), l)
  {
    BoundKeepsIndex(r, id, source, now);
    FewerKeepLimits(r, Bound(r, id, source, now), l);
  }

  lemma BoundKeepsIndex(r: Registry, id: nat, source: Endpoint, now: int)
    requires Indexed(r) && id in r.byId
    requires source in r.byEndpoint ==> r.byEndpoint[source] == id
    requires source !in r.byEndpoint ==> r.byId[id].endpoint.None?
    ensures Indexed(Bound(r, id, source, now))
  {
  }

  lemma ResolveKeepsInv(r: Registry, l: Limits, source: Endpoint, now: int)
    requires Inv(r, l)
    ensures Inv(AfterResolve(r, Some(source), now), l)
  {
    if Owner(r, source).Some? {
      var id := Owner(r, source).value;
      if source !in r.byEndpoint { assert id in Candidates(r, source.ip); }
      BoundKeepsInv(r, l, id, source, now);
    }
  }

  lemma WithoutKeepsInv(r: Registry, l: Limits, ids: set<nat>, closing: set<nat>)
    requires Inv(r, l)
    ensures Inv(Without(r, ids, closing), l)
  {
    FewerKeepLimits(r, Without(r, ids, closing), l);
  }

  lemma AttachKeepsInv(r: Registry, l: Limits, id: nat, control: nat)
    requires Inv(r, l) && id in r.byId
    ensures Inv(WithControl(r, id, control), l)
  {
    FewerKeepLimits(r, WithControl(r, id, control), l);
  }

  lemma AddKeepsInv(r: Registry, l: Limits, user: string, source: Option<Ip>, requested: Option<Requested>, now: int)
    requires Inv(r, l)
    ensures Inv(AfterAdd(r, l, user, source, requested, now), l)
  {
    AddKeepsIndex(r, l, user, source, requested, now);
    AddKeepsCaps(r, l, user, source, requested, now);
  }

  lemma DatagramKeepsInv(r: Registry, l: Limits, source: Option<Endpoint>, now: int)
    requires Inv(r, l)
    ensures Inv(AfterResolve(r, source, now), l)
  {
    if source.Some? { ResolveKeepsInv(r, l, source.value, now); }
  }

  lemma StepKeepsInv(r: Registry, l: Limits, op: Operation)
    requires Inv(r, l)
    ensures Inv(Next(r, l, op), l)
  {
    match op
    case Add(user, source, requested, now) => AddKeepsInv(r, l, user, source, requested, now);
    case Resolve(source, now) => DatagramKeepsInv(r, l, source, now);
    case Attach(id, control) => if id in r.byId { AttachKeepsInv(r, l, id, control); }
    case Remove(id) => WithoutKeepsInv(r, l, {id}, {});
    case Expire(now) => WithoutKeepsInv(r, l, Idle(r, l, now), Controls(r, Idle(r, l, now)));
    case CloseAll => WithoutKeepsInv(r, l, r.byId.Keys, Controls(r, r.byId.Keys));
  }

  ghost function After(r: Registry, l: Limits, ops: seq<Operation>): Registry
    decreases |ops|
  {
    if ops == [] then r else After(Next(r, l, ops[0]), l, ops[1..])
  }

  function Empty(): Registry { Registry(0, map[], map[], {}) }

  // A live association from the datagram's address, bound to its source once it is resolved.
  ghost predicate Earned(r: Registry, source: Endpoint, now: int, id: nat) {
    var n := AfterResolve(r, Some(source), now);
    && id in r.byId && Attributed(r, Some(source)) == Some(r.byId[id].user) && r.byId[id].ip == source.ip
    && id in n.byId && n.byId[id].endpoint == Some(source) && source in n.byEndpoint && n.byEndpoint[source] == id
  }

  lemma EmptyInv(l: Limits)
    ensures Inv(Empty(), l)
  {
  }

  // After any run: the index is exact, the caps hold, and a datagram is attributed to a user
  // only through a live association of that user, from its own address, bound to its source.
  lemma AttributionIsEarned(l: Limits, ops: seq<Operation>, source: Endpoint, now: int)
    ensures Inv(After(Empty(), l, ops), l)
    ensures Attributed(After(Empty(), l, ops), Some(source)).Some? ==>
              exists id :: Earned(After(Empty(), l, ops), source, now, id)
  {
    EmptyInv(l);
    RunKeepsInv(Empty(), l, ops);
    var r := After(Empty(), l, ops);
    if Attributed(r, Some(source)).Some? {
      var id := Owner(r, source).value;
      if source !in r.byEndpoint { assert id in Candidates(r, source.ip); }
      assert Earned(r, source, now, id);
    }
  }

  lemma {:induction false} RunKeepsInv(r: Registry, l: Limits, ops: seq<Operation>)
    requires Inv(r, l)
    ensures Inv(After(r, l, ops), l)
    decreases |ops|
  {
    if ops != [] {
      StepKeepsInv(r, l, ops[0]);
      RunKeepsInv(Next(r, l, ops[0]), l, ops[1..]);
    }
  }

  // A live association bound to a source.
  predicate Holds(r: Registry, id: nat, source: Endpoint) {
    id in r.byId && r.byId[id].endpoint == Some(source)
  }

  predicate Waits(r: Registry, id: nat, ip: Ip) {
    id in r.byId && r.byId[id].endpoint == None && r.byId[id].ip == ip
  }

  // Whose datagrams come from a source: the association bound to it, or, while there is none,
  // the only one from its address that waits to be bound.
  ghost predicate Owns(r: Registry, id: nat, source: Endpoint) {
    || Holds(r, id, source)
    || (&& (forall other :: !Holds(r, other, source))
        && Waits(r, id, source.ip) && forall other :: Waits(r, other, source.ip) ==> other == id)
  }

  // A datagram is attributed exactly when its source has an owner. It is then the owner's
  // user, and the owner is bound to the source and seen, and nothing else changes.
  ghost predicate Served(r: Registry, n: Registry, source: Endpoint, now: int, user: Option<string>) {
    && (user.Some? <==> exists id: nat :: Owns(r, id, source))
    && (forall id: nat :: Owns(r, id, source) ==> id in r.byId && user == Some(r.byId[id].user) && OwnerTakes(r, n, id, source, now))
    && (user.None? ==> n == r)
  }

  ghost predicate OwnerTakes(r: Registry, n: Registry, id: nat, source: Endpoint, now: int) {
    && id in r.byId
    && n == r.(byId := r.byId[id := r.byId[id].(endpoint := Some(source), lastSeen := now)], byEndpoint := n.byEndpoint)
    && (forall e :: e in n.byEndpoint && n.byEndpoint[e] != id ==> e in r.byEndpoint && r.byEndpoint[e] == n.byEndpoint[e])
  }

  lemma AttributionIsExact(l: Limits, ops: seq<Operation>, source: Endpoint, now: int)
    ensures var r := After(Empty(), l, ops);
            Served(r, Next(r, l, Resolve(Some(source), now)), source, now, Attributed(r, Some(source)))
  {
    EmptyInv(l);
    RunKeepsInv(Empty(), l, ops);
    OwnerIsServed(After(Empty(), l, ops), source, now);
  }

  lemma OwnerIsServed(r: Registry, source: Endpoint, now: int)
    requires Indexed(r)
    ensures Served(r, AfterResolve(r, Some(source), now), source, now, Attributed(r, Some(source)))
  {
    OwnerIsExact(r, source);
    if Owner(r, source).Some? { assert Owns(r, Owner(r, source).value, source); }
  }

  lemma OwnerIsExact(r: Registry, source: Endpoint)
    requires Indexed(r)
    ensures forall id: nat :: Owns(r, id, source) <==> Owner(r, source) == Some(id)
    ensures Owner(r, source).Some? ==> Owner(r, source).value in r.byId
  {
    forall id: nat ensures Owns(r, id, source) <==> Owner(r, source) == Some(id) {
      if source in r.byEndpoint {
        assert Holds(r, r.byEndpoint[source], source);
      } else {
        OnlyCandidate(r, source.ip, id);
      }
    }
    if source !in r.byEndpoint && Owner(r, source).Some? { OnlyCandidate(r, source.ip, Owner(r, source).value); }
  }

  lemma OnlyCandidate(r: Registry, ip: Ip, id: nat)
    ensures Candidates(r, ip) == {id} <==> Waits(r, id, ip) && forall other :: Waits(r, other, ip) ==> other == id
  {
    assert forall other :: other in Candidates(r, ip) <==> Waits(r, other, ip);
    if Candidates(r, ip) == {id} { assert id in Candidates(r, ip); }
  }

  // When an association that was last seen at `seen` is used last in a run.
  ghost function LastUse(r: Registry, l: Limits, ops: seq<Operation>, id: nat, seen: int): int
    decreases |ops|
  {
    if ops == [] then seen else LastUse(Next(r, l, ops[0]), l, ops[1..], id, if Uses(r, ops[0], id) then ops[0].now else seen)
  }

  // A datagram of its own.
  ghost predicate Uses(r: Registry, op: Operation, id: nat) {
    op.Resolve? && op.datagram.Some? && Owns(r, id, op.datagram.value)
  }

  // An association that lives through a run expires after it exactly when it has not been used
  // for as long as the limit says.
  lemma UnusedExpires(r: Registry, l: Limits, ops: seq<Operation>, id: nat, now: int)
    requires Inv(r, l) && id in r.byId && id in After(r, l, ops).byId
    ensures id in Next(After(r, l, ops), l, Operation.Expire(now)).byId
            <==> now - LastUse(r, l, ops, id, r.byId[id].lastSeen) < l.idle
  {
    SeenIsUsed(r, l, ops, id);
  }

  lemma {:induction false} SeenIsUsed(r: Registry, l: Limits, ops: seq<Operation>, id: nat)
    requires Inv(r, l) && id in r.byId && id in After(r, l, ops).byId
    ensures After(r, l, ops).byId[id].lastSeen == LastUse(r, l, ops, id, r.byId[id].lastSeen)
    decreases |ops|
  {
    if ops != [] {
      StepKeepsInv(r, l, ops[0]);
      if id !in Next(r, l, ops[0]).byId { GoneForGood(Next(r, l, ops[0]), l, ops[1..], id); }
      StepSees(r, l, ops[0], id);
      SeenIsUsed(Next(r, l, ops[0]), l, ops[1..], id);
    }
  }

  lemma StepSees(r: Registry, l: Limits, op: Operation, id: nat)
    requires Inv(r, l) && id in r.byId && id in Next(r, l, op).byId
    ensures Next(r, l, op).byId[id].lastSeen == if Uses(r, op, id) then op.now else r.byId[id].lastSeen
  {
    if op.Resolve? && op.datagram.Some? { OwnerIsExact(r, op.datagram.value); }
  }

  // An association is added exactly while there is room, for a known user at an address of
  // its own, and when no live one is bound to the source it announces.
  lemma AddIsExact(r: Registry, l: Limits, user: string, source: Option<Ip>, requested: Option<Requested>, now: int)
    requires Inv(r, l)
    ensures var n := Next(r, l, Add(user, source, requested, now));
            if && source.Some? && user != "" && |r.byId| < l.total
               && |set id | id in r.byId && r.byId[id].ip == source.value| < l.perIp
               && (requested.Some? && requested.value.port > 0 ==>
                     && requested.value.ip.Some? && (requested.value.unspecified || requested.value.ip == source)
                     && forall id :: !Holds(r, id, Endpoint(source.value, requested.value.port)))
            then AddOk(r, l, user, source, requested)
                 && n.byId == r.byId[r.nextId + 1 := Entry(r.nextId + 1, user, source.value,
                      if requested.Some? && requested.value.port > 0 then Some(Endpoint(source.value, requested.value.port)) else None,
                      now, None)]
            else !AddOk(r, l, user, source, requested) && n.byId == r.byId
  {
    if source.Some? && Announced(requested) {
      var e := Endpoint(source.value, requested.value.port);
      if e in r.byEndpoint { assert Holds(r, r.byEndpoint[e], e); }
    }
    if source.Some? { assert FromIp(r, source.value) == set id | id in r.byId && r.byId[id].ip == source.value; }
  }

  // Expiry and closing drop exactly the idle associations, or all of them, as they are, and
  // close exactly the controls of those.
  lemma DropsAreExact(r: Registry, l: Limits, now: int)
    ensures var n := Next(r, l, Operation.Expire(now));
            && n.byId == (map id | id in r.byId && now - r.byId[id].lastSeen < l.idle :: r.byId[id])
            && forall c :: c in n.closed <==> c in r.closed || exists id :: Loses(r, n, id, c)
    ensures var n := Next(r, l, CloseAll);
            n.byId == map[] && forall c :: c in n.closed <==> c in r.closed || exists id :: Loses(r, n, id, c)
  {
    ControlsOf(r, Idle(r, l, now));
    ControlsOf(r, r.byId.Keys);
  }

  lemma ControlsOf(r: Registry, ids: set<nat>)
    requires ids <= r.byId.Keys
    ensures forall c :: c in Controls(r, ids) <==> exists id :: Loses(r, Expired(r, ids), id, c)
  {
    forall c ensures c in Controls(r, ids) <==> exists id :: Loses(r, Expired(r, ids), id, c) {
      if c in Controls(r, ids) {
        var id :| id in ids && r.byId[id].control == Some(c);
        assert Loses(r, Expired(r, ids), id, c);
      }
    }
  }

  // Removing and attaching reach the named association only.
  lemma NamedOnly(r: Registry, l: Limits, id: nat, control: nat)
    ensures var n := Next(r, l, Operation.Remove(id));
            n.byId == r.byId - {id} && n.closed == r.closed && n.nextId == r.nextId
    ensures var n := Next(r, l, Attach(id, control));
            n == r.(byId := n.byId) && n.byId.Keys == r.byId.Keys
            && forall other :: other in r.byId ==>
                 n.byId[other] == if other == id then r.byId[id].(control := Some(control)) else r.byId[other]
  {
  }

  // A binding never moves: while an association lives, its identity is fixed, and its source
  // too once it is bound.
  lemma {:induction false} BindingsNeverMove(r: Registry, l: Limits, ops: seq<Operation>, id: nat)
    requires Inv(r, l) && id in r.byId && id in After(r, l, ops).byId
    ensures After(r, l, ops).byId[id].user == r.byId[id].user && After(r, l, ops).byId[id].ip == r.byId[id].ip
    ensures r.byId[id].endpoint.Some? ==> After(r, l, ops).byId[id].endpoint == r.byId[id].endpoint
    decreases |ops|
  {
    if ops != [] {
      var n := Next(r, l, ops[0]);
      StepKeepsInv(r, l, ops[0]);
      if id in n.byId {
        StepKeepsBinding(r, l, ops[0], id);
        BindingsNeverMove(n, l, ops[1..], id);
      } else {
        GoneForGood(n, l, ops[1..], id);
      }
    }
  }

  lemma StepKeepsBinding(r: Registry, l: Limits, op: Operation, id: nat)
    requires Inv(r, l) && id in r.byId && id in Next(r, l, op).byId
    ensures Next(r, l, op).byId[id].user == r.byId[id].user && Next(r, l, op).byId[id].ip == r.byId[id].ip
    ensures r.byId[id].endpoint.Some? ==> Next(r, l, op).byId[id].endpoint == r.byId[id].endpoint
  {
  }

  // Identifiers are not reused.
  lemma {:induction false} GoneForGood(r: Registry, l: Limits, ops: seq<Operation>, id: nat)
    requires Inv(r, l) && id !in r.byId && id <= r.nextId
    ensures id !in After(r, l, ops).byId
    decreases |ops|
  {
    if ops != [] {
      StepKeepsInv(r, l, ops[0]);
      GoneForGood(Next(r, l, ops[0]), l, ops[1..], id);
    }
  }

  // An ambiguous source is dropped and changes nothing.
  lemma AmbiguousIsDropped(r: Registry, source: Endpoint, a: nat, b: nat, now: int)
    requires source !in r.byEndpoint && a != b && {a, b} <= Candidates(r, source.ip)
    ensures Attributed(r, Some(source)) == None && AfterResolve(r, Some(source), now) == r
  {
  }

  // An association is gone that held a control.
  predicate Loses(r: Registry, n: Registry, id: nat, control: nat) {
    id in r.byId && id !in n.byId && r.byId[id].control == Some(control)
  }

  function Unlinked(r: Registry, id: nat): Registry
    requires id in r.byId
  {
    r.(byId := r.byId - {id},
       byEndpoint := if r.byId[id].endpoint.Some? then r.byEndpoint - {r.byId[id].endpoint.value} else r.byEndpoint)
  }

  // With an exact index, one association has at most one entry.
  lemma WithoutOne(r: Registry, id: nat)
    requires Indexed(r)
    ensures id in r.byId ==> Without(r, {id}, {}) == Unlinked(r, id)
    ensures id !in r.byId ==> Without(r, {id}, {}) == r
    ensures id in r.byId ==> forall e :: e in r.byEndpoint && r.byEndpoint[e] == id ==> r.byId[id].endpoint == Some(e)
  {
    var n := Without(r, {id}, {});
    if id in r.byId {
      assert n.byEndpoint == Unlinked(r, id).byEndpoint;
    } else {
      assert n.byId == r.byId && n.byEndpoint == r.byEndpoint;
    }
  }

  function Touched(r: Registry, id: nat, now: int): Registry
    requires id in r.byId
  {
    r.(byId := r.byId[id := r.byId[id].(lastSeen := now)])
  }

  function Claimed(r: Registry, id: nat, source: Endpoint): Registry
    requires id in r.byId
  {
    r.(byId := r.byId[id := r.byId[id].(endpoint := Some(source))], byEndpoint := r.byEndpoint[source := id])
  }

  // Binding a new source claims it; a bound one is only seen again.
  lemma BoundInTwo(r: Registry, id: nat, source: Endpoint, now: int)
    requires id in r.byId
    requires source in r.byEndpoint ==> r.byEndpoint[source] == id && r.byId[id].endpoint == Some(source)
    ensures source !in r.byEndpoint ==> Bound(r, id, source, now) == Touched(Claimed(r, id, source), id, now)
    ensures source in r.byEndpoint ==> Bound(r, id, source, now) == Touched(r, id, now)
  {
    var b := Bound(r, id, source, now);
    if source in r.byEndpoint {
      assert b.byEndpoint == r.byEndpoint;
    } else {
      assert b.byId == Touched(Claimed(r, id, source), id, now).byId;
    }
  }

  class Association {
    const id: nat
    const user: string
    const ip: Ip
    var endpoint: Option<Endpoint>  // set once the association is bound
    var lastSeen: int
    var control: Option<nat>

    constructor (id: nat, user: string, ip: Ip, endpoint: Option<Endpoint>, now: int)
      ensures View() == Entry(id, user, ip, endpoint, now, None)
    {
      this.id, this.user, this.ip, this.endpoint := id, user, ip, endpoint;
      lastSeen, control := now, None;
    }

    function View(): Entry
      reads this
    {
      Entry(id, user, ip, endpoint, lastSeen, control)
    }
  }

  class AssociationRegistry {
    var nextId: nat
    var byId: map<nat, Association>
    var byEndpoint: map<Endpoint, Association>
    var closed: set<nat>
    const limits: Limits
    ghost var model: Registry  // the registry as a value

    constructor (limits: Limits)
      ensures Valid() && model == Empty() && this.limits == limits
    {
      this.limits := limits;
      nextId, byId, byEndpoint, closed, model := 0, map[], map[], {}, Empty();
      EmptyInv(limits);
    }

    // Both maps hold the same objects, and their contents are the model's.
    ghost predicate Agrees()
      reads this, byId.Values
    {
      && nextId == model.nextId && closed == model.closed
      && byId.Keys == model.byId.Keys && byEndpoint.Keys == model.byEndpoint.Keys
      && (forall id :: id in byId ==> byId[id].id == id && byId[id].View() == model.byId[id])
      && (forall e :: e in byEndpoint ==> Points(e))
    }

    ghost predicate Points(e: Endpoint)
      reads this
      requires e in byEndpoint && e in model.byEndpoint
    {
      model.byEndpoint[e] in byId && byId[model.byEndpoint[e]] == byEndpoint[e]
    }

    ghost predicate Valid()
      reads this, byId.Values
    {
      Agrees() && Inv(model, limits)
    }

    // countIPLocked
    method CountIp(ip: Ip) returns (count: nat)
      requires Agrees()
      ensures count == |FromIp(model, ip)|
    {
      count := 0;
      var rest := byId.Keys;
      ghost var counted: set<nat> := {};
      while rest != {}
        invariant rest <= byId.Keys && count == |counted|
        invariant counted == set id | id in byId.Keys - rest && byId[id].ip == ip
        decreases |rest|
      {
        var id :| id in rest;
        if byId[id].ip == ip {
          count := count + 1;
          counted := counted + {id};
        }
        rest := rest - {id};
      }
      assert counted == FromIp(model, ip);
    }

    method Admits(user: string, source: Option<Ip>) returns (ok: bool)
      requires Agrees()
      ensures ok == AddAdmitted(model, limits, user, source)
    {
      if source.None? || user == "" { return false; }
      var count := CountIp(source.value);
      assert |byId| == |byId.Keys| && |model.byId| == |model.byId.Keys|;
      return |byId| < limits.total && count < limits.perIp;
    }

    method TakeId()
      requires Agrees()
      modifies `nextId, `model
      ensures Agrees() && nextId == old(nextId) + 1 && model == old(model).(nextId := nextId)
    {
      nextId := nextId + 1;
      model := model.(nextId := nextId);
    }

    method CheckAnnouncement(ip: Ip, requested: Option<Requested>) 
      returns (ok: bool, endpoint: Option<Endpoint>)
      requires Agrees()
      ensures ok == AnnouncementOk(model, ip, requested)
      ensures endpoint == AnnouncedEndpoint(ip, requested)
    {
      if requested.None? || requested.value.port == 0 { return true, None; }
      var own := requested.value.ip.Some? && (requested.value.unspecified || requested.value.ip.value == ip);
      var announced := Endpoint(ip, requested.value.port);
      return own && announced !in byEndpoint, Some(announced);
    }

    method Create(user: string, ip: Ip, endpoint: Option<Endpoint>, now: int) returns (item: Association)
      requires Agrees() && nextId !in byId && (endpoint.Some? ==> endpoint.value !in byEndpoint)
      modifies `byId, `byEndpoint, `model
      ensures Agrees() && item.id == nextId && byId == old(byId)[item.id := item]
      ensures model == With(old(model), Entry(nextId, user, ip, endpoint, now, None))
    {
      item := new Association(nextId, user, ip, endpoint, now);
      if endpoint.Some? { byEndpoint := byEndpoint[endpoint.value := item]; }
      byId := byId[item.id := item];
      model := With(model, item.View());
    }

    method Add(user: string, source: Option<Ip>, requested: Option<Requested>, now: int) returns (item: Association?)
      requires Valid()
      modifies this
      ensures Valid() && model == Next(old(model), limits, Operation.Add(user, source, requested, now))
      ensures item != null <==> AddOk(old(model), limits, user, source, requested)
      ensures item != null ==> item.id == old(nextId) + 1 && item.id in byId && byId[item.id] == item
    {
      StepKeepsInv(model, limits, Operation.Add(user, source, requested, now));
      var admitted := Admits(user, source);
      if !admitted { return null; }
      item := AddEntry(user, source.value, requested, now);
    }

    method AddEntry(user: string, ip: Ip, requested: Option<Requested>, now: int) returns (item: Association?)
      requires Agrees() && nextId + 1 !in model.byId
      modifies `nextId, `byId, `byEndpoint, `model
      ensures Agrees() && model == Entered(old(model), user, ip, requested, now)
      ensures item != null <==> AnnouncementOk(old(model), ip, requested)
      ensures item != null ==> item.id == old(nextId) + 1 && item.id in byId && byId[item.id] == item
    {
      TakeId();
      var ok, endpoint := CheckAnnouncement(ip, requested);
      if !ok { return null; }
      item := Create(user, ip, endpoint, now);
    }

    method Resolve(datagram: Option<Endpoint>, now: int) returns (user: Option<string>)
      requires Valid()
      modifies this, byId.Values
      ensures Valid() && model == Next(old(model), limits, Operation.Resolve(datagram, now))
      ensures user == Attributed(old(model), datagram)
      ensures datagram.Some? ==> Served(old(model), model, datagram.value, now, user)
      ensures datagram.None? ==> user.None? && model == old(model)
    {
      StepKeepsInv(model, limits, Operation.Resolve(datagram, now));
      if datagram.Some? { OwnerIsServed(model, datagram.value, now); }
      if datagram.None? { return None; }
      user := ResolveEndpoint(datagram.value, now);
    }

    method ResolveEndpoint(endpoint: Endpoint, now: int) returns (user: Option<string>)
      requires Agrees() && Indexed(model)
      modifies this, byId.Values
      ensures Agrees() && model == AfterResolve(old(model), Some(endpoint), now)
      ensures user == Attributed(old(model), Some(endpoint))
    {
      var item := FindOwner(endpoint);
      if item == null { return None; }
      user := Some(item.user);
      Bind(item, endpoint, now);
    }

    method FindOwner(endpoint: Endpoint) returns (item: Association?)
      requires Agrees() && Indexed(model)
      ensures Owner(model, endpoint) == if item == null then None else Some(item.id)
      ensures item != null ==> item.id in byId && byId[item.id] == item
      ensures item != null && endpoint in byEndpoint ==> byEndpoint[endpoint] == item && item.endpoint == Some(endpoint)
    {
      if endpoint in byEndpoint { return byEndpoint[endpoint]; }
      item := FindCandidate(endpoint.ip);
    }

    method Bind(item: Association, endpoint: Endpoint, now: int)
      requires Agrees() && item.id in byId && byId[item.id] == item
      requires endpoint in byEndpoint ==> byEndpoint[endpoint] == item && item.endpoint == Some(endpoint)
      modifies `byEndpoint, `model, item`endpoint, item`lastSeen
      ensures Agrees() && model == Bound(old(model), item.id, endpoint, now)
    {
      BoundInTwo(model, item.id, endpoint, now);
      if endpoint !in byEndpoint { Claim(item, endpoint); }
      Touch(item, now);
    }

    method Claim(item: Association, endpoint: Endpoint)
      requires Agrees() && item.id in byId && byId[item.id] == item && endpoint !in byEndpoint
      modifies `byEndpoint, `model, item`endpoint
      ensures Agrees() && model == Claimed(old(model), item.id, endpoint)
    {
      item.endpoint := Some(endpoint);
      byEndpoint := byEndpoint[endpoint := item];
      model := model.(byId := model.byId[item.id := item.View()], byEndpoint := model.byEndpoint[endpoint := item.id]);
    }

    method Touch(item: Association, now: int)
      requires Agrees() && item.id in byId && byId[item.id] == item
      modifies `model, item`lastSeen
      ensures Agrees() && model == Touched(old(model), item.id, now)
    {
      item.lastSeen := now;
      model := model.(byId := model.byId[item.id := item.View()]);
    }

    // The only unbound association from an address, found in whatever order the map is walked.
    method FindCandidate(ip: Ip) returns (candidate: Association?)
      requires Agrees()
      ensures candidate != null ==> candidate.id in byId && byId[candidate.id] == candidate
                                    && Candidates(model, ip) == {candidate.id}
      ensures candidate == null ==> forall id :: Candidates(model, ip) != {id}
    {
      candidate := null;
      var rest := byId.Keys;
      while rest != {}
        invariant rest <= byId.Keys
        invariant candidate == null ==> Candidates(model, ip) <= rest
        invariant candidate != null ==> candidate.id in byId && byId[candidate.id] == candidate
                                        && candidate.id in Candidates(model, ip)
                                        && Candidates(model, ip) <= rest + {candidate.id}
        decreases |rest|
      {
        var id :| id in rest;
        rest := rest - {id};
        var item := byId[id];
        if item.endpoint.None? && item.ip == ip {
          if candidate != null && candidate != item {
            assert {candidate.id, id} <= Candidates(model, ip);
            return null;
          }
          candidate := item;
        }
      }
    }

    method AttachControl(id: nat, control: nat)
      requires Valid()
      modifies this`model, byId.Values
      ensures Valid() && model == Next(old(model), limits, Attach(id, control))
    {
      StepKeepsInv(model, limits, Attach(id, control));
      if id in byId {
        model := WithControl(model, id, control);
        byId[id].control := Some(control);
      }
    }

    method Remove(id: nat)
      requires Agrees() && Indexed(model)
      modifies `byId, `byEndpoint, `model
      ensures Agrees() && model == Next(old(model), limits, Operation.Remove(id))
    {
      WithoutOne(model, id);
      if id in byId { Unlink(byId[id]); }
    }

    method Unlink(item: Association)
      requires Agrees() && item.id in byId && byId[item.id] == item
      requires forall e :: e in model.byEndpoint && model.byEndpoint[e] == item.id ==> item.endpoint == Some(e)
      modifies `byId, `byEndpoint, `model
      ensures Agrees() && model == Unlinked(old(model), item.id)
    {
      model := Unlinked(model, item.id);
      byId := byId - {item.id};
      if item.endpoint.Some? { byEndpoint := byEndpoint - {item.endpoint.value}; }
    }

    method Expire(now: int)
      requires Valid()
      modifies `byId, `byEndpoint, `closed, `model
      ensures Valid() && model == Next(old(model), limits, Operation.Expire(now))
    {
      StepKeepsInv(model, limits, Operation.Expire(now));
      DropIdle(now);
    }

    method DropIdle(now: int)
      requires Agrees() && Indexed(model)
      modifies `byId, `byEndpoint, `closed, `model
      ensures Agrees() && model == Expired(old(model), Idle(old(model), limits, now))
    {
      ghost var before := model;
      var rest := byId.Keys;
      SweepEnds(before, limits, now);
      while rest != {}
        invariant Agrees() && model == Swept(before, limits, now, rest) && rest <= before.byId.Keys
        decreases |rest|
      {
        var id :| id in rest;
        Visit(before, rest, id, now);
        rest := rest - {id};
      }
    }

    method Visit(ghost before: Registry, ghost rest: set<nat>, id: nat, now: int)
      requires Agrees() && Indexed(before) && id in rest && rest <= before.byId.Keys && model == Swept(before, limits, now, rest)
      modifies `byId, `byEndpoint, `closed, `model
      ensures Agrees() && model == Swept(before, limits, now, rest - {id})
    {
      SweepStep(before, limits, now, rest, id);
      if now - byId[id].lastSeen >= limits.idle {
        CloseControl(id);
        Remove(id);
      }
    }

    method CloseControl(id: nat)
      requires Agrees() && id in model.byId
      modifies `closed, `model
      ensures Agrees() && model == old(model).(closed := old(model).closed + Controls(old(model), {id}))
    {
      ghost var c := Controls(model, {id});
      if byId[id].control.Some? { closed := closed + {byId[id].control.value}; }
      model := model.(closed := model.closed + c);
    }

    method CloseControls()
      requires Agrees()
      modifies `closed, `model
      ensures Agrees() && model == ClosedButFor(old(model), {})
    {
      ghost var before := model;
      var rest := byId.Keys;
      NoneClosed(before);
      while rest != {}
        invariant Agrees() && model == ClosedButFor(before, rest) && rest <= before.byId.Keys
        decreases |rest|
      {
        var id :| id in rest;
        OneMoreClosed(before, rest, id);
        rest := rest - {id};
        CloseControl(id);
      }
    }

    method CloseAll()
      requires Valid()
      modifies `byId, `byEndpoint, `closed, `model
      ensures Valid() && model == Next(old(model), limits, Operation.CloseAll)
    {
      StepKeepsInv(model, limits, Operation.CloseAll);
      NothingLeft(model);
      CloseControls();
      assert model.byId.Keys - {} == model.byId.Keys;
      byId, byEndpoint := map[], map[];
      model := model.(byId := map[], byEndpoint := map[]);
    }
  }

  lemma NothingLeft(r: Registry)
    requires Indexed(r)
    ensures Without(r, r.byId.Keys, Controls(r, r.byId.Keys)) == Registry(r.nextId, map[], map[], r.closed + Controls(r, r.byId.Keys))
  {
  }

  function Expired(r: Registry, ids: set<nat>): Registry {
    Without(r, ids, Controls(r, ids))
  }

  // The registry when the controls of the associations in `rest` are still open.
  function ClosedButFor(r: Registry, rest: set<nat>): Registry {
    r.(closed := r.closed + Controls(r, r.byId.Keys - rest))
  }

  lemma NoneClosed(r: Registry)
    ensures ClosedButFor(r, r.byId.Keys) == r
  {
  }

  lemma OneMoreClosed(r: Registry, rest: set<nat>, id: nat)
    requires id in rest && id in r.byId
    ensures var n := ClosedButFor(r, rest); ClosedButFor(r, rest - {id}) == n.(closed := n.closed + Controls(n, {id}))
  {
  }

  // The registry when the associations in `rest` have not been visited yet.
  function Swept(r: Registry, l: Limits, now: int, rest: set<nat>): Registry {
    Expired(r, Idle(r, l, now) - rest)
  }

  lemma SweepEnds(r: Registry, l: Limits, now: int)
    ensures Swept(r, l, now, r.byId.Keys) == r && Swept(r, l, now, {}) == Expired(r, Idle(r, l, now))
  {
  }

  // Removing one association after others removes them all, and the index stays exact.
  lemma SweepStep(r: Registry, l: Limits, now: int, rest: set<nat>, id: nat)
    requires Indexed(r) && id in rest && rest <= r.byId.Keys
    ensures var n := Swept(r, l, now, rest);
            Indexed(n) && id in n.byId
            && Swept(r, l, now, rest - {id}) == if id in Idle(n, l, now) then Expired(n, {id}) else n
  {
  }
}
