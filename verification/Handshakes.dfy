/** The limiter of handshakes in progress: its counters are the tickets that are still out. */
module Handshakes {
  type Ip = nat

  class Ticket {
    const ip: Ip
    var released: bool

    constructor (ip: Ip)
      ensures this.ip == ip && !released
    {
      this.ip, released := ip, false;
    }
  }

  function Count(byIp: map<Ip, nat>, ip: Ip): nat {
    if ip in byIp then byIp[ip] else 0
  }

  function Of(out: set<Ticket>, ip: Ip): set<Ticket> {
    set t | t in out && t.ip == ip
  }

  lemma OneMore(out: set<Ticket>, ticket: Ticket, ip: Ip)
    requires ticket !in out
    ensures |Of(out + {ticket}, ip)| == |Of(out, ip)| + if ticket.ip == ip then 1 else 0
  {
    assert Of(out + {ticket}, ip) == Of(out, ip) + if ticket.ip == ip then {ticket} else {};
  }

  class HandshakeLimiter {
    var active: nat
    var byIp: map<Ip, nat>
    const maxTotal: nat
    const maxPerIp: nat
    ghost var out: set<Ticket>  // issued and not released

    constructor (maxTotal: nat, maxPerIp: nat)
      ensures Valid() && out == {} && this.maxTotal == maxTotal && this.maxPerIp == maxPerIp
    {
      this.maxTotal, this.maxPerIp := maxTotal, maxPerIp;
      active, byIp, out := 0, map[], {};
      new;
      forall ip: Ip ensures Of(out, ip) == {} { }
    }

    ghost predicate Valid()
      reads this, out
    {
      && active == |out| <= maxTotal
      && (forall ip: Ip :: Count(byIp, ip) == |Of(out, ip)| <= maxPerIp)
      && (forall ip :: ip in byIp ==> byIp[ip] > 0)
      && (forall t :: t in out ==> !t.released)
    }

    // A ticket for an address that could be read, exactly while both limits allow it.
    method Acquire(ip: Ip, readable: bool) returns (ticket: Ticket?)
      requires Valid()
      modifies this
      ensures Valid()
      ensures ticket != null <==> readable && |old(out)| < maxTotal && |Of(old(out), ip)| < maxPerIp
      ensures ticket != null ==> fresh(ticket) && ticket.ip == ip && out == old(out) + {ticket}
      ensures ticket == null ==> out == old(out) && active == old(active) && byIp == old(byIp)
    {
      ticket := null;
      if !readable || active >= maxTotal || Count(byIp, ip) >= maxPerIp { return; }
      ticket := new Ticket(ip);
      active := active + 1;
      byIp := byIp[ip := Count(byIp, ip) + 1];
      forall other: Ip
        ensures |Of(out + {ticket}, other)| == |Of(out, other)| + if other == ip then 1 else 0
      {
        OneMore(out, ticket, other);
      }
      out := out + {ticket};
    }

    // Releasing twice releases once.
    method Release(ticket: Ticket)
      requires Valid() && (ticket.released || ticket in out)
      modifies this, ticket
      ensures Valid() && out == old(out) - {ticket} && ticket.released
    {
      if ticket.released { return; }
      ticket.released := true;
      active := active - 1;
      forall ip: Ip
        ensures |Of(out, ip)| == |Of(out - {ticket}, ip)| + if ticket.ip == ip then 1 else 0
      {
        OneMore(out - {ticket}, ticket, ip);
        assert out - {ticket} + {ticket} == out;
      }
      assert Count(byIp, ticket.ip) == |Of(out, ticket.ip)|;
      out := out - {ticket};
      byIp := if byIp[ticket.ip] == 1 then byIp - {ticket.ip} else byIp[ticket.ip := byIp[ticket.ip] - 1];
    }
  }

  lemma {:induction false} SumOver(out: set<Ticket>, ips: set<Ip>) returns (counts: map<Ip, nat>)
    requires forall t :: t in out ==> t.ip in ips
    ensures counts.Keys == ips && forall ip :: ip in ips ==> counts[ip] == |Of(out, ip)|
    ensures Sum(counts) == |out|
    decreases |ips|
  {
    if ips == {} {
      counts := map[];
      assert out == {};
    } else {
      var ip :| ip in ips;
      var mine := Of(out, ip);
      counts := SumOver(out - mine, ips - {ip});
      forall other | other in ips - {ip} ensures Of(out, other) == Of(out - mine, other) {
      }
      SumGrows(counts, ip, |mine|);
      counts := counts[ip := |mine|];
      assert out == (out - mine) + mine;
    }
  }

  // The sum of the values of a map, whatever the order.
  ghost function Sum(m: map<Ip, nat>): nat
    decreases |m|
  {
    if m == map[] then 0 else var ip :| ip in m; m[ip] + Sum(m - {ip})
  }

  lemma {:induction false} SumGrows(m: map<Ip, nat>, ip: Ip, n: nat)
    requires ip !in m
    ensures Sum(m[ip := n]) == Sum(m) + n
    decreases |m|
  {
    var grown := m[ip := n];
    SumSplits(grown, ip);
    assert grown - {ip} == m;
  }

  lemma {:induction false} SumSplits(m: map<Ip, nat>, ip: Ip)
    requires ip in m
    ensures Sum(m) == m[ip] + Sum(m - {ip})
    decreases |m|
  {
    var first :| first in m && Sum(m) == m[first] + Sum(m - {first});
    if first != ip {
      SumSplits(m - {first}, ip);
      SumSplits(m - {ip}, first);
      assert m - {first} - {ip} == m - {ip} - {first};
    }
  }

  // `active` is the sum of the counters per address.
  lemma ActiveIsSum(l: HandshakeLimiter)
    requires l.Valid()
    ensures l.active == Sum(l.byIp)
  {
    forall t | t in l.out ensures t.ip in l.byIp { assert t in Of(l.out, t.ip); }
    var counts := SumOver(l.out, l.byIp.Keys);
    assert forall ip :: ip in l.byIp ==> Count(l.byIp, ip) == counts[ip];
    assert counts == l.byIp;
  }
}
