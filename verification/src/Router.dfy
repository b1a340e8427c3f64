// The routing table (src/router.rs): allowed-IP prefixes and the peers that own them,
// searched by longest match.
module Router {
  import opened Types
  import opened IpPackets
  import opened PeerModel

  // A prefix with the host bits of its address cut off.
  datatype Route = Route(v6: bool, top: nat, len: nat)

  // `bits` without its `k` lowest bits.
  function Drop(bits: nat, k: nat): nat
    decreases k
  {
    if k == 0 then bits else Drop(bits / 2, k - 1)
  }

  function Top(ip: Ip, len: nat): nat {
    if len <= Width(ip.v6) then Drop(ip.bits, Width(ip.v6) - len) else ip.bits
  }

  function RouteOf(prefix: Prefix): Route {
    Route(prefix.0.v6, Top(prefix.0, prefix.1), prefix.1)
  }

  lemma {:induction false} DropDivides(bits: nat, k: nat)
    ensures Drop(bits, k) == bits / Pow2(k)
    decreases k
  {
    if k > 0 {
      DropDivides(bits / 2, k - 1);
      DivideTwice(bits, 2, Pow2(k - 1));
    }
  }

  // The address begins with the bits of the prefix.
  predicate Matches(prefix: Prefix, ip: Ip) {
    && prefix.0.v6 == ip.v6 && prefix.1 <= Width(ip.v6)
    && var rest := Pow2(Width(ip.v6) - prefix.1);
    prefix.0.bits / rest == ip.bits / rest
  }

  // Two prefixes are one route exactly when they have the same family and length and begin with
  // the same bits.
  lemma SameRoute(x: Prefix, y: Prefix)
    ensures RouteOf(x) == RouteOf(y) <==>
            x.1 == y.1 && (if x.1 <= Width(x.0.v6) then Matches(x, y.0) else x.0 == y.0)
  {
    if x.1 <= Width(x.0.v6) {
      DropDivides(x.0.bits, Width(x.0.v6) - x.1);
    }
    if y.1 <= Width(y.0.v6) {
      DropDivides(y.0.bits, Width(y.0.v6) - y.1);
    }
  }

  // The route of a prefix covers exactly the addresses that begin with its bits.
  lemma CoversExactly(x: Prefix, ip: Ip)
    ensures Covers(RouteOf(x), ip) <==> Matches(x, ip)
  {
    if x.1 <= Width(x.0.v6) {
      DropDivides(x.0.bits, Width(x.0.v6) - x.1);
    }
    if x.1 <= Width(ip.v6) {
      DropDivides(ip.bits, Width(ip.v6) - x.1);
    }
  }

  // The routes that a list of allowed IPs stands for.
  ghost predicate Lists(ips: seq<Prefix>, r: Route) {
    exists x :: x in ips && RouteOf(x) == r
  }

  // `add_allowed_ips`: each prefix is (re)assigned to `peer`.
  function Add<P>(table: map<Route, P>, ips: seq<Prefix>, peer: P): map<Route, P>
    decreases |ips|
  {
    if ips == [] then table
    else Add(table, ips[..|ips| - 1], peer)[RouteOf(ips[|ips| - 1]) := peer]
  }

  // `remove_allowed_ips`: each prefix is dropped, whoever owns it.
  function Remove<P>(table: map<Route, P>, ips: seq<Prefix>): map<Route, P>
    decreases |ips|
  {
    if ips == [] then table
    else Remove(table, ips[..|ips| - 1]) - {RouteOf(ips[|ips| - 1])}
  }

  lemma ListsLast(ips: seq<Prefix>, r: Route)
    requires ips != []
    ensures Lists(ips, r) <==> Lists(ips[..|ips| - 1], r) || r == RouteOf(ips[|ips| - 1])
  {
    assert ips == ips[..|ips| - 1] + [ips[|ips| - 1]];
    assert ips[|ips| - 1] in ips;
  }

  // Afterwards the listed prefixes lead to `peer` and the others where they led before.
  lemma {:induction false} Added<P>(table: map<Route, P>, ips: seq<Prefix>, peer: P, r: Route)
    ensures var t := Add(table, ips, peer);
            && (r in t <==> r in table || Lists(ips, r))
            && (r in t ==> t[r] == if Lists(ips, r) then peer else table[r])
    decreases |ips|
  {
    if ips != [] {
      ListsLast(ips, r);
      Added(table, ips[..|ips| - 1], peer, r);
    }
  }

  // Afterwards the listed prefixes lead nowhere and the others where they led before.
  lemma {:induction false} Removed<P>(table: map<Route, P>, ips: seq<Prefix>, r: Route)
    ensures var t := Remove(table, ips);
            && (r in t <==> r in table && !Lists(ips, r))
            && (r in t ==> t[r] == table[r])
    decreases |ips|
  {
    if ips != [] {
      ListsLast(ips, r);
      Removed(table, ips[..|ips| - 1], r);
    }
  }

  predicate Covers(r: Route, ip: Ip) {
    r.v6 == ip.v6 && r.len <= Width(ip.v6) && r.top == Top(ip, r.len)
  }

  // The longest prefix of the table that covers `ip`, trying lengths downwards.
  function Search<P>(table: map<Route, P>, ip: Ip, len: nat): (r: Option<Route>)
    requires len <= Width(ip.v6)
    ensures r.Some? ==> r.value in table && Covers(r.value, ip) && r.value.len <= len
    ensures forall q :: q in table && Covers(q, ip) && q.len <= len ==> r.Some? && q.len <= r.value.len
  {
    var q := Route(ip.v6, Top(ip, len), len);
    if q in table then Some(q)
    else if len == 0 then None
    else Search(table, ip, len - 1)
  }

  function LongestMatch<P>(table: map<Route, P>, ip: Ip): (r: Option<Route>)
    ensures r.Some? ==> r.value in table && Covers(r.value, ip)
    ensures forall q :: q in table && Covers(q, ip) ==> r.Some? && q.len <= r.value.len
  {
    Search(table, ip, Width(ip.v6))
  }

  // The owner of the longest match is the only possible answer.
  lemma LongestMatchUnique<P>(table: map<Route, P>, ip: Ip, q: Route)
    requires q in table && Covers(q, ip)
    requires forall r :: r in table && Covers(r, ip) ==> r.len <= q.len
    ensures LongestMatch(table, ip) == Some(q)
  {
    var r := LongestMatch(table, ip);
    assert r.Some? && q.len <= r.value.len;
  }

  function Lookup<P>(table: map<Route, P>, ip: Ip): Option<P> {
    var r := LongestMatch(table, ip);
    if r.Some? then Some(table[r.value]) else None
  }

  // The prefix is in the table, and leads to `p`.
  predicate Assigned<P(==)>(table: map<Route, P>, x: Prefix, p: P) {
    RouteOf(x) in table && table[RouteOf(x)] == p
  }

  // `x` is a longest prefix of the table that matches the address, and leads to `p`.
  ghost predicate Owns<P>(table: map<Route, P>, x: Prefix, ip: Ip, p: P) {
    && Assigned(table, x, p) && Matches(x, ip)
    && (forall y: Prefix :: RouteOf(y) in table && Matches(y, ip) ==> y.1 <= x.1)
  }

  // Every route of the table stands for some prefix.
  ghost predicate Proper<P>(table: map<Route, P>) {
    forall r :: r in table ==> exists x: Prefix :: RouteOf(x) == r
  }

  // An address is looked up to the peer to which its longest matching prefix leads.
  lemma LookupExactly<P>(table: map<Route, P>, ip: Ip, p: P)
    requires Proper(table)
    ensures Lookup(table, ip) == Some(p) <==> exists x: Prefix :: Owns(table, x, ip, p)
  {
    if Lookup(table, ip) == Some(p) {
      var r := LongestMatch(table, ip).value;
      var x: Prefix :| RouteOf(x) == r;
      CoversExactly(x, ip);
      forall y: Prefix | RouteOf(y) in table && Matches(y, ip) ensures y.1 <= x.1 {
        CoversExactly(y, ip);
      }
      assert Owns(table, x, ip, p);
    }
    if x: Prefix :| Owns(table, x, ip, p) {
      CoversExactly(x, ip);
      forall r | r in table && Covers(r, ip) ensures r.len <= RouteOf(x).len {
        var y: Prefix :| RouteOf(y) == r;
        CoversExactly(y, ip);
      }
      LongestMatchUnique(table, ip, RouteOf(x));
    }
  }

  // Whoever lists the route of an owning prefix lists an owning prefix.
  lemma OwnedByListed<P>(table: map<Route, P>, ips: seq<Prefix>, y: Prefix, ip: Ip, p: P)
    requires Owns(table, y, ip, p) && Lists(ips, RouteOf(y))
    ensures exists x :: x in ips && Owns(table, x, ip, p)
  {
    var x :| x in ips && RouteOf(x) == RouteOf(y);
    CoversExactly(x, ip);
    CoversExactly(y, ip);
    assert Owns(table, x, ip, p);
  }

  lemma LongestIsOwned<P>(table: map<Route, P>, ips: seq<Prefix>, ip: Ip)
    requires LongestMatch(table, ip).Some? && Lists(ips, LongestMatch(table, ip).value)
    ensures exists x :: x in ips && Owns(table, x, ip, table[LongestMatch(table, ip).value])
  {
    var r := LongestMatch(table, ip).value;
    var x :| x in ips && RouteOf(x) == r;
    CoversExactly(x, ip);
    forall y: Prefix | RouteOf(y) in table && Matches(y, ip) ensures y.1 <= x.1 {
      CoversExactly(y, ip);
    }
    assert Owns(table, x, ip, table[r]);
  }

  function RouteTo<P>(table: map<Route, P>, packet: Bytes): Option<P> {
    var ip := Parse(packet);
    if ip.Some? then Lookup(table, ip.value.Destination()) else None
  }

  function RouteFrom<P>(table: map<Route, P>, packet: Bytes): Option<P> {
    var ip := Parse(packet);
    if ip.Some? then Lookup(table, ip.value.Source()) else None
  }

  // A packet is for a peer, or comes from one, when that peer owns its address.
  ghost predicate IsFor<P>(table: map<Route, P>, packet: Bytes, p: P) {
    Parse(packet).Some? && exists x: Prefix :: Owns(table, x, Parse(packet).value.Destination(), p)
  }

  ghost predicate IsFrom<P>(table: map<Route, P>, packet: Bytes, p: P) {
    Parse(packet).Some? && exists x: Prefix :: Owns(table, x, Parse(packet).value.Source(), p)
  }

  lemma RoutedExactly<P>(table: map<Route, P>, packet: Bytes, p: P)
    requires Proper(table)
    ensures RouteTo(table, packet) == Some(p) <==> IsFor(table, packet, p)
    ensures RouteFrom(table, packet) == Some(p) <==> IsFrom(table, packet, p)
  {
    if Parse(packet).Some? {
      LookupExactly(table, Parse(packet).value.Destination(), p);
      LookupExactly(table, Parse(packet).value.Source(), p);
    }
  }
}
