// The per-address token bucket with garbage collection (src/ratelimiter.rs).
module RateLimiter {
  import opened Consts
  import opened IpPackets

  const PACKETS_PER_SECOND: nat := 20
  const PACKETS_BURSTABLE: nat := 5
  const PACKET_COST: nat := 1_000_000_000 / PACKETS_PER_SECOND
  const MAX_TOKENS: nat := PACKET_COST * PACKETS_BURSTABLE
  const GC_INTERVAL: nat := SECOND

  datatype Entry = Entry(lastTime: nat, tokens: nat)
  type Table = map<Ip, Entry>

  function Min(a: nat, b: nat): nat {
    if a < b then a else b
  }

  // ----- What the limiter does -----

  function Since(e: Entry, now: nat): nat {
    if e.lastTime <= now then now - e.lastTime else 0
  }

  // Only the part of the elapsed time below a second is credited.
  function Refilled(e: Entry, now: nat): nat {
    Min(MAX_TOKENS, e.tokens + Since(e, now) % SECOND)
  }

  function Allow(t: Table, addr: Ip, now: nat): (Table, bool) {
    if addr in t then
      var tokens := Refilled(t[addr], now);
      if tokens > PACKET_COST then (t[addr := Entry(now, tokens - PACKET_COST)], true)
      else (t[addr := Entry(now, tokens)], false)
    else (t[addr := Entry(now, MAX_TOKENS - PACKET_COST)], true)
  }

  function Collect(t: Table, now: nat): Table {
    map a | a in t && Since(t[a], now) <= GC_INTERVAL :: t[a]
  }

  class RateLimiter {
    var table: Table

    constructor ()
      ensures table == map[]
    {
      table := map[];
    }

    method CheckAllowed(addr: Ip, now: nat) returns (allowed: bool)
      modifies this
      ensures (table, allowed) == Allow(old(table), addr, now)
    {
      if addr in table {
        var entry := table[addr];
        entry := entry.(tokens := Min(MAX_TOKENS, entry.tokens + Since(entry, now) % SECOND));
        entry := entry.(lastTime := now);
        if entry.tokens > PACKET_COST {
          entry := entry.(tokens := entry.tokens - PACKET_COST);
          table := table[addr := entry];
          return true;
        } else {
          table := table[addr := entry];
          return false;
        }
      }
      table := table[addr := Entry(now, MAX_TOKENS - PACKET_COST)];
      return true;
    }

    method HandleGc(now: nat)
      modifies this
      ensures table == Collect(old(table), now)
    {
      table := map a | a in table && Since(table[a], now) <= GC_INTERVAL :: table[a];
    }
  }

  // A packet of a known address passes exactly when what is left, with the fraction of a second
  // that went by, is more than 50 million tokens, and pays that much; one of a new address passes.
  // At most 250 million are kept.
  lemma AllowExactly(t: Table, addr: Ip, now: nat)
    requires addr in t ==> t[addr].lastTime <= now
    ensures var (u, ok) := Allow(t, addr, now);
            && u.Keys == t.Keys + {addr} && (forall a :: a in t && a != addr ==> u[a] == t[a]) && u[addr].lastTime == now
            && (addr !in t ==> ok && u[addr].tokens == 200_000_000)
            && (addr in t ==>
                  var credit := t[addr].tokens + (now - t[addr].lastTime) % 1_000_000_000;
                  && (ok <==> credit > 50_000_000)
                  && (credit <= 250_000_000 ==> u[addr].tokens == credit - if ok then 50_000_000 else 0)
                  && (credit > 250_000_000 ==> u[addr].tokens == 200_000_000))
  {
  }

  // Exactly the entries that were not used for more than a second go.
  lemma CollectExactly(t: Table, now: nat, a: Ip)
    requires a in t && t[a].lastTime <= now
    ensures a in Collect(t, now) <==> now - t[a].lastTime <= 1_000_000_000
  {
  }

  // ----- Runs -----

  datatype Op = Packet(addr: Ip, at: nat) | Gc(at: nat)

  // Times never go back.
  ghost predicate Ordered(ops: seq<Op>, from: nat)
    decreases |ops|
  {
    ops != [] ==> from <= ops[0].at && Ordered(ops[1..], ops[0].at)
  }

  function Step(t: Table, op: Op): Table {
    match op
    case Packet(addr, at) => Allow(t, addr, at).0
    case Gc(at) => Collect(t, at)
  }

  function After(t: Table, ops: seq<Op>): Table
    decreases |ops|
  {
    if ops == [] then t else After(Step(t, ops[0]), ops[1..])
  }

  function End(ops: seq<Op>, from: nat): nat {
    if ops == [] then from else ops[|ops| - 1].at
  }

  predicate Passes(t: Table, op: Op, addr: Ip) {
    op.Packet? && op.addr == addr && Allow(t, addr, op.at).1
  }

  // How many packets of `addr` are let through.
  function Passed(t: Table, ops: seq<Op>, addr: Ip): nat
    decreases |ops|
  {
    if ops == [] then 0
    else (if Passes(t, ops[0], addr) then 1 else 0) + Passed(Step(t, ops[0]), ops[1..], addr)
  }

  // ----- The bound -----

  ghost predicate Valid(t: Table, now: nat) {
    forall a :: a in t ==> t[a].lastTime <= now && t[a].tokens <= MAX_TOKENS
  }

  // The level of an ideal bucket that is credited all the time that passes. An address
  // without an entry has a full one.
  function Level(t: Table, addr: Ip, now: nat): nat {
    if addr in t then Min(MAX_TOKENS, t[addr].tokens + Since(t[addr], now)) else MAX_TOKENS
  }

  // Collecting an entry forgets nothing: its ideal bucket is full.
  lemma CollectedIsFull(t: Table, addr: Ip, now: nat)
    requires addr in t && addr !in Collect(t, now)
    ensures Level(t, addr, now) == MAX_TOKENS
  {
  }

  lemma StepLevel(t: Table, op: Op, addr: Ip, now: nat)
    requires Valid(t, now) && now <= op.at
    ensures Valid(Step(t, op), op.at)
    ensures var paid := if Passes(t, op, addr) then PACKET_COST else 0;
            Level(Step(t, op), addr, op.at) + paid <= Level(t, addr, now) + (op.at - now)
  {
    if op.Gc? && addr in t && addr !in Collect(t, op.at) {
      CollectedIsFull(t, addr, op.at);
    }
  }

  lemma Costs(first: nat, rest: nat)
    ensures (first + rest) * PACKET_COST == first * PACKET_COST + rest * PACKET_COST
  {
  }

  lemma {:induction false} LevelBound(t: Table, ops: seq<Op>, addr: Ip, now: nat)
    requires Valid(t, now) && Ordered(ops, now)
    ensures End(ops, now) >= now
    ensures Passed(t, ops, addr) * PACKET_COST + Level(After(t, ops), addr, End(ops, now))
            <= Level(t, addr, now) + (End(ops, now) - now)
    decreases |ops|
  {
    if ops != [] {
      StepLevel(t, ops[0], addr, now);
      LevelBound(Step(t, ops[0]), ops[1..], addr, ops[0].at);
      Costs(if Passes(t, ops[0], addr) then 1 else 0, Passed(Step(t, ops[0]), ops[1..], addr));
      assert End(ops, now) == End(ops[1..], ops[0].at);
    }
  }

  lemma {:induction false} ReachableValid(ops: seq<Op>, t: Table, now: nat)
    requires Valid(t, now) && Ordered(ops, now)
    ensures Valid(After(t, ops), End(ops, now))
    decreases |ops|
  {
    if ops != [] {
      StepLevel(t, ops[0], Ip(false, 0), now);
      ReachableValid(ops[1..], Step(t, ops[0]), ops[0].at);
      assert End(ops, now) == End(ops[1..], ops[0].at);
    }
  }

  lemma {:induction false} OrderedSplit(a: seq<Op>, b: seq<Op>, now: nat)
    requires Ordered(a + b, now)
    ensures Ordered(a, now) && Ordered(b, End(a, now))
    decreases |a|
  {
    if a == [] {
      assert a + b == b;
    } else {
      assert (a + b)[0] == a[0] && (a + b)[1..] == a[1..] + b;
      OrderedSplit(a[1..], b, a[0].at);
      assert End(a, now) == End(a[1..], a[0].at);
    }
  }

  // In any stretch `ops` of any history of packets and collections, the packets of one
  // address that pass cost at most a full bucket and the time the stretch takes.
  lemma RateBound(before: seq<Op>, ops: seq<Op>, addr: Ip)
    requires ops != [] && Ordered(before + ops, 0)
    ensures Passed(After(map[], before), ops, addr) * PACKET_COST <= MAX_TOKENS + (ops[|ops| - 1].at - ops[0].at)
  {
    OrderedSplit(before, ops, 0);
    var t := After(map[], before);
    ReachableValid(before, map[], 0);
    assert Valid(t, ops[0].at);
    assert Ordered(ops, ops[0].at);
    LevelBound(t, ops, addr, ops[0].at);
  }

  // The credit is that of the ideal bucket exactly while less than a second has passed or
  // the fraction alone fills the bucket.
  lemma RefillExact(e: Entry, now: nat)
    ensures Refilled(e, now) == Min(MAX_TOKENS, e.tokens + Since(e, now)) <==>
            (Since(e, now) < SECOND || e.tokens + Since(e, now) % SECOND >= MAX_TOKENS)
  {
    if Since(e, now) >= SECOND {
      assert Since(e, now) > MAX_TOKENS;
    }
  }

  // Packets of one address at whole seconds, in order.
  ghost predicate AtSeconds(ops: seq<Op>, addr: Ip, from: nat)
    decreases |ops|
  {
    ops != [] ==>
      && ops[0].Packet? && ops[0].addr == addr && ops[0].at % SECOND == 0 && from <= ops[0].at
      && AtSeconds(ops[1..], addr, ops[0].at)
  }

  lemma WholeSeconds(from: nat, at: nat)
    requires from % SECOND == 0 && at % SECOND == 0 && from <= at
    ensures (at - from) % SECOND == 0
  {
  }

  lemma {:induction false} NoneAtSeconds(t: Table, ops: seq<Op>, addr: Ip, from: nat)
    requires AtSeconds(ops, addr, from) && from % SECOND == 0
    requires addr in t && t[addr] == Entry(from, PACKET_COST)
    ensures Passed(t, ops, addr) == 0
    decreases |ops|
  {
    if ops != [] {
      WholeSeconds(from, ops[0].at);
      NoneAtSeconds(Step(t, ops[0]), ops[1..], addr, ops[0].at);
    }
  }

  function Repeat(op: Op, n: nat): seq<Op> {
    if n == 0 then [] else [op] + Repeat(op, n - 1)
  }

  // A burst at one instant, down to one packet's worth of tokens.
  lemma {:induction false} Burst(addr: Ip, n: nat)
    requires (n + 1) * PACKET_COST <= MAX_TOKENS
    ensures var t, ops := map[addr := Entry(0, (n + 1) * PACKET_COST)], Repeat(Packet(addr, 0), n);
            Passed(t, ops, addr) == n && After(t, ops) == map[addr := Entry(0, PACKET_COST)]
  {
    if n > 0 {
      Spend(addr, n);
      Burst(addr, n - 1);
      OneMore(map[addr := Entry(0, (n + 1) * PACKET_COST)], Packet(addr, 0), Repeat(Packet(addr, 0), n - 1), addr);
    }
  }

  lemma Spend(addr: Ip, n: nat)
    requires 0 < n && (n + 1) * PACKET_COST <= MAX_TOKENS
    ensures var t, p := map[addr := Entry(0, (n + 1) * PACKET_COST)], Packet(addr, 0);
            Passes(t, p, addr) && Step(t, p) == map[addr := Entry(0, n * PACKET_COST)]
  {
    var t, p := map[addr := Entry(0, (n + 1) * PACKET_COST)], Packet(addr, 0);
    assert Refilled(t[addr], 0) == (n + 1) * PACKET_COST == n * PACKET_COST + PACKET_COST;
    assert Step(t, p) == t[addr := Entry(0, n * PACKET_COST)];
  }

  lemma OneMore(t: Table, op: Op, rest: seq<Op>, addr: Ip)
    ensures After(t, [op] + rest) == After(Step(t, op), rest)
    ensures Passed(t, [op] + rest, addr) == (if Passes(t, op, addr) then 1 else 0) + Passed(Step(t, op), rest, addr)
  {
    assert ([op] + rest)[1..] == rest;
  }

  // So no lower bound on the rate holds: after four packets at one instant an address that
  // sends at whole seconds never gets through again, as long as its entry is not collected.
  lemma Starved(addr: Ip, ops: seq<Op>)
    requires AtSeconds(ops, addr, 0)
    ensures var burst := [Packet(addr, 0)] + Repeat(Packet(addr, 0), 3);
            Passed(map[], burst, addr) == 4 && Passed(After(map[], burst), ops, addr) == 0
  {
    var rest := Repeat(Packet(addr, 0), 3);
    OneMore(map[], Packet(addr, 0), rest, addr);
    assert Step(map[], Packet(addr, 0)) == map[addr := Entry(0, (3 + 1) * PACKET_COST)];
    Burst(addr, 3);
    NoneAtSeconds(map[addr := Entry(0, PACKET_COST)], ops, addr, 0);
  }
}
