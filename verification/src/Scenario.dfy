// A small network for runs that are written out step by step.
module Scenario {
  import opened Types
  import opened Consts
  import opened Timestamps
  import opened IpPackets
  import opened PeerModel
  import opened Router
  import opened World
  import opened Runs
  import opened Theorems

  const ALICE: Key := [1] + Zeros(31)
  const BOB: Key := [2] + Zeros(31)
  const SECRET: Key := [3] + Zeros(31)
  const OWN: Key := [4] + Zeros(31)
  const ADDR := Endpoint(Ip(false, 1), 51820)

  function Noisy(draw: u32, noise: bool): Env {
    Env(true, {}, [draw], noise)
  }

  // An IPv4 header with every field zero but the version and header length.
  const PACKET: Bytes := [0x45] + Zeros(19)

  function Destination(): Ip {
    Ip(false, Number(PACKET[16..20]))
  }

  const ALICE_INFO := PeerInfo(ALICE, None, Some(ADDR), [(Destination(), 0)], None)
  const BOB_INFO := PeerInfo(BOB, None, Some(ADDR), [], None)

  // Alice is configured, alone, with a route for the packet.
  ghost predicate Ready(w: World) {
    && |w.peers| == 1 && w.pubkeyMap == map[ALICE := 0] && w.info.privateKey == Some(SECRET) && w.info.pubKey == Some(OWN)
    && RouteTo(w.routes, PACKET) == Some(0)
    && w.peers[0].info == ALICE_INFO && w.peers[0].past.None? && w.peers[0].current.None?
    && |w.peers[0].queue| <= 1
  }

  lemma RouteFound(w: World)
    requires w.routes == Add<nat>(map[], ALICE_INFO.allowedIps, 0)
    ensures RouteTo(w.routes, PACKET) == Some(0)
  {
    var q := RouteOf((Destination(), 0));
    assert (Destination(), 0) in ALICE_INFO.allowedIps;
    assert Lists(ALICE_INFO.allowedIps, q);
    Added<nat>(map[], ALICE_INFO.allowedIps, 0, q);
    assert PACKET[0] / 16 == 4;
    assert Parse(PACKET) == Some(V4(PACKET));
    assert Covers(q, Destination());
    forall r | r in w.routes && Covers(r, Destination()) ensures r.len <= q.len {
      Added<nat>(map[], ALICE_INFO.allowedIps, 0, r);
    }
    LongestMatchUnique(w.routes, Destination(), q);
  }

  // The interface gets its key, and Alice is added.
  const KEYED := EMPTY_WORLD.(info := InterfaceInfo(Some(SECRET), Some(OWN), None, None))
  const SET_KEY := Configure(SetPrivateKey(SECRET), OWN)
  const ADD_ALICE := Configure(UpdatePeer(ALICE_INFO, false), OWN)

  lemma GetsKey(env: Env)
    ensures Defined(EMPTY_WORLD) && Handle(EMPTY_WORLD, env, SET_KEY) == KEYED
  {
    assert SECRET != Zeros(32) by { assert SECRET[0] == 3; }
  }

  lemma GetsAlice(env: Env)
    ensures Defined(KEYED) && Handle(KEYED, env, ADD_ALICE) == AddPeer(KEYED, ALICE_INFO)
    ensures Ready(AddPeer(KEYED, ALICE_INFO))
  {
    assert ALICE != OWN by { assert ALICE[0] != OWN[0]; }
    RouteFound(AddPeer(KEYED, ALICE_INFO));
  }

  lemma Configured() returns (ws: seq<World>, es: seq<Event>)
    ensures Run(ws, es) && |es| == 2 && Ready(ws[2])
    ensures ws[2].peers == [NewPeer(ALICE_INFO)] && ws[2].indexMap == map[] && ws[2].now == 0
  {
    var env := Noisy(0, true);
    GetsKey(env);
    RunExtends([EMPTY_WORLD], [], Event(env, SET_KEY), KEYED);
    ws, es := [EMPTY_WORLD] + [KEYED], [] + [Event(env, SET_KEY)];
    GetsAlice(env);
    RunExtends(ws, es, Event(env, ADD_ALICE), AddPeer(KEYED, ALICE_INFO));
    ws, es := ws + [AddPeer(KEYED, ALICE_INFO)], es + [Event(env, ADD_ALICE)];
  }

  // A packet for Alice starts a handshake under index `x`.
  lemma StartsHandshake(w: World, x: u32) returns (v: World)
    requires Ready(w) && Defined(w) && w.peers[0].next.None? && x !in w.indexMap
    requires Elapsed(w.peers[0].timers.handshakeInitialized, w.now) >= REKEY_TIMEOUT
    requires w.peers[0].timers.handshakeAttempts == 0
    ensures v == Handle(w, Noisy(x, true), Egress(PACKET))
    ensures v.indexMap == w.indexMap[x := 0] && v.now == w.now && v.routes == w.routes
    ensures v.pubkeyMap == w.pubkeyMap && v.info == w.info && |v.peers| == 1
    ensures var p := v.peers[0];
            && p.info == ALICE_INFO && p.past.None? && p.current.None?
            && p.next.Some? && p.next.value.ourIndex == x && p.next.value.noise.Handshake?
            && p.timers.handshakeInitialized == Some(w.now) && p.timers.handshakeAttempts == 0
            && |p.queue| == |w.peers[0].queue| + 1
  {
    var env := Noisy(x, true);
    v := Handle(w, env, Egress(PACKET));
    var p := w.peers[0];
    var q := p.QueueEgress(PACKET);
    assert |PACKET| == 20;
    assert QueueAndDrain(p, PACKET, env, w.now) == (q, true);
    var w1 := SetPeer(w, 0, q);
    assert v == SendHandshakeInit(w1, 0, env).0;
    assert FirstUnused([x], w.indexMap) == Some(x);
  }

  ghost function Last(ws: seq<World>): World
    requires ws != []
  {
    ws[|ws| - 1]
  }

  lemma Grow(ws: seq<World>, es: seq<Event>, env: Env, i: Input, v: World) returns (ws': seq<World>, es': seq<Event>)
    requires Run(ws, es) && Defined(Last(ws)) && Enabled(Last(ws), i) && v == Handle(Last(ws), env, i)
    ensures Run(ws', es') && Last(ws') == v && Defined(v) && ws' == ws + [v] && es' == es + [Event(env, i)]
  {
    RunExtends(ws, es, Event(env, i), v);
    ws', es' := ws + [v], es + [Event(env, i)];
    RunBase(ws', es', |ws|);
  }
}
