// The shared state of the interface and the handlers that update it in place
// (src/interface/mod.rs, src/interface/peer_server.rs). Peers are objects that several
// maps refer to; each handler is proved against the step of World of the same purpose.
module PeerServer {
  import opened Types
  import opened Consts
  import opened Timestamps
  import opened IpPackets
  import opened PeerModel
  import opened PeerObject
  import opened Router
  import opened World

  // ----- The shared state -----

  // A map to peer objects as a map to their names.
  ghost function Ids<K>(m: map<K, Peer>): map<K, nat> {
    map k | k in m :: m[k].id
  }

  lemma IdsUpdate<K>(m: map<K, Peer>, k: K, p: Peer)
    ensures Ids(m[k := p]) == Ids(m)[k := p.id]
  {
  }

  lemma IdsMinus<K>(m: map<K, Peer>, ks: set<K>)
    ensures Ids(m - ks) == Ids(m) - ks
  {
  }

  class State {
    var pubkeyMap: map<Key, Peer>
    var indexMap: map<u32, Peer>
    var routes: map<Route, Peer>
    var info: InterfaceInfo
    var now: nat
    var tunnel: seq<Bytes>

    // Every peer object made so far.
    ghost var arena: seq<Peer>

    ghost predicate Known(p: Peer)
      reads this`arena
    {
      p.id < |arena| && arena[p.id] == p
    }

    ghost predicate Named()
      reads this`arena
    {
      forall i :: 0 <= i < |arena| ==> arena[i].id == i
    }

    ghost predicate PeersMatch(peers: seq<PeerState>, except: nat)
      reads this`arena, arena
    {
      && |peers| == |arena|
      && (forall i :: 0 <= i < |arena| && i != except ==> arena[i].Valid() && peers[i] == arena[i].State())
    }

    ghost predicate KeysMatch(m: map<Key, nat>)
      reads this`arena, this`pubkeyMap
    {
      m == Ids(pubkeyMap) && forall k :: k in pubkeyMap ==> Known(pubkeyMap[k])
    }

    ghost predicate IndicesMatch(m: map<u32, nat>)
      reads this`arena, this`indexMap
    {
      m == Ids(indexMap) && forall i :: i in indexMap ==> Known(indexMap[i])
    }

    ghost predicate RoutesMatch(m: map<Route, nat>)
      reads this`arena, this`routes
    {
      m == Ids(routes) && forall r :: r in routes ==> Known(routes[r])
    }

    ghost predicate TunnelMatches(d: seq<Delivery>)
      reads this`tunnel
    {
      |tunnel| == |d| && forall i :: 0 <= i < |tunnel| ==> tunnel[i] == d[i].packet
    }

    // The objects are in the state that `w` describes, except perhaps one of them.
    ghost predicate Matches(w: World, except: nat)
      reads this, arena
    {
      && Named()
      && PeersMatch(w.peers, except)
      && KeysMatch(w.pubkeyMap) && IndicesMatch(w.indexMap) && RoutesMatch(w.routes)
      && w.info == info && w.now == now && TunnelMatches(w.delivered)
    }

    // The objects are in the state that `w` describes.
    ghost predicate Represents(w: World)
      reads this, arena
    {
      Matches(w, |arena|)
    }

    constructor ()
      ensures Represents(EMPTY_WORLD) && arena == []
    {
      pubkeyMap, indexMap, routes := map[], map[], map[];
      info := InterfaceInfo(None, None, None, None);
      now := 0;
      tunnel := [];
      arena := [];
    }

    // After one peer object changed.
    lemma PeerChanged(w: World, peer: Peer)
      requires Known(peer) && Matches(w, peer.id) && peer.Valid()
      ensures Represents(SetPeer(w, peer.id, peer.State()))
    {
    }
  }

  method InsertIndex(state: State, index: u32, peer: Peer, ghost w: World)
    requires state.Represents(w) && state.Known(peer)
    modifies state`indexMap
    ensures state.Represents(w.(indexMap := w.indexMap[index := peer.id]))
  {
    IdsUpdate(state.indexMap, index, peer);
    state.indexMap := state.indexMap[index := peer];
  }

  method RemoveIndex(state: State, index: Option<u32>, ghost w: World)
    requires state.Represents(w)
    modifies state`indexMap
    ensures state.Represents(w.(indexMap := Unlink(w.indexMap, index)))
  {
    if index.Some? {
      IdsMinus(state.indexMap, {index.value});
      state.indexMap := state.indexMap - {index.value};
    }
  }

  // ----- Searching for an index -----

  lemma {:induction false} SameKeysSameIndex<P, Q>(draws: seq<u32>, m: map<u32, P>, n: map<u32, Q>)
    requires m.Keys == n.Keys
    ensures FirstUnused(draws, m) == FirstUnused(draws, n)
    decreases |draws|
  {
    if draws != [] && draws[0] in m {
      assert draws[0] in m.Keys;
      SameKeysSameIndex(draws[1..], m, n);
    }
  }

  // `unused_index`, for the numbers that the random generator will give.
  method UnusedIndex<P>(draws: seq<u32>, used: map<u32, P>) returns (index: Option<u32>)
    ensures index == FirstUnused(draws, used)
  {
    var k := 0;
    while k < |draws|
      invariant 0 <= k <= |draws|
      invariant FirstUnused(draws, used) == FirstUnused(draws[k..], used)
    {
      if draws[k] !in used {
        return Some(draws[k]);
      }
      k := k + 1;
    }
    return None;
  }

  // ----- Drain loops -----

  // Message number `i` of a handler, from the head of the queue.
  method SendFirst(peer: Peer, env: Env, i: nat, now: nat) returns (r: Result<Outbound>)
    requires peer.Valid() && peer.queue != [] && peer.State().HeadSlot() >= 0
    modifies peer
    ensures peer.Valid() && (peer.State(), r) == old(peer.State()).SendHead(i !in env.failing, now)
  {
    ghost var slot := |peer.hist.queued| - |peer.queue|;
    var packet := peer.PopQueue();
    r := peer.HandleOutgoingTransport(packet, Some(slot), i !in env.failing, now);
  }

  lemma DrainMore(p: PeerState, q: PeerState, r: Result<Outbound>, env: Env, i: nat, stopOnError: bool, now: nat)
    requires p.queue != [] && p.HeadSlot() >= 0 && p.SendHead(i !in env.failing, now) == (q, r)
    ensures q.HeadSlot() >= 0 && |q.queue| < |p.queue|
    ensures p.Drain(env.udp, env.failing, i, stopOnError, now) ==
            if (r.Ok? && !env.udp) || (r.Err? && stopOnError) then (q, false)
            else q.Drain(env.udp, env.failing, i + 1, stopOnError, now)
  {
  }

  // The loops of handle_ingress_handshake_resp and handle_egress_packet.
  method DrainQueue(peer: Peer, env: Env, now: nat) returns (ok: bool)
    requires peer.Valid() && peer.State().HeadSlot() >= 0
    modifies peer
    ensures peer.Valid()
    ensures (peer.State(), ok) == old(peer.State()).Drain(env.udp, env.failing, 0, true, now)
  {
    var i := 0;
    while peer.queue != []
      invariant peer.Valid() && peer.State().HeadSlot() >= 0
      invariant old(peer.State()).Drain(env.udp, env.failing, 0, true, now) ==
                peer.State().Drain(env.udp, env.failing, i, true, now)
      decreases |peer.queue|
    {
      ghost var p := peer.State();
      var r := SendFirst(peer, env, i, now);
      DrainMore(p, peer.State(), r, env, i, true, now);
      if r.Err? || !env.udp {
        return false;
      }
      i := i + 1;
    }
    return true;
  }

  // Sending does not look at the queue.
  lemma OutgoingKeepsQueue(p: PeerState, queue: seq<Bytes>, packet: Bytes, slot: Option<nat>, writes: bool, now: nat)
    ensures p.(queue := queue).Outgoing(packet, slot, writes, now) ==
            (p.Outgoing(packet, slot, writes, now).0.(queue := queue), p.Outgoing(packet, slot, writes, now).1)
  {
  }

  lemma NextHead(p: PeerState, outgoing: seq<Bytes>, i: nat, writes: bool, now: nat)
    requires i < |outgoing| && |p.hist.queued| >= |outgoing|
    ensures p.(queue := outgoing[i..]).SendHead(writes, now) ==
            p.(queue := outgoing[i + 1..]).Outgoing(outgoing[i], Some(|p.hist.queued| - |outgoing| + i), writes, now)
  {
    assert outgoing[i..][1..] == outgoing[i + 1..];
  }

  // Packet number `i` of a queue that was taken as a whole.
  method SendNth(peer: Peer, outgoing: seq<Bytes>, i: nat, env: Env, now: nat) returns (r: Result<Outbound>)
    requires peer.Valid() && peer.queue == [] && i < |outgoing| <= |peer.hist.queued|
    modifies peer
    ensures peer.Valid() && peer.queue == [] && peer.hist.queued == old(peer.hist.queued)
    ensures (peer.State().(queue := outgoing[i + 1..]), r) ==
            old(peer.State()).(queue := outgoing[i..]).SendHead(i !in env.failing, now)
  {
    ghost var slot := |peer.hist.queued| - |outgoing| + i;
    NextHead(peer.State(), outgoing, i, i !in env.failing, now);
    OutgoingKeepsQueue(peer.State(), outgoing[i + 1..], outgoing[i], Some(slot), i !in env.failing, now);
    r := peer.HandleOutgoingTransport(outgoing[i], Some(slot), i !in env.failing, now);
  }

  // The loop of handle_ingress_transport.
  method DrainAll(peer: Peer, env: Env, now: nat) returns (ok: bool)
    requires peer.Valid() && peer.State().HeadSlot() >= 0
    modifies peer
    ensures peer.Valid()
    ensures (peer.State(), ok) == old(peer.State()).DrainAll(env.udp, env.failing, now)
  {
    ghost var goal := peer.State().Drain(env.udp, env.failing, 0, false, now);
    ghost var p := peer.State();
    var outgoing := peer.TakeQueue();
    var i := 0;
    while i < |outgoing|
      invariant peer.Valid()
      invariant 0 <= i <= |outgoing| <= |peer.hist.queued| && peer.queue == []
      invariant p == peer.State().(queue := outgoing[i..])
      invariant goal == p.Drain(env.udp, env.failing, i, false, now)
    {
      var r := SendNth(peer, outgoing, i, env, now);
      ghost var q := peer.State().(queue := outgoing[i + 1..]);
      DrainMore(p, q, r, env, i, false, now);
      p := q;
      if r.Ok? && !env.udp {
        return false;
      }
      i := i + 1;
    }
    return true;
  }

  // ----- Peers as part of the state -----

  // Each of these calls one method of a peer and carries the change over to the state.

  method Initiate(state: State, peer: Peer, index: u32, env: Env, ghost w: World) returns (r: Result<Option<u32>>)
    requires state.Represents(w) && state.Known(peer)
    modifies peer
    ensures var p := w.peers[peer.id];
            && (r.Ok? <==> env.noise && p.info.endpoint.Some?)
            && (r.Err? ==> state.Represents(w))
            && (r.Ok? ==>
                  && r.value == p.PushedOut()
                  && state.Represents(SetPeer(w, peer.id,
                       if env.udp then p.Initiate(index).MarkInitiated(w.now) else p.Initiate(index))))
  {
    r := peer.InitiateNewSession(index, env.noise);
    if r.Ok? && env.udp {
      peer.MarkInitiated(state.now);
    }
    state.PeerChanged(w, peer);
    assert r.Err? ==> SetPeer(w, peer.id, peer.State()) == w;
  }

  method CompleteIncoming(state: State, peer: Peer, addr: Endpoint, index: u32, hello: Hello, noise: bool, ghost w: World)
    returns (r: Result<Option<u32>>)
    requires state.Represents(w) && state.Known(peer)
    modifies peer
    ensures var p := w.peers[peer.id];
            && (r.Ok? <==> noise && p.Newer(hello.tai))
            && (r.Err? ==> state.Represents(w))
            && (r.Ok? ==>
                  && r.value == p.PushedOut()
                  && state.Represents(SetPeer(w, peer.id,
                       p.CompleteIncoming(addr, index, hello.theirIndex, hello.tai, w.now))))
  {
    r := peer.CompleteIncomingHandshake(addr, index, hello.theirIndex, hello.tai, noise, state.now);
    state.PeerChanged(w, peer);
    assert r.Err? ==> SetPeer(w, peer.id, peer.State()) == w;
  }

  method ProcessResponse(state: State, peer: Peer, addr: Endpoint, theirIndex: u32, noise: bool, ghost w: World)
    returns (r: Result<Option<u32>>)
    requires state.Represents(w) && state.Known(peer)
    modifies peer
    ensures var p := w.peers[peer.id];
            && (r.Ok? <==> p.next.Some? && noise)
            && (p.next.None? ==> state.Represents(w))
            && (p.next.Some? && !noise ==> state.Represents(SetPeer(w, peer.id, p.DropNext())))
            && (r.Ok? ==>
                  && r.value == IndexOf(p.past)
                  && state.Represents(SetPeer(w, peer.id, p.AcceptResponse(addr, theirIndex, w.now))))
  {
    r := peer.ProcessIncomingHandshakeResponse(addr, theirIndex, noise, state.now);
    state.PeerChanged(w, peer);
    assert w.peers[peer.id].next.None? ==> SetPeer(w, peer.id, peer.State()) == w;
  }

  // Sends what is queued, or a keepalive, after a handshake completed.
  method Flush(state: State, peer: Peer, env: Env, ghost w: World)
    requires state.Represents(w) && state.Known(peer)
    requires w.peers[peer.id].CanAskNonce() && w.peers[peer.id].HeadSlot() >= 0
    modifies peer
    ensures state.Represents(SetPeer(w, peer.id, AfterHandshake(w.peers[peer.id], env, w.now)))
  {
    var ready := peer.ReadyForTransport(state.now);
    if ready {
      if peer.queue != [] {
        var _ := DrainQueue(peer, env, state.now);
      } else {
        var _ := peer.HandleOutgoingTransport([], None, 0 !in env.failing, state.now);
      }
    }
    state.PeerChanged(w, peer);
  }

  method TakeTransport(state: State, peer: Peer, addr: Endpoint, index: u32, nonce: u64, len: nat, plain: Option<Bytes>,
                       ghost w: World) returns (r: Result<Inbound>)
    requires state.Represents(w) && state.Known(peer) && (plain.Some? ==> |plain.value| <= len)
    modifies peer
    ensures var (q, s) := w.peers[peer.id].Incoming(addr, index, nonce, len, plain, w.now);
            r == s && state.Represents(SetPeer(w, peer.id, q))
  {
    r := peer.HandleIncomingTransport(addr, index, nonce, len, plain, state.now);
    state.PeerChanged(w, peer);
  }

  method SendAll(state: State, peer: Peer, env: Env, ghost w: World) returns (ok: bool)
    requires state.Represents(w) && state.Known(peer) && w.peers[peer.id].HeadSlot() >= 0
    modifies peer
    ensures var (q, s) := w.peers[peer.id].DrainAll(env.udp, env.failing, w.now);
            ok == s && state.Represents(SetPeer(w, peer.id, q))
  {
    ok := DrainAll(peer, env, state.now);
    state.PeerChanged(w, peer);
  }

  method QueueAndSend(state: State, peer: Peer, packet: Bytes, env: Env, ghost w: World) returns (ok: bool)
    requires state.Represents(w) && state.Known(peer)
    requires w.peers[peer.id].CanAskNonce() && w.peers[peer.id].HeadSlot() >= 0
    modifies peer
    ensures var (q, s) := QueueAndDrain(w.peers[peer.id], packet, env, w.now);
            ok == s && state.Represents(SetPeer(w, peer.id, q))
  {
    peer.QueueEgress(packet);
    var ready := peer.ReadyForTransport(state.now);
    ok := true;
    if ready {
      ok := DrainQueue(peer, env, state.now);
    }
    state.PeerChanged(w, peer);
  }

  method SendKeepalive(state: State, peer: Peer, passive: bool, env: Env, ghost w: World)
    requires state.Represents(w) && state.Known(peer)
    modifies peer
    ensures var p := w.peers[peer.id];
            state.Represents(SetPeer(w, peer.id,
              (if passive then p.MarkKeepalive() else p).SendKeepalive(0 !in env.failing, w.now)))
  {
    if passive {
      peer.MarkKeepalive();
    }
    var _ := peer.HandleOutgoingTransport([], None, 0 !in env.failing, state.now);
    state.PeerChanged(w, peer);
  }

  method CountRetry(state: State, peer: Peer, ghost w: World)
    requires state.Represents(w) && state.Known(peer)
    modifies peer
    ensures state.Represents(SetPeer(w, peer.id, w.peers[peer.id].CountRetry()))
  {
    peer.CountRetry();
    state.PeerChanged(w, peer);
  }

  lemma SetPeerTwice(w: World, id: nat, p: PeerState, q: PeerState, m: map<u32, nat>)
    requires id < |w.peers|
    ensures SetPeer(SetPeer(w, id, p).(indexMap := m), id, q) == SetPeer(w, id, q).(indexMap := m)
  {
  }

  // ----- Handshakes -----

  method SendHandshakeInitTo(state: State, peer: Peer, env: Env, ghost w: World) returns (ok: bool)
    requires state.Represents(w) && state.Known(peer)
    modifies state`indexMap, peer
    ensures state.Represents(SendHandshakeInit(w, peer.id, env).0)
    ensures ok == SendHandshakeInit(w, peer.id, env).1
  {
    if Elapsed(peer.timers.handshakeInitialized, state.now) < REKEY_TIMEOUT {
      return false;
    }
    var index := UnusedIndex(env.draws, state.indexMap);
    SameKeysSameIndex(env.draws, state.indexMap, w.indexMap);
    if state.info.privateKey.None? || index.None? {
      return false;
    }
    var r := Initiate(state, peer, index.value, env, w);
    if r.Err? {
      return false;
    }
    ghost var w1 := SendHandshakeInit(w, peer.id, env).0;
    InsertIndex(state, index.value, peer, w1.(indexMap := w.indexMap));
    RemoveIndex(state, r.value, w1.(indexMap := w.indexMap[index.value := peer.id]));
    return env.udp;
  }

  method AnswerInitiation(state: State, peer: Peer, addr: Endpoint, hello: Hello, env: Env, ghost w: World)
    requires state.Represents(w) && state.Known(peer)
    modifies state`indexMap, peer
    ensures state.Represents(Answer(w, peer.id, addr, hello, env))
  {
    var index := UnusedIndex(env.draws, state.indexMap);
    SameKeysSameIndex(env.draws, state.indexMap, w.indexMap);
    if index.None? {
      return;
    }
    var r := CompleteIncoming(state, peer, addr, index.value, hello, env.noise, w);
    if r.Err? {
      return;
    }
    ghost var w1 := Answer(w, peer.id, addr, hello, env);
    RemoveIndex(state, r.value, w1.(indexMap := w.indexMap));
    InsertIndex(state, index.value, peer, w1.(indexMap := Unlink(w.indexMap, r.value)));
  }

  method HandleIngressHandshakeInit(state: State, addr: Endpoint, admitted: bool, hello: Option<Hello>, env: Env, ghost w: World)
    requires state.Represents(w) && Defined(w)
    modifies state`indexMap, state.arena
    ensures state.Represents(OnInitiation(w, addr, admitted, hello, env))
  {
    if !admitted || state.info.privateKey.None? || hello.None? || hello.value.pubKey !in state.pubkeyMap {
      return;
    }
    AnswerInitiation(state, state.pubkeyMap[hello.value.pubKey], addr, hello.value, env, w);
  }

  method HandleIngressHandshakeResp(state: State, addr: Endpoint, admitted: bool, index: u32, theirIndex: u32, env: Env, ghost w: World)
    requires state.Represents(w) && Defined(w)
    modifies state`indexMap, state.arena
    ensures state.Represents(OnResponse(w, addr, admitted, index, theirIndex, env))
  {
    if !admitted || index !in state.indexMap {
      return;
    }
    var peer := state.indexMap[index];
    var r := ProcessResponse(state, peer, addr, theirIndex, env.noise, w);
    if r.Err? {
      return;
    }
    ghost var q := w.peers[peer.id].AcceptResponse(addr, theirIndex, w.now);
    ghost var m := Unlink(w.indexMap, r.value);
    RemoveIndex(state, r.value, SetPeer(w, peer.id, q));
    Flush(state, peer, env, SetPeer(w, peer.id, q).(indexMap := m));
    SetPeerTwice(w, peer.id, q, AfterHandshake(q, env, w.now), m);
  }

  // ----- Transport -----

  // Unlinks the session that fell out and sends what is queued.
  method FollowPromotion(state: State, peer: Peer, dead: Option<u32>, env: Env, ghost w: World) returns (sent: bool)
    requires state.Represents(w) && state.Known(peer) && w.peers[peer.id].HeadSlot() >= 0
    modifies state`indexMap, peer
    ensures var (q, s) := w.peers[peer.id].DrainAll(env.udp, env.failing, w.now);
            sent == s && state.Represents(SetPeer(w, peer.id, q).(indexMap := Unlink(w.indexMap, dead)))
  {
    RemoveIndex(state, dead, w);
    sent := SendAll(state, peer, env, w.(indexMap := Unlink(w.indexMap, dead)));
  }

  method ReceiveFrom(state: State, peer: Peer, addr: Endpoint, index: u32, nonce: u64, len: nat, plain: Option<Bytes>,
                     env: Env, ghost w: World) returns (r: Result<Bytes>)
    requires state.Represents(w) && Defined(w) && index in w.indexMap && state.Known(peer) && w.indexMap[index] == peer.id
    requires plain.Some? ==> |plain.value| <= len
    modifies state`indexMap, peer
    ensures state.Represents(Receive(w, addr, index, nonce, len, plain, env).0)
    ensures r == Receive(w, addr, index, nonce, len, plain, env).1
  {
    var inbound := TakeTransport(state, peer, addr, index, nonce, len, plain, w);
    if inbound.Err? {
      return Err;
    }
    if !inbound.value.promoted {
      return Ok(inbound.value.raw);
    }
    ghost var p := w.peers[peer.id].Incoming(addr, index, nonce, len, plain, w.now).0;
    var sent := FollowPromotion(state, peer, inbound.value.dead, env, SetPeer(w, peer.id, p));
    SetPeerTwice(w, peer.id, p, p.DrainAll(env.udp, env.failing, w.now).0, w.indexMap);
    return if sent then Ok(inbound.value.raw) else Err;
  }

  // ----- Routing -----

  lemma {:induction false} SameKeysSameSearch<P, Q>(t: map<Route, P>, u: map<Route, Q>, ip: Ip, len: nat)
    requires t.Keys == u.Keys && len <= Width(ip.v6)
    ensures Search(t, ip, len) == Search(u, ip, len)
    decreases len
  {
    var q := Route(ip.v6, Top(ip, len), len);
    assert q in t <==> q in u;
    if q !in t && len > 0 {
      SameKeysSameSearch(t, u, ip, len - 1);
    }
  }

  lemma LookupIds(t: map<Route, Peer>, ip: Ip)
    ensures Lookup(Ids(t), ip).Some? <==> Lookup(t, ip).Some?
    ensures Lookup(t, ip).Some? ==> Lookup(Ids(t), ip).value == Lookup(t, ip).value.id
    ensures Lookup(t, ip).Some? ==> exists r :: r in t && t[r] == Lookup(t, ip).value
  {
    assert t.Keys == Ids(t).Keys;
    SameKeysSameSearch(t, Ids(t), ip, Width(ip.v6));
  }

  lemma RoutesIds(t: map<Route, Peer>, packet: Bytes)
    ensures RouteTo(Ids(t), packet).Some? <==> RouteTo(t, packet).Some?
    ensures RouteTo(t, packet).Some? ==> RouteTo(Ids(t), packet).value == RouteTo(t, packet).value.id
    ensures RouteTo(t, packet).Some? ==> exists r :: r in t && t[r] == RouteTo(t, packet).value
    ensures RouteFrom(Ids(t), packet).Some? <==> RouteFrom(t, packet).Some?
    ensures RouteFrom(t, packet).Some? ==> RouteFrom(Ids(t), packet).value == RouteFrom(t, packet).value.id
    ensures RouteFrom(t, packet).Some? ==> exists r :: r in t && t[r] == RouteFrom(t, packet).value
  {
    var ip := Parse(packet);
    if ip.Some? {
      LookupIds(t, ip.value.Destination());
      LookupIds(t, ip.value.Source());
    }
  }

  method AppendToTunnel(state: State, raw: Bytes, ghost id: nat, ghost w: World)
    requires state.Represents(w)
    modifies state`tunnel
    ensures state.Represents(w.(delivered := w.delivered + [Delivery(id, raw)]))
  {
    state.tunnel := state.tunnel + [raw];
  }

  // `validate_source`: the peer that owns the source address has the same public key.
  method ValidateSource(state: State, peer: Peer, raw: Bytes, ghost w: World) returns (valid: bool)
    requires state.Represents(w) && Defined(w) && state.Known(peer)
    ensures valid <==>
      var owner := RouteFrom(w.routes, raw);
      owner.Some? && w.peers[owner.value].info.pubKey == w.peers[peer.id].info.pubKey
  {
    var owner := RouteFrom(state.routes, raw);
    RoutesIds(state.routes, raw);
    return owner.Some? && owner.value.info.pubKey == peer.info.pubKey;
  }

  method DeliverToTunnel(state: State, peer: Peer, raw: Bytes, ghost w: World)
    requires state.Represents(w) && Defined(w) && state.Known(peer)
    modifies state`tunnel
    ensures state.Represents(Deliver(w, peer.id, raw))
  {
    if raw == [] {
      return;
    }
    var valid := ValidateSource(state, peer, raw, w);
    if valid {
      AppendToTunnel(state, raw, peer.id, w);
    }
  }

  // Starts a handshake if one is due, and hands the packet over unless that fails.
  method FinishTransport(state: State, peer: Peer, raw: Bytes, env: Env, ghost w: World)
    requires state.Represents(w) && Defined(w) && state.Known(peer)
    modifies state`indexMap, state`tunnel, peer
    ensures state.Represents(Proceed(w, peer.id, raw, env))
  {
    var needs := peer.NeedsNewHandshake(false, state.now);
    if !needs {
      DeliverToTunnel(state, peer, raw, w);
    } else {
      var started := SendHandshakeInitTo(state, peer, env, w);
      if started {
        DeliverToTunnel(state, peer, raw, SendHandshakeInit(w, peer.id, env).0);
      }
    }
  }

  method HandleIngressTransport(state: State, addr: Endpoint, index: u32, nonce: u64, len: nat, plain: Option<Bytes>,
                                env: Env, ghost w: World)
    requires state.Represents(w) && Defined(w) && (plain.Some? ==> |plain.value| <= len)
    modifies state`indexMap, state`tunnel, state.arena
    ensures state.Represents(OnTransport(w, addr, index, nonce, len, plain, env))
  {
    if index !in state.indexMap {
      return;
    }
    var peer := state.indexMap[index];
    ghost var w1 := Receive(w, addr, index, nonce, len, plain, env).0;
    var r := ReceiveFrom(state, peer, addr, index, nonce, len, plain, env, w);
    if r.Err? {
      return;
    }
    FinishTransport(state, peer, r.value, env, w1);
  }

  method SendToPeer(state: State, peer: Peer, packet: Bytes, env: Env, ghost w: World)
    requires state.Represents(w) && state.Known(peer)
    requires w.peers[peer.id].CanAskNonce() && w.peers[peer.id].HeadSlot() >= 0
    modifies state`indexMap, peer
    ensures state.Represents(SendTo(w, peer.id, packet, env))
  {
    var needs := peer.NeedsNewHandshake(true, state.now);
    var sent := QueueAndSend(state, peer, packet, env, w);
    if sent && needs {
      var _ := SendHandshakeInitTo(state, peer, env, SetPeer(w, peer.id, QueueAndDrain(w.peers[peer.id], packet, env, w.now).0));
    }
  }

  method HandleEgressPacket(state: State, packet: Bytes, env: Env, ghost w: World)
    requires state.Represents(w) && Defined(w)
    modifies state`indexMap, state.arena
    ensures state.Represents(OnEgress(w, packet, env))
  {
    var owner := RouteTo(state.routes, packet);
    RoutesIds(state.routes, packet);
    if packet == [] || |packet| > MAX_CONTENT_SIZE || owner.None? {
      return;
    }
    SendToPeer(state, owner.value, packet, env, w);
  }

  // ----- Timers -----

  method RekeyPeer(state: State, peer: Peer, index: u32, env: Env, ghost w: World)
    requires state.Represents(w) && state.Known(peer)
    modifies state`indexMap, peer
    ensures state.Represents(OnRekey(w, peer.id, index, env))
  {
    var t := peer.FindSession(index);
    match t
    case Some(Next) =>
      if Elapsed(peer.timers.handshakeInitialized, state.now) < REKEY_TIMEOUT {
        return;
      } else if peer.timers.handshakeAttempts >= MAX_HANDSHAKE_ATTEMPTS {
        return;
      }
      CountRetry(state, peer, w);
      var _ := SendHandshakeInitTo(state, peer, env, SetPeer(w, peer.id, w.peers[peer.id].CountRetry()));
    case Some(Current) =>
      var sinceSent := Elapsed(peer.timers.dataSent, state.now);
      var sinceReceived := Elapsed(peer.timers.authenticatedReceived, state.now);
      if sinceSent > sinceReceived {
        return;
      } else if sinceReceived <= STALE_SESSION_TIMEOUT {
        return;
      }
      var _ := SendHandshakeInitTo(state, peer, env, w);
    case _ =>
  }

  method PassiveKeepalivePeer(state: State, peer: Peer, env: Env, ghost w: World)
    requires state.Represents(w) && state.Known(peer)
    modifies peer
    ensures state.Represents(OnPassiveKeepalive(w, peer.id, env))
  {
    if peer.current.None? || peer.info.keepalive.Some? {
      return;
    }
    var sinceReceived := Elapsed(peer.timers.dataReceived, state.now);
    var sinceSent := Elapsed(peer.timers.dataSent, state.now);
    if peer.timers.keepaliveSent || sinceSent < sinceReceived || sinceReceived < KEEPALIVE_TIMEOUT {
      return;
    }
    SendKeepalive(state, peer, true, env, w);
  }

  method PersistentKeepalivePeer(state: State, peer: Peer, env: Env, ghost w: World)
    requires state.Represents(w) && state.Known(peer)
    modifies peer
    ensures state.Represents(OnPersistentKeepalive(w, peer.id, env))
  {
    var interval := PersistentInterval(peer.info);
    if interval.None? || Elapsed(peer.timers.authenticatedTraversed, state.now) < interval.value {
      return;
    }
    SendKeepalive(state, peer, false, env, w);
  }

  ghost function First(indices: seq<u32>, k: nat): set<u32>
    requires k <= |indices|
  {
    set i | i in indices[..k]
  }

  // Taking indices out one by one takes out the set of them.
  lemma MinusOneMore(m: map<u32, nat>, indices: seq<u32>, k: nat)
    requires k < |indices|
    ensures m - First(indices, k) - {indices[k]} == m - First(indices, k + 1)
  {
    assert indices[..k + 1] == indices[..k] + [indices[k]];
  }

  method RemoveIndices(state: State, indices: seq<u32>, ghost w: World)
    requires state.Represents(w)
    modifies state`indexMap
    ensures state.Represents(w.(indexMap := w.indexMap - set i | i in indices))
  {
    var k := 0;
    ghost var m := w.indexMap;
    assert m == w.indexMap - First(indices, 0);
    assert w.(indexMap := m) == w;
    while k < |indices|
      invariant 0 <= k <= |indices|
      invariant m == w.indexMap - First(indices, k)
      invariant state.Represents(w.(indexMap := m))
    {
      RemoveIndex(state, Some(indices[k]), w.(indexMap := m));
      MinusOneMore(w.indexMap, indices, k);
      m := m - {indices[k]};
      k := k + 1;
    }
    assert indices[..k] == indices;
  }

  method WipePeer(state: State, peer: Peer, ghost w: World)
    requires state.Represents(w) && state.Known(peer)
    modifies state`indexMap, peer
    ensures state.Represents(OnWipe(w, peer.id))
  {
    if Elapsed(peer.timers.handshakeCompleted, state.now) < WIPE_AFTER_TIME {
      return;
    }
    var indices := peer.Wipe();
    state.PeerChanged(w, peer);
    RemoveIndices(state, indices, SetPeer(w, peer.id, peer.State()));
  }

  method HandleTimer(state: State, peer: Peer, message: TimerMessage, env: Env, ghost w: World)
    requires state.Represents(w) && state.Known(peer)
    modifies state`indexMap, state.arena
    ensures state.Represents(OnTimer(w, peer.id, message, env))
  {
    // `upgrade`: some map still holds the peer.
    var held := peer in state.pubkeyMap.Values || peer in state.indexMap.Values || peer in state.routes.Values;
    UpgradeIsHeld(state, peer, w);
    if !held {
      return;
    }
    match message
    case Rekey(index) => RekeyPeer(state, peer, index, env, w);
    case PassiveKeepalive => PassiveKeepalivePeer(state, peer, env, w);
    case PersistentKeepalive => PersistentKeepalivePeer(state, peer, env, w);
    case Wipe => WipePeer(state, peer, w);
  }

  lemma ValuesIds<K>(m: map<K, Peer>, peer: Peer)
    requires forall k :: k in m && m[k].id == peer.id ==> m[k] == peer
    ensures peer in m.Values <==> peer.id in Ids(m).Values
  {
    if peer in m.Values {
      var k :| k in m && m[k] == peer;
      assert Ids(m)[k] == peer.id;
    }
    if peer.id in Ids(m).Values {
      var k :| k in m && m[k].id == peer.id;
      assert m[k] == peer;
    }
  }

  lemma UpgradeIsHeld(state: State, peer: Peer, w: World)
    requires state.Represents(w) && state.Known(peer)
    ensures Held(w, peer.id) <==>
            peer in state.pubkeyMap.Values || peer in state.indexMap.Values || peer in state.routes.Values
  {
    ValuesIds(state.pubkeyMap, peer);
    ValuesIds(state.indexMap, peer);
    ValuesIds(state.routes, peer);
  }

  // `NewPersistentKeepalive` on the configuration channel.
  method HandleNewKeepalive(state: State, peer: Peer, env: Env, ghost w: World)
    requires state.Represents(w) && state.Known(peer)
    modifies peer
    ensures state.Represents(OnKeepaliveConfigured(w, peer.id, env))
  {
    if PersistentInterval(peer.info).Some? {
      SendKeepalive(state, peer, false, env, w);
    }
  }
}
