// Every handler keeps the invariants of the whole system.
module StepInvariants {
  import opened Types
  import opened Consts
  import opened PeerModel
  import opened PeerInvariants
  import opened Router
  import opened World
  import opened WorldInvariants

  // ----- Steps -----

  ghost predicate BaseStep(w: World, v: World) {
    Base(v) && WorldEvolves(w, v)
  }

  ghost predicate LinkStep(w: World, v: World) {
    Linked(w) ==> Linked(v) && (OwnersLive(w) ==> OwnersLive(v)) && NoNewStale(w, v)
  }

  lemma LinkTransitive(u: World, v: World, w: World)
    requires LinkStep(u, v) && LinkStep(v, w)
    ensures LinkStep(u, w)
  {
  }

  // The index map concerns only the names, the sessions and the public keys of the peers.
  ghost predicate SameLinks(w: World, v: World) {
    && |v.peers| == |w.peers| && v.pubkeyMap == w.pubkeyMap && v.indexMap == w.indexMap
    && (forall j :: 0 <= j < |w.peers| ==>
          v.peers[j].info.pubKey == w.peers[j].info.pubKey && SameSlots(w.peers[j], v.peers[j]))
  }

  lemma SameLinksLive(w: World, v: World, j: nat)
    requires SameLinks(w, v) && Live(v, j)
    ensures Live(w, j) && v.peers[j].Indices() == w.peers[j].Indices()
    ensures IndicesApart(w.peers[j]) ==> IndicesApart(v.peers[j])
  {
    assert SameSlots(w.peers[j], v.peers[j]);
  }

  lemma SameLinksApart(w: World, v: World)
    requires SameLinks(w, v) && AllApart(w)
    ensures AllApart(v)
  {
    forall j: nat | Live(v, j) ensures IndicesApart(v.peers[j]) {
      SameLinksLive(w, v, j);
    }
  }

  lemma SameLinksMappedAt(w: World, v: World, j: nat, i: u32)
    requires SameLinks(w, v) && SessionsMapped(w) && Live(v, j) && i in v.peers[j].Indices()
    ensures i in v.indexMap && v.indexMap[i] == j
  {
    SameLinksLive(w, v, j);
    assert i in w.indexMap && w.indexMap[i] == j;
  }

  lemma SameLinksMapped(w: World, v: World)
    requires SameLinks(w, v) && SessionsMapped(w)
    ensures SessionsMapped(v)
  {
    forall j: nat, i: u32 | Live(v, j) && i in v.peers[j].Indices() ensures i in v.indexMap && v.indexMap[i] == j {
      SameLinksMappedAt(w, v, j, i);
    }
  }

  lemma SameLinksStale(w: World, v: World)
    requires SameLinks(w, v)
    ensures NoNewStale(w, v)
  {
    forall i | Stale(v, i) ensures Stale(w, i) {
      if v.indexMap[i] < |w.peers| {
        assert SameSlots(w.peers[w.indexMap[i]], v.peers[w.indexMap[i]]);
      }
    }
  }

  lemma SameLinksStep(w: World, v: World)
    requires SameLinks(w, v)
    ensures LinkStep(w, v) && NoNewStale(w, v)
  {
    if Linked(w) {
      SameLinksApart(w, v);
      SameLinksMapped(w, v);
      assert OwnersLive(w) ==> OwnersLive(v);
    }
    SameLinksStale(w, v);
  }

  lemma SameSlotsLink(w: World, id: nat, q: PeerState)
    requires id < |w.peers| && q.info.pubKey == w.peers[id].info.pubKey && SameSlots(w.peers[id], q)
    ensures LinkStep(w, SetPeer(w, id, q))
  {
    var v := SetPeer(w, id, q);
    assert SameLinks(w, v);
    SameLinksStep(w, v);
  }

  // A peer that changes in one of these ways keeps the index map right.
  lemma RelinkLink(w: World, id: nat, q: PeerState, m: map<u32, nat>)
    requires Linked(w) && Live(w, id) && q.info.pubKey == w.peers[id].info.pubKey
    requires Relinks(w, id, q, m) && OldStale(w, id, q, m)
    ensures LinkStep(w, SetPeer(w, id, q).(indexMap := m))
  {
    RelinkLinked(w, id, q, m);
    if OwnersLive(w) {
      RelinkOwners(w, id, q, m);
    }
    RelinkStale(w, id, q, m);
  }

  lemma RelinkSame(w: World, id: nat, p: PeerState, q: PeerState, m: map<u32, nat>)
    requires SameSlots(p, q) && id < |w.peers|
    ensures Relinks(w, id, p, m) <==> Relinks(w, id, q, m)
    ensures OldStale(w, id, p, m) <==> OldStale(w, id, q, m)
  {
    assert p.Indices() == q.Indices();
  }

  lemma PushLink(w: World, id: nat, q: PeerState, s: Session, m: map<u32, nat>)
    requires Linked(w) && Live(w, id) && q.info.pubKey == w.peers[id].info.pubKey
    requires s.ourIndex !in w.indexMap && SameSlots(w.peers[id].Push(s), q)
    requires m == Unlink(w.indexMap[s.ourIndex := id], w.peers[id].PushedOut())
          || m == Unlink(w.indexMap, w.peers[id].PushedOut())[s.ourIndex := id]
    ensures LinkStep(w, SetPeer(w, id, q).(indexMap := m))
  {
    PushRelinks(w, id, s);
    RelinkSame(w, id, w.peers[id].Push(s), q, m);
    RelinkLink(w, id, q, m);
  }

  lemma PromoteLink(w: World, id: nat, q: PeerState, s: Session)
    requires Linked(w) && Live(w, id) && q.info.pubKey == w.peers[id].info.pubKey
    requires w.peers[id].next.Some? && s.ourIndex == w.peers[id].next.value.ourIndex
    requires SameSlots(w.peers[id].Promote(s), q)
    ensures LinkStep(w, SetPeer(w, id, q).(indexMap := Unlink(w.indexMap, IndexOf(w.peers[id].past))))
  {
    var m := Unlink(w.indexMap, IndexOf(w.peers[id].past));
    PromoteRelinks(w, id, s);
    RelinkSame(w, id, w.peers[id].Promote(s), q, m);
    RelinkLink(w, id, q, m);
  }

  // A peer that some map holds is live.
  lemma HeldIsLive(w: World, id: nat)
    requires ConfigOk(w) && OwnersLive(w) && Held(w, id)
    ensures Live(w, id)
  {
  }

  lemma SendHandshakeInitBase(w: World, id: nat, env: Env)
    requires Base(w) && id < |w.peers|
    ensures BaseStep(w, SendHandshakeInit(w, id, env).0)
  {
    var v := SendHandshakeInit(w, id, env).0;
    if v == w {
      WorldEvolvesReflexive(w);
    } else {
      InitGood(w, id, env);
      ReplacePeer(w, id, v.peers[id], v.indexMap);
    }
  }

  lemma InitGood(w: World, id: nat, env: Env)
    requires Base(w) && id < |w.peers| && SendHandshakeInit(w, id, env).0 != w
    ensures var v := SendHandshakeInit(w, id, env).0;
            && v == SetPeer(w, id, v.peers[id]).(indexMap := v.indexMap)
            && Good(w.peers[id], v.peers[id], w.now) && v.peers[id].info == w.peers[id].info
            && (forall i :: i in v.indexMap ==> v.indexMap[i] < |w.peers|)
  {
    var index := FirstUnused(env.draws, w.indexMap);
    if env.udp {
      SendInitiationOk(w.peers[id], index.value, w.now);
    } else {
      InitiateOk(w.peers[id], index.value, w.now);
    }
  }

  lemma SendHandshakeInitLink(w: World, id: nat, env: Env)
    requires Live(w, id)
    ensures LinkStep(w, SendHandshakeInit(w, id, env).0)
  {
    var v := SendHandshakeInit(w, id, env).0;
    var index := FirstUnused(env.draws, w.indexMap);
    if v != w && Linked(w) {
      PushLink(w, id, v.peers[id], w.peers[id].Initiate(index.value).next.value, v.indexMap);
    }
  }

  lemma AnswerBase(w: World, id: nat, addr: Endpoint, hello: Hello, env: Env)
    requires Base(w) && id < |w.peers|
    ensures BaseStep(w, Answer(w, id, addr, hello, env))
  {
    var v := Answer(w, id, addr, hello, env);
    if v == w {
      WorldEvolvesReflexive(w);
    } else {
      var index := FirstUnused(env.draws, w.indexMap).value;
      CompleteIncomingOk(w.peers[id], addr, index, hello.theirIndex, hello.tai, w.now);
      ReplacePeer(w, id, v.peers[id], v.indexMap);
    }
  }

  lemma AnswerLink(w: World, id: nat, addr: Endpoint, hello: Hello, env: Env)
    requires Live(w, id)
    ensures LinkStep(w, Answer(w, id, addr, hello, env))
  {
    var v := Answer(w, id, addr, hello, env);
    if v != w && Linked(w) {
      PushLink(w, id, v.peers[id], v.peers[id].next.value, v.indexMap);
    }
  }

  lemma OnInitiationOk(w: World, addr: Endpoint, admitted: bool, hello: Option<Hello>, env: Env)
    requires Base(w) && Defined(w)
    ensures BaseStep(w, OnInitiation(w, addr, admitted, hello, env))
    ensures LinkStep(w, OnInitiation(w, addr, admitted, hello, env))
  {
    if !admitted || w.info.privateKey.None? || hello.None? || hello.value.pubKey !in w.pubkeyMap {
      WorldEvolvesReflexive(w);
    } else {
      var id := w.pubkeyMap[hello.value.pubKey];
      AnswerBase(w, id, addr, hello.value, env);
      AnswerLink(w, id, addr, hello.value, env);
    }
  }

  // A peer changed in place: nothing but its own record moves.
  lemma InPlace(w: World, id: nat, q: PeerState)
    requires Base(w) && id < |w.peers| && Good(w.peers[id], q, w.now)
    requires q.info.allowedIps == w.peers[id].info.allowedIps && SameSlots(w.peers[id], q)
    ensures BaseStep(w, SetPeer(w, id, q)) && LinkStep(w, SetPeer(w, id, q))
  {
    ReplacePeer(w, id, q, w.indexMap);
    SameSlotsLink(w, id, q);
  }

  lemma AfterHandshakeOk(p: PeerState, env: Env, now: nat)
    requires PeerInv(p, now)
    ensures Good(p, AfterHandshake(p, env, now), now)
    ensures SameSlots(p, AfterHandshake(p, env, now)) && AfterHandshake(p, env, now).info == p.info
  {
    DrainOk(p, env.udp, env.failing, 0, true, now);
    OutgoingOk(p, [], None, 0 !in env.failing, now);
  }

  lemma OnResponseBase(w: World, addr: Endpoint, admitted: bool, index: u32, theirIndex: u32, env: Env)
    requires Base(w) && Defined(w)
    ensures BaseStep(w, OnResponse(w, addr, admitted, index, theirIndex, env))
  {
    var v := OnResponse(w, addr, admitted, index, theirIndex, env);
    if v == w {
      WorldEvolvesReflexive(w);
    } else {
      var id := w.indexMap[index];
      var p := w.peers[id];
      if !env.noise {
        DropNextOk(p, w.now);
      } else {
        var q := p.AcceptResponse(addr, theirIndex, w.now);
        AcceptResponseOk(p, addr, theirIndex, w.now);
        AfterHandshakeOk(q, env, w.now);
        EvolvesTransitive(p, q, v.peers[id]);
      }
      ReplacePeer(w, id, v.peers[id], v.indexMap);
    }
  }

  // A response that cannot be read takes the next session out but leaves its index behind.
  ghost predicate DropsNext(w: World, env: Env, i: Input) {
    && i.Response? && i.admitted && !env.noise
    && i.index in w.indexMap && w.indexMap[i.index] < |w.peers|
    && w.peers[w.indexMap[i.index]].next.Some?
  }

  // All stale indices are old ones, but for one.
  ghost predicate NoNewStaleBut(w: World, v: World, x: u32) {
    forall i :: Stale(v, i) ==> Stale(w, i) || i == x
  }

  lemma DropStale(w: World, id: nat)
    requires id < |w.peers| && w.peers[id].next.Some?
    ensures NoNewStaleBut(w, SetPeer(w, id, w.peers[id].DropNext()), w.peers[id].next.value.ourIndex)
  {
    var v := SetPeer(w, id, w.peers[id].DropNext());
    forall i | Stale(v, i) ensures Stale(w, i) || i == w.peers[id].next.value.ourIndex {
      if w.indexMap[i] < |w.peers| && w.indexMap[i] != id {
        assert v.peers[w.indexMap[i]] == w.peers[w.indexMap[i]];
      }
    }
  }

  lemma DropLink(w: World, id: nat)
    requires Linked(w) && Live(w, id) && w.peers[id].next.Some?
    ensures var v := SetPeer(w, id, w.peers[id].DropNext()); Linked(v) && (OwnersLive(w) ==> OwnersLive(v))
    ensures !Exact(SetPeer(w, id, w.peers[id].DropNext()))
  {
    var p := w.peers[id];
    var q, v := p.DropNext(), SetPeer(w, id, p.DropNext());
    Mapped(w, id);
    assert forall i :: i in q.Indices() ==> i in p.Indices();
    assert Relinks(w, id, q, w.indexMap);
    RelinkLinked(w, id, q, w.indexMap);
    if OwnersLive(w) {
      RelinkOwners(w, id, q, w.indexMap);
    }
    var stale := p.next.value.ourIndex;
    assert stale in p.Indices();
    assert stale in v.indexMap && v.indexMap[stale] == id && stale !in q.Indices();
  }

  lemma AcceptLink(w: World, addr: Endpoint, id: nat, theirIndex: u32, env: Env)
    requires PeersOk(w) && Linked(w) && Live(w, id) && w.peers[id].next.Some?
    ensures var q := w.peers[id].AcceptResponse(addr, theirIndex, w.now);
            && q.CanAskNonce() && q.HeadSlot() >= 0
            && LinkStep(w, SetPeer(w, id, AfterHandshake(q, env, w.now))
                             .(indexMap := Unlink(w.indexMap, IndexOf(w.peers[id].past))))
  {
    var q := w.peers[id].AcceptResponse(addr, theirIndex, w.now);
    AcceptResponseOk(w.peers[id], addr, theirIndex, w.now);
    AfterHandshakeOk(q, env, w.now);
    PromoteLink(w, id, AfterHandshake(q, env, w.now), q.current.value);
  }

  // A step leaves no new stale index, unless it drops the next session and with it leaves one.
  ghost predicate DropsOrKeeps(w: World, env: Env, i: Input, v: World) {
    && (!DropsNext(w, env, i) ==> NoNewStale(w, v))
    && (DropsNext(w, env, i) ==>
          !Exact(v) && NoNewStaleBut(w, v, w.peers[w.indexMap[i.index]].next.value.ourIndex))
  }

  lemma OnResponseLink(w: World, addr: Endpoint, admitted: bool, index: u32, theirIndex: u32, env: Env)
    requires PeersOk(w) && Defined(w) && Linked(w) && (index in w.indexMap ==> Live(w, w.indexMap[index]))
    ensures var v := OnResponse(w, addr, admitted, index, theirIndex, env); Linked(v) && (OwnersLive(w) ==> OwnersLive(v))
    ensures DropsOrKeeps(w, env, Response(addr, admitted, index, theirIndex), OnResponse(w, addr, admitted, index, theirIndex, env))
  {
    var v := OnResponse(w, addr, admitted, index, theirIndex, env);
    if !admitted || index !in w.indexMap || w.peers[w.indexMap[index]].next.None? {
      assert v == w;
    } else if env.noise {
      AcceptLink(w, addr, w.indexMap[index], theirIndex, env);
    } else {
      assert v == SetPeer(w, w.indexMap[index], w.peers[w.indexMap[index]].DropNext());
      DropLink(w, w.indexMap[index]);
      DropStale(w, w.indexMap[index]);
    }
  }

  // ----- Transport -----

  lemma IncomingSlots(p: PeerState, addr: Endpoint, index: u32, nonce: u64, len: nat, plain: Option<Bytes>, now: nat)
    requires plain.Some? ==> |plain.value| <= len
    ensures var (q, r) := p.Incoming(addr, index, nonce, len, plain, now);
            && q.info.allowedIps == p.info.allowedIps && q.info.pubKey == p.info.pubKey
            && (r.Ok? && r.value.promoted ==>
                  p.next.Some? && SameSlots(p.Promote(p.next.value), q) && r.value.dead == IndexOf(p.past))
            && (r.Err? || !r.value.promoted ==> SameSlots(p, q))
  {
  }

  lemma ReceiveBase(w: World, addr: Endpoint, index: u32, nonce: u64, len: nat, plain: Option<Bytes>, env: Env)
    requires Base(w) && Defined(w) && index in w.indexMap
    requires plain.Some? ==> |plain.value| <= len
    ensures BaseStep(w, Receive(w, addr, index, nonce, len, plain, env).0)
  {
    var v := Receive(w, addr, index, nonce, len, plain, env).0;
    var id := w.indexMap[index];
    var (p, r) := w.peers[id].Incoming(addr, index, nonce, len, plain, w.now);
    IncomingOk(w.peers[id], addr, index, nonce, len, plain, w.now);
    IncomingSlots(w.peers[id], addr, index, nonce, len, plain, w.now);
    if r.Ok? && r.value.promoted {
      DrainAllOk(p, env.udp, env.failing, w.now);
      EvolvesTransitive(w.peers[id], p, v.peers[id]);
    }
    ReplacePeer(w, id, v.peers[id], v.indexMap);
  }

  // What Receive leaves of the peer, and which index it takes out.
  lemma ReceiveParts(w: World, i: Input, env: Env)
    requires Base(w) && Defined(w) && i.TransportMessage? && Enabled(w, i) && i.index in w.indexMap
    ensures var id := w.indexMap[i.index];
            var (q, r) := w.peers[id].Incoming(i.addr, i.index, i.nonce, i.len, i.plain, w.now);
            var v := Receive(w, i.addr, i.index, i.nonce, i.len, i.plain, env).0;
            && q.info.pubKey == w.peers[id].info.pubKey && v.peers[id].hist.received == q.hist.received
            && (r.Ok? && r.value.promoted ==>
                  && v == SetPeer(w, id, v.peers[id]).(indexMap := Unlink(w.indexMap, IndexOf(w.peers[id].past)))
                  && v.peers[id].info == q.info && v.peers[id].next.None?)
            && (r.Err? || !r.value.promoted ==> v == SetPeer(w, id, q) && q.PushedOut() == w.peers[id].PushedOut())
  {
    var id := w.indexMap[i.index];
    var (q, r) := w.peers[id].Incoming(i.addr, i.index, i.nonce, i.len, i.plain, w.now);
    IncomingSlots(w.peers[id], i.addr, i.index, i.nonce, i.len, i.plain, w.now);
    if r.Ok? && r.value.promoted {
      IncomingOk(w.peers[id], i.addr, i.index, i.nonce, i.len, i.plain, w.now);
      DrainAllOk(q, env.udp, env.failing, w.now);
    }
  }

  lemma ReceiveLink(w: World, addr: Endpoint, index: u32, nonce: u64, len: nat, plain: Option<Bytes>, env: Env)
    requires Base(w) && Defined(w) && index in w.indexMap && Live(w, w.indexMap[index])
    requires plain.Some? ==> |plain.value| <= len
    ensures LinkStep(w, Receive(w, addr, index, nonce, len, plain, env).0)
  {
    var v := Receive(w, addr, index, nonce, len, plain, env).0;
    var id := w.indexMap[index];
    var (p, r) := w.peers[id].Incoming(addr, index, nonce, len, plain, w.now);
    IncomingSlots(w.peers[id], addr, index, nonce, len, plain, w.now);
    if r.Ok? && r.value.promoted {
      IncomingOk(w.peers[id], addr, index, nonce, len, plain, w.now);
      DrainAllOk(p, env.udp, env.failing, w.now);
      if Linked(w) {
        PromoteLink(w, id, v.peers[id], w.peers[id].next.value);
      }
    } else {
      SameSlotsLink(w, id, p);
    }
  }

  // Deliveries and the interface settings, the own public key aside, do not matter here.
  ghost predicate Alike(w: World, v: World) {
    && v.peers == w.peers && v.pubkeyMap == w.pubkeyMap && v.indexMap == w.indexMap && v.routes == w.routes
    && v.now == w.now
  }

  lemma AlikePeers(w: World, v: World)
    requires PeersOk(w) && Alike(w, v)
    ensures PeersOk(v)
  {
  }

  lemma AlikeConfig(w: World, v: World)
    requires ConfigOk(w) && Alike(w, v) && (v.info.pubKey.Some? ==> v.info.pubKey.value !in w.pubkeyMap)
    ensures ConfigOk(v)
  {
    forall r | r in v.routes ensures Live(v, v.routes[r]) {
      assert Live(w, w.routes[r]);
    }
  }

  lemma AlikeStep(w: World, v: World)
    requires Base(w) && Alike(w, v) && (v.info.pubKey.Some? ==> v.info.pubKey.value !in w.pubkeyMap)
    requires w.delivered <= v.delivered
    ensures BaseStep(w, v) && LinkStep(w, v)
  {
    AlikePeers(w, v);
    AlikeConfig(w, v);
    NewRoutesLink(w, v);
    WorldEvolvesReflexive(w);
  }

  lemma StepTransitive(u: World, v: World, w: World)
    requires WorldEvolves(u, v) && BaseStep(v, w)
    ensures BaseStep(u, w)
  {
    WorldEvolvesTransitive(u, v, w);
  }

  lemma DeliverAlike(w: World, id: nat, raw: Bytes)
    requires Defined(w) && id < |w.peers|
    ensures var v := Deliver(w, id, raw); Alike(w, v) && v.info == w.info && w.delivered <= v.delivered
  {
  }

  lemma DeliverStep(w: World, v: World)
    requires Base(w) && Alike(w, v) && v.info == w.info && w.delivered <= v.delivered
    ensures BaseStep(w, v) && LinkStep(w, v)
  {
    AlikeStep(w, v);
  }

  lemma ProceedBase(w: World, id: nat, raw: Bytes, env: Env)
    requires Base(w) && Defined(w) && id < |w.peers|
    ensures BaseStep(w, Proceed(w, id, raw, env))
  {
    if !w.peers[id].NeedsNewHandshake(false, w.now) {
      DeliverAlike(w, id, raw);
      DeliverStep(w, Deliver(w, id, raw));
    } else {
      var (v, started) := SendHandshakeInit(w, id, env);
      SendHandshakeInitBase(w, id, env);
      if started {
        DeliverAlike(v, id, raw);
        DeliverStep(v, Deliver(v, id, raw));
        StepTransitive(w, v, Deliver(v, id, raw));
      }
    }
  }

  lemma ProceedLink(w: World, id: nat, raw: Bytes, env: Env)
    requires Base(w) && Defined(w) && Live(w, id)
    ensures LinkStep(w, Proceed(w, id, raw, env))
  {
    if !w.peers[id].NeedsNewHandshake(false, w.now) {
      DeliverAlike(w, id, raw);
      DeliverStep(w, Deliver(w, id, raw));
    } else {
      var (v, started) := SendHandshakeInit(w, id, env);
      SendHandshakeInitLink(w, id, env);
      if started {
        SendHandshakeInitBase(w, id, env);
        DeliverAlike(v, id, raw);
        DeliverStep(v, Deliver(v, id, raw));
        LinkTransitive(w, v, Deliver(v, id, raw));
      }
    }
  }

  lemma OnTransportBase(w: World, addr: Endpoint, index: u32, nonce: u64, len: nat, plain: Option<Bytes>, env: Env)
    requires Base(w) && Defined(w) && (plain.Some? ==> |plain.value| <= len)
    ensures BaseStep(w, OnTransport(w, addr, index, nonce, len, plain, env))
  {
    if index !in w.indexMap {
      WorldEvolvesReflexive(w);
    } else {
      var (v, r) := Receive(w, addr, index, nonce, len, plain, env);
      ReceiveBase(w, addr, index, nonce, len, plain, env);
      if r.Ok? {
        ProceedBase(v, w.indexMap[index], r.value, env);
        StepTransitive(w, v, Proceed(v, w.indexMap[index], r.value, env));
      }
    }
  }

  // The owner of an index stays live while its own packet is handled.
  lemma ReceiveLive(w: World, addr: Endpoint, index: u32, nonce: u64, len: nat, plain: Option<Bytes>, env: Env)
    requires Defined(w) && index in w.indexMap && Live(w, w.indexMap[index])
    requires plain.Some? ==> |plain.value| <= len
    ensures Live(Receive(w, addr, index, nonce, len, plain, env).0, w.indexMap[index])
  {
    IncomingSlots(w.peers[w.indexMap[index]], addr, index, nonce, len, plain, w.now);
  }

  lemma ReceivedLink(w: World, t: (World, Result<Bytes>), id: nat, env: Env)
    requires LinkStep(w, t.0) && Base(t.0) && Defined(t.0) && Live(t.0, id)
    ensures LinkStep(w, if t.1.Err? then t.0 else Proceed(t.0, id, t.1.value, env))
  {
    if t.1.Ok? {
      ProceedLink(t.0, id, t.1.value, env);
      LinkTransitive(w, t.0, Proceed(t.0, id, t.1.value, env));
    }
  }

  lemma OnTransportLink(w: World, addr: Endpoint, index: u32, nonce: u64, len: nat, plain: Option<Bytes>, env: Env)
    requires Base(w) && Defined(w) && (plain.Some? ==> |plain.value| <= len)
    requires index in w.indexMap ==> Live(w, w.indexMap[index])
    ensures LinkStep(w, OnTransport(w, addr, index, nonce, len, plain, env))
  {
    if index in w.indexMap {
      ReceiveLink(w, addr, index, nonce, len, plain, env);
      ReceiveBase(w, addr, index, nonce, len, plain, env);
      ReceiveLive(w, addr, index, nonce, len, plain, env);
      ReceivedLink(w, Receive(w, addr, index, nonce, len, plain, env), w.indexMap[index], env);
    }
  }

  // ----- Egress -----

  // A handshake started on behalf of a peer that was changed in place just before.
  lemma ChangeThenInitBase(w: World, id: nat, q: PeerState, env: Env)
    requires Base(w) && id < |w.peers| && Good(w.peers[id], q, w.now)
    requires q.info.allowedIps == w.peers[id].info.allowedIps
    ensures BaseStep(w, SendHandshakeInit(SetPeer(w, id, q), id, env).0)
  {
    var w1 := SetPeer(w, id, q);
    ReplacePeer(w, id, q, w.indexMap);
    SendHandshakeInitBase(w1, id, env);
    StepTransitive(w, w1, SendHandshakeInit(w1, id, env).0);
  }

  lemma ChangeThenInitLink(w: World, id: nat, q: PeerState, env: Env)
    requires Live(w, id) && q.info.pubKey == w.peers[id].info.pubKey && SameSlots(w.peers[id], q)
    ensures LinkStep(w, SendHandshakeInit(SetPeer(w, id, q), id, env).0)
  {
    SameSlotsLink(w, id, q);
    RelinkLive(w, id, q, w.indexMap, id);
    SendHandshakeInitLink(SetPeer(w, id, q), id, env);
    LinkTransitive(w, SetPeer(w, id, q), SendHandshakeInit(SetPeer(w, id, q), id, env).0);
  }

  lemma QueueAndDrainOk(p: PeerState, packet: Bytes, env: Env, now: nat)
    requires PeerInv(p, now) && packet != []
    ensures Good(p, QueueAndDrain(p, packet, env, now).0, now)
    ensures SameSlots(p, QueueAndDrain(p, packet, env, now).0) && QueueAndDrain(p, packet, env, now).0.info == p.info
  {
    var q := p.QueueEgress(packet);
    QueueEgressOk(p, packet, now);
    if q.ReadyForTransport(now) {
      DrainOk(q, env.udp, env.failing, 0, true, now);
      EvolvesTransitive(p, q, QueueAndDrain(p, packet, env, now).0);
    }
  }

  lemma RouteToRange(w: World, packet: Bytes)
    requires ConfigOk(w) && RouteTo(w.routes, packet).Some?
    ensures Live(w, RouteTo(w.routes, packet).value)
  {
  }

  lemma SendToBase(w: World, id: nat, packet: Bytes, env: Env)
    requires Base(w) && Defined(w) && id < |w.peers| && packet != []
    ensures BaseStep(w, SendTo(w, id, packet, env))
  {
    var q := QueueAndDrain(w.peers[id], packet, env, w.now).0;
    QueueAndDrainOk(w.peers[id], packet, env, w.now);
    ReplacePeer(w, id, q, w.indexMap);
    ChangeThenInitBase(w, id, q, env);
  }

  lemma SendToLink(w: World, id: nat, packet: Bytes, env: Env)
    requires Base(w) && Defined(w) && Live(w, id) && packet != []
    ensures LinkStep(w, SendTo(w, id, packet, env))
  {
    var q := QueueAndDrain(w.peers[id], packet, env, w.now).0;
    QueueAndDrainOk(w.peers[id], packet, env, w.now);
    SameSlotsLink(w, id, q);
    ChangeThenInitLink(w, id, q, env);
  }

  lemma OnEgressOk(w: World, packet: Bytes, env: Env)
    requires Base(w) && Defined(w)
    ensures BaseStep(w, OnEgress(w, packet, env)) && LinkStep(w, OnEgress(w, packet, env))
  {
    var owner := RouteTo(w.routes, packet);
    if packet == [] || |packet| > MAX_CONTENT_SIZE || owner.None? {
      WorldEvolvesReflexive(w);
    } else {
      RouteToRange(w, packet);
      SendToBase(w, owner.value, packet, env);
      SendToLink(w, owner.value, packet, env);
    }
  }

  // ----- Timers -----

  lemma OnRekeyBase(w: World, id: nat, index: u32, env: Env)
    requires Base(w) && id < |w.peers|
    ensures BaseStep(w, OnRekey(w, id, index, env))
  {
    if OnRekey(w, id, index, env) == w {
      WorldEvolvesReflexive(w);
    } else if w.peers[id].Find(index) == Some(Next) {
      CountRetryOk(w.peers[id], w.now);
      ChangeThenInitBase(w, id, w.peers[id].CountRetry(), env);
    } else {
      SendHandshakeInitBase(w, id, env);
    }
  }

  lemma OnRekeyLink(w: World, id: nat, index: u32, env: Env)
    requires Live(w, id)
    ensures LinkStep(w, OnRekey(w, id, index, env))
  {
    ChangeThenInitLink(w, id, w.peers[id].CountRetry(), env);
    SendHandshakeInitLink(w, id, env);
  }

  lemma SendKeepaliveOk(p: PeerState, writes: bool, now: nat)
    requires PeerInv(p, now)
    ensures Good(p, p.SendKeepalive(writes, now), now) && SameSlots(p, p.SendKeepalive(writes, now))
  {
    OutgoingOk(p, [], None, writes, now);
  }

  lemma PassiveKeepaliveOk(p: PeerState, writes: bool, now: nat)
    requires PeerInv(p, now)
    ensures var q := p.MarkKeepalive().SendKeepalive(writes, now); Good(p, q, now) && SameSlots(p, q)
  {
    assert Good(p, p.MarkKeepalive(), now);
    SendKeepaliveOk(p.MarkKeepalive(), writes, now);
    EvolvesTransitive(p, p.MarkKeepalive(), p.MarkKeepalive().SendKeepalive(writes, now));
  }

  lemma OnKeepaliveConfiguredOk(w: World, id: nat, env: Env)
    requires Base(w)
    ensures BaseStep(w, OnKeepaliveConfigured(w, id, env)) && LinkStep(w, OnKeepaliveConfigured(w, id, env))
  {
    var v := OnKeepaliveConfigured(w, id, env);
    if v == w {
      WorldEvolvesReflexive(w);
    } else {
      SendKeepaliveOk(w.peers[id], 0 !in env.failing, w.now);
      InPlace(w, id, v.peers[id]);
    }
  }

  lemma OnWipeBase(w: World, id: nat)
    requires Base(w) && id < |w.peers|
    ensures BaseStep(w, OnWipe(w, id))
  {
    var v := OnWipe(w, id);
    if v == w {
      WorldEvolvesReflexive(w);
    } else {
      WipeOk(w.peers[id], w.now);
      ReplacePeer(w, id, w.peers[id].Wipe(), v.indexMap);
    }
  }

  lemma OnWipeLink(w: World, id: nat)
    requires Live(w, id)
    ensures LinkStep(w, OnWipe(w, id))
  {
    var v := OnWipe(w, id);
    if v != w && Linked(w) {
      var p := w.peers[id];
      Mapped(w, id);
      assert p.Wipe().Indices() == {};
      assert Relinks(w, id, p.Wipe(), v.indexMap);
      RelinkLink(w, id, p.Wipe(), v.indexMap);
    }
  }

  lemma OnUpgradedBase(w: World, id: nat, message: TimerMessage, env: Env)
    requires Base(w) && id < |w.peers|
    ensures BaseStep(w, OnUpgraded(w, id, message, env))
  {
    var v := OnUpgraded(w, id, message, env);
    match message
    case Rekey(index) => OnRekeyBase(w, id, index, env);
    case Wipe => OnWipeBase(w, id);
    case _ =>
      if v == w {
        WorldEvolvesReflexive(w);
      } else {
        PassiveKeepaliveOk(w.peers[id], 0 !in env.failing, w.now);
        SendKeepaliveOk(w.peers[id], 0 !in env.failing, w.now);
        ReplacePeer(w, id, v.peers[id], w.indexMap);
      }
  }

  lemma OnUpgradedLink(w: World, id: nat, message: TimerMessage, env: Env)
    requires Live(w, id)
    ensures LinkStep(w, OnUpgraded(w, id, message, env))
  {
    var v := OnUpgraded(w, id, message, env);
    match message
    case Rekey(index) => OnRekeyLink(w, id, index, env);
    case Wipe => OnWipeLink(w, id);
    case _ =>
      if v != w {
        SameSlotsLink(w, id, v.peers[id]);
      }
  }

  lemma OnTimerBase(w: World, id: nat, message: TimerMessage, env: Env)
    requires Base(w)
    ensures BaseStep(w, OnTimer(w, id, message, env))
  {
    if !Held(w, id) {
      WorldEvolvesReflexive(w);
    } else {
      OnUpgradedBase(w, id, message, env);
    }
  }

  lemma OnTimerLink(w: World, id: nat, message: TimerMessage, env: Env)
    requires Held(w, id) ==> Live(w, id)
    ensures LinkStep(w, OnTimer(w, id, message, env))
  {
    if Held(w, id) {
      OnUpgradedLink(w, id, message, env);
    }
  }

  // ----- Configuration -----

  // Removing the peer leaves no entry of the index map that leads to it.
  ghost predicate Removable(w: World, id: nat) {
    forall i :: i in w.indexMap && w.indexMap[i] == id ==> id < |w.peers| && i in w.peers[id].Indices()
  }

  lemma ForgetLive(w: World, k: Key, j: nat)
    requires ConfigOk(w) && k in w.pubkeyMap
    ensures Live(ForgetPeer(w, k), j) <==> Live(w, j) && j != w.pubkeyMap[k]
  {
  }

  lemma ForgetConfig(w: World, k: Key)
    requires ConfigOk(w) && k in w.pubkeyMap
    ensures ConfigOk(ForgetPeer(w, k))
  {
    var v := ForgetPeer(w, k);
    forall r | r in v.routes ensures Live(v, v.routes[r]) && Lists(v.peers[v.routes[r]].info.allowedIps, r) {
      Removed(w.routes, w.peers[w.pubkeyMap[k]].info.allowedIps, r);
      assert Live(w, w.routes[r]);
      ForgetLive(w, k, v.routes[r]);
    }
    assert v.pubkeyMap.Keys == w.pubkeyMap.Keys - {k};
    assert |v.pubkeyMap| == |v.pubkeyMap.Keys| && |w.pubkeyMap| == |w.pubkeyMap.Keys|;
  }

  lemma ForgetBase(w: World, k: Key)
    requires Base(w) && k in w.pubkeyMap
    ensures BaseStep(w, ForgetPeer(w, k))
  {
    SamePeers(w, ForgetPeer(w, k));
    ForgetConfig(w, k);
  }

  lemma SamePeers(w: World, v: World)
    requires PeersOk(w) && v.peers == w.peers && v.now == w.now && w.delivered == v.delivered
    ensures PeersOk(v) && WorldEvolves(w, v)
  {
  }

  // Unlinking one peer that is no longer live leaves the sessions of the others mapped.
  lemma UnlinkMapped(w: World, v: World, id: nat)
    requires SessionsMapped(w) && Live(w, id)
    requires v.peers == w.peers && v.indexMap == w.indexMap - w.peers[id].Indices()
    requires forall j: nat :: Live(v, j) ==> Live(w, j) && j != id
    ensures SessionsMapped(v)
  {
    forall j: nat, i: u32 | Live(v, j) && i in v.peers[j].Indices() ensures i in v.indexMap && v.indexMap[i] == j {
      assert i in w.indexMap && w.indexMap[i] == j;
      assert i !in w.peers[id].Indices();
    }
  }

  lemma ForgetMapped(w: World, k: Key)
    requires ConfigOk(w) && k in w.pubkeyMap && SessionsMapped(w)
    ensures SessionsMapped(ForgetPeer(w, k))
  {
    forall j: nat | Live(ForgetPeer(w, k), j) ensures Live(w, j) && j != w.pubkeyMap[k] {
      ForgetLive(w, k, j);
    }
    UnlinkMapped(w, ForgetPeer(w, k), w.pubkeyMap[k]);
  }

  // Removing a peer never unmaps a session of another one.
  lemma ForgetLinked(w: World, k: Key)
    requires ConfigOk(w) && k in w.pubkeyMap && Linked(w)
    ensures Linked(ForgetPeer(w, k))
  {
    var v := ForgetPeer(w, k);
    ForgetMapped(w, k);
    forall j: nat | Live(v, j) ensures IndicesApart(v.peers[j]) {
      ForgetLive(w, k, j);
    }
  }

  lemma ForgetLink(w: World, k: Key)
    requires ConfigOk(w) && k in w.pubkeyMap && IndexOk(w)
    ensures Linked(ForgetPeer(w, k))
    ensures OwnersLive(ForgetPeer(w, k)) <==> Removable(w, w.pubkeyMap[k])
    ensures NoNewStale(w, ForgetPeer(w, k)) && (Exact(w) ==> Removable(w, w.pubkeyMap[k]))
  {
    var v := ForgetPeer(w, k);
    ForgetLinked(w, k);
    if Removable(w, w.pubkeyMap[k]) {
      assert OwnersLive(v) by {
        forall i | i in v.indexMap ensures Live(v, v.indexMap[i]) {
          ForgetLive(w, k, v.indexMap[i]);
        }
      }
    } else {
      var i :| i in w.indexMap && w.indexMap[i] == w.pubkeyMap[k] && i !in w.peers[w.pubkeyMap[k]].Indices();
      ForgetLive(w, k, v.indexMap[i]);
    }
  }

  // Without such an entry the peer is gone; with one, it is still held although it is no
  // longer configured.
  lemma ForgottenIsFree(w: World, k: Key)
    requires ConfigOk(w) && k in w.pubkeyMap
    ensures Held(ForgetPeer(w, k), w.pubkeyMap[k]) <==> !Removable(w, w.pubkeyMap[k])
  {
    var v := ForgetPeer(w, k);
    var id := w.pubkeyMap[k];
    ForgetConfig(w, k);
    ForgetLive(w, k, id);
    assert id !in v.routes.Values;
    assert id !in v.pubkeyMap.Values;
    if !Removable(w, id) {
      var i :| i in w.indexMap && w.indexMap[i] == id && i !in w.peers[id].Indices();
      assert v.indexMap[i] == id;
    }
  }

  // Where a route leads once a peer is reconfigured, and who listed it if it is not that peer.
  lemma ChangedRoute(w: World, info: PeerInfo, replaceAllowedIps: bool, r: Route)
    requires ConfigOk(w) && info.pubKey in w.pubkeyMap && r in ChangePeer(w, info, replaceAllowedIps).routes
    ensures var v, id := ChangePeer(w, info, replaceAllowedIps), w.pubkeyMap[info.pubKey];
            || (v.routes[r] == id && Lists(v.peers[id].info.allowedIps, r))
            || (r in w.routes && w.routes[r] != id && v.routes[r] == w.routes[r])
  {
    var id := w.pubkeyMap[info.pubKey];
    var was := w.peers[id].info;
    var merged := MergeInfo(was, info, replaceAllowedIps);
    Removed(w.routes, was.allowedIps, r);
    Added(if replaceAllowedIps then Remove(w.routes, was.allowedIps) else w.routes, merged.allowedIps, id, r);
    if !replaceAllowedIps && Lists(was.allowedIps, r) {
      var x :| x in was.allowedIps && RouteOf(x) == r;
      assert x in merged.allowedIps;
    }
  }

  lemma ChangePeerConfig(w: World, info: PeerInfo, replaceAllowedIps: bool)
    requires ConfigOk(w) && info.pubKey in w.pubkeyMap
    ensures ConfigOk(ChangePeer(w, info, replaceAllowedIps))
  {
    var v := ChangePeer(w, info, replaceAllowedIps);
    forall r | r in v.routes ensures Live(v, v.routes[r]) && Lists(v.peers[v.routes[r]].info.allowedIps, r) {
      ChangedRoute(w, info, replaceAllowedIps, r);
    }
  }

  lemma ReconfiguredPeers(w: World, id: nat, info: PeerInfo, v: World)
    requires PeersOk(w) && id < |w.peers| && info.pubKey == w.peers[id].info.pubKey
    requires v.peers == w.peers[id := w.peers[id].Reconfigure(info)] && v.now == w.now && v.delivered == w.delivered
    ensures PeersOk(v) && WorldEvolves(w, v)
  {
    ReconfigureOk(w.peers[id], info, w.now);
    ReplaceKeepsPeers(w, id, w.peers[id].Reconfigure(info), w.indexMap);
    ReplaceEvolves(w, id, w.peers[id].Reconfigure(info), w.indexMap);
  }

  lemma ChangePeerBase(w: World, info: PeerInfo, replaceAllowedIps: bool)
    requires Base(w) && info.pubKey in w.pubkeyMap
    ensures BaseStep(w, ChangePeer(w, info, replaceAllowedIps))
  {
    var id := w.pubkeyMap[info.pubKey];
    ReconfiguredPeers(w, id, MergeInfo(w.peers[id].info, info, replaceAllowedIps), ChangePeer(w, info, replaceAllowedIps));
    ChangePeerConfig(w, info, replaceAllowedIps);
  }

  lemma ChangePeerLink(w: World, info: PeerInfo, replaceAllowedIps: bool)
    requires ConfigOk(w) && info.pubKey in w.pubkeyMap
    ensures LinkStep(w, ChangePeer(w, info, replaceAllowedIps))
  {
    var v := ChangePeer(w, info, replaceAllowedIps);
    var id := w.pubkeyMap[info.pubKey];
    SameSlotsLink(w, id, v.peers[id]);
    NewRoutesLink(SetPeer(w, id, v.peers[id]), v);
  }

  lemma NewRoutesLink(w: World, v: World)
    requires v.peers == w.peers && v.pubkeyMap == w.pubkeyMap && v.indexMap == w.indexMap
    ensures (Linked(w) <==> Linked(v)) && (IndexOk(w) <==> IndexOk(v)) && NoNewStale(w, v) && NoNewStale(v, w)
  {
    SameLinksStep(w, v);
    SameLinksStep(v, w);
  }

  lemma AddPeerLive(w: World, info: PeerInfo, j: nat)
    requires ConfigOk(w) && info.pubKey !in w.pubkeyMap
    ensures Live(AddPeer(w, info), j) <==> Live(w, j) || j == |w.peers|
  {
  }

  lemma OneMoreKey<V>(m: map<Key, V>, k: Key, v: V)
    requires k !in m
    ensures |m[k := v]| == |m| + 1
  {
    assert m[k := v].Keys == m.Keys + {k};
    assert |m[k := v]| == |m[k := v].Keys| && |m| == |m.Keys|;
  }

  lemma AddPeerRoute(w: World, info: PeerInfo, r: Route)
    requires ConfigOk(w) && info.pubKey !in w.pubkeyMap && r in AddPeer(w, info).routes
    ensures var v := AddPeer(w, info); Live(v, v.routes[r]) && Lists(v.peers[v.routes[r]].info.allowedIps, r)
  {
    AddPeerLive(w, info, AddPeer(w, info).routes[r]);
    Added<nat>(w.routes, info.allowedIps, |w.peers|, r);
    if !Lists(info.allowedIps, r) {
      assert r in w.routes && Live(w, w.routes[r]);
    }
  }

  lemma AddPeerConfig(w: World, info: PeerInfo)
    requires ConfigOk(w) && info.pubKey !in w.pubkeyMap && w.info.pubKey != Some(info.pubKey)
    requires |w.pubkeyMap| < MAX_PEERS_PER_DEVICE
    ensures ConfigOk(AddPeer(w, info))
  {
    var v := AddPeer(w, info);
    assert RoutesOk(v) by {
      forall r | r in v.routes ensures Live(v, v.routes[r]) && Lists(v.peers[v.routes[r]].info.allowedIps, r) {
        AddPeerRoute(w, info, r);
      }
    }
    OneMoreKey(w.pubkeyMap, info.pubKey, |w.peers|);
  }

  lemma AddPeerPeers(w: World, info: PeerInfo)
    requires PeersOk(w)
    ensures PeersOk(AddPeer(w, info)) && WorldEvolves(w, AddPeer(w, info))
  {
    var v := AddPeer(w, info);
    forall j | 0 <= j < |v.peers| ensures PeerInv(v.peers[j], v.now) {
      if j == |w.peers| {
        NewPeerOk(info, w.now);
      } else {
        assert v.peers[j] == w.peers[j];
      }
    }
  }

  // A peer without sessions needs no entry.
  lemma AppendLink(w: World, v: World, p: PeerState)
    requires v.peers == w.peers + [p] && v.indexMap == w.indexMap && p.Indices() == {} && IndicesApart(p)
    requires forall j: nat :: Live(v, j) <==> Live(w, j) || j == |w.peers|
    ensures LinkStep(w, v)
  {
    if Linked(w) {
      assert (OwnersLive(w) ==> OwnersLive(v)) && AllApart(v);
      assert SessionsMapped(v) by {
        forall j: nat, i: u32 | Live(v, j) && i in v.peers[j].Indices() ensures i in v.indexMap && v.indexMap[i] == j {
          assert v.peers[j] == w.peers[j];
        }
      }
    }
  }

  lemma AddPeerLink(w: World, info: PeerInfo)
    requires ConfigOk(w) && info.pubKey !in w.pubkeyMap
    ensures LinkStep(w, AddPeer(w, info))
  {
    forall j: nat ensures Live(AddPeer(w, info), j) <==> Live(w, j) || j == |w.peers| {
      AddPeerLive(w, info, j);
    }
    assert NewPeer(info).Indices() == {};
    AppendLink(w, AddPeer(w, info), NewPeer(info));
  }

  // The peer that an update removes on its own, if any.
  function Removes(w: World, e: UpdateEvent, derived: Key): Option<Key> {
    if e.SetPrivateKey? && e.key != Zeros(32) && derived in w.pubkeyMap then Some(derived)
    else if e.RemovePeer? && e.pubKey in w.pubkeyMap then Some(e.pubKey)
    else None
  }

  lemma SetKeyBase(w: World, e: UpdateEvent, derived: Key)
    requires Base(w) && Defined(w) && e.SetPrivateKey?
    ensures BaseStep(w, HandleUpdate(w, e, derived).0)
  {
    var v := HandleUpdate(w, e, derived).0;
    if e.key == Zeros(32) || derived !in w.pubkeyMap {
      AlikeStep(w, v);
    } else {
      var u := ForgetPeer(w, derived);
      ForgetBase(w, derived);
      AlikeStep(u, v);
      StepTransitive(w, u, v);
    }
  }

  lemma UpdatePeerBase(w: World, info: PeerInfo, r: bool, derived: Key)
    requires Base(w) && Defined(w)
    ensures BaseStep(w, HandleUpdate(w, UpdatePeer(info, r), derived).0)
  {
    var v := HandleUpdate(w, UpdatePeer(info, r), derived).0;
    if info.pubKey in w.pubkeyMap {
      assert v == ChangePeer(w, info, r);
      ChangePeerBase(w, info, r);
    } else if w.info.pubKey == Some(info.pubKey) || |w.pubkeyMap| >= MAX_PEERS_PER_DEVICE {
      assert v == w;
      WorldEvolvesReflexive(w);
    } else {
      assert v == AddPeer(w, info);
      AddPeerPeers(w, info);
      AddPeerConfig(w, info);
    }
  }

  lemma RemovedPeer(w: World, k: Key, derived: Key)
    requires Defined(w)
    ensures HandleUpdate(w, RemovePeer(k), derived).0 == if k in w.pubkeyMap then ForgetPeer(w, k) else w
  {
  }

  lemma RemovePeerBase(w: World, k: Key, v: World)
    requires Base(w) && Defined(w) && v == if k in w.pubkeyMap then ForgetPeer(w, k) else w
    ensures BaseStep(w, v)
  {
    if k in w.pubkeyMap {
      ForgetBase(w, k);
    } else {
      WorldEvolvesReflexive(w);
    }
  }

  lemma ClearedBase(w: World, v: World)
    requires Base(w) && v == w.(pubkeyMap := map[], indexMap := map[], routes := map[])
    ensures BaseStep(w, v)
  {
    SamePeers(w, v);
  }

  lemma HandleUpdateBase(w: World, e: UpdateEvent, derived: Key)
    requires Base(w) && Defined(w)
    ensures BaseStep(w, HandleUpdate(w, e, derived).0)
  {
    var v := HandleUpdate(w, e, derived).0;
    match e
    case SetPrivateKey(key) => SetKeyBase(w, e, derived);
    case UpdatePeer(info, r) => UpdatePeerBase(w, info, r, derived);
    case RemovePeer(k) =>
      RemovedPeer(w, k, derived);
      RemovePeerBase(w, k, v);
    case RemoveAllPeers => ClearedBase(w, v);
    case _ => AlikeStep(w, v);
  }

  lemma UpdatePeerLink(w: World, info: PeerInfo, r: bool, derived: Key)
    requires ConfigOk(w) && Defined(w)
    ensures LinkStep(w, HandleUpdate(w, UpdatePeer(info, r), derived).0)
  {
    var v := HandleUpdate(w, UpdatePeer(info, r), derived).0;
    if info.pubKey in w.pubkeyMap {
      assert v == ChangePeer(w, info, r);
      ChangePeerLink(w, info, r);
    } else if v != w {
      assert v == AddPeer(w, info);
      AddPeerLink(w, info);
    }
  }

  lemma ClearedLink(w: World)
    requires w.pubkeyMap == map[] && w.indexMap == map[]
    ensures IndexOk(w) && forall i :: !Stale(w, i)
  {
    assert forall j: nat :: !Live(w, j);
  }

  lemma ForgetThenSame(w: World, k: Key, v: World)
    requires ConfigOk(w) && k in w.pubkeyMap && IndexOk(w)
    requires var u := ForgetPeer(w, k); v.peers == u.peers && v.pubkeyMap == u.pubkeyMap && v.indexMap == u.indexMap
    ensures (IndexOk(v) <==> Removable(w, w.pubkeyMap[k])) && NoNewStale(w, v) && (Exact(w) ==> Removable(w, w.pubkeyMap[k]))
  {
    ForgetLink(w, k);
    NewRoutesLink(ForgetPeer(w, k), v);
  }

  lemma RemovalLink(w: World, e: UpdateEvent, derived: Key)
    requires ConfigOk(w) && Defined(w) && IndexOk(w) && Removes(w, e, derived).Some?
    ensures var v, id := HandleUpdate(w, e, derived).0, w.pubkeyMap[Removes(w, e, derived).value];
            (IndexOk(v) <==> Removable(w, id)) && NoNewStale(w, v) && (Exact(w) ==> Removable(w, id))
  {
    var k := Removes(w, e, derived).value;
    RemovalIsForget(w, e, derived);
    ForgetThenSame(w, k, HandleUpdate(w, e, derived).0);
  }

  // Removal keeps the index map right exactly when the peer leaves no entry behind, and
  // every other update keeps it right.
  lemma HandleUpdateLink(w: World, e: UpdateEvent, derived: Key)
    requires ConfigOk(w) && Defined(w) && IndexOk(w)
    ensures var v, k := HandleUpdate(w, e, derived).0, Removes(w, e, derived);
            && (IndexOk(v) <==> (k.Some? ==> Removable(w, w.pubkeyMap[k.value])))
            && NoNewStale(w, v)
            && (Exact(w) && k.Some? ==> Removable(w, w.pubkeyMap[k.value]))
  {
    if Removes(w, e, derived).Some? {
      RemovalLink(w, e, derived);
    } else if e.UpdatePeer? {
      UpdatePeerLink(w, e.info, e.replaceAllowedIps, derived);
    } else if e.RemoveAllPeers? {
      ClearedLink(HandleUpdate(w, e, derived).0);
    } else {
      NewRoutesLink(w, HandleUpdate(w, e, derived).0);
    }
  }

  // No update unmaps a session.
  lemma HandleUpdateLinked(w: World, e: UpdateEvent, derived: Key)
    requires ConfigOk(w) && Defined(w) && Linked(w)
    ensures Linked(HandleUpdate(w, e, derived).0)
  {
    var v := HandleUpdate(w, e, derived).0;
    if e.UpdatePeer? {
      UpdatePeerLink(w, e.info, e.replaceAllowedIps, derived);
    } else if Removes(w, e, derived).Some? {
      RemovalIsForget(w, e, derived);
      ForgetThenLinked(w, Removes(w, e, derived).value, v);
    } else {
      OtherUpdates(w, e, derived);
      OtherLinked(w, v);
    }
  }

  // The peers and their maps stay as they are, or the maps are emptied.
  ghost predicate SameOrCleared(w: World, v: World) {
    || (v.peers == w.peers && v.pubkeyMap == w.pubkeyMap && v.indexMap == w.indexMap)
    || (v.pubkeyMap == map[] && v.indexMap == map[])
  }

  lemma OtherUpdates(w: World, e: UpdateEvent, derived: Key)
    requires Defined(w) && !e.UpdatePeer? && Removes(w, e, derived).None?
    ensures SameOrCleared(w, HandleUpdate(w, e, derived).0)
  {
  }

  lemma OtherLinked(w: World, v: World)
    requires Linked(w) && SameOrCleared(w, v)
    ensures Linked(v)
  {
    if v.pubkeyMap == map[] && v.indexMap == map[] {
      ClearedLink(v);
    } else {
      NewRoutesLink(w, v);
    }
  }

  lemma ForgetThenLinked(w: World, k: Key, v: World)
    requires ConfigOk(w) && k in w.pubkeyMap && Linked(w)
    requires var u := ForgetPeer(w, k); v.peers == u.peers && v.pubkeyMap == u.pubkeyMap && v.indexMap == u.indexMap
    ensures Linked(v)
  {
    ForgetLinked(w, k);
    NewRoutesLink(ForgetPeer(w, k), v);
  }

  lemma RemovalIsForget(w: World, e: UpdateEvent, derived: Key)
    requires Defined(w) && Removes(w, e, derived).Some?
    ensures var u, v := ForgetPeer(w, Removes(w, e, derived).value), HandleUpdate(w, e, derived).0;
            v.peers == u.peers && v.pubkeyMap == u.pubkeyMap && v.indexMap == u.indexMap
  {
  }
}
