// Where the address and the receiver index of every message sent come from, over whole runs.
module Origins {
  import opened Types
  import opened Consts
  import opened Timestamps
  import opened PeerModel
  import opened PeerInvariants
  import opened Router
  import opened World
  import opened WorldInvariants
  import opened StepInvariants
  import opened Runs
  import opened Theorems
  import opened SessionMap
  import opened AntiReplay
  import opened Arrivals

  // ----- What a step tells a peer -----

  // There is an index for the answer, and the timestamp is later than all accepted before.
  ghost predicate Answerable(w: World, id: nat, tai: Bytes, env: Env) {
    && id < |w.peers| && env.noise && (exists x :: x in env.draws && x !in w.indexMap)
    && var h := w.peers[id].hist.timestamps;
    (h == [] || LexLess(h[|h| - 1], tai))
  }

  ghost predicate AcceptsInitiation(w: World, e: Event, id: nat) {
    && e.input.Initiation? && e.input.admitted && e.input.hello.Some? && w.info.privateKey.Some?
    && e.input.hello.value.pubKey in w.pubkeyMap && w.pubkeyMap[e.input.hello.value.pubKey] == id
    && Answerable(w, id, e.input.hello.value.tai, e.env)
  }

  ghost predicate AcceptsResponse(w: World, e: Event, id: nat) {
    && e.input.Response? && e.input.admitted && e.env.noise
    && e.input.index in w.indexMap && w.indexMap[e.input.index] == id && id < |w.peers|
    && w.peers[id].next.Some?
  }

  // The session that the step makes ready, and the index under which the other side knows it.
  ghost function Named(w: World, e: Event, id: nat): Option<(nat, u32)> {
    if AcceptsInitiation(w, e, id) then Some((w.peers[id].hist.nextSid, e.input.hello.value.theirIndex))
    else if AcceptsResponse(w, e, id) then Some((w.peers[id].next.value.sid, e.input.theirIndex))
    else None
  }

  // The address at which the step finds the peer: the source of an authentic message, or the
  // one that is configured.
  ghost function Address(w: World, e: Event, id: nat): Option<Endpoint> {
    if AcceptsInitiation(w, e, id) || AcceptsResponse(w, e, id) || Arrives(w, e.input, id) then Some(e.input.addr)
    else if e.input.Configure? && e.input.update.UpdatePeer? && e.input.update.info.pubKey in w.pubkeyMap
            && w.pubkeyMap[e.input.update.info.pubKey] == id
    then e.input.update.info.endpoint
    else None
  }

  // ----- How a step moves a peer -----

  predicate SameSession(s: Session, t: Session) {
    s.sid == t.sid && s.theirIndex == t.theirIndex && s.birthday == t.birthday && s.noise.Transport? == t.noise.Transport?
  }

  predicate SameSlot(s: Option<Session>, t: Option<Session>) {
    s.Some? == t.Some? && (s.Some? ==> SameSession(s.value, t.value))
  }

  // The message is the current session's, and goes to the other side of it.
  predicate Addressed(p: PeerState, m: Sent, now: nat) {
    && p.current.Some? && Young(p.current.value, now) && m.sid == p.current.value.sid
    && m.message.theirIndex == p.current.value.theirIndex && p.info.endpoint == Some(m.message.endpoint)
  }

  ghost predicate SendsOn(p: PeerState, q: PeerState, now: nat) {
    && p.hist.sent <= q.hist.sent
    && forall k :: |p.hist.sent| <= k < |q.hist.sent| ==> Addressed(q, q.hist.sent[k], now)
  }

  // A peer that does nothing but send.
  ghost predicate OnlySends(p: PeerState, q: PeerState, now: nat) {
    && q.info == p.info && q.past == p.past && q.next == p.next && SameSlot(p.current, q.current)
    && SendsOn(p, q, now)
  }

  lemma OnlySendsTransitive(p: PeerState, q: PeerState, r: PeerState, now: nat)
    requires OnlySends(p, q, now) && OnlySends(q, r, now)
    ensures OnlySends(p, r, now)
  {
    forall k | |p.hist.sent| <= k < |r.hist.sent| ensures Addressed(r, r.hist.sent[k], now) {
      if k < |q.hist.sent| {
        assert r.hist.sent[k] == q.hist.sent[k];
      }
    }
  }

  ghost predicate Timely(p: PeerState, now: nat) {
    p.current.Some? ==> NotAfter(p.current.value.birthday, now)
  }

  lemma OutgoingSends(p: PeerState, packet: Bytes, slot: Option<nat>, writes: bool, now: nat)
    requires Timely(p, now)
    ensures OnlySends(p, p.Outgoing(packet, slot, writes, now).0, now)
  {
  }

  lemma {:induction false} DrainSends(p: PeerState, env: Env, i: nat, stop: bool, now: nat)
    requires Timely(p, now) && p.HeadSlot() >= 0
    ensures OnlySends(p, p.Drain(env.udp, env.failing, i, stop, now).0, now)
    decreases |p.queue|
  {
    if p.queue != [] {
      var (q, r) := p.SendHead(i !in env.failing, now);
      var p1 := p.(queue := p.queue[1..]);
      OutgoingSends(p1, p.queue[0], Some(p.HeadSlot()), i !in env.failing, now);
      assert OnlySends(p, q, now);
      if (r.Ok? && env.udp) || (r.Err? && !stop) {
        DrainSends(q, env, i + 1, stop, now);
        OnlySendsTransitive(p, q, q.Drain(env.udp, env.failing, i + 1, stop, now).0, now);
      }
    }
  }

  // A session in transport mode was made ready by this step, or was there before.
  ghost predicate Known(p: PeerState, s: Option<Session>, named: Option<(nat, u32)>, now: nat) {
    s.Some? && s.value.noise.Transport? ==>
      if named.Some? && named.value.0 == s.value.sid then s.value.theirIndex == named.value.1 && s.value.birthday == Some(now)
      else exists t :: p.Get(t).Some? && SameSession(p.Get(t).value, s.value)
  }

  ghost predicate Moves(p: PeerState, q: PeerState, named: Option<(nat, u32)>, address: Option<Endpoint>, now: nat) {
    && q.info.endpoint == address.Or(p.info.endpoint)
    && (forall t :: Known(p, q.Get(t), named, now))
    && SendsOn(p, q, now)
  }

  lemma NothingMoves(p: PeerState, now: nat)
    ensures Moves(p, p, None, None, now)
  {
    forall t ensures Known(p, p.Get(t), None, now) {
      assert p.Get(t).Some? ==> SameSession(p.Get(t).value, p.Get(t).value);
    }
  }

  // The session comes from the same place as `s`, or has not been made ready.
  predicate Follows(s: Option<Session>, t: Option<Session>) {
    t.Some? && t.value.noise.Transport? ==> s.Some? && SameSession(s.value, t.value)
  }

  lemma KnownFollows(p: PeerState, s: Option<Session>, t: Option<Session>, named: Option<(nat, u32)>, now: nat)
    requires Known(p, s, named, now) && Follows(s, t)
    ensures Known(p, t, named, now)
  {
    if t.Some? && t.value.noise.Transport? && !(named.Some? && named.value.0 == t.value.sid) {
      var x :| p.Get(x).Some? && SameSession(p.Get(x).value, s.value);
      assert SameSession(p.Get(x).value, t.value);
    }
  }

  lemma SendingMoves(p: PeerState, q: PeerState, r: PeerState, named: Option<(nat, u32)>, address: Option<Endpoint>, now: nat)
    requires Moves(p, q, named, address, now) && OnlySends(q, r, now) && q.hist.sent == p.hist.sent
    ensures Moves(p, r, named, address, now)
  {
    forall t ensures Known(p, r.Get(t), named, now) {
      KnownFollows(p, q.Get(t), r.Get(t), named, now);
    }
  }

  // Starting a handshake concerns no session that is ready.
  lemma PushMoves(p: PeerState, q: PeerState, r: PeerState, named: Option<(nat, u32)>, address: Option<Endpoint>, now: nat)
    requires Moves(p, q, named, address, now)
    requires r.info == q.info && r.current == q.current && r.hist.sent == q.hist.sent
    requires Follows(q.next, r.next)
    requires Follows(q.past, r.past) || Follows(q.next, r.past)
    ensures Moves(p, r, named, address, now)
  {
    assert Known(p, q.Get(Past), named, now) && Known(p, q.Get(Next), named, now) && Known(p, q.Get(Current), named, now);
    KnownFollows(p, q.next, r.next, named, now);
    if Follows(q.past, r.past) {
      KnownFollows(p, q.past, r.past, named, now);
    } else {
      KnownFollows(p, q.next, r.past, named, now);
    }
    forall k | |p.hist.sent| <= k < |r.hist.sent| ensures Addressed(r, r.hist.sent[k], now) {
      assert Addressed(q, q.hist.sent[k], now);
    }
  }

  lemma InitMoves(p: PeerState, w: World, id: nat, env: Env, named: Option<(nat, u32)>, address: Option<Endpoint>)
    requires id < |w.peers| && Moves(p, w.peers[id], named, address, w.now)
    ensures Moves(p, SendHandshakeInit(w, id, env).0.peers[id], named, address, w.now)
  {
    PushMoves(p, w.peers[id], SendHandshakeInit(w, id, env).0.peers[id], named, address, w.now);
  }

  lemma CompleteMoves(p: PeerState, addr: Endpoint, index: u32, theirIndex: u32, tai: Bytes, now: nat)
    requires SessionsOk(p, now)
    ensures Moves(p, p.CompleteIncoming(addr, index, theirIndex, tai, now), Some((p.hist.nextSid, theirIndex)), Some(addr), now)
  {
    var q, named := p.CompleteIncoming(addr, index, theirIndex, tai, now), Some((p.hist.nextSid, theirIndex));
    assert q.past.Some? ==> SameSession(q.past.value, p.Get(if p.next.Some? then Next else Past).value);
    assert q.current.Some? ==> SameSession(q.current.value, p.Get(Current).value);
    forall t ensures Known(p, q.Get(t), named, now) {
    }
  }

  lemma AcceptMoves(p: PeerState, addr: Endpoint, theirIndex: u32, now: nat)
    requires SessionsApart(p) && p.next.Some?
    ensures Moves(p, p.AcceptResponse(addr, theirIndex, now), Some((p.next.value.sid, theirIndex)), Some(addr), now)
  {
    var q, named := p.AcceptResponse(addr, theirIndex, now), Some((p.next.value.sid, theirIndex));
    assert q.past.Some? ==> SameSession(q.past.value, p.Get(Current).value);
    forall t ensures Known(p, q.Get(t), named, now) {
    }
  }

  // The sessions stay where they are, or `next` takes the place of `current`.
  predicate Promotes(p: PeerState, q: PeerState) {
    SameSlot(p.next, q.current) && SameSlot(p.current, q.past) && q.next.None?
  }

  predicate Stays(p: PeerState, q: PeerState) {
    SameSlot(p.next, q.next) && SameSlot(p.current, q.current) && SameSlot(p.past, q.past)
  }

  lemma RotationMoves(p: PeerState, q: PeerState, address: Option<Endpoint>, now: nat)
    requires Promotes(p, q) || Stays(p, q)
    requires q.info.endpoint == address.Or(p.info.endpoint) && q.hist.sent == p.hist.sent
    ensures Moves(p, q, None, address, now)
  {
    assert p.Get(Past) == p.past && p.Get(Current) == p.current && p.Get(Next) == p.next;
    forall t ensures Known(p, q.Get(t), None, now) {
    }
  }

  lemma IncomingRotates(p: PeerState, addr: Endpoint, index: u32, nonce: u64, len: nat, plain: Option<Bytes>, now: nat)
    requires plain.Some? ==> |plain.value| <= len
    ensures var (q, r) := p.Incoming(addr, index, nonce, len, plain, now);
            && (Promotes(p, q) || Stays(p, q)) && q.hist.sent == p.hist.sent
            && q.info.endpoint == if r.Ok? then Some(addr) else p.info.endpoint
  {
  }

  // Receiving a message on a session.
  lemma IncomingMoves(w: World, i: Input, id: nat)
    requires i.TransportMessage? && Enabled(w, i) && i.index in w.indexMap && w.indexMap[i.index] == id && id < |w.peers|
    requires PeerInv(w.peers[id], w.now)
    ensures var q := w.peers[id].Incoming(i.addr, i.index, i.nonce, i.len, i.plain, w.now).0;
            && Moves(w.peers[id], q, None, if Arrives(w, i, id) then Some(i.addr) else None, w.now)
            && q.hist.sent == w.peers[id].hist.sent
  {
    var p := w.peers[id];
    IncomingExactly(w, i, id);
    IncomingRotates(p, i.addr, i.index, i.nonce, i.len, i.plain, w.now);
    RotationMoves(p, p.Incoming(i.addr, i.index, i.nonce, i.len, i.plain, w.now).0,
                  if Arrives(w, i, id) then Some(i.addr) else None, w.now);
  }

  // ----- Every step -----

  // What a step may do to a peer that exists.
  ghost predicate MovesAt(w: World, e: Event, v: World, id: nat) {
    && id < |w.peers| && id < |v.peers|
    && Moves(w.peers[id], v.peers[id], Named(w, e, id), Address(w, e, id), w.now)
  }

  // What an initiation that is accepted makes of the peer.
  ghost predicate Answered(p: PeerState, addr: Endpoint, hello: Hello, now: nat, q: PeerState) {
    exists x :: q == p.CompleteIncoming(addr, x, hello.theirIndex, hello.tai, now)
  }

  lemma AnswerEffect(w: World, id: nat, addr: Endpoint, hello: Hello, env: Env)
    requires id < |w.peers| && TimestampsOk(w.peers[id])
    ensures var v := Answer(w, id, addr, hello, env);
            && |v.peers| == |w.peers| && (forall j :: 0 <= j < |w.peers| && j != id ==> v.peers[j] == w.peers[j])
            && if Answerable(w, id, hello.tai, env) then Answered(w.peers[id], addr, hello, w.now, v.peers[id]) else v == w
  {
  }

  lemma InitiationEffect(w: World, e: Event, id: nat)
    requires Defined(w) && PeersOk(w) && e.input.Initiation? && id < |w.peers|
    ensures var v := OnInitiation(w, e.input.addr, e.input.admitted, e.input.hello, e.env);
            && |v.peers| == |w.peers|
            && (!AcceptsInitiation(w, e, id) ==> v.peers[id] == w.peers[id])
            && (AcceptsInitiation(w, e, id) ==> Answered(w.peers[id], e.input.addr, e.input.hello.value, w.now, v.peers[id]))
  {
    var i := e.input;
    if i.admitted && w.info.privateKey.Some? && i.hello.Some? && i.hello.value.pubKey in w.pubkeyMap {
      var j := w.pubkeyMap[i.hello.value.pubKey];
      assert TimestampsOk(w.peers[j]);
      AnswerEffect(w, j, i.addr, i.hello.value, e.env);
    } else {
      assert OnInitiation(w, i.addr, i.admitted, i.hello, e.env) == w;
    }
  }

  lemma InitiationMoves(w: World, e: Event, id: nat)
    requires Defined(w) && PeersOk(w) && e.input.Initiation? && id < |w.peers|
    ensures MovesAt(w, e, OnInitiation(w, e.input.addr, e.input.admitted, e.input.hello, e.env), id)
  {
    InitiationEffect(w, e, id);
    if AcceptsInitiation(w, e, id) {
      var p, hello := w.peers[id], e.input.hello.value;
      var v := OnInitiation(w, e.input.addr, e.input.admitted, e.input.hello, e.env);
      var x :| v.peers[id] == p.CompleteIncoming(e.input.addr, x, hello.theirIndex, hello.tai, w.now);
      CompleteMoves(p, e.input.addr, x, hello.theirIndex, hello.tai, w.now);
    } else {
      NothingMoves(w.peers[id], w.now);
    }
  }

  lemma AfterHandshakeSends(p: PeerState, env: Env, now: nat)
    requires p.CanAskNonce() && p.HeadSlot() >= 0 && Timely(p, now)
    ensures OnlySends(p, AfterHandshake(p, env, now), now)
  {
    if p.queue != [] {
      DrainSends(p, env, 0, true, now);
    } else {
      OutgoingSends(p, [], None, 0 !in env.failing, now);
    }
  }

  lemma ResponseEffect(w: World, e: Event, id: nat)
    requires Defined(w) && PeersOk(w) && e.input.Response? && id < |w.peers|
    ensures var v := OnResponse(w, e.input.addr, e.input.admitted, e.input.index, e.input.theirIndex, e.env);
            && |v.peers| == |w.peers|
            && (!AcceptsResponse(w, e, id) ==> v.peers[id] == w.peers[id] || v.peers[id] == w.peers[id].DropNext())
            && (AcceptsResponse(w, e, id) ==>
                  OnlySends(w.peers[id].AcceptResponse(e.input.addr, e.input.theirIndex, w.now), v.peers[id], w.now))
  {
    if AcceptsResponse(w, e, id) {
      AfterHandshakeSends(w.peers[id].AcceptResponse(e.input.addr, e.input.theirIndex, w.now), e.env, w.now);
    }
  }

  lemma ResponseMoves(w: World, e: Event, id: nat)
    requires Defined(w) && PeersOk(w) && e.input.Response? && id < |w.peers|
    ensures MovesAt(w, e, OnResponse(w, e.input.addr, e.input.admitted, e.input.index, e.input.theirIndex, e.env), id)
  {
    var i, p := e.input, w.peers[id];
    var q := OnResponse(w, i.addr, i.admitted, i.index, i.theirIndex, e.env).peers[id];
    ResponseEffect(w, e, id);
    if AcceptsResponse(w, e, id) {
      AcceptMoves(p, i.addr, i.theirIndex, w.now);
      SendingMoves(p, p.AcceptResponse(i.addr, i.theirIndex, w.now), q, Named(w, e, id), Address(w, e, id), w.now);
    } else {
      NothingMoves(p, w.now);
      PushMoves(p, p, q, None, None, w.now);
    }
  }

  lemma ReceiveMoves(w: World, i: Input, env: Env, id: nat)
    requires Base(w) && Defined(w) && i.TransportMessage? && Enabled(w, i) && i.index in w.indexMap && w.indexMap[i.index] == id
    ensures var v := Receive(w, i.addr, i.index, i.nonce, i.len, i.plain, env).0;
            Moves(w.peers[id], v.peers[id], None, if Arrives(w, i, id) then Some(i.addr) else None, w.now)
  {
    var (q, r) := w.peers[id].Incoming(i.addr, i.index, i.nonce, i.len, i.plain, w.now);
    IncomingMoves(w, i, id);
    if r.Ok? && r.value.promoted {
      IncomingOk(w.peers[id], i.addr, i.index, i.nonce, i.len, i.plain, w.now);
      assert SlotOk(q.current, q.hist, w.now);
      DrainSends(q, env, 0, false, w.now);
      SendingMoves(w.peers[id], q, q.DrainAll(env.udp, env.failing, w.now).0, None,
                   if Arrives(w, i, id) then Some(i.addr) else None, w.now);
    }
  }

  // No other step makes a session ready or learns an address.
  lemma Plain(w: World, e: Event, id: nat)
    requires !e.input.Initiation? && !e.input.Response?
    ensures Named(w, e, id) == None
    ensures !e.input.Configure? ==> Address(w, e, id) == if Arrives(w, e.input, id) then Some(e.input.addr) else None
  {
  }

  lemma ProceedMoves(p: PeerState, w: World, id: nat, raw: Bytes, env: Env, address: Option<Endpoint>)
    requires Defined(w) && id < |w.peers| && Moves(p, w.peers[id], None, address, w.now)
    ensures |Proceed(w, id, raw, env).peers| == |w.peers|
    ensures Moves(p, Proceed(w, id, raw, env).peers[id], None, address, w.now)
    ensures forall j :: 0 <= j < |w.peers| && j != id ==> Proceed(w, id, raw, env).peers[j] == w.peers[j]
  {
    InitMoves(p, w, id, env, None, address);
  }

  lemma ReceivedMoves(w: World, i: Input, env: Env, id: nat, t: (World, Result<Bytes>))
    requires Base(w) && Defined(w) && i.TransportMessage? && Enabled(w, i) && i.index in w.indexMap && w.indexMap[i.index] == id
    requires t == Receive(w, i.addr, i.index, i.nonce, i.len, i.plain, env)
    ensures Defined(t.0) && |t.0.peers| == |w.peers| && t.0.now == w.now
    ensures Moves(w.peers[id], t.0.peers[id], None, if Arrives(w, i, id) then Some(i.addr) else None, w.now)
    ensures forall j :: 0 <= j < |w.peers| && j != id ==> t.0.peers[j] == w.peers[j]
  {
    ReceiveMoves(w, i, env, id);
  }

  lemma ReachedMoves(w: World, i: Input, env: Env, id: nat)
    requires Base(w) && Defined(w) && i.TransportMessage? && Enabled(w, i) && i.index in w.indexMap && w.indexMap[i.index] == id
    ensures var v := OnTransport(w, i.addr, i.index, i.nonce, i.len, i.plain, env);
            && |v.peers| == |w.peers| && (forall j :: 0 <= j < |w.peers| && j != id ==> v.peers[j] == w.peers[j])
            && Moves(w.peers[id], v.peers[id], None, if Arrives(w, i, id) then Some(i.addr) else None, w.now)
  {
    var t := Receive(w, i.addr, i.index, i.nonce, i.len, i.plain, env);
    ReceivedMoves(w, i, env, id, t);
    if t.1.Ok? {
      ProceedMoves(w.peers[id], t.0, id, t.1.value, env, if Arrives(w, i, id) then Some(i.addr) else None);
    }
  }

  lemma TransportMoves(w: World, e: Event, id: nat)
    requires Base(w) && Defined(w) && e.input.TransportMessage? && Enabled(w, e.input) && id < |w.peers|
    ensures var i := e.input; MovesAt(w, e, OnTransport(w, i.addr, i.index, i.nonce, i.len, i.plain, e.env), id)
  {
    Plain(w, e, id);
    NothingMoves(w.peers[id], w.now);
    if e.input.index in w.indexMap {
      ReachedMoves(w, e.input, e.env, w.indexMap[e.input.index]);
    }
  }

  lemma QueueMoves(p: PeerState, packet: Bytes, env: Env, now: nat)
    requires p.CanAskNonce() && p.HeadSlot() >= 0 && Timely(p, now)
    ensures OnlySends(p, QueueAndDrain(p, packet, env, now).0, now)
  {
    DrainSends(p.QueueEgress(packet), env, 0, true, now);
  }

  lemma SendToMoves(w: World, owner: nat, packet: Bytes, env: Env, id: nat)
    requires owner < |w.peers| && PeerInv(w.peers[owner], w.now) && id < |w.peers|
    requires w.peers[owner].CanAskNonce() && w.peers[owner].HeadSlot() >= 0
    ensures |SendTo(w, owner, packet, env).peers| == |w.peers|
    ensures Moves(w.peers[id], SendTo(w, owner, packet, env).peers[id], None, None, w.now)
  {
    var p := w.peers[owner];
    var q := QueueAndDrain(p, packet, env, w.now).0;
    NothingMoves(w.peers[id], w.now);
    assert SlotOk(p.current, p.hist, w.now);
    QueueMoves(p, packet, env, w.now);
    if id == owner {
      SendingMoves(p, p, q, None, None, w.now);
      InitMoves(p, SetPeer(w, id, q), id, env, None, None);
    }
  }

  lemma EgressMoves(w: World, e: Event, id: nat)
    requires Base(w) && Defined(w) && e.input.Egress? && id < |w.peers|
    ensures MovesAt(w, e, OnEgress(w, e.input.packet, e.env), id)
  {
    var packet := e.input.packet;
    Plain(w, e, id);
    NothingMoves(w.peers[id], w.now);
    if RouteTo(w.routes, packet).Some? {
      RouteToRange(w, packet);
      SendToMoves(w, RouteTo(w.routes, packet).value, packet, e.env, id);
    }
  }

  lemma KeepaliveMoves(w: World, id: nat, p: PeerState, writes: bool)
    requires id < |w.peers| && PeerInv(w.peers[id], w.now)
    requires p == w.peers[id] || p == w.peers[id].MarkKeepalive()
    ensures Moves(w.peers[id], p.SendKeepalive(writes, w.now), None, None, w.now)
  {
    NothingMoves(w.peers[id], w.now);
    assert SlotOk(p.current, p.hist, w.now);
    OutgoingSends(p, [], None, writes, w.now);
    SendingMoves(w.peers[id], w.peers[id], p.SendKeepalive(writes, w.now), None, None, w.now);
  }

  lemma RekeyMoves(w: World, id: nat, index: u32, env: Env)
    requires id < |w.peers|
    ensures |OnRekey(w, id, index, env).peers| == |w.peers|
    ensures Moves(w.peers[id], OnRekey(w, id, index, env).peers[id], None, None, w.now)
  {
    var w1 := SetPeer(w, id, w.peers[id].CountRetry());
    NothingMoves(w.peers[id], w.now);
    PushMoves(w.peers[id], w.peers[id], w1.peers[id], None, None, w.now);
    InitMoves(w.peers[id], w1, id, env, None, None);
    InitMoves(w.peers[id], w, id, env, None, None);
  }

  lemma UpgradedMoves(w: World, id: nat, message: TimerMessage, env: Env)
    requires id < |w.peers| && PeerInv(w.peers[id], w.now)
    ensures |OnUpgraded(w, id, message, env).peers| == |w.peers|
    ensures Moves(w.peers[id], OnUpgraded(w, id, message, env).peers[id], None, None, w.now)
  {
    NothingMoves(w.peers[id], w.now);
    match message
    case Rekey(index) => RekeyMoves(w, id, index, env);
    case PassiveKeepalive => KeepaliveMoves(w, id, w.peers[id].MarkKeepalive(), 0 !in env.failing);
    case PersistentKeepalive => KeepaliveMoves(w, id, w.peers[id], 0 !in env.failing);
    case Wipe => WipeMoves(w.peers[id], w.now);
  }

  lemma WipeMoves(p: PeerState, now: nat)
    ensures Moves(p, p.Wipe(), None, None, now)
  {
  }

  lemma OthersStay(w: World, id: nat, message: TimerMessage, env: Env, j: nat)
    requires id < |w.peers| && j < |w.peers| && j != id
    ensures |OnUpgraded(w, id, message, env).peers| == |w.peers| && OnUpgraded(w, id, message, env).peers[j] == w.peers[j]
  {
  }

  lemma TimerMoves(w: World, e: Event, id: nat)
    requires PeersOk(w) && e.input.Timer? && id < |w.peers|
    ensures MovesAt(w, e, OnTimer(w, e.input.peer, e.input.message, e.env), id)
  {
    Plain(w, e, id);
    NothingMoves(w.peers[id], w.now);
    if Held(w, e.input.peer) {
      if e.input.peer == id {
        UpgradedMoves(w, id, e.input.message, e.env);
      } else {
        OthersStay(w, e.input.peer, e.input.message, e.env, id);
      }
    }
  }

  lemma ConfiguredMoves(w: World, e: Event, id: nat)
    requires PeersOk(w) && e.input.KeepaliveConfigured? && id < |w.peers|
    ensures MovesAt(w, e, OnKeepaliveConfigured(w, e.input.peer, e.env), id)
  {
    Plain(w, e, id);
    NothingMoves(w.peers[id], w.now);
    if e.input.peer == id {
      KeepaliveMoves(w, id, w.peers[id], 0 !in e.env.failing);
    }
  }

  lemma UpdateEffect(w: World, u: UpdateEvent, derived: Key, id: nat)
    requires Defined(w) && id < |w.peers|
    ensures var v := HandleUpdate(w, u, derived).0;
            && id < |v.peers| && v.peers[id] == w.peers[id].(info := v.peers[id].info)
            && v.peers[id].info.endpoint ==
                 if u.UpdatePeer? && u.info.pubKey in w.pubkeyMap && w.pubkeyMap[u.info.pubKey] == id
                 then u.info.endpoint.Or(w.peers[id].info.endpoint)
                 else w.peers[id].info.endpoint
  {
  }

  lemma UpdateMoves(w: World, e: Event, id: nat)
    requires Defined(w) && e.input.Configure? && id < |w.peers|
    ensures MovesAt(w, e, HandleUpdate(w, e.input.update, e.input.derived).0, id)
  {
    Plain(w, e, id);
    UpdateEffect(w, e.input.update, e.input.derived, id);
    RotationMoves(w.peers[id], HandleUpdate(w, e.input.update, e.input.derived).0.peers[id], Address(w, e, id), w.now);
  }

  lemma StepMoves(w: World, e: Event, v: World, id: nat)
    requires Base(w) && Steps(w, e, v) && id < |w.peers|
    ensures MovesAt(w, e, v, id)
  {
    match e.input
    case Initiation(_, _, _) => InitiationMoves(w, e, id);
    case Response(_, _, _, _) => ResponseMoves(w, e, id);
    case TransportMessage(_, _, _, _, _) => TransportMoves(w, e, id);
    case Egress(_) => EgressMoves(w, e, id);
    case Timer(_, _) => TimerMoves(w, e, id);
    case KeepaliveConfigured(_) => ConfiguredMoves(w, e, id);
    case Configure(_, _) => UpdateMoves(w, e, id);
    case ClockTick(_) =>
      Plain(w, e, id);
      NothingMoves(w.peers[id], w.now);
  }

  // The address with which a peer is configured for the first time.
  ghost function FirstAddress(e: Event): Option<Endpoint> {
    if e.input.Configure? && e.input.update.UpdatePeer? then e.input.update.info.endpoint else None
  }

  // A peer that the step makes.
  ghost predicate Begins(p: PeerState, e: Event) {
    p.hist.sent == [] && p.info.endpoint == FirstAddress(e) && forall t :: p.Get(t).None?
  }

  lemma EgressMakesNone(w: World, packet: Bytes, env: Env)
    requires Defined(w)
    ensures |OnEgress(w, packet, env).peers| == |w.peers|
  {
  }

  lemma TimerMakesNone(w: World, id: nat, message: TimerMessage, env: Env)
    ensures |OnTimer(w, id, message, env).peers| == |w.peers|
  {
  }

  lemma OnlyUpdatesMake(w: World, e: Event, v: World)
    requires Steps(w, e, v) && !e.input.Configure?
    ensures |v.peers| == |w.peers|
  {
    match e.input
    case Initiation(addr, admitted, hello) =>
      assert v == OnInitiation(w, addr, admitted, hello, e.env);
    case Response(addr, admitted, index, theirIndex) =>
      assert v == OnResponse(w, addr, admitted, index, theirIndex, e.env);
    case TransportMessage(_, _, _, _, _) =>
      TransportCount(w, e, v);
    case Egress(packet) =>
      EgressMakesNone(w, packet, e.env);
    case Timer(id, message) =>
      TimerMakesNone(w, id, message, e.env);
    case _ =>
  }

  lemma UpdateMakes(w: World, e: Event)
    requires Defined(w) && e.input.Configure?
    ensures var v := HandleUpdate(w, e.input.update, e.input.derived).0;
            |w.peers| <= |v.peers| && forall id :: |w.peers| <= id < |v.peers| ==> Begins(v.peers[id], e)
  {
    var v := HandleUpdate(w, e.input.update, e.input.derived).0;
    if |v.peers| != |w.peers| {
      assert v.peers == w.peers + [NewPeer(e.input.update.info)];
    }
  }

  lemma StepMakes(w: World, e: Event, v: World)
    requires Steps(w, e, v)
    ensures |w.peers| <= |v.peers| && forall id :: |w.peers| <= id < |v.peers| ==> Begins(v.peers[id], e)
  {
    if e.input.Configure? {
      UpdateMakes(w, e);
    } else {
      OnlyUpdatesMake(w, e, v);
    }
  }

  // ----- New sessions -----

  // A session that is new in the next slot, under an index that was not in use; what was there
  // moves to the past slot.
  ghost predicate Pushed(w: World, v: World, env: Env, id: nat, noise: Noise, theirIndex: u32, birthday: Timestamp) {
    && id < |w.peers| && id < |v.peers|
    && var p, q := w.peers[id], v.peers[id];
    && q.next.Some?
    && var x := q.next.value.ourIndex;
    && q.next.value == Session(p.hist.nextSid, noise, x, theirIndex, EMPTY, birthday)
    && x in env.draws && x !in w.indexMap
    && q.past == (if p.next.Some? then p.next else p.past) && q.current == p.current
    && q.hist.nextSid == p.hist.nextSid + 1
  }

  predicate NextIsMapped(w: World, id: nat) {
    && id < |w.peers| && w.peers[id].next.Some?
    && w.peers[id].next.value.ourIndex in w.indexMap && w.indexMap[w.peers[id].next.value.ourIndex] == id
  }

  lemma AnswerPushes(w: World, id: nat, addr: Endpoint, hello: Hello, env: Env)
    requires id < |w.peers| && FirstUnused(env.draws, w.indexMap).Some? && w.peers[id].Newer(hello.tai) && env.noise
    ensures var v := Answer(w, id, addr, hello, env);
            Pushed(w, v, env, id, Transport(0), hello.theirIndex, Some(w.now)) && NextIsMapped(v, id)
  {
  }

  // An initiation that is accepted makes a session that is ready, and any other changes nothing.
  lemma InitiationAccepted(ws: seq<World>, es: seq<Event>, k: nat, id: nat)
    requires Run(ws, es) && k < |es| && es[k].input.Initiation? && id < |ws[k].peers|
    ensures AcceptsInitiation(ws[k], es[k], id) ==>
              && Pushed(ws[k], ws[k + 1], es[k].env, id, Transport(0), es[k].input.hello.value.theirIndex, Some(ws[k].now))
              && NextIsMapped(ws[k + 1], id)
              && ws[k + 1].peers[id].hist.timestamps == ws[k].peers[id].hist.timestamps + [es[k].input.hello.value.tai]
    ensures id < |ws[k + 1].peers| && (!AcceptsInitiation(ws[k], es[k], id) ==> ws[k + 1].peers[id] == ws[k].peers[id])
  {
    var w, e := ws[k], es[k];
    assert Steps(w, e, ws[k + 1]);
    RunBase(ws, es, k);
    InitiationStep(w, e, id);
  }

  lemma InitiationStep(w: World, e: Event, id: nat)
    requires Defined(w) && PeersOk(w) && e.input.Initiation? && id < |w.peers|
    ensures var v := OnInitiation(w, e.input.addr, e.input.admitted, e.input.hello, e.env);
            && |v.peers| == |w.peers| && (!AcceptsInitiation(w, e, id) ==> v.peers[id] == w.peers[id])
            && (AcceptsInitiation(w, e, id) ==>
                  && Pushed(w, v, e.env, id, Transport(0), e.input.hello.value.theirIndex, Some(w.now))
                  && NextIsMapped(v, id)
                  && v.peers[id].hist.timestamps == w.peers[id].hist.timestamps + [e.input.hello.value.tai])
  {
    InitiationEffect(w, e, id);
    if AcceptsInitiation(w, e, id) {
      assert TimestampsOk(w.peers[id]);
      AnswerPushes(w, id, e.input.addr, e.input.hello.value, e.env);
    }
  }

  // An initiation that is sent makes a session that is not ready. It is found under its index
  // unless that was the index of the session that falls out.
  lemma StartPushes(w: World, id: nat, env: Env)
    requires id < |w.peers|
    ensures var v := SendHandshakeInit(w, id, env).0;
            if Starts(w, id, env) then
              && Pushed(w, v, env, id, Handshake, 0, None)
              && (NextIsMapped(v, id) <==> !(w.peers[id].next.Some? && IndexOf(w.peers[id].past) == IndexOf(v.peers[id].next)))
            else v == w
  {
  }

  // ----- Whole runs -----

  // The index that the last step before `j` to make session `sid` ready gave for it, and the time
  // of that step.
  ghost function LastNamed(ws: seq<World>, es: seq<Event>, id: nat, sid: nat, j: nat): Option<(u32, nat)>
    requires j <= |es| < |ws|
    decreases j
  {
    if j == 0 then None
    else
      var named := Named(ws[j - 1], es[j - 1], id);
      if named.Some? && named.value.0 == sid then Some((named.value.1, ws[j - 1].now))
      else LastNamed(ws, es, id, sid, j - 1)
  }

  // The address that the last step before `j` to find the peer found it at.
  ghost function LastAddress(ws: seq<World>, es: seq<Event>, id: nat, j: nat): Option<Endpoint>
    requires j <= |es| < |ws|
    decreases j
  {
    if j == 0 then None
    else if |ws[j - 1].peers| <= id then FirstAddress(es[j - 1])
    else Address(ws[j - 1], es[j - 1], id).Or(LastAddress(ws, es, id, j - 1))
  }

  // Step `k` makes the peer, or moves it.
  ghost predicate Tracked(ws: seq<World>, es: seq<Event>, k: nat, id: nat) {
    && k < |es| < |ws|
    && |ws[k].peers| <= |ws[k + 1].peers|
    && (id < |ws[k].peers| ==> MovesAt(ws[k], es[k], ws[k + 1], id))
    && (|ws[k].peers| <= id < |ws[k + 1].peers| ==> Begins(ws[k + 1].peers[id], es[k]))
  }

  lemma StepTracked(ws: seq<World>, es: seq<Event>, k: nat, id: nat)
    requires Run(ws, es) && k < |es|
    ensures Tracked(ws, es, k, id)
  {
    assert Steps(ws[k], es[k], ws[k + 1]);
    RunBase(ws, es, k);
    StepMakes(ws[k], es[k], ws[k + 1]);
    if id < |ws[k].peers| {
      StepMoves(ws[k], es[k], ws[k + 1], id);
    }
  }

  // A session in transport mode has the index and the birthday that it was given last.
  ghost predicate Traced(ws: seq<World>, es: seq<Event>, id: nat, s: Option<Session>, j: nat)
    requires j <= |es| < |ws|
  {
    s.Some? && s.value.noise.Transport? ==>
      && s.value.birthday.Some?
      && LastNamed(ws, es, id, s.value.sid, j) == Some((s.value.theirIndex, s.value.birthday.value))
  }

  lemma TracedStep(ws: seq<World>, es: seq<Event>, id: nat, k: nat, t: SessionType)
    requires Tracked(ws, es, k, id) && id < |ws[k].peers|
    requires forall x :: Traced(ws, es, id, ws[k].peers[id].Get(x), k)
    ensures Traced(ws, es, id, ws[k + 1].peers[id].Get(t), k + 1)
  {
    var p, s := ws[k].peers[id], ws[k + 1].peers[id].Get(t);
    var named := Named(ws[k], es[k], id);
    assert Known(p, s, named, ws[k].now);
    if s.Some? && s.value.noise.Transport? && !(named.Some? && named.value.0 == s.value.sid) {
      var x :| p.Get(x).Some? && SameSession(p.Get(x).value, s.value);
      assert Traced(ws, es, id, p.Get(x), k);
    }
  }

  lemma {:induction false} OriginsKept(ws: seq<World>, es: seq<Event>, id: nat, j: nat)
    requires j < |ws| == |es| + 1 && ws[0].peers == [] && id < |ws[j].peers|
    requires forall k: nat :: k < j ==> Tracked(ws, es, k, id)
    ensures ws[j].peers[id].info.endpoint == LastAddress(ws, es, id, j)
    ensures forall t :: Traced(ws, es, id, ws[j].peers[id].Get(t), j)
    decreases j
  {
    if j > 0 {
      assert Tracked(ws, es, j - 1, id);
      if id < |ws[j - 1].peers| {
        OriginsKept(ws, es, id, j - 1);
        forall t ensures Traced(ws, es, id, ws[j].peers[id].Get(t), j) {
          TracedStep(ws, es, id, j - 1, t);
        }
      }
    }
  }

  // In every state of every run, a peer is at the address of the last authentic message from it
  // or the one configured since, and each session that is ready has the index of the last
  // initiation or response that made it ready.
  lemma OriginsKnown(ws: seq<World>, es: seq<Event>, id: nat, j: nat)
    requires Run(ws, es) && j < |ws| && id < |ws[j].peers|
    ensures ws[j].peers[id].info.endpoint == LastAddress(ws, es, id, j)
    ensures forall t :: Traced(ws, es, id, ws[j].peers[id].Get(t), j)
  {
    forall k: nat | k < j ensures Tracked(ws, es, k, id) {
      StepTracked(ws, es, k, id);
    }
    OriginsKept(ws, es, id, j);
  }

  // Step `k` sent message number `n` of the peer: to where the peer was last found, under the
  // index that the session was last given, and less than 180 seconds after that.
  ghost predicate SentAt(ws: seq<World>, es: seq<Event>, id: nat, k: nat, n: nat, m: Sent) {
    && k < |es| < |ws| && id < |ws[k].peers| && id < |ws[k + 1].peers|
    && |ws[k].peers[id].hist.sent| <= n < |ws[k + 1].peers[id].hist.sent| && ws[k + 1].peers[id].hist.sent[n] == m
    && var named := LastNamed(ws, es, id, m.sid, k + 1);
    && named.Some? && named.value.0 == m.message.theirIndex && ws[k].now < named.value.1 + 180 * SECOND
    && LastAddress(ws, es, id, k + 1) == Some(m.message.endpoint)
  }

  lemma SentByStep(ws: seq<World>, es: seq<Event>, id: nat, k: nat, n: nat)
    requires Tracked(ws, es, k, id) && id < |ws[k].peers| && |ws[k].peers[id].hist.sent| <= n < |ws[k + 1].peers[id].hist.sent|
    requires ws[k + 1].peers[id].info.endpoint == LastAddress(ws, es, id, k + 1)
    requires Traced(ws, es, id, ws[k + 1].peers[id].Get(Current), k + 1)
    ensures SentAt(ws, es, id, k, n, ws[k + 1].peers[id].hist.sent[n])
  {
    assert Addressed(ws[k + 1].peers[id], ws[k + 1].peers[id].hist.sent[n], ws[k].now);
  }

  lemma {:induction false} OriginFound(ws: seq<World>, es: seq<Event>, id: nat, j: nat, n: nat)
    requires j < |ws| == |es| + 1 && ws[0].peers == [] && id < |ws[j].peers| && n < |ws[j].peers[id].hist.sent|
    requires forall k: nat :: k < j ==> Tracked(ws, es, k, id)
    ensures exists k: nat :: k < j && SentAt(ws, es, id, k, n, ws[j].peers[id].hist.sent[n])
    decreases j
  {
    assert Tracked(ws, es, j - 1, id);
    if n < |ws[j - 1].peers[id].hist.sent| {
      OriginFound(ws, es, id, j - 1, n);
    } else {
      OriginsKept(ws, es, id, j);
      SentByStep(ws, es, id, j - 1, n);
    }
  }

  // Every message ever sent has such a step.
  lemma EveryMessageAddressed(ws: seq<World>, es: seq<Event>, id: nat, j: nat, n: nat)
    requires Run(ws, es) && j < |ws| && id < |ws[j].peers| && n < |ws[j].peers[id].hist.sent|
    ensures exists k: nat :: k < j && SentAt(ws, es, id, k, n, ws[j].peers[id].hist.sent[n])
  {
    forall k: nat | k < j ensures Tracked(ws, es, k, id) {
      StepTracked(ws, es, k, id);
    }
    OriginFound(ws, es, id, j, n);
  }
}
