// What is sent when there is no new packet to send: keepalives, and the packets that waited for a
// handshake.
module Keepalives {
  import opened Types
  import opened Consts
  import opened Timestamps
  import opened IpPackets
  import opened PeerModel
  import opened PeerInvariants
  import opened World
  import opened WorldInvariants
  import opened Runs
  import opened Theorems
  import opened Traffic
  import opened Arrivals
  import opened Origins
  import opened Clocks

  // ----- Keepalives -----

  // Exactly one empty message more, under the next nonce of the session.
  ghost predicate OneKeepalive(p: PeerState, s: Session, endpoint: Endpoint, q: PeerState) {
    && s.noise.Transport?
    && q.hist.sent == p.hist.sent + [Sent(s.sid, None, [], Outbound(endpoint, s.theirIndex, s.noise.sendNonce, Pad([])))]
  }

  predicate MaySend(p: PeerState, env: Env, now: nat) {
    Ready(p, now) && p.info.endpoint.Some? && 0 !in env.failing
  }

  lemma SendKeepaliveExactly(p: PeerState, q: PeerState, env: Env, now: nat)
    requires PeerInv(p, now) && q.info == p.info && q.current == p.current && q.hist == p.hist
    ensures var r := q.SendKeepalive(0 !in env.failing, now);
            if MaySend(p, env, now) then OneKeepalive(p, p.current.value, p.info.endpoint.value, r)
            else r.hist.sent == p.hist.sent
  {
    ReadyExactly(p, now);
  }

  // A timer sends nothing but the keepalives that are due.
  ghost predicate KeepaliveAt(w: World, e: Event, v: World, id: nat) {
    && id < |w.peers| && id < |v.peers|
    && var p, q := w.peers[id], v.peers[id];
    if (Answers(w, e.input, id) || Persists(w, e.input, id)) && MaySend(p, e.env, w.now)
    then OneKeepalive(p, p.current.value, p.info.endpoint.value, q)
    else q.hist.sent == p.hist.sent
  }

  lemma RekeySendsNone(w: World, id: nat, index: u32, env: Env)
    requires id < |w.peers|
    ensures OnRekey(w, id, index, env).peers[id].hist.sent == w.peers[id].hist.sent
  {
  }

  lemma UpgradedKeepalive(w: World, id: nat, message: TimerMessage, env: Env)
    requires PeersOk(w) && Held(w, id)
    ensures KeepaliveAt(w, Event(env, Timer(id, message)), OnUpgraded(w, id, message, env), id)
  {
    var p := w.peers[id];
    match message
    case Rekey(index) => RekeySendsNone(w, id, index, env);
    case PassiveKeepalive => SendKeepaliveExactly(p, p.MarkKeepalive(), env, w.now);
    case PersistentKeepalive => SendKeepaliveExactly(p, p, env, w.now);
    case Wipe =>
  }

  lemma TimerKeepalive(w: World, e: Event, id: nat)
    requires PeersOk(w) && e.input.Timer? && id < |w.peers|
    ensures KeepaliveAt(w, e, OnTimer(w, e.input.peer, e.input.message, e.env), id)
  {
    if Held(w, e.input.peer) {
      if e.input.peer == id {
        assert e == Event(e.env, Timer(id, e.input.message));
        UpgradedKeepalive(w, id, e.input.message, e.env);
      } else {
        OthersStay(w, e.input.peer, e.input.message, e.env, id);
      }
    }
  }

  lemma ConfiguredKeepalive(w: World, e: Event, id: nat)
    requires PeersOk(w) && e.input.KeepaliveConfigured? && id < |w.peers|
    ensures KeepaliveAt(w, e, OnKeepaliveConfigured(w, e.input.peer, e.env), id)
  {
    if e.input.peer == id {
      SendKeepaliveExactly(w.peers[id], w.peers[id], e.env, w.now);
    }
  }

  lemma StepKeepalive(w: World, e: Event, v: World, id: nat)
    requires PeersOk(w) && Steps(w, e, v) && id < |w.peers| && (e.input.Timer? || e.input.KeepaliveConfigured?)
    ensures KeepaliveAt(w, e, v, id)
  {
    if e.input.Timer? {
      assert v == OnTimer(w, e.input.peer, e.input.message, e.env);
      TimerKeepalive(w, e, id);
    } else {
      assert v == OnKeepaliveConfigured(w, e.input.peer, e.env);
      ConfiguredKeepalive(w, e, id);
    }
  }

  lemma KeepalivesExact(ws: seq<World>, es: seq<Event>, k: nat, id: nat)
    requires Run(ws, es) && k < |es| && id < |ws[k].peers| && (es[k].input.Timer? || es[k].input.KeepaliveConfigured?)
    ensures KeepaliveAt(ws[k], es[k], ws[k + 1], id)
  {
    assert Steps(ws[k], es[k], ws[k + 1]);
    RunBase(ws, es, k);
    StepKeepalive(ws[k], es[k], ws[k + 1], id);
  }

  // ----- After a handshake -----

  // The session that a response makes current.
  function Established(s: Session, theirIndex: u32, now: nat): Session {
    s.(noise := if s.noise.Handshake? then Transport(0) else s.noise, theirIndex := theirIndex, birthday := Some(now))
  }

  // The waiting packets are sent on that session, all of them if nothing stands in the way; and if
  // there are none, a keepalive confirms it.
  ghost predicate Confirmed(p: PeerState, s: Session, addr: Endpoint, env: Env, q: PeerState)
    requires s.noise.Transport?
  {
    var r := p.(current := Some(s), info := p.info.(endpoint := Some(addr)));
    && q.current.Some? && q.current.value == s.(noise := q.current.value.noise)
    && q.past == p.current && q.next.None? && q.info == r.info
    && (p.queue == [] && s.noise.sendNonce < 0xffff_ffff_ffff_ffee && 0 !in env.failing ==> OneKeepalive(p, s, addr, q))
    && (p.queue != [] && Clear(r, |p.queue|, env, 0) ==>
          && q.queue == [] && p.hist.sent <= q.hist.sent
          && Carries(Tail(p.hist.sent, q.hist.sent), s, addr, p.queue, p.HeadSlot()))
  }

  lemma {:induction false} DrainSlots(p: PeerState, env: Env, i: nat, stop: bool, now: nat)
    requires p.HeadSlot() >= 0 && p.current.Some? && p.current.value.noise.Transport?
    ensures var q := p.Drain(env.udp, env.failing, i, stop, now).0;
            && q.current.Some? && q.current.value == p.current.value.(noise := q.current.value.noise)
            && q.past == p.past && q.next == p.next && q.info == p.info
    decreases |p.queue|
  {
    if p.queue != [] {
      var (q, r) := p.SendHead(i !in env.failing, now);
      if (r.Ok? && env.udp) || (r.Err? && !stop) {
        DrainSlots(q, env, i + 1, stop, now);
      }
    }
  }

  lemma AfterHandshakeConfirms(p: PeerState, addr: Endpoint, theirIndex: u32, env: Env, now: nat)
    requires p.next.Some? && p.HeadSlot() >= 0 && p.AcceptResponse(addr, theirIndex, now).CanAskNonce()
    ensures Confirmed(p, Established(p.next.value, theirIndex, now), addr, env,
                      AfterHandshake(p.AcceptResponse(addr, theirIndex, now), env, now))
  {
    var r := p.AcceptResponse(addr, theirIndex, now);
    var s := Established(p.next.value, theirIndex, now);
    assert r.current == Some(s) && r.past == p.current && r.queue == p.queue && r.hist == p.hist;
    if p.queue != [] {
      DrainExactly(r, env, 0, now);
      DrainSlots(r, env, 0, true, now);
      assert Clear(r, |p.queue|, env, 0) <==> Clear(p.(current := Some(s), info := r.info), |p.queue|, env, 0);
    }
  }

  lemma ResponseConfirms(ws: seq<World>, es: seq<Event>, k: nat, id: nat)
    requires Run(ws, es) && k < |es| && AcceptsResponse(ws[k], es[k], id)
    ensures id < |ws[k + 1].peers|
    ensures var w, i := ws[k], es[k].input;
            var s := Established(w.peers[id].next.value, i.theirIndex, w.now);
            Confirmed(w.peers[id], s, i.addr, es[k].env, ws[k + 1].peers[id])
  {
    var w, i := ws[k], es[k].input;
    assert Steps(w, es[k], ws[k + 1]);
    assert ws[k + 1] == OnResponse(w, i.addr, i.admitted, i.index, i.theirIndex, es[k].env);
    AfterHandshakeConfirms(w.peers[id], i.addr, i.theirIndex, es[k].env, w.now);
  }

  // ----- The first message on a session -----

  lemma {:induction false} DrainSame(p: PeerState, env: Env, i: nat, now: nat)
    requires p.HeadSlot() >= 0 && p.current.Some? && p.current.value.noise.Transport? && Clear(p, |p.queue|, env, i)
    requires Elapsed(p.current.value.birthday, now) < REJECT_AFTER_TIME
    ensures p.Drain(env.udp, env.failing, i, false, now) == p.Drain(env.udp, env.failing, i, true, now)
    decreases |p.queue|
  {
    if p.queue != [] {
      SendHeadExactly(p, i !in env.failing, now);
      var q := p.SendHead(i !in env.failing, now).0;
      ClearRest(p, q, |p.queue|, env, i);
      DrainSame(q, env, i + 1, now);
    }
  }

  // The waiting packets are sent on the session that the message confirms, all of them if nothing
  // stands in the way; and none waits any longer.
  ghost predicate Flushed(p: PeerState, addr: Endpoint, env: Env, q: PeerState)
    requires p.next.Some? && p.next.value.noise.Transport?
  {
    && q.queue == []
    && (p.queue != [] && Clear(p.(current := p.next, info := p.info.(endpoint := Some(addr))), |p.queue|, env, 0) ==>
          && p.hist.sent <= q.hist.sent
          && Carries(Tail(p.hist.sent, q.hist.sent), p.next.value, addr, p.queue, p.HeadSlot()))
  }

  lemma DrainAllFlushes(p: PeerState, q: PeerState, addr: Endpoint, env: Env, now: nat)
    requires p.next.Some? && Young(p.next.value, now) && NotAfter(p.next.value.birthday, now)
    requires q.current.Some? && q.current.value == p.next.value.(replay := q.current.value.replay)
    requires q.info == p.info.(endpoint := Some(addr)) && q.queue == p.queue && q.hist.sent == p.hist.sent
    requires q.HeadSlot() == p.HeadSlot() >= 0
    ensures Flushed(p, addr, env, q.DrainAll(env.udp, env.failing, now).0)
  {
    var r := p.(current := p.next, info := p.info.(endpoint := Some(addr)));
    assert Clear(r, |p.queue|, env, 0) <==> Clear(q, |p.queue|, env, 0);
    if p.queue != [] && Clear(r, |p.queue|, env, 0) {
      DrainSame(q, env, 0, now);
      DrainExactly(q, env, 0, now);
    }
  }

  lemma PromotedPeer(w: World, i: Input, id: nat)
    requires i.TransportMessage? && Enabled(w, i) && id < |w.peers| && PeerInv(w.peers[id], w.now)
    requires Arrives(w, i, id) && Confirms(w, i, id)
    ensures var p := w.peers[id];
            var q := p.Incoming(i.addr, i.index, i.nonce, i.len, i.plain, w.now).0;
            && q.current.Some? && q.current.value == p.next.value.(replay := q.current.value.replay)
            && q.info == p.info.(endpoint := Some(i.addr)) && q.queue == p.queue && q.hist.sent == p.hist.sent
            && q.HeadSlot() == p.HeadSlot()
  {
    IncomingExactly(w, i, id);
    AdmitsExactly(w.peers[id], Next, i.nonce, w.now);
  }

  lemma ReceiveFlushes(w: World, i: Input, env: Env, id: nat)
    requires Defined(w) && i.TransportMessage? && Enabled(w, i) && id < |w.peers| && PeerInv(w.peers[id], w.now)
    requires Arrives(w, i, id) && Confirms(w, i, id)
    ensures Flushed(w.peers[id], i.addr, env, Receive(w, i.addr, i.index, i.nonce, i.len, i.plain, env).0.peers[id])
  {
    var p := w.peers[id];
    var q := p.Incoming(i.addr, i.index, i.nonce, i.len, i.plain, w.now).0;
    IncomingExactly(w, i, id);
    PromotedPeer(w, i, id);
    DrainAllFlushes(p, q, i.addr, env, w.now);
  }

  lemma ProceedSendsNone(w: World, id: nat, raw: Bytes, env: Env)
    requires Defined(w) && id < |w.peers|
    ensures |Proceed(w, id, raw, env).peers| == |w.peers|
    ensures var p, q := w.peers[id], Proceed(w, id, raw, env).peers[id]; q.queue == p.queue && q.hist.sent == p.hist.sent
  {
  }

  lemma TransportFlushes(w: World, i: Input, env: Env, id: nat)
    requires Base(w) && Defined(w) && i.TransportMessage? && Enabled(w, i)
    requires Arrives(w, i, id) && Confirms(w, i, id)
    ensures var v := OnTransport(w, i.addr, i.index, i.nonce, i.len, i.plain, env);
            id < |v.peers| && Flushed(w.peers[id], i.addr, env, v.peers[id])
  {
    var (u, r) := Receive(w, i.addr, i.index, i.nonce, i.len, i.plain, env);
    ReceiveFlushes(w, i, env, id);
    if r.Ok? {
      ProceedSendsNone(u, id, r.value, env);
    }
  }

  lemma FirstMessageFlushes(ws: seq<World>, es: seq<Event>, k: nat, id: nat)
    requires Run(ws, es) && k < |es| && Arrives(ws[k], es[k].input, id) && Confirms(ws[k], es[k].input, id)
    ensures id < |ws[k + 1].peers| && Flushed(ws[k].peers[id], es[k].input.addr, es[k].env, ws[k + 1].peers[id])
  {
    assert Steps(ws[k], es[k], ws[k + 1]);
    RunBase(ws, es, k);
    TransportFlushes(ws[k], es[k].input, es[k].env, id);
  }
}
