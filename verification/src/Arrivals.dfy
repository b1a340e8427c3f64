// What a transport message that arrives leads to: a delivery, an initiation, or nothing.
module Arrivals {
  import opened Types
  import opened Consts
  import opened AntiReplay
  import opened IpPackets
  import opened PeerModel
  import opened PeerInvariants
  import opened Router
  import opened World
  import opened WorldInvariants
  import opened StepInvariants
  import opened Runs
  import opened Theorems
  import opened Attempts
  import opened Traffic

  // ----- Which messages are authentic -----

  // The nonce is below the limit, none of this session's receipts is the same, and none is too
  // far above it.
  ghost predicate Unseen(p: PeerState, sid: nat, nonce: u64) {
    && nonce < 0xffff_ffff_ffff_ffee
    && forall n: u64 :: Receipt(sid, n) in p.hist.received ==> n != nonce && n as nat <= nonce as nat + 2016
  }

  predicate Young(s: Session, now: nat) {
    s.noise.Transport? && s.birthday.Some? && now < s.birthday.value + 180 * SECOND
  }

  // The message gets through to a session of peer `id` that is in use, and decrypts to nothing or
  // to an IP packet.
  ghost predicate Arrives(w: World, i: Input, id: nat) {
    && i.TransportMessage? && i.index in w.indexMap && w.indexMap[i.index] == id && id < |w.peers|
    && w.peers[id].Find(i.index).Some?
    && var s := w.peers[id].Get(w.peers[id].Find(i.index).value).value;
    && Young(s, w.now) && Unseen(w.peers[id], s.sid, i.nonce)
    && i.plain.Some? && (i.plain.value == [] || Parse(i.plain.value).Some?)
  }

  lemma AdmitsExactly(p: PeerState, t: SessionType, nonce: u64, now: nat)
    requires PeerInv(p, now)
    ensures p.Admits(t, nonce, now) <==>
            p.Get(t).Some? && Young(p.Get(t).value, now) && Unseen(p, p.Get(t).value.sid, nonce)
  {
    if p.Get(t).Some? {
      var s := p.Get(t).value;
      assert SessionOk(s, p.hist, now);
      FreshExactly(s.replay, nonce);
      assert nonce in s.replay.accepted <==> Receipt(s.sid, nonce) in p.hist.received;
      if Unseen(p, s.sid, nonce) {
        forall n | n in s.replay.accepted ensures n as nat <= nonce as nat + 2016 {
          assert Receipt(s.sid, n) in p.hist.received;
        }
      }
    }
  }

  // The first message on a session that is not current yet.
  predicate Confirms(w: World, i: Input, id: nat)
    requires i.TransportMessage? && id < |w.peers|
  {
    w.peers[id].Find(i.index) == Some(Next)
  }

  lemma IncomingExactly(w: World, i: Input, id: nat)
    requires i.TransportMessage? && Enabled(w, i) && i.index in w.indexMap && w.indexMap[i.index] == id && id < |w.peers|
    requires PeerInv(w.peers[id], w.now)
    ensures var (q, r) := w.peers[id].Incoming(i.addr, i.index, i.nonce, i.len, i.plain, w.now);
            && (r.Ok? <==> Arrives(w, i, id))
            && (r.Ok? ==> Ok(r.value.raw) == Unpad(i.plain.value, i.len) && r.value.promoted == Confirms(w, i, id))
            && (r.Ok? ==> q.info == w.peers[id].info.(endpoint := Some(i.addr)))
            && q.hist == w.peers[id].hist.(received := q.hist.received)
            && q.timers.handshakeInitialized == w.peers[id].timers.handshakeInitialized
            && q.HeadSlot() == w.peers[id].HeadSlot()
  {
    var p := w.peers[id];
    if p.Find(i.index).Some? {
      AdmitsExactly(p, p.Find(i.index).value, i.nonce, w.now);
    }
  }

  // ----- The receiving half -----

  // Emptying the queue goes on after an error, and fails only where a message cannot be handed
  // to a socket.
  lemma {:induction false} DrainGoesOn(p: PeerState, env: Env, i: nat, now: nat)
    requires p.HeadSlot() >= 0
    ensures var (q, ok) := p.Drain(env.udp, env.failing, i, false, now);
            && (ok <==> env.udp || |q.hist.sent| == |p.hist.sent|) && |q.hist.sent| >= |p.hist.sent|
            && q.past == p.past && q.next == p.next && (q.current.None? <==> p.current.None?)
            && q.timers.handshakeInitialized == p.timers.handshakeInitialized
            && q.timers.handshakeCompleted == p.timers.handshakeCompleted
    decreases |p.queue|
  {
    if p.queue != [] {
      var (q, r) := p.SendHead(i !in env.failing, now);
      if r.Err? || env.udp {
        DrainGoesOn(q, env, i + 1, now);
      }
    }
  }

  // What the receiving half leaves: the peer heard from that address, and the state in which a
  // handshake may be due.
  ghost predicate Heard(w: World, i: Input, env: Env, id: nat, v: World)
    requires i.TransportMessage? && id < |w.peers|
  {
    var p := w.peers[id];
    && |v.peers| == |w.peers| && v == SetPeer(w, id, v.peers[id]).(indexMap := v.indexMap)
    && v.indexMap.Keys == w.indexMap.Keys - (if Confirms(w, i, id) then IndexSet(p.past) else {})
    && var q := v.peers[id];
    && q.info == p.info.(endpoint := Some(i.addr)) && q.hist.initiations == p.hist.initiations
    && InitiationsOk(q, w.now) && q.CanAskNonce()
    && (Due(q, 165 * SECOND, w.now) <==> if Confirms(w, i, id) then Exhausted(q) else Due(p, 165 * SECOND, w.now))
  }

  lemma SamePeer(w: World, i: Input, id: nat)
    requires i.TransportMessage? && Enabled(w, i) && id < |w.peers| && !Confirms(w, i, id)
    ensures var p := w.peers[id];
            var q := p.Incoming(i.addr, i.index, i.nonce, i.len, i.plain, w.now).0;
            && q.next == p.next && q.timers.handshakeCompleted == p.timers.handshakeCompleted
            && q.timers.handshakeAttempts == p.timers.handshakeAttempts
            && q.current.Some? == p.current.Some? && (q.current.Some? ==> q.current.value.noise == p.current.value.noise)
  {
  }

  lemma HeardInPlace(w: World, i: Input, env: Env, id: nat)
    requires i.TransportMessage? && Enabled(w, i) && id < |w.peers| && PeerInv(w.peers[id], w.now)
    requires Arrives(w, i, id) && !Confirms(w, i, id)
    ensures var q := w.peers[id].Incoming(i.addr, i.index, i.nonce, i.len, i.plain, w.now).0;
            Heard(w, i, env, id, SetPeer(w, id, q))
  {
    IncomingExactly(w, i, id);
    SamePeer(w, i, id);
  }

  lemma ConfirmedPeer(w: World, i: Input, id: nat)
    requires i.TransportMessage? && Enabled(w, i) && id < |w.peers| && PeerInv(w.peers[id], w.now)
    requires Arrives(w, i, id) && Confirms(w, i, id)
    ensures var q := w.peers[id].Incoming(i.addr, i.index, i.nonce, i.len, i.plain, w.now).0;
            && q.next.None? && q.current.Some? && q.current.value.noise.Transport?
            && q.timers.handshakeCompleted == Some(w.now)
  {
    var p := w.peers[id];
    AdmitsExactly(p, p.Find(i.index).value, i.nonce, w.now);
  }

  lemma ConfirmedDrain(p: PeerState, env: Env, now: nat)
    requires p.HeadSlot() >= 0 && p.next.None? && p.current.Some? && p.current.value.noise.Transport?
    requires p.timers.handshakeCompleted == Some(now)
    ensures var (q, ok) := p.DrainAll(env.udp, env.failing, now);
            && q.info == p.info && q.hist.initiations == p.hist.initiations && q.CanAskNonce()
            && q.timers.handshakeInitialized == p.timers.handshakeInitialized
            && (Due(q, 165 * SECOND, now) <==> Exhausted(q))
            && (ok <==> env.udp || |q.hist.sent| == |p.hist.sent|)
  {
    DrainGoesOn(p, env, 0, now);
  }

  lemma HeardConfirming(w: World, i: Input, env: Env, id: nat)
    requires i.TransportMessage? && Enabled(w, i) && id < |w.peers| && PeerInv(w.peers[id], w.now)
    requires Arrives(w, i, id) && Confirms(w, i, id)
    ensures var q := w.peers[id].Incoming(i.addr, i.index, i.nonce, i.len, i.plain, w.now).0;
            && q.HeadSlot() >= 0
            && var (q', ok) := q.DrainAll(env.udp, env.failing, w.now);
            && Heard(w, i, env, id, SetPeer(w, id, q').(indexMap := Unlink(w.indexMap, IndexOf(w.peers[id].past))))
            && (ok <==> env.udp || |q'.hist.sent| == |w.peers[id].hist.sent|)
  {
    IncomingExactly(w, i, id);
    ConfirmedPeer(w, i, id);
    ConfirmedDrain(w.peers[id].Incoming(i.addr, i.index, i.nonce, i.len, i.plain, w.now).0, env, w.now);
  }

  lemma ReceiveExactly(w: World, i: Input, env: Env, id: nat)
    requires Defined(w) && i.TransportMessage? && Enabled(w, i) && i.index in w.indexMap && w.indexMap[i.index] == id
    requires id < |w.peers| && PeerInv(w.peers[id], w.now)
    ensures var (v, r) := Receive(w, i.addr, i.index, i.nonce, i.len, i.plain, env);
            && (r.Ok? <==>
                  Arrives(w, i, id) && (Confirms(w, i, id) ==> env.udp || |v.peers[id].hist.sent| == |w.peers[id].hist.sent|))
            && (Arrives(w, i, id) ==> Heard(w, i, env, id, v))
            && (r.Ok? ==> r == Unpad(i.plain.value, i.len))
  {
    IncomingExactly(w, i, id);
    if Arrives(w, i, id) {
      IncomingSlots(w.peers[id], i.addr, i.index, i.nonce, i.len, i.plain, w.now);
      if Confirms(w, i, id) {
        HeardConfirming(w, i, env, id);
      } else {
        HeardInPlace(w, i, env, id);
      }
    }
  }

  // ----- The delivering half -----

  // The source address is owned by a peer with the same public key.
  ghost predicate SentBy(w: World, raw: Bytes, id: nat)
    requires id < |w.peers|
  {
    exists o: nat :: o < |w.peers| && IsFrom(w.routes, raw, o) && w.peers[o].info.pubKey == w.peers[id].info.pubKey
  }

  lemma DeliverExactly(w: World, id: nat, raw: Bytes)
    requires Defined(w) && RoutesOk(w) && id < |w.peers|
    ensures Deliver(w, id, raw) ==
            w.(delivered := w.delivered + if raw != [] && SentBy(w, raw, id) then [Delivery(id, raw)] else [])
  {
    var owner := RouteFrom(w.routes, raw);
    RoutesAreProper(w);
    if owner.Some? {
      RoutedExactly(w.routes, raw, owner.value);
    }
    if SentBy(w, raw, id) {
      var o: nat :| o < |w.peers| && IsFrom(w.routes, raw, o) && w.peers[o].info.pubKey == w.peers[id].info.pubKey;
      RoutedExactly(w.routes, raw, o);
    }
  }

  // A handshake is started if one is due; the packet is delivered unless that fails.
  ghost predicate Proceeds(w: World, id: nat, raw: Bytes, due: bool, starts: bool, v: World) {
    && id < |w.peers| == |v.peers|
    && v.peers[id].current == w.peers[id].current && v.peers[id].hist.sent == w.peers[id].hist.sent
    && v.peers[id].hist.initiations == w.peers[id].hist.initiations + (if due && starts then [w.now] else [])
    && v.delivered == w.delivered +
         (if raw != [] && (due ==> starts) && SentBy(w, raw, id) then [Delivery(id, raw)] else [])
  }

  predicate StartsNow(w: World, id: nat, env: Env)
    requires id < |w.peers|
  {
    CanStart(w.peers[id].hist.initiations, w.peers[id].info.endpoint, w.info.privateKey, w.indexMap.Keys, env, w.now)
  }

  lemma SameSender(w: World, v: World, raw: Bytes, id: nat)
    requires |v.peers| == |w.peers| && v.routes == w.routes && id < |w.peers|
    requires forall j :: 0 <= j < |w.peers| ==> v.peers[j].info.pubKey == w.peers[j].info.pubKey
    ensures SentBy(v, raw, id) <==> SentBy(w, raw, id)
  {
  }

  lemma InitProceeds(w: World, id: nat, env: Env)
    requires Base(w) && Defined(w) && id < |w.peers|
    ensures var (v, started) := SendHandshakeInit(w, id, env);
            && started == StartsNow(w, id, env) && RoutesOk(v) && v.delivered == w.delivered && v.routes == w.routes
            && (forall j :: 0 <= j < |w.peers| ==> v.peers[j].info == w.peers[j].info)
            && v.peers[id].current == w.peers[id].current && v.peers[id].hist.sent == w.peers[id].hist.sent
            && v.peers[id].hist.initiations == w.peers[id].hist.initiations + if started then [w.now] else []
  {
    StartsExactly(w, id, env);
    InitDeliversNothing(w, id, env);
    SendHandshakeInitBase(w, id, env);
  }

  lemma ProceedExactly(w: World, id: nat, raw: Bytes, env: Env)
    requires Base(w) && Defined(w) && id < |w.peers|
    ensures Proceeds(w, id, raw, Due(w.peers[id], 165 * SECOND, w.now), StartsNow(w, id, env), Proceed(w, id, raw, env))
  {
    DueExactly(w.peers[id], w.now);
    if w.peers[id].NeedsNewHandshake(false, w.now) {
      var v := SendHandshakeInit(w, id, env).0;
      InitProceeds(w, id, env);
      SameSender(w, v, raw, id);
      DeliverExactly(v, id, raw);
    } else {
      DeliverExactly(w, id, raw);
    }
  }

  // ----- A whole message -----

  // A handshake is due after the message: on a session that it confirms, only if that session
  // has used up its messages.
  predicate DueAfter(w: World, i: Input, id: nat, v: World)
    requires i.TransportMessage? && id < |w.peers| == |v.peers|
  {
    if Confirms(w, i, id) then Exhausted(v.peers[id]) else Due(w.peers[id], 165 * SECOND, w.now)
  }

  ghost predicate StartsAfter(w: World, i: Input, env: Env, id: nat)
    requires i.TransportMessage? && id < |w.peers|
  {
    CanStart(w.peers[id].hist.initiations, Some(i.addr), w.info.privateKey,
             w.indexMap.Keys - (if Confirms(w, i, id) then IndexSet(w.peers[id].past) else {}), env, w.now)
  }

  // If the queue of a confirmed session has something to send, there must be a socket for it.
  predicate Flushes(w: World, i: Input, env: Env, id: nat, v: World)
    requires i.TransportMessage? && id < |w.peers| == |v.peers|
  {
    Confirms(w, i, id) ==> env.udp || |v.peers[id].hist.sent| == |w.peers[id].hist.sent|
  }

  // All that one transport message starts and delivers.
  ghost predicate Achieves(w: World, i: Input, env: Env, id: nat, v: World)
    requires i.TransportMessage? && Enabled(w, i)
  {
    && id < |w.peers| == |v.peers|
    && var taken := Arrives(w, i, id) && Flushes(w, i, env, id, v);
    && Gained(w, v, id, taken && DueAfter(w, i, id, v) && StartsAfter(w, i, env, id))
    && (i.index in w.indexMap && w.indexMap[i.index] == id ==>
          v.delivered == w.delivered +
            if taken && Unpad(i.plain.value, i.len) != Ok([]) && (DueAfter(w, i, id, v) ==> StartsAfter(w, i, env, id))
               && SentBy(w, Unpad(i.plain.value, i.len).value, id)
            then [Delivery(id, Unpad(i.plain.value, i.len).value)]
            else [])
  }

  lemma HeardAchieves(w: World, i: Input, env: Env, id: nat, u: World, raw: Bytes, v: World)
    requires i.TransportMessage? && Enabled(w, i) && i.index in w.indexMap && w.indexMap[i.index] == id
    requires id < |w.peers| && Arrives(w, i, id) && Heard(w, i, env, id, u) && Ok(raw) == Unpad(i.plain.value, i.len)
    requires Flushes(w, i, env, id, u)
    requires Proceeds(u, id, raw, Due(u.peers[id], 165 * SECOND, u.now), StartsNow(u, id, env), v)
    ensures Achieves(w, i, env, id, v)
  {
    SameSender(w, u, raw, id);
    assert StartsNow(u, id, env) <==> StartsAfter(w, i, env, id);
    assert Exhausted(u.peers[id]) <==> Exhausted(v.peers[id]);
    assert Due(u.peers[id], 165 * SECOND, u.now) <==> DueAfter(w, i, id, v);
    assert Flushes(w, i, env, id, v);
  }

  lemma TransportStep(w: World, i: Input, env: Env, id: nat)
    requires Base(w) && Defined(w) && i.TransportMessage? && Enabled(w, i)
    requires i.index in w.indexMap && w.indexMap[i.index] == id
    ensures Achieves(w, i, env, id, OnTransport(w, i.addr, i.index, i.nonce, i.len, i.plain, env))
  {
    var v := OnTransport(w, i.addr, i.index, i.nonce, i.len, i.plain, env);
    var (u, r) := Receive(w, i.addr, i.index, i.nonce, i.len, i.plain, env);
    ReceiveExactly(w, i, env, id);
    ReceiveDeliversNothing(w, i, env);
    ReceiveGains(w, i, env);
    if r.Ok? {
      ReceiveBase(w, i.addr, i.index, i.nonce, i.len, i.plain, env);
      ProceedExactly(u, id, r.value, env);
      HeardAchieves(w, i, env, id, u, r.value, v);
    }
  }

  lemma OthersAchieveNothing(w: World, e: Event, v: World, id: nat)
    requires Steps(w, e, v) && e.input.TransportMessage? && id < |w.peers| == |v.peers|
    requires !(e.input.index in w.indexMap && w.indexMap[e.input.index] == id)
    ensures Achieves(w, e.input, e.env, id, v)
  {
    StepAdds(w, e, v, id);
  }

  // At every step of every run: what a transport message is delivered as, and whether it makes
  // the peer send an initiation.
  lemma TransportAchieves(ws: seq<World>, es: seq<Event>, k: nat, id: nat)
    requires Run(ws, es) && k < |es| && id < |ws[k].peers| && es[k].input.TransportMessage?
    ensures Enabled(ws[k], es[k].input) && Achieves(ws[k], es[k].input, es[k].env, id, ws[k + 1])
    ensures es[k].input.index !in ws[k].indexMap ==> ws[k + 1] == ws[k]
  {
    var w, e, v := ws[k], es[k], ws[k + 1];
    assert Steps(w, e, v);
    RunBase(ws, es, k);
    TransportCount(w, e, v);
    if e.input.index in w.indexMap && w.indexMap[e.input.index] == id {
      TransportStep(w, e.input, e.env, id);
    } else {
      OthersAchieveNothing(w, e, v, id);
    }
  }

  lemma TransportCount(w: World, e: Event, v: World)
    requires Steps(w, e, v) && e.input.TransportMessage?
    ensures |v.peers| == |w.peers| && (e.input.index !in w.indexMap ==> v == w)
  {
    var i := e.input;
    assert v == OnTransport(w, i.addr, i.index, i.nonce, i.len, i.plain, e.env);
    if i.index in w.indexMap {
      var (u, r) := Receive(w, i.addr, i.index, i.nonce, i.len, i.plain, e.env);
      ReceiveDeliversNothing(w, i, e.env);
      if r.Ok? {
        ProceedCount(u, w.indexMap[i.index], r.value, e.env);
      }
    }
  }

  lemma ProceedCount(w: World, id: nat, raw: Bytes, env: Env)
    requires Defined(w) && id < |w.peers|
    ensures |Proceed(w, id, raw, env).peers| == |w.peers|
  {
    InitDeliversNothing(w, id, env);
    DeliverAlike(w, id, raw);
    DeliverAlike(SendHandshakeInit(w, id, env).0, id, raw);
  }
}
