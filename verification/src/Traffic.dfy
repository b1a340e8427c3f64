// What a step queues, sends and starts, in terms of clocks, nonces and histories alone.
module Traffic {
  import opened Types
  import opened Consts
  import opened Timestamps
  import opened IpPackets
  import opened PeerModel
  import opened PeerInvariants
  import opened Router
  import opened World
  import opened WorldInvariants
  import opened StepInvariants
  import opened Runs
  import opened Theorems
  import opened SessionMap
  import opened Attempts

  // ----- Draining the queue -----

  // The messages that one session writes for packets queued one after the other.
  ghost predicate Carries(sent: seq<Sent>, s: Session, endpoint: Endpoint, packets: seq<Bytes>, slot: int) {
    && s.noise.Transport? && |sent| == |packets|
    && forall k :: 0 <= k < |sent| ==>
         && sent[k].sid == s.sid && sent[k].packet == packets[k]
         && sent[k].slot.Some? && sent[k].slot.value == slot + k
         && sent[k].message.endpoint == endpoint && sent[k].message.theirIndex == s.theirIndex
         && sent[k].message.nonce as nat == s.noise.sendNonce as nat + k
         && sent[k].message.plain == Pad(packets[k])
  }

  // Nothing stands in the way of sending so many messages in a row.
  predicate Clear(p: PeerState, n: nat, env: Env, i: nat)
    requires p.current.Some? && p.current.value.noise.Transport?
  {
    && env.udp && p.info.endpoint.Some?
    && p.current.value.noise.sendNonce as nat + n <= 0xffff_ffff_ffff_ffee
    && forall j :: i <= j < i + n ==> j !in env.failing
  }

  function Tail<T>(s: seq<T>, t: seq<T>): seq<T>
    requires s <= t
  {
    t[|s|..]
  }

  lemma CarriesOn(a: seq<Sent>, b: seq<Sent>, s: Session, endpoint: Endpoint, packets: seq<Bytes>, slot: int)
    requires s.noise.Transport? && s.noise.sendNonce < U64_MAX && packets != []
    requires Carries(a, s, endpoint, packets[..1], slot)
    requires Carries(b, s.(noise := Transport(s.noise.sendNonce + 1)), endpoint, packets[1..], slot + 1)
    ensures Carries(a + b, s, endpoint, packets, slot)
  {
    assert packets == packets[..1] + packets[1..];
  }

  lemma SendHeadExactly(p: PeerState, writes: bool, now: nat)
    requires p.HeadSlot() >= 0 && p.current.Some? && p.current.value.noise.Transport? && p.queue != []
    requires Elapsed(p.current.value.birthday, now) < REJECT_AFTER_TIME
    ensures var (q, r) := p.SendHead(writes, now);
            && (r.Ok? <==> writes && p.info.endpoint.Some? && p.current.value.noise.sendNonce < 0xffff_ffff_ffff_ffee)
            && (r.Err? ==> q.hist.sent == p.hist.sent)
            && (r.Ok? ==>
                  && q.info == p.info && q.queue == p.queue[1..] && q.HeadSlot() == p.HeadSlot() + 1
                  && q.current == Some(p.current.value.(noise := Transport(p.current.value.noise.sendNonce + 1)))
                  && p.hist.sent <= q.hist.sent
                  && Carries(Tail(p.hist.sent, q.hist.sent), p.current.value, p.info.endpoint.value, p.queue[..1], p.HeadSlot()))
  {
  }

  // Draining a queue succeeds exactly when nothing stands in the way, and then sends it all.
  lemma {:induction false} DrainExactly(p: PeerState, env: Env, i: nat, now: nat)
    requires p.HeadSlot() >= 0 && p.current.Some? && p.current.value.noise.Transport? && p.queue != []
    requires Elapsed(p.current.value.birthday, now) < REJECT_AFTER_TIME
    ensures p.Drain(env.udp, env.failing, i, true, now).1 <==> Clear(p, |p.queue|, env, i)
    ensures Clear(p, |p.queue|, env, i) ==>
              var q := p.Drain(env.udp, env.failing, i, true, now).0;
              && q.queue == [] && p.hist.sent <= q.hist.sent
              && Carries(Tail(p.hist.sent, q.hist.sent), p.current.value, p.info.endpoint.value, p.queue, p.HeadSlot())
    decreases |p.queue|
  {
    SendHeadExactly(p, i !in env.failing, now);
    var (q, r) := p.SendHead(i !in env.failing, now);
    var out := p.Drain(env.udp, env.failing, i, true, now);
    if r.Err? || !env.udp {
      assert out == (q, false);
    } else {
      assert out == q.Drain(env.udp, env.failing, i + 1, true, now);
      ClearRest(p, q, |p.queue|, env, i);
      if q.queue == [] {
        assert p.queue == p.queue[..1];
      } else {
        DrainExactly(q, env, i + 1, now);
        if Clear(p, |p.queue|, env, i) {
          CarriesOn(Tail(p.hist.sent, q.hist.sent), Tail(q.hist.sent, out.0.hist.sent),
                    p.current.value, p.info.endpoint.value, p.queue, p.HeadSlot());
          assert Tail(p.hist.sent, out.0.hist.sent) == Tail(p.hist.sent, q.hist.sent) + Tail(q.hist.sent, out.0.hist.sent);
        }
      }
    }
  }

  lemma ClearRest(p: PeerState, q: PeerState, n: nat, env: Env, i: nat)
    requires p.current.Some? && p.current.value.noise.Transport? && q.current.Some? && q.current.value.noise.Transport?
    requires p.current.value.noise.sendNonce < U64_MAX
    requires q.info == p.info && q.current.value.noise.sendNonce == p.current.value.noise.sendNonce + 1
    requires n > 0 && i !in env.failing
    ensures Clear(p, n, env, i) <==> Clear(q, n - 1, env, i + 1)
  {
    if Clear(q, n - 1, env, i + 1) {
      forall j | i <= j < i + n ensures j !in env.failing {
      }
    }
  }

  // ----- When a handshake is due -----

  // More than so long ago, or never.
  predicate Old(t: Timestamp, age: nat, now: nat) {
    t.None? || t.value + age < now
  }

  predicate Exhausted(p: PeerState) {
    p.current.Some? && p.current.value.noise.Transport? && p.current.value.noise.sendNonce >= 0xffff_ffff_fffe_fffe
  }

  // A pending handshake must have been tried 17 times; otherwise there is no session, or the last
  // completed handshake is too old, or the session has used up its messages.
  predicate Due(p: PeerState, age: nat, now: nat) {
    if p.next.Some? then p.timers.handshakeAttempts >= 17
    else p.current.None? || Old(p.timers.handshakeCompleted, age, now) || Exhausted(p)
  }

  lemma DueExactly(p: PeerState, now: nat)
    requires p.CanAskNonce()
    ensures p.NeedsNewHandshake(true, now) <==> Due(p, 120 * SECOND, now)
    ensures p.NeedsNewHandshake(false, now) <==> Due(p, 165 * SECOND, now)
  {
  }

  // What it takes to send an initiation: five seconds since the last one, a private key, an
  // unused index among those drawn, and an address to send it to.
  predicate CanStart(h: seq<nat>, endpoint: Option<Endpoint>, key: Option<Key>, used: set<u32>, env: Env, now: nat) {
    && (h == [] || h[|h| - 1] + 5 * SECOND <= now)
    && endpoint.Some? && key.Some? && env.noise && env.udp
    && exists x :: x in env.draws && x !in used
  }

  lemma StartsExactly(w: World, id: nat, env: Env)
    requires id < |w.peers| && InitiationsOk(w.peers[id], w.now)
    ensures Starts(w, id, env) && env.udp <==>
            CanStart(w.peers[id].hist.initiations, w.peers[id].info.endpoint, w.info.privateKey, w.indexMap.Keys, env, w.now)
  {
  }

  // ----- Egress -----

  // The current session may carry data: it is less than 180 seconds old and has nonces left.
  predicate Ready(p: PeerState, now: nat) {
    && p.current.Some? && p.current.value.noise.Transport?
    && p.current.value.birthday.Some? && now < p.current.value.birthday.value + 180 * SECOND
    && p.current.value.noise.sendNonce < 0xffff_ffff_ffff_ffee
  }

  lemma ReadyExactly(p: PeerState, now: nat)
    requires PeerInv(p, now)
    ensures p.CanAskNonce() && (p.ReadyForTransport(now) <==> Ready(p, now))
  {
    assert SlotOk(p.current, p.hist, now);
  }

  predicate HasRoom(p: PeerState) {
    |p.queue| < 1024
  }

  function Enqueued(p: PeerState, packet: Bytes): seq<Bytes> {
    if HasRoom(p) then p.queue + [packet] else p.queue
  }

  // The packet is queued if there is room; if the session is ready and nothing stands in the
  // way, everything in the queue is sent, in order; if it is not ready, nothing is.
  ghost predicate Queues(p: PeerState, packet: Bytes, q: PeerState, env: Env, now: nat) {
    var packets := Enqueued(p, packet);
    && q.hist.queued == p.hist.queued + (if HasRoom(p) then [packet] else [])
    && (!Ready(p, now) ==> q.queue == packets && q.hist.sent == p.hist.sent)
    && (Ready(p, now) && Clear(p, |packets|, env, 0) ==>
          && q.queue == [] && p.hist.sent <= q.hist.sent
          && Carries(Tail(p.hist.sent, q.hist.sent), p.current.value, p.info.endpoint.value, packets, p.HeadSlot()))
  }

  // No attempt to send fails.
  predicate NoneFails(p: PeerState, packet: Bytes, env: Env, now: nat) {
    Ready(p, now) ==> Clear(p, |Enqueued(p, packet)|, env, 0)
  }

  lemma QueueExactly(p: PeerState, packet: Bytes, env: Env, now: nat)
    requires PeerInv(p, now) && p.CanAskNonce() && p.HeadSlot() >= 0 && packet != []
    ensures var (q, ok) := QueueAndDrain(p, packet, env, now);
            Queues(p, packet, q, env, now) && (ok <==> NoneFails(p, packet, env, now))
  {
    var p1 := p.QueueEgress(packet);
    ReadyExactly(p, now);
    assert p1.queue == Enqueued(p, packet) && p1.current == p.current && p1.info == p.info && p1.HeadSlot() == p.HeadSlot();
    assert p1.hist.sent == p.hist.sent && p1.hist.queued == p.hist.queued + (if HasRoom(p) then [packet] else []);
    if p1.ReadyForTransport(now) {
      DrainExactly(p1, env, 0, now);
      assert Clear(p1, |p1.queue|, env, 0) <==> Clear(p, |p1.queue|, env, 0);
    }
  }

  lemma RoutesAreProper(w: World)
    requires RoutesOk(w)
    ensures Proper(w.routes)
  {
    forall r | r in w.routes ensures exists x: Prefix :: RouteOf(x) == r {
      assert Lists(w.peers[w.routes[r]].info.allowedIps, r);
    }
  }

  // The packet is sent through the tunnel to peer `id`.
  ghost predicate Enters(w: World, packet: Bytes, id: nat) {
    0 < |packet| <= 65503 && IsFor(w.routes, packet, id)
  }

  lemma EntersExactly(w: World, packet: Bytes, id: nat)
    requires RoutesOk(w)
    ensures packet != [] && |packet| <= MAX_CONTENT_SIZE && RouteTo(w.routes, packet) == Some(id) <==> Enters(w, packet, id)
  {
    RoutesAreProper(w);
    RoutedExactly(w.routes, packet, id);
  }

  // A packet read from the tunnel interface goes to the peer that owns its destination, and to
  // no other; without one, nothing happens.
  ghost predicate EgressTakes(w: World, packet: Bytes, env: Env, v: World, id: nat) {
    && id < |w.peers| == |v.peers|
    && (Enters(w, packet, id) ==> Queues(w.peers[id], packet, v.peers[id], env, w.now))
    && (!Enters(w, packet, id) ==> v.peers[id] == w.peers[id])
  }

  // A configured peer that lists the prefix that makes it the owner of the destination.
  ghost predicate ListsOwner(w: World, packet: Bytes, id: nat) {
    && Live(w, id) && Parse(packet).Some?
    && exists x :: x in w.peers[id].info.allowedIps && Owns(w.routes, x, Parse(packet).value.Destination(), id)
  }

  lemma OwnerLists(w: World, packet: Bytes, id: nat)
    requires RoutesOk(w) && Enters(w, packet, id)
    ensures ListsOwner(w, packet, id)
  {
    var ip := Parse(packet).value.Destination();
    var y: Prefix :| Owns(w.routes, y, ip, id);
    assert Live(w, w.routes[RouteOf(y)]);
    OwnedByListed(w.routes, w.peers[id].info.allowedIps, y, ip, id);
  }

  lemma SendToQueues(w: World, owner: nat, packet: Bytes, env: Env, id: nat)
    requires owner < |w.peers| && PeerInv(w.peers[owner], w.now) && packet != [] && id < |w.peers|
    requires w.peers[owner].CanAskNonce() && w.peers[owner].HeadSlot() >= 0
    ensures var v := SendTo(w, owner, packet, env);
            && |v.peers| == |w.peers|
            && (id == owner ==> Queues(w.peers[id], packet, v.peers[id], env, w.now))
            && (id != owner ==> v.peers[id] == w.peers[id])
  {
    QueueExactly(w.peers[owner], packet, env, w.now);
  }

  lemma EgressStep(w: World, packet: Bytes, env: Env, id: nat)
    requires Base(w) && Defined(w) && id < |w.peers|
    ensures EgressTakes(w, packet, env, OnEgress(w, packet, env), id)
  {
    EntersExactly(w, packet, id);
    var owner := RouteTo(w.routes, packet);
    if packet != [] && |packet| <= MAX_CONTENT_SIZE && owner.Some? {
      RouteToRange(w, packet);
      SendToQueues(w, owner.value, packet, env, id);
    }
  }

  lemma EgressQueues(ws: seq<World>, es: seq<Event>, k: nat, id: nat)
    requires Run(ws, es) && k < |es| && id < |ws[k].peers| && es[k].input.Egress?
    ensures EgressTakes(ws[k], es[k].input.packet, es[k].env, ws[k + 1], id)
  {
    assert Steps(ws[k], es[k], ws[k + 1]);
    RunBase(ws, es, k);
    EgressStep(ws[k], es[k].input.packet, es[k].env, id);
  }

  lemma EgressOwner(ws: seq<World>, es: seq<Event>, i: nat, packet: Bytes, id: nat)
    requires Run(ws, es) && i < |ws| && Enters(ws[i], packet, id)
    ensures ListsOwner(ws[i], packet, id)
  {
    RunBase(ws, es, i);
    OwnerLists(ws[i], packet, id);
  }

  // When a packet read from the tunnel interface makes the peer send an initiation.
  ghost predicate EgressStarts(w: World, packet: Bytes, env: Env, id: nat)
    requires id < |w.peers|
  {
    var p := w.peers[id];
    && Enters(w, packet, id) && NoneFails(p, packet, env, w.now) && Due(p, 120 * SECOND, w.now)
    && CanStart(p.hist.initiations, p.info.endpoint, w.info.privateKey, w.indexMap.Keys, env, w.now)
  }

  lemma EgressStartsExactly(w: World, packet: Bytes, env: Env, id: nat)
    requires Base(w) && Defined(w) && id < |w.peers|
    ensures Initiates(w, env, Egress(packet), id) <==> EgressStarts(w, packet, env, id)
  {
    var p := w.peers[id];
    EntersExactly(w, packet, id);
    if Enters(w, packet, id) {
      QueueExactly(p, packet, env, w.now);
      DueExactly(p, w.now);
      StartsExactly(w, id, env);
      var w1 := SetPeer(w, id, QueueAndDrain(p, packet, env, w.now).0);
      QueuedStarts(w, id, packet, env);
    }
  }

  lemma QueuedStarts(w: World, id: nat, packet: Bytes, env: Env)
    requires id < |w.peers| && w.peers[id].CanAskNonce() && w.peers[id].HeadSlot() >= 0
    ensures Starts(SetPeer(w, id, QueueAndDrain(w.peers[id], packet, env, w.now).0), id, env) <==> Starts(w, id, env)
  {
    var p1 := w.peers[id].QueueEgress(packet);
    DrainTimers(p1, env, 0, w.now);
  }

  lemma {:induction false} DrainTimers(p: PeerState, env: Env, i: nat, now: nat)
    requires p.HeadSlot() >= 0
    ensures p.Drain(env.udp, env.failing, i, true, now).0.timers.handshakeInitialized == p.timers.handshakeInitialized
    decreases |p.queue|
  {
    if p.queue != [] {
      var (q, r) := p.SendHead(i !in env.failing, now);
      if r.Ok? && env.udp {
        DrainTimers(q, env, i + 1, now);
      }
    }
  }

  // The peer gains an initiation exactly when the step is to send one.
  ghost predicate Gained(w: World, v: World, id: nat, starts: bool) {
    && id < |w.peers| <= |v.peers|
    && v.peers[id].hist.initiations == w.peers[id].hist.initiations + if starts then [w.now] else []
  }

  lemma EgressGained(w: World, e: Event, v: World, id: nat)
    requires Base(w) && Steps(w, e, v) && id < |w.peers| && e.input.Egress?
    ensures Gained(w, v, id, EgressStarts(w, e.input.packet, e.env, id))
  {
    EgressStep(w, e.input.packet, e.env, id);
    StepAdds(w, e, v, id);
    EgressStartsExactly(w, e.input.packet, e.env, id);
  }

  lemma EgressInitiates(ws: seq<World>, es: seq<Event>, k: nat, id: nat)
    requires Run(ws, es) && k < |es| && id < |ws[k].peers| && es[k].input.Egress?
    ensures Gained(ws[k], ws[k + 1], id, EgressStarts(ws[k], es[k].input.packet, es[k].env, id))
  {
    assert Steps(ws[k], es[k], ws[k + 1]);
    RunBase(ws, es, k);
    EgressGained(ws[k], es[k], ws[k + 1], id);
  }
}
