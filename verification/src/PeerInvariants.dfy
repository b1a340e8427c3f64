// What every operation of a peer keeps, and how a peer's history can grow.
module PeerInvariants {
  import opened Types
  import opened Consts
  import opened Timestamps
  import opened AntiReplay
  import opened IpPackets
  import opened PeerModel

  // The same indices in the same places.
  predicate SameSlots(p: PeerState, q: PeerState) {
    IndexOf(p.past) == IndexOf(q.past) && IndexOf(p.current) == IndexOf(q.current) && IndexOf(p.next) == IndexOf(q.next)
  }

  // ----- The invariant -----

  // The history agrees with what a stored session remembers.
  ghost predicate SessionOk(s: Session, h: History, now: nat) {
    && s.sid < h.nextSid
    && s.replay.Valid()
    && (s.noise.Transport? <==> s.birthday.Some?)
    && NotAfter(s.birthday, now)
    && (forall n: u64 :: n in s.replay.accepted <==> Receipt(s.sid, n) in h.received)
    && (forall m :: m in h.sent && m.sid == s.sid ==> s.noise.Transport? && m.message.nonce < s.noise.sendNonce)
  }

  ghost predicate SlotOk(s: Option<Session>, h: History, now: nat) {
    s.Some? ==> SessionOk(s.value, h, now)
  }

  ghost predicate SessionsOk(p: PeerState, now: nat) {
    && SlotOk(p.past, p.hist, now)
    && SlotOk(p.current, p.hist, now)
    && SlotOk(p.next, p.hist, now)
  }

  predicate Distinct(s: Option<Session>, t: Option<Session>) {
    s.Some? && t.Some? ==> s.value.sid != t.value.sid
  }

  ghost predicate SessionsApart(p: PeerState) {
    Distinct(p.past, p.current) && Distinct(p.past, p.next) && Distinct(p.current, p.next)
  }

  // The current session is in transport mode, and it was born no later than the
  // handshake that made it current was completed.
  ghost predicate CurrentOk(p: PeerState, now: nat) {
    && NotAfter(p.timers.handshakeCompleted, now)
    && (p.current.Some? ==>
          && p.current.value.noise.Transport?
          && p.current.value.birthday.Some?
          && p.timers.handshakeCompleted.Some?
          && p.current.value.birthday.value <= p.timers.handshakeCompleted.value)
  }

  // No nonce passed the replay check of one session twice.
  ghost predicate ReceivedOnce(h: History) {
    && (forall i, j :: 0 <= i < j < |h.received| ==> h.received[i] != h.received[j])
    && (forall r :: r in h.received ==> r.sid < h.nextSid)
  }

  // The nonces one session sent are strictly increasing and below the limit.
  ghost predicate SentInOrder(h: History) {
    && (forall i, j :: 0 <= i < j < |h.sent| && h.sent[i].sid == h.sent[j].sid ==> h.sent[i].message.nonce < h.sent[j].message.nonce)
    && (forall m :: m in h.sent ==> m.message.nonce < REJECT_AFTER_MESSAGES && m.sid < h.nextSid && m.message.plain == Pad(m.packet))
  }

  // The queue is what is left of the packets queued so far, and the messages sent that are not
  // keepalives carry a subsequence of the packets taken from it, in order and each at most once.
  ghost predicate QueueOk(p: PeerState) {
    var h := p.hist;
    && |p.queue| <= MAX_QUEUED_PACKETS
    && p.HeadSlot() >= 0
    && p.queue == h.queued[p.HeadSlot()..]
    && (forall x :: x in h.queued ==> x != [])
    && (forall m :: m in h.sent ==> (m.slot.None? <==> m.packet == []))
    && (forall m :: m in h.sent && m.slot.Some? ==> m.slot.value < p.HeadSlot() && m.packet == h.queued[m.slot.value])
    && (forall i, j :: 0 <= i < j < |h.sent| && h.sent[i].slot.Some? && h.sent[j].slot.Some? ==>
          h.sent[i].slot.value < h.sent[j].slot.value)
  }

  // Initiations are at least REKEY_TIMEOUT apart, and the last one is remembered.
  ghost predicate InitiationsOk(p: PeerState, now: nat) {
    var h := p.hist.initiations;
    && (forall i, j :: 0 <= i < j < |h| ==> h[i] + REKEY_TIMEOUT <= h[j])
    && p.timers.handshakeInitialized == (if h == [] then None else Some(h[|h| - 1]))
    && NotAfter(p.timers.handshakeInitialized, now)
  }

  // The handshake timestamps accepted are strictly increasing.
  ghost predicate TimestampsOk(p: PeerState) {
    var h := p.hist.timestamps;
    && (forall i, j :: 0 <= i < j < |h| ==> LexLess(h[i], h[j]))
    && p.lastTai64n == (if h == [] then None else Some(h[|h| - 1]))
  }

  ghost predicate PeerInv(p: PeerState, now: nat) {
    && SessionsOk(p, now)
    && SessionsApart(p)
    && CurrentOk(p, now)
    && ReceivedOnce(p.hist)
    && SentInOrder(p.hist)
    && QueueOk(p)
    && InitiationsOk(p, now)
    && TimestampsOk(p)
    && p.timers.handshakeAttempts <= MAX_HANDSHAKE_ATTEMPTS
  }

  // ----- How a peer may change -----

  // Histories only grow. As long as no packet is queued every retry is counted in
  // `handshakeAttempts`, and a packet that is queued forgives at most all of them.
  ghost predicate Evolves(p: PeerState, q: PeerState) {
    && p.info.pubKey == q.info.pubKey
    && p.hist.nextSid <= q.hist.nextSid
    && p.hist.sent <= q.hist.sent
    && p.hist.received <= q.hist.received
    && p.hist.queued <= q.hist.queued
    && p.hist.initiations <= q.hist.initiations
    && p.hist.timestamps <= q.hist.timestamps
    && p.hist.retries <= q.hist.retries
    && (p.hist.queued == q.hist.queued ==>
          q.hist.retries - p.hist.retries == q.timers.handshakeAttempts - p.timers.handshakeAttempts)
    && q.hist.retries - p.hist.retries <=
         q.timers.handshakeAttempts - p.timers.handshakeAttempts
         + MAX_HANDSHAKE_ATTEMPTS * (|q.hist.queued| - |p.hist.queued|)
  }

  ghost predicate Good(p: PeerState, q: PeerState, now: nat) {
    PeerInv(q, now) && Evolves(p, q)
  }

  lemma EvolvesTransitive(p: PeerState, q: PeerState, r: PeerState)
    requires Evolves(p, q) && Evolves(q, r)
    ensures Evolves(p, r)
  {
  }

  lemma Later(p: PeerState, now: nat, now': nat)
    requires PeerInv(p, now) && now <= now'
    ensures PeerInv(p, now')
  {
  }

  lemma NewPeerOk(info: PeerInfo, now: nat)
    ensures PeerInv(NewPeer(info), now)
  {
  }

  // ----- Sessions -----

  lemma PushOk(p: PeerState, s: Session, now: nat)
    requires PeerInv(p, now)
    requires s.sid == p.hist.nextSid && s.replay == EMPTY
    requires (s.noise.Transport? <==> s.birthday.Some?) && NotAfter(s.birthday, now)
    ensures Good(p, p.Push(s), now)
  {
  }

  lemma InitiateOk(p: PeerState, index: u32, now: nat)
    requires PeerInv(p, now)
    ensures Good(p, p.Initiate(index), now)
  {
    PushOk(p, Session(p.hist.nextSid, Handshake, index, 0, EMPTY, None), now);
  }

  lemma MarkInitiatedOk(p: PeerState, now: nat)
    requires PeerInv(p, now) && Elapsed(p.timers.handshakeInitialized, now) >= REKEY_TIMEOUT
    ensures Good(p, p.MarkInitiated(now), now)
  {
  }

  lemma SendInitiationOk(p: PeerState, index: u32, now: nat)
    requires PeerInv(p, now) && Elapsed(p.timers.handshakeInitialized, now) >= REKEY_TIMEOUT
    ensures Good(p, p.Initiate(index).MarkInitiated(now), now)
  {
    var q := p.Initiate(index);
    InitiateOk(p, index, now);
    MarkInitiatedOk(q, now);
    EvolvesTransitive(p, q, q.MarkInitiated(now));
  }

  lemma AppendTimestamp(p: PeerState, q: PeerState, tai: Bytes)
    requires TimestampsOk(p) && p.Newer(tai)
    requires q.hist.timestamps == p.hist.timestamps + [tai] && q.lastTai64n == Some(tai)
    ensures TimestampsOk(q)
  {
    var h, h' := p.hist.timestamps, q.hist.timestamps;
    forall i, j | 0 <= i < j < |h'| ensures LexLess(h'[i], h'[j]) {
      if j == |h| && i < |h| - 1 {
        LexTransitive(h[i], h[|h| - 1], tai);
      }
    }
  }

  lemma CompleteIncomingOk(p: PeerState, addr: Endpoint, index: u32, theirIndex: u32, tai: Bytes, now: nat)
    requires PeerInv(p, now) && p.Newer(tai)
    ensures Good(p, p.CompleteIncoming(addr, index, theirIndex, tai, now), now)
  {
    var s := Session(p.hist.nextSid, Transport(0), index, theirIndex, EMPTY, Some(now));
    var q := p.CompleteIncoming(addr, index, theirIndex, tai, now);
    PushOk(p, s, now);
    AppendTimestamp(p, q, tai);
    assert SessionsOk(q, now) by {
      assert SessionsOk(p.Push(s), now);
    }
  }

  lemma AcceptResponseOk(p: PeerState, addr: Endpoint, theirIndex: u32, now: nat)
    requires PeerInv(p, now) && p.next.Some?
    ensures Good(p, p.AcceptResponse(addr, theirIndex, now), now)
  {
  }

  lemma DropNextOk(p: PeerState, now: nat)
    requires PeerInv(p, now)
    ensures Good(p, p.DropNext(), now)
  {
  }

  lemma WipeOk(p: PeerState, now: nat)
    requires PeerInv(p, now)
    ensures Good(p, p.Wipe(), now)
  {
  }

  // ----- Transport -----

  // Recording a nonce concerns one session only.
  lemma RecordSession(p: PeerState, t: SessionType, nonce: u64, s: Session, now: nat)
    requires p.Get(t).Some? && p.Get(t).value.replay.Fresh(nonce) && SessionOk(s, p.hist, now)
    requires s.sid == p.Get(t).value.sid ==> s == p.Get(t).value
    ensures var h := p.Record(t, nonce).hist;
            if s == p.Get(t).value then SessionOk(s.(replay := s.replay.Accept(nonce)), h, now) else SessionOk(s, h, now)
  {
    var h, r := p.Record(t, nonce).hist, Receipt(p.Get(t).value.sid, nonce);
    forall n: u64 ensures Receipt(s.sid, n) in h.received <==>
                          (Receipt(s.sid, n) in p.hist.received || Receipt(s.sid, n) == r) {
    }
  }

  lemma RecordSessions(p: PeerState, t: SessionType, nonce: u64, now: nat)
    requires SessionsOk(p, now) && SessionsApart(p) && p.Get(t).Some? && p.Get(t).value.replay.Fresh(nonce)
    ensures SessionsOk(p.Record(t, nonce), now)
  {
    if p.past.Some? {
      RecordSession(p, t, nonce, p.past.value, now);
    }
    if p.current.Some? {
      RecordSession(p, t, nonce, p.current.value, now);
    }
    if p.next.Some? {
      RecordSession(p, t, nonce, p.next.value, now);
    }
  }

  lemma RecordReceived(p: PeerState, t: SessionType, nonce: u64, now: nat)
    requires ReceivedOnce(p.hist) && p.Get(t).Some? && SessionOk(p.Get(t).value, p.hist, now)
    requires p.Get(t).value.replay.Fresh(nonce)
    ensures ReceivedOnce(p.Record(t, nonce).hist)
  {
    var s := p.Get(t).value;
    assert nonce !in s.replay.accepted;
    assert Receipt(s.sid, nonce) !in p.hist.received;
  }

  lemma RecordOk(p: PeerState, t: SessionType, nonce: u64, now: nat)
    requires PeerInv(p, now) && p.Admits(t, nonce, now)
    ensures Good(p, p.Record(t, nonce), now)
  {
    RecordSessions(p, t, nonce, now);
    RecordReceived(p, t, nonce, now);
  }

  lemma AuthenticatedOk(p: PeerState, t: SessionType, addr: Endpoint, raw: Bytes, now: nat)
    requires PeerInv(p, now) && p.Get(t).Some? && p.Get(t).value.noise.Transport?
    ensures Good(p, p.Authenticated(t, addr, raw, now), now)
  {
  }

  lemma IncomingOk(p: PeerState, addr: Endpoint, index: u32, nonce: u64, messageLen: nat, plain: Option<Bytes>, now: nat)
    requires PeerInv(p, now) && (plain.Some? ==> |plain.value| <= messageLen)
    ensures Good(p, p.Incoming(addr, index, nonce, messageLen, plain, now).0, now)
  {
    var t := p.Find(index);
    if t.Some? && p.Admits(t.value, nonce, now) {
      var q := p.Record(t.value, nonce);
      RecordOk(p, t.value, nonce, now);
      var (p', r) := p.Incoming(addr, index, nonce, messageLen, plain, now);
      if r.Ok? {
        AuthenticatedOk(q, t.value, addr, r.value.raw, now);
        EvolvesTransitive(p, q, p');
      }
    }
  }

  // Sending one message, with the nonce that is the session's next.
  lemma SentSession(s: Session, h: History, m: Sent, now: nat)
    requires SessionOk(s, h, now)
    requires m.sid == s.sid ==> s.noise.Transport? && m.message.nonce < s.noise.sendNonce
    ensures SessionOk(s, h.(sent := h.sent + [m]), now)
  {
  }

  lemma OutgoingSessions(p: PeerState, packet: Bytes, slot: Option<nat>, now: nat)
    requires SessionsOk(p, now) && SessionsApart(p) && p.CanSend(now)
    ensures SessionsOk(p.Outgoing(packet, slot, true, now).0, now)
  {
    var s := p.current.value;
    var m := Sent(s.sid, slot, packet, p.Outgoing(packet, slot, true, now).1.value);
    SentSession(s.(noise := Transport(s.noise.sendNonce + 1)), p.hist, m, now);
    if p.past.Some? {
      SentSession(p.past.value, p.hist, m, now);
    }
    if p.next.Some? {
      SentSession(p.next.value, p.hist, m, now);
    }
  }

  lemma OutgoingInOrder(p: PeerState, packet: Bytes, slot: Option<nat>, now: nat)
    requires SentInOrder(p.hist) && p.CanSend(now) && SessionOk(p.current.value, p.hist, now)
    ensures SentInOrder(p.Outgoing(packet, slot, true, now).0.hist)
  {
    var h, h' := p.hist.sent, p.Outgoing(packet, slot, true, now).0.hist.sent;
    forall i, j | 0 <= i < j < |h'| && h'[i].sid == h'[j].sid ensures h'[i].message.nonce < h'[j].message.nonce {
      assert h'[i] == h[i] && h[i] in h;
    }
  }

  // A packet that is not a keepalive has a place in the queue, after all those sent before it.
  ghost predicate MayTake(p: PeerState, packet: Bytes, slot: Option<nat>) {
    && (slot.None? <==> packet == [])
    && (slot.Some? ==>
      && slot.value < p.HeadSlot() && slot.value < |p.hist.queued| && p.hist.queued[slot.value] == packet
      && forall m :: m in p.hist.sent && m.slot.Some? ==> m.slot.value < slot.value)
  }

  lemma OutgoingQueue(p: PeerState, packet: Bytes, slot: Option<nat>, now: nat)
    requires QueueOk(p) && p.CanSend(now) && MayTake(p, packet, slot)
    ensures QueueOk(p.Outgoing(packet, slot, true, now).0)
  {
    var h, h' := p.hist.sent, p.Outgoing(packet, slot, true, now).0.hist.sent;
    forall i, j | 0 <= i < j < |h'| && h'[i].slot.Some? && h'[j].slot.Some?
      ensures h'[i].slot.value < h'[j].slot.value
    {
      assert h'[i] == h[i] && h[i] in h;
    }
  }

  lemma OutgoingOk(p: PeerState, packet: Bytes, slot: Option<nat>, writes: bool, now: nat)
    requires PeerInv(p, now) && MayTake(p, packet, slot)
    ensures Good(p, p.Outgoing(packet, slot, writes, now).0, now)
  {
    if p.CanSend(now) && writes {
      OutgoingSessions(p, packet, slot, now);
      OutgoingInOrder(p, packet, slot, now);
      OutgoingQueue(p, packet, slot, now);
    }
  }

  lemma SendHeadOk(p: PeerState, writes: bool, now: nat)
    requires PeerInv(p, now) && p.queue != []
    ensures Good(p, p.SendHead(writes, now).0, now)
    ensures SameSlots(p, p.SendHead(writes, now).0)
    ensures |p.SendHead(writes, now).0.queue| < |p.queue|
  {
    var q := p.(queue := p.queue[1..]);
    assert q.HeadSlot() == p.HeadSlot() + 1;
    assert q.queue == q.hist.queued[q.HeadSlot()..];
    assert Good(p, q, now);
    assert p.queue[0] == p.hist.queued[p.HeadSlot()] && p.queue[0] in p.hist.queued;
    OutgoingOk(q, p.queue[0], Some(p.HeadSlot()), writes, now);
    EvolvesTransitive(p, q, p.SendHead(writes, now).0);
  }

  lemma {:induction false} DrainOk(p: PeerState, udp: bool, failing: set<nat>, i: nat, stopOnError: bool, now: nat)
    requires PeerInv(p, now)
    ensures Good(p, p.Drain(udp, failing, i, stopOnError, now).0, now)
    ensures SameSlots(p, p.Drain(udp, failing, i, stopOnError, now).0)
    decreases |p.queue|
  {
    var out := p.Drain(udp, failing, i, stopOnError, now).0;
    if p.queue == [] {
      assert out == p;
    } else {
      SendHeadOk(p, i !in failing, now);
      var (q, r) := p.SendHead(i !in failing, now);
      if (r.Ok? && udp) || (r.Err? && !stopOnError) {
        DrainOk(q, udp, failing, i + 1, stopOnError, now);
        assert out == q.Drain(udp, failing, i + 1, stopOnError, now).0;
        EvolvesTransitive(p, q, out);
      } else {
        assert out == q;
      }
    }
  }

  lemma DrainAllOk(p: PeerState, udp: bool, failing: set<nat>, now: nat)
    requires PeerInv(p, now)
    ensures Good(p, p.DrainAll(udp, failing, now).0, now)
    ensures SameSlots(p, p.DrainAll(udp, failing, now).0)
  {
    DrainOk(p, udp, failing, 0, false, now);
    EmptiedOk(p, p.Drain(udp, failing, 0, false, now).0, now);
  }

  lemma EmptiedOk(p: PeerState, q: PeerState, now: nat)
    requires Good(p, q, now)
    ensures Good(p, q.(queue := []), now)
  {
    var r := q.(queue := []);
    assert SessionsOk(r, now) && SessionsApart(r) && CurrentOk(r, now);
    assert QueueOk(r) && InitiationsOk(r, now) && TimestampsOk(r);
  }

  lemma QueuedOk(p: PeerState, packet: Bytes)
    requires QueueOk(p) && packet != []
    ensures QueueOk(p.QueueEgress(packet)) && p.hist.queued <= p.QueueEgress(packet).hist.queued
  {
  }

  lemma QueueEgressOk(p: PeerState, packet: Bytes, now: nat)
    requires PeerInv(p, now) && packet != []
    ensures Good(p, p.QueueEgress(packet), now)
  {
    var q := p.QueueEgress(packet);
    QueuedOk(p, packet);
    assert SessionsOk(q, now) && SessionsApart(q) && CurrentOk(q, now);
    assert InitiationsOk(q, now) && TimestampsOk(q);
  }

  // ----- Timers and configuration -----

  lemma CountRetryOk(p: PeerState, now: nat)
    requires PeerInv(p, now) && p.timers.handshakeAttempts < MAX_HANDSHAKE_ATTEMPTS
    ensures Good(p, p.CountRetry(), now)
  {
  }

  lemma ReconfigureOk(p: PeerState, info: PeerInfo, now: nat)
    requires PeerInv(p, now) && info.pubKey == p.info.pubKey
    ensures Good(p, p.Reconfigure(info), now)
  {
  }

  // A peer that is wiped has no current session that could still be used.
  lemma WipeIsLate(p: PeerState, now: nat)
    requires PeerInv(p, now) && Elapsed(p.timers.handshakeCompleted, now) >= WIPE_AFTER_TIME
    ensures !p.ReadyForTransport(now) && !p.CanSend(now)
  {
  }
}
