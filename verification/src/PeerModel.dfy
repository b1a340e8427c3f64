// One peer as a value: its sessions, timers and queue, what every operation of
// src/peer.rs does to them, and a history of what the peer has done so far.
module PeerModel {
  import opened Types
  import opened Consts
  import opened Timestamps
  import opened IpPackets
  import opened AntiReplay

  type Key = Bytes
  type Prefix = (Ip, nat)
  datatype Endpoint = Endpoint(ip: Ip, port: u16)

  datatype PeerInfo = PeerInfo(
    pubKey: Key,
    psk: Option<Key>,
    endpoint: Option<Endpoint>,
    allowedIps: seq<Prefix>,
    keepalive: Option<u16>)

  // A Noise session, of which only the mode and the next nonce to send matter here.
  datatype Noise = Handshake | Transport(sendNonce: u64)

  // `sid` names the session for the history; it is never reused by its peer, whereas
  // `ourIndex` may be drawn again after the session is gone.
  datatype Session = Session(
    sid: nat,
    noise: Noise,
    ourIndex: u32,
    theirIndex: u32,
    replay: Seen,
    birthday: Timestamp)

  datatype SessionType = Past | Current | Next

  datatype Timers = Timers(
    dataSent: Timestamp,
    dataReceived: Timestamp,
    authenticatedReceived: Timestamp,
    authenticatedTraversed: Timestamp,
    handshakeCompleted: Timestamp,
    handshakeInitialized: Timestamp,
    handshakeAttempts: nat,
    keepaliveSent: bool)

  // ----- History -----

  // A transport message encrypted by session `sid`, as it was given out; `packet` is what it
  // carries, and `slot` the place that packet had among all packets ever queued, or None for a
  // keepalive.
  datatype Sent = Sent(sid: nat, slot: Option<nat>, packet: Bytes, message: Outbound)

  // A nonce that passed the replay check of session `sid`.
  datatype Receipt = Receipt(sid: nat, nonce: u64)

  datatype History = History(
    nextSid: nat,
    sent: seq<Sent>,
    received: seq<Receipt>,
    queued: seq<Bytes>,
    initiations: seq<nat>,
    timestamps: seq<Bytes>,
    retries: nat)

  const NO_TIMERS := Timers(None, None, None, None, None, None, 0, false)
  const NO_HISTORY := History(0, [], [], [], [], [], 0)

  // What handle_incoming_transport gives back: the packet, and the index of the session
  // that fell out when the packet promoted `next` to `current`.
  datatype Inbound = Inbound(raw: Bytes, promoted: bool, dead: Option<u32>)

  // A transport message on its way out.
  datatype Outbound = Outbound(endpoint: Endpoint, theirIndex: u32, nonce: u64, plain: Bytes)

  function IndexOf(s: Option<Session>): Option<u32> {
    if s.Some? then Some(s.value.ourIndex) else None
  }

  function IndexSet(s: Option<Session>): set<u32> {
    if s.Some? then {s.value.ourIndex} else {}
  }

  datatype PeerState = PeerState(
    info: PeerInfo,
    past: Option<Session>,
    current: Option<Session>,
    next: Option<Session>,
    timers: Timers,
    lastTai64n: Option<Bytes>,
    queue: seq<Bytes>,
    hist: History)
  {
    // ----- Queries -----

    function Indices(): set<u32> {
      IndexSet(past) + IndexSet(current) + IndexSet(next)
    }

    function Find(index: u32): Option<SessionType> {
      if next.Some? && next.value.ourIndex == index then Some(Next)
      else if current.Some? && current.value.ourIndex == index then Some(Current)
      else if past.Some? && past.value.ourIndex == index then Some(Past)
      else None
    }

    function Get(t: SessionType): Option<Session> {
      match t
      case Past => past
      case Current => current
      case Next => next
    }

    function Put(t: SessionType, s: Session): PeerState {
      match t
      case Past => this.(past := Some(s))
      case Current => this.(current := Some(s))
      case Next => this.(next := Some(s))
    }

    // What the `sending_nonce().unwrap()` calls of the two predicates below rely on.
    predicate CanAskNonce() {
      current.Some? ==> current.value.noise.Transport?
    }

    predicate NeedsNewHandshake(sending: bool, now: nat)
      requires CanAskNonce()
    {
      if next.Some? then timers.handshakeAttempts >= MAX_HANDSHAKE_ATTEMPTS
      else
        || current.None?
        || (sending && Elapsed(timers.handshakeCompleted, now) > REKEY_AFTER_TIME)
        || (!sending && Elapsed(timers.handshakeCompleted, now) > REKEY_AFTER_TIME_RECV)
        || current.value.noise.sendNonce >= REKEY_AFTER_MESSAGES
    }

    predicate ReadyForTransport(now: nat)
      requires CanAskNonce()
    {
      && current.Some?
      && Elapsed(current.value.birthday, now) < REJECT_AFTER_TIME
      && current.value.noise.sendNonce < REJECT_AFTER_MESSAGES
    }

    // ----- Rotations -----

    // A new session becomes `next`; the `next` it displaces becomes `past`.
    function Push(s: Session): PeerState {
      this.(next := Some(s),
            past := if next.Some? then next else past,
            hist := hist.(nextSid := hist.nextSid + 1))
    }

    function PushedOut(): Option<u32> {
      if next.Some? then IndexOf(past) else None
    }

    // `s` becomes `current`; the session it replaces becomes `past`.
    function Promote(s: Session): PeerState {
      this.(next := None, current := Some(s), past := current)
    }

    // ----- Handshakes -----

    // `initiate_new_session`, once the initiation has been written.
    function Initiate(index: u32): PeerState {
      Push(Session(hist.nextSid, Handshake, index, 0, EMPTY, None))
    }

    predicate Newer(tai: Bytes) {
      lastTai64n.Some? ==> LexLess(lastTai64n.value, tai)
    }

    // `complete_incoming_handshake`, once the response has been written.
    function CompleteIncoming(addr: Endpoint, index: u32, theirIndex: u32, tai: Bytes, now: nat): PeerState {
      var p := Push(Session(hist.nextSid, Transport(0), index, theirIndex, EMPTY, Some(now)));
      p.(info := info.(endpoint := Some(addr)),
         lastTai64n := Some(tai),
         timers := timers.(authenticatedReceived := Some(now), authenticatedTraversed := Some(now)),
         hist := p.hist.(timestamps := hist.timestamps + [tai]))
    }

    // `process_incoming_handshake_response` on a peer with a `next` session, after the
    // response has been read.
    function AcceptResponse(addr: Endpoint, theirIndex: u32, now: nat): PeerState
      requires next.Some?
    {
      var noise := if next.value.noise.Handshake? then Transport(0) else next.value.noise;
      var p := Promote(next.value.(noise := noise, theirIndex := theirIndex, birthday := Some(now)));
      p.(info := info.(endpoint := Some(addr)),
         timers := timers.(authenticatedReceived := Some(now),
                           authenticatedTraversed := Some(now),
                           handshakeCompleted := Some(now)))
    }

    // The same when the response cannot be read: `next` has already been taken out.
    function DropNext(): PeerState {
      this.(next := None)
    }

    function Wipe(): PeerState {
      this.(past := None, current := None, next := None)
    }

    // ----- Transport -----

    // The nonce is recorded before the payload is authenticated.
    predicate Admits(t: SessionType, nonce: u64, now: nat) {
      && Get(t).Some?
      && Get(t).value.noise.Transport?
      && nonce < REJECT_AFTER_MESSAGES
      && Elapsed(Get(t).value.birthday, now) < REJECT_AFTER_TIME
      && Get(t).value.replay.Fresh(nonce)
    }

    function Record(t: SessionType, nonce: u64): PeerState
      requires Get(t).Some?
    {
      var s := Get(t).value;
      Put(t, s.(replay := s.replay.Accept(nonce))).(hist :=
        hist.(received := hist.received + [Receipt(s.sid, nonce)]))
    }

    // After the payload of a message on session `t` decrypted to `raw`.
    function Authenticated(t: SessionType, addr: Endpoint, raw: Bytes, now: nat): PeerState
      requires Get(t).Some?
    {
      var tm := timers.(dataReceived := if raw == [] then timers.dataReceived else Some(now),
                        authenticatedReceived := Some(now),
                        authenticatedTraversed := Some(now),
                        keepaliveSent := false);
      var p := this.(timers := tm, info := info.(endpoint := Some(addr)));
      if t.Next? then p.Promote(next.value).(timers := tm.(handshakeCompleted := Some(now)))
      else p
    }

    // `handle_incoming_transport`; `plain` is what Noise decrypts the payload to.
    function Incoming(addr: Endpoint, index: u32, nonce: u64, messageLen: nat, plain: Option<Bytes>, now: nat)
      : (r: (PeerState, Result<Inbound>))
      requires plain.Some? ==> |plain.value| <= messageLen
      ensures CanAskNonce() ==> r.0.CanAskNonce()
    {
      match Find(index)
      case None => (this, Err)
      case Some(t) =>
        if !Admits(t, nonce, now) then (this, Err)
        else
          var p := Record(t, nonce);
          if plain.None? then (p, Err)
          else
            match Unpad(plain.value, messageLen)
            case Err => (p, Err)
            case Ok(raw) =>
              (p.Authenticated(t, addr, raw, now),
               Ok(Inbound(raw, t.Next?, if t.Next? then IndexOf(past) else None)))
    }

    predicate CanSend(now: nat) {
      && current.Some?
      && info.endpoint.Some?
      && current.value.noise.Transport?
      && current.value.noise.sendNonce < REJECT_AFTER_MESSAGES
      && Elapsed(current.value.birthday, now) < REJECT_AFTER_TIME
    }

    // `handle_outgoing_transport`; `writes` tells whether Noise accepts the message.
    function Outgoing(packet: Bytes, slot: Option<nat>, writes: bool, now: nat): (r: (PeerState, Result<Outbound>))
      ensures CanAskNonce() ==> r.0.CanAskNonce()
      ensures r.0.info == info && r.0.queue == queue && r.0.hist == hist.(sent := r.0.hist.sent)
    {
      if !CanSend(now) || !writes then (this, Err)
      else
        var s := current.value;
        var nonce := s.noise.sendNonce;
        var message := Outbound(info.endpoint.value, s.theirIndex, nonce, Pad(packet));
        (this.(current := Some(s.(noise := Transport(nonce + 1))),
               timers := timers.(dataSent := if packet == [] then timers.dataSent else Some(now),
                                 authenticatedTraversed := Some(now)),
               hist := hist.(sent := hist.sent + [Sent(s.sid, slot, packet, message)])),
         Ok(message))
    }

    function SendKeepalive(writes: bool, now: nat): PeerState {
      Outgoing([], None, writes, now).0
    }

    // ----- The egress queue -----

    function QueueEgress(packet: Bytes): PeerState {
      if |queue| < MAX_QUEUED_PACKETS then
        this.(queue := queue + [packet],
              timers := timers.(handshakeAttempts := 0),
              hist := hist.(queued := hist.queued + [packet]))
      else this
    }

    // Where the packet at the head of the queue stands among all packets ever queued.
    function HeadSlot(): int {
      |hist.queued| - |queue|
    }

    // Pops the head of the queue and tries to send it.
    function SendHead(writes: bool, now: nat): (PeerState, Result<Outbound>)
      requires queue != [] && HeadSlot() >= 0
    {
      this.(queue := queue[1..]).Outgoing(queue[0], Some(HeadSlot()), writes, now)
    }

    // The drain loops: number `i` of the messages written by one handler fails when it is
    // in `failing`. Draining stops at the first failure, or goes on, as the handler does.
    function Drain(udp: bool, failing: set<nat>, i: nat, stopOnError: bool, now: nat): (r: (PeerState, bool))
      requires HeadSlot() >= 0
      ensures CanAskNonce() ==> r.0.CanAskNonce()
      ensures r.0.info == info && r.0.hist == hist.(sent := r.0.hist.sent)
      decreases |queue|
    {
      if queue == [] then (this, true)
      else
        var (p, r) := SendHead(i !in failing, now);
        if r.Ok? && udp then p.Drain(udp, failing, i + 1, stopOnError, now)
        else if r.Err? && !stopOnError then p.Drain(udp, failing, i + 1, stopOnError, now)
        else (p, false)
    }

    // The loop of handle_ingress_transport empties the queue before it starts to send.
    function DrainAll(udp: bool, failing: set<nat>, now: nat): (PeerState, bool)
      requires HeadSlot() >= 0
    {
      var (p, ok) := Drain(udp, failing, 0, false, now);
      (p.(queue := []), ok)
    }

    // ----- Timers and configuration -----

    function CountRetry(): PeerState {
      this.(timers := timers.(handshakeAttempts := timers.handshakeAttempts + 1),
            hist := hist.(retries := hist.retries + 1))
    }

    function MarkInitiated(now: nat): PeerState {
      this.(timers := timers.(handshakeInitialized := Some(now)),
            hist := hist.(initiations := hist.initiations + [now]))
    }

    function MarkKeepalive(): PeerState {
      this.(timers := timers.(keepaliveSent := true))
    }

    function Reconfigure(i: PeerInfo): PeerState {
      this.(info := i)
    }
  }

  function NewPeer(info: PeerInfo): PeerState {
    PeerState(info, None, None, None, NO_TIMERS, None, [], NO_HISTORY)
  }
}
