// The whole interface as a value: every peer object, the three maps that refer to them,
// and what each handler of src/interface/peer_server.rs and src/interface/config.rs
// does to it.
module World {
  import opened Types
  import opened Consts
  import opened Timestamps
  import opened PeerModel
  import opened Router

  datatype InterfaceInfo = InterfaceInfo(
    privateKey: Option<Key>,
    pubKey: Option<Key>,
    listenPort: Option<u16>,
    fwmark: Option<u32>)

  // A packet handed to the tunnel, and the peer whose session decrypted it.
  datatype Delivery = Delivery(peer: nat, packet: Bytes)

  // Peer objects are named by their place in `peers`, which lists every object ever made.
  datatype World = World(
    peers: seq<PeerState>,
    pubkeyMap: map<Key, nat>,
    indexMap: map<u32, nat>,
    routes: map<Route, nat>,
    info: InterfaceInfo,
    delivered: seq<Delivery>,
    now: nat)

  const EMPTY_WORLD := World([], map[], map[], map[], InterfaceInfo(None, None, None, None), [], 0)

  // ----- What the environment decides -----

  // Whether the UDP socket is bound; which of the transport messages written by
  // this handler Noise refuses; the random numbers drawn; and whether Noise accepts the
  // handshake message at hand.
  datatype Env = Env(udp: bool, failing: set<nat>, draws: seq<u32>, noise: bool)

  // A decrypted handshake initiation.
  datatype Hello = Hello(pubKey: Key, theirIndex: u32, tai: Bytes)

  datatype UpdateEvent =
    | SetPrivateKey(key: Key)
    | SetListenPort(port: u16)
    | SetFwmark(mark: u32)
    | UpdatePeer(info: PeerInfo, replaceAllowedIps: bool)
    | RemovePeer(pubKey: Key)
    | RemoveAllPeers

  datatype Notice =
    | ClearPrivateKey
    | NewPrivateKey
    | NewListenPort(port: u16)
    | NewFwmark(mark: u32)
    | NewPersistentKeepalive(peer: nat)
    | NewPeerAdded(peer: nat)

  datatype TimerMessage = Rekey(index: u32) | PassiveKeepalive | PersistentKeepalive | Wipe

  // `admitted` says that a handshake message got past the MAC, cookie and rate checks;
  // `derived` is the public key of a private key.
  datatype Input =
    | Initiation(addr: Endpoint, admitted: bool, hello: Option<Hello>)
    | Response(addr: Endpoint, admitted: bool, index: u32, theirIndex: u32)
    | TransportMessage(addr: Endpoint, index: u32, nonce: u64, len: nat, plain: Option<Bytes>)
    | Egress(packet: Bytes)
    | Timer(peer: nat, message: TimerMessage)
    | KeepaliveConfigured(peer: nat)
    | Configure(update: UpdateEvent, derived: Key)
    | ClockTick(now: nat)

  // ----- Small steps -----

  // The first number drawn that is not in use.
  function FirstUnused<P>(draws: seq<u32>, used: map<u32, P>): (i: Option<u32>)
    ensures i.Some? ==> i.value in draws && i.value !in used
    ensures i.None? ==> forall d :: d in draws ==> d in used
  {
    if draws == [] then None
    else if draws[0] !in used then Some(draws[0])
    else FirstUnused(draws[1..], used)
  }

  function Unlink<P>(m: map<u32, P>, dead: Option<u32>): map<u32, P> {
    if dead.Some? then m - {dead.value} else m
  }

  function SetPeer(w: World, id: nat, p: PeerState): World
    requires id < |w.peers|
  {
    w.(peers := w.peers[id := p])
  }

  // Whether a weak reference to the peer object can still be upgraded.
  ghost predicate Held(w: World, id: nat) {
    && id < |w.peers|
    && (id in w.pubkeyMap.Values || id in w.indexMap.Values || id in w.routes.Values)
  }

  // The handlers ask for the sending nonce of current sessions, and number the packets of
  // the queue. Both are part of the invariant kept by every step.
  ghost predicate Defined(w: World) {
    && (forall id :: 0 <= id < |w.peers| ==> w.peers[id].CanAskNonce() && w.peers[id].HeadSlot() >= 0)
    && (forall k :: k in w.pubkeyMap ==> w.pubkeyMap[k] < |w.peers|)
    && (forall i :: i in w.indexMap ==> w.indexMap[i] < |w.peers|)
    && (forall r :: r in w.routes ==> w.routes[r] < |w.peers|)
  }

  // ----- Handshakes -----

  // `send_handshake_init`; the flag says whether it returned Ok.
  function SendHandshakeInit(w: World, id: nat, env: Env): (r: (World, bool))
    requires id < |w.peers|
    ensures |r.0.peers| == |w.peers| && (Defined(w) ==> Defined(r.0))
  {
    var p := w.peers[id];
    var index := FirstUnused(env.draws, w.indexMap);
    if Elapsed(p.timers.handshakeInitialized, w.now) < REKEY_TIMEOUT then (w, false)
    else if w.info.privateKey.None? || index.None? then (w, false)
    else if !env.noise || p.info.endpoint.None? then (w, false)
    else
      var q := if env.udp then p.Initiate(index.value).MarkInitiated(w.now) else p.Initiate(index.value);
      (SetPeer(w, id, q).(indexMap := Unlink(w.indexMap[index.value := id], p.PushedOut())), env.udp)
  }

  // The answer to an initiation from a known peer.
  function Answer(w: World, id: nat, addr: Endpoint, hello: Hello, env: Env): World
    requires id < |w.peers|
  {
    var p := w.peers[id];
    var index := FirstUnused(env.draws, w.indexMap);
    if index.None? || !p.Newer(hello.tai) || !env.noise then w
    else
      SetPeer(w, id, p.CompleteIncoming(addr, index.value, hello.theirIndex, hello.tai, w.now))
        .(indexMap := Unlink(w.indexMap, p.PushedOut())[index.value := id])
  }

  // `handle_ingress_handshake_init`
  function OnInitiation(w: World, addr: Endpoint, admitted: bool, hello: Option<Hello>, env: Env): World
    requires Defined(w)
  {
    if !admitted || w.info.privateKey.None? || hello.None? || hello.value.pubKey !in w.pubkeyMap then w
    else Answer(w, w.pubkeyMap[hello.value.pubKey], addr, hello.value, env)
  }

  // What handle_ingress_handshake_resp does with a peer whose handshake just completed.
  function AfterHandshake(p: PeerState, env: Env, now: nat): PeerState
    requires p.CanAskNonce() && p.HeadSlot() >= 0
  {
    if !p.ReadyForTransport(now) then p
    else if p.queue != [] then p.Drain(env.udp, env.failing, 0, true, now).0
    else p.SendKeepalive(0 !in env.failing, now)
  }

  // `handle_ingress_handshake_resp`
  function OnResponse(w: World, addr: Endpoint, admitted: bool, index: u32, theirIndex: u32, env: Env): World
    requires Defined(w)
  {
    if !admitted || index !in w.indexMap then w
    else
      var id := w.indexMap[index];
      var p := w.peers[id];
      if p.next.None? then w
      else if !env.noise then SetPeer(w, id, p.DropNext())
      else
        SetPeer(w, id, AfterHandshake(p.AcceptResponse(addr, theirIndex, w.now), env, w.now))
          .(indexMap := Unlink(w.indexMap, IndexOf(p.past)))
  }

  // ----- Transport -----

  // The part of handle_ingress_transport that runs before a handshake is considered.
  function Receive(w: World, addr: Endpoint, index: u32, nonce: u64, len: nat, plain: Option<Bytes>, env: Env)
    : (v: (World, Result<Bytes>))
    requires Defined(w) && index in w.indexMap
    requires plain.Some? ==> |plain.value| <= len
    ensures |v.0.peers| == |w.peers| && Defined(v.0)
  {
    var id := w.indexMap[index];
    var (p, r) := w.peers[id].Incoming(addr, index, nonce, len, plain, w.now);
    if r.Err? then (SetPeer(w, id, p), Err)
    else if !r.value.promoted then (SetPeer(w, id, p), Ok(r.value.raw))
    else
      assert p.HeadSlot() >= 0;
      var (q, sent) := p.DrainAll(env.udp, env.failing, w.now);
      (SetPeer(w, id, q).(indexMap := Unlink(w.indexMap, r.value.dead)), if sent then Ok(r.value.raw) else Err)
  }

  // `validate_source` and the hand-over to the tunnel.
  function Deliver(w: World, id: nat, raw: Bytes): World
    requires Defined(w) && id < |w.peers|
  {
    var owner := RouteFrom(w.routes, raw);
    if raw != [] && owner.Some? && w.peers[owner.value].info.pubKey == w.peers[id].info.pubKey
    then w.(delivered := w.delivered + [Delivery(id, raw)])
    else w
  }

  // The rest of handle_ingress_transport: a handshake if one is due, then the hand-over.
  function Proceed(w: World, id: nat, raw: Bytes, env: Env): World
    requires Defined(w) && id < |w.peers|
  {
    if !w.peers[id].NeedsNewHandshake(false, w.now) then Deliver(w, id, raw)
    else
      var (v, started) := SendHandshakeInit(w, id, env);
      if started then Deliver(v, id, raw) else v
  }

  // `handle_ingress_transport`
  function OnTransport(w: World, addr: Endpoint, index: u32, nonce: u64, len: nat, plain: Option<Bytes>, env: Env): World
    requires Defined(w)
    requires plain.Some? ==> |plain.value| <= len
  {
    if index !in w.indexMap then w
    else
      var id := w.indexMap[index];
      var (w1, r) := Receive(w, addr, index, nonce, len, plain, env);
      if r.Err? then w1 else Proceed(w1, id, r.value, env)
  }

  // Queueing a packet and draining the queue if the session is ready.
  function QueueAndDrain(p: PeerState, packet: Bytes, env: Env, now: nat): (PeerState, bool)
    requires p.CanAskNonce() && p.HeadSlot() >= 0
  {
    var q := p.QueueEgress(packet);
    if q.ReadyForTransport(now) then q.Drain(env.udp, env.failing, 0, true, now) else (q, true)
  }

  // A packet for a known peer.
  function SendTo(w: World, id: nat, packet: Bytes, env: Env): World
    requires id < |w.peers| && w.peers[id].CanAskNonce() && w.peers[id].HeadSlot() >= 0
  {
    var (q, sent) := QueueAndDrain(w.peers[id], packet, env, w.now);
    var w1 := SetPeer(w, id, q);
    if sent && w.peers[id].NeedsNewHandshake(true, w.now) then SendHandshakeInit(w1, id, env).0 else w1
  }

  // `handle_egress_packet`
  function OnEgress(w: World, packet: Bytes, env: Env): World
    requires Defined(w)
  {
    var owner := RouteTo(w.routes, packet);
    if packet == [] || |packet| > MAX_CONTENT_SIZE || owner.None? then w
    else SendTo(w, owner.value, packet, env)
  }

  // ----- Timers -----

  function OnRekey(w: World, id: nat, index: u32, env: Env): World
    requires id < |w.peers|
  {
    var p := w.peers[id];
    match p.Find(index)
    case Some(Next) =>
      if Elapsed(p.timers.handshakeInitialized, w.now) < REKEY_TIMEOUT then w
      else if p.timers.handshakeAttempts >= MAX_HANDSHAKE_ATTEMPTS then w
      else SendHandshakeInit(SetPeer(w, id, p.CountRetry()), id, env).0
    case Some(Current) =>
      var sinceReceived := Elapsed(p.timers.authenticatedReceived, w.now);
      if Elapsed(p.timers.dataSent, w.now) > sinceReceived then w
      else if sinceReceived <= STALE_SESSION_TIMEOUT then w
      else SendHandshakeInit(w, id, env).0
    case _ => w
  }

  function OnPassiveKeepalive(w: World, id: nat, env: Env): World
    requires id < |w.peers|
  {
    var p := w.peers[id];
    var sinceReceived := Elapsed(p.timers.dataReceived, w.now);
    if p.current.None? || p.info.keepalive.Some? || p.timers.keepaliveSent then w
    else if Elapsed(p.timers.dataSent, w.now) < sinceReceived || sinceReceived < KEEPALIVE_TIMEOUT then w
    else SetPeer(w, id, p.MarkKeepalive().SendKeepalive(0 !in env.failing, w.now))
  }

  function PersistentInterval(info: PeerInfo): Option<nat> {
    if info.keepalive.Some? && info.keepalive.value > 0 then Some(info.keepalive.value as nat * SECOND) else None
  }

  function OnPersistentKeepalive(w: World, id: nat, env: Env): World
    requires id < |w.peers|
  {
    var p := w.peers[id];
    var interval := PersistentInterval(p.info);
    if interval.None? || Elapsed(p.timers.authenticatedTraversed, w.now) < interval.value then w
    else SetPeer(w, id, p.SendKeepalive(0 !in env.failing, w.now))
  }

  function OnWipe(w: World, id: nat): World
    requires id < |w.peers|
  {
    if Elapsed(w.peers[id].timers.handshakeCompleted, w.now) < WIPE_AFTER_TIME then w
    else SetPeer(w, id, w.peers[id].Wipe()).(indexMap := w.indexMap - w.peers[id].Indices())
  }

  // `handle_timer`, once the weak reference to the peer is upgraded.
  function OnUpgraded(w: World, id: nat, message: TimerMessage, env: Env): World
    requires id < |w.peers|
  {
    match message
    case Rekey(index) => OnRekey(w, id, index, env)
    case PassiveKeepalive => OnPassiveKeepalive(w, id, env)
    case PersistentKeepalive => OnPersistentKeepalive(w, id, env)
    case Wipe => OnWipe(w, id)
  }

  ghost function OnTimer(w: World, id: nat, message: TimerMessage, env: Env): World {
    if Held(w, id) then OnUpgraded(w, id, message, env) else w
  }

  // `NewPersistentKeepalive` on the configuration channel, which holds the peer alive.
  function OnKeepaliveConfigured(w: World, id: nat, env: Env): World {
    if id >= |w.peers| || PersistentInterval(w.peers[id].info).None? then w
    else SetPeer(w, id, w.peers[id].SendKeepalive(0 !in env.failing, w.now))
  }

  // ----- Configuration -----

  // `clear_peer_refs`, after the peer left `pubkeyMap`.
  function ClearPeerRefs(w: World, id: nat): World
    requires id < |w.peers|
  {
    w.(indexMap := w.indexMap - w.peers[id].Indices(),
       routes := Remove(w.routes, w.peers[id].info.allowedIps))
  }

  function ForgetPeer(w: World, k: Key): World
    requires k in w.pubkeyMap && w.pubkeyMap[k] < |w.peers|
  {
    ClearPeerRefs(w.(pubkeyMap := w.pubkeyMap - {k}), w.pubkeyMap[k])
  }

  // The settings a peer has after an update.
  function MergeInfo(old': PeerInfo, info: PeerInfo, replaceAllowedIps: bool): PeerInfo {
    info.(allowedIps := if replaceAllowedIps then info.allowedIps else info.allowedIps + old'.allowedIps,
          endpoint := info.endpoint.Or(old'.endpoint),
          keepalive := info.keepalive.Or(old'.keepalive),
          psk := info.psk.Or(old'.psk))
  }

  function ChangePeer(w: World, info: PeerInfo, replaceAllowedIps: bool): World
    requires info.pubKey in w.pubkeyMap && w.pubkeyMap[info.pubKey] < |w.peers|
  {
    var id := w.pubkeyMap[info.pubKey];
    var was := w.peers[id].info;
    var merged := MergeInfo(was, info, replaceAllowedIps);
    var kept := if replaceAllowedIps then Remove(w.routes, was.allowedIps) else w.routes;
    SetPeer(w, id, w.peers[id].Reconfigure(merged)).(routes := Add(kept, merged.allowedIps, id))
  }

  function AddPeer(w: World, info: PeerInfo): World {
    var id: nat := |w.peers|;
    w.(peers := w.peers + [NewPeer(info)],
       pubkeyMap := w.pubkeyMap[info.pubKey := id],
       routes := Add(w.routes, info.allowedIps, id))
  }

  function KeepaliveNotice(was: PeerInfo, info: PeerInfo, id: nat): Option<Notice> {
    if info.keepalive.Some? && was.keepalive != info.keepalive then Some(NewPersistentKeepalive(id)) else None
  }

  function OnUpdatePeer(w: World, info: PeerInfo, replaceAllowedIps: bool): (World, Result<Option<Notice>>)
    requires Defined(w)
  {
    if info.pubKey in w.pubkeyMap then
      var id := w.pubkeyMap[info.pubKey];
      (ChangePeer(w, info, replaceAllowedIps), Ok(KeepaliveNotice(w.peers[id].info, info, id)))
    else if w.info.pubKey == Some(info.pubKey) then (w, Ok(None))
    else if |w.pubkeyMap| >= MAX_PEERS_PER_DEVICE then (w, Err)
    else (AddPeer(w, info), Ok(Some(NewPeerAdded(|w.peers|))))
  }

  // `handle_update`
  function HandleUpdate(w: World, e: UpdateEvent, derived: Key): (World, Result<Option<Notice>>)
    requires Defined(w)
  {
    match e
    case SetPrivateKey(key) =>
      if key == Zeros(32) then
        (w.(info := w.info.(privateKey := None, pubKey := None)), Ok(Some(ClearPrivateKey)))
      else
        var w1 := w.(info := w.info.(privateKey := Some(key), pubKey := Some(derived)));
        (if derived in w.pubkeyMap then ForgetPeer(w1, derived) else w1, Ok(Some(NewPrivateKey)))
    case SetListenPort(port) =>
      (w.(info := w.info.(listenPort := Some(port))), Ok(Some(NewListenPort(port))))
    case SetFwmark(mark) =>
      (w.(info := w.info.(fwmark := Some(mark))), Ok(Some(NewFwmark(mark))))
    case UpdatePeer(info, replaceAllowedIps) =>
      OnUpdatePeer(w, info, replaceAllowedIps)
    case RemovePeer(k) =>
      if k in w.pubkeyMap then (ForgetPeer(w, k), Ok(None)) else (w, Err)
    case RemoveAllPeers =>
      (w.(pubkeyMap := map[], indexMap := map[], routes := map[]), Ok(None))
  }

  // ----- One step of the system -----

  // Time moves only by clock ticks, so every handler runs at one instant.
  ghost predicate Enabled(w: World, i: Input) {
    && (i.ClockTick? ==> w.now <= i.now)
    && (i.TransportMessage? && i.plain.Some? ==> |i.plain.value| <= i.len)
  }

  ghost function Handle(w: World, env: Env, i: Input): World
    requires Defined(w) && Enabled(w, i)
  {
    match i
    case Initiation(addr, admitted, hello) => OnInitiation(w, addr, admitted, hello, env)
    case Response(addr, admitted, index, theirIndex) => OnResponse(w, addr, admitted, index, theirIndex, env)
    case TransportMessage(addr, index, nonce, len, plain) => OnTransport(w, addr, index, nonce, len, plain, env)
    case Egress(packet) => OnEgress(w, packet, env)
    case Timer(id, message) => OnTimer(w, id, message, env)
    case KeepaliveConfigured(id) => OnKeepaliveConfigured(w, id, env)
    case Configure(update, derived) => HandleUpdate(w, update, derived).0
    case ClockTick(now) => w.(now := now)
  }
}
