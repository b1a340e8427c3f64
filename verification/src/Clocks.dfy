// What every timer value of a peer stands for: which step set it, for every step of every run.
module Clocks {
  import opened Types
  import opened Consts
  import opened Timestamps
  import opened IpPackets
  import opened PeerModel
  import opened PeerInvariants
  import opened Router
  import opened World
  import opened WorldInvariants
  import opened Runs
  import opened Theorems
  import opened SessionMap
  import opened Attempts
  import opened Traffic
  import opened Arrivals
  import opened Origins

  // ----- What a step means to a peer -----

  // Whether the peer was heard, with data, and so that a handshake is complete; and what the
  // flag of the passive keepalive and the number of attempts are after the step.
  datatype Signals = Signals(heard: bool, data: bool, completed: bool, keepaliveSent: bool, attempts: nat)

  // The passive keepalive timer sends one keepalive for data that was not answered for ten
  // seconds, unless there is a persistent keepalive.
  ghost predicate Answers(w: World, i: Input, id: nat) {
    && i.Timer? && i.message.PassiveKeepalive? && i.peer == id && Held(w, id)
    && var p := w.peers[id];
    && p.current.Some? && p.info.keepalive.None? && !p.timers.keepaliveSent
    && 10 * SECOND <= Elapsed(p.timers.dataReceived, w.now) <= Elapsed(p.timers.dataSent, w.now)
  }

  // The persistent keepalive timer sends one after an interval without traffic, and a new interval
  // sends one at once.
  ghost predicate Persists(w: World, i: Input, id: nat) {
    && id < |w.peers|
    && var p := w.peers[id];
    && p.info.keepalive.Some? && p.info.keepalive.value > 0
    && ((i.Timer? && i.message.PersistentKeepalive? && i.peer == id && Held(w, id)
         && Elapsed(p.timers.authenticatedTraversed, w.now) >= p.info.keepalive.value as nat * SECOND)
        || (i.KeepaliveConfigured? && i.peer == id))
  }

  ghost function SignalsOf(w: World, e: Event, id: nat): Signals
    requires id < |w.peers| && Enabled(w, e.input)
  {
    var p, i := w.peers[id], e.input;
    Signals(
      AcceptsInitiation(w, e, id) || AcceptsResponse(w, e, id) || Arrives(w, i, id),
      Arrives(w, i, id) && Unpad(i.plain.value, i.len) != Ok([]),
      AcceptsResponse(w, e, id) || (Arrives(w, i, id) && Confirms(w, i, id)),
      if Arrives(w, i, id) then false else Answers(w, i, id) || p.timers.keepaliveSent,
      if i.Egress? && Enters(w, i.packet, id) && HasRoom(p) then 0
      else p.timers.handshakeAttempts + if Retries(w, i, id) then 1 else 0)
  }

  // ----- How the timers move -----

  function Set(b: bool, now: nat, t: Timestamp): Timestamp {
    if b then Some(now) else t
  }

  // Some message sent in between carries a packet.
  ghost predicate DataSent(p: PeerState, q: PeerState) {
    exists k :: |p.hist.sent| <= k < |q.hist.sent| && q.hist.sent[k].packet != []
  }

  predicate AnySent(p: PeerState, q: PeerState) {
    |p.hist.sent| < |q.hist.sent|
  }

  // The timers after a step, but for the time of the last initiation.
  ghost predicate Clocked(p: PeerState, q: PeerState, s: Signals, now: nat) {
    && p.hist.sent <= q.hist.sent
    && q.timers.dataSent == Set(DataSent(p, q), now, p.timers.dataSent)
    && q.timers.dataReceived == Set(s.data, now, p.timers.dataReceived)
    && q.timers.authenticatedReceived == Set(s.heard, now, p.timers.authenticatedReceived)
    && q.timers.authenticatedTraversed == Set(s.heard || AnySent(p, q), now, p.timers.authenticatedTraversed)
    && q.timers.handshakeCompleted == Set(s.completed, now, p.timers.handshakeCompleted)
    && q.timers.keepaliveSent == s.keepaliveSent
    && q.timers.handshakeAttempts == s.attempts
  }

  function Silent(p: PeerState): Signals {
    Signals(false, false, false, p.timers.keepaliveSent, p.timers.handshakeAttempts)
  }

  lemma StillClocked(p: PeerState, now: nat)
    ensures Clocked(p, p, Silent(p), now)
  {
  }

  lemma ClockedTransitive(p: PeerState, q: PeerState, r: PeerState, s: Signals, now: nat)
    requires Clocked(p, q, s, now) && Clocked(q, r, Silent(q), now)
    ensures Clocked(p, r, s, now)
  {
    assert DataSent(p, r) <==> DataSent(p, q) || DataSent(q, r) by {
      if k :| |p.hist.sent| <= k < |r.hist.sent| && r.hist.sent[k].packet != [] {
        assert k < |q.hist.sent| ==> q.hist.sent[k] == r.hist.sent[k];
      }
      if k :| |p.hist.sent| <= k < |q.hist.sent| && q.hist.sent[k].packet != [] {
        assert q.hist.sent[k] == r.hist.sent[k];
      }
    }
  }

  lemma OutgoingClocked(p: PeerState, packet: Bytes, slot: Option<nat>, writes: bool, now: nat)
    ensures Clocked(p, p.Outgoing(packet, slot, writes, now).0, Silent(p), now)
  {
    var q := p.Outgoing(packet, slot, writes, now).0;
    if AnySent(p, q) {
      assert q.hist.sent[|p.hist.sent|].packet == packet;
    }
  }

  lemma {:induction false} DrainClocked(p: PeerState, env: Env, i: nat, stop: bool, now: nat)
    requires p.HeadSlot() >= 0
    ensures Clocked(p, p.Drain(env.udp, env.failing, i, stop, now).0, Silent(p), now)
    decreases |p.queue|
  {
    if p.queue != [] {
      var (q, r) := p.SendHead(i !in env.failing, now);
      OutgoingClocked(p.(queue := p.queue[1..]), p.queue[0], Some(p.HeadSlot()), i !in env.failing, now);
      assert Clocked(p, q, Silent(p), now);
      if (r.Ok? && env.udp) || (r.Err? && !stop) {
        DrainClocked(q, env, i + 1, stop, now);
        ClockedTransitive(p, q, q.Drain(env.udp, env.failing, i + 1, stop, now).0, Silent(p), now);
      }
    } else {
      StillClocked(p, now);
    }
  }

  lemma InitClocked(w: World, id: nat, env: Env)
    requires id < |w.peers|
    ensures Clocked(w.peers[id], SendHandshakeInit(w, id, env).0.peers[id], Silent(w.peers[id]), w.now)
  {
  }

  // ----- Every step -----

  ghost predicate ClockedAt(w: World, e: Event, v: World, id: nat)
    requires Enabled(w, e.input)
  {
    id < |w.peers| && id < |v.peers| && Clocked(w.peers[id], v.peers[id], SignalsOf(w, e, id), w.now)
  }

  lemma InitiationClocked(w: World, e: Event, id: nat)
    requires Defined(w) && PeersOk(w) && e.input.Initiation? && id < |w.peers|
    ensures ClockedAt(w, e, OnInitiation(w, e.input.addr, e.input.admitted, e.input.hello, e.env), id)
  {
    InitiationEffect(w, e, id);
  }

  lemma AfterHandshakeClocked(p: PeerState, env: Env, now: nat)
    requires p.CanAskNonce() && p.HeadSlot() >= 0
    ensures Clocked(p, AfterHandshake(p, env, now), Silent(p), now)
  {
    StillClocked(p, now);
    if p.queue != [] {
      DrainClocked(p, env, 0, true, now);
    } else {
      OutgoingClocked(p, [], None, 0 !in env.failing, now);
    }
  }

  lemma AcceptClocked(p: PeerState, addr: Endpoint, theirIndex: u32, now: nat)
    requires p.next.Some?
    ensures var s := Signals(true, false, true, p.timers.keepaliveSent, p.timers.handshakeAttempts);
            Clocked(p, p.AcceptResponse(addr, theirIndex, now), s, now)
  {
  }

  lemma ResponseClocked(w: World, e: Event, id: nat)
    requires Defined(w) && e.input.Response? && id < |w.peers|
    ensures ClockedAt(w, e, OnResponse(w, e.input.addr, e.input.admitted, e.input.index, e.input.theirIndex, e.env), id)
  {
    var i, p := e.input, w.peers[id];
    if AcceptsResponse(w, e, id) {
      var q := p.AcceptResponse(i.addr, i.theirIndex, w.now);
      AcceptClocked(p, i.addr, i.theirIndex, w.now);
      AfterHandshakeClocked(q, e.env, w.now);
      ClockedTransitive(p, q, AfterHandshake(q, e.env, w.now), SignalsOf(w, e, id), w.now);
    } else {
      StillClocked(p, w.now);
      assert SignalsOf(w, e, id) == Silent(p);
    }
  }

  lemma IncomingClocked(w: World, e: Event, id: nat)
    requires e.input.TransportMessage? && Enabled(w, e.input) && e.input.index in w.indexMap
    requires w.indexMap[e.input.index] == id && id < |w.peers| && PeerInv(w.peers[id], w.now)
    ensures var i := e.input;
            var q := w.peers[id].Incoming(i.addr, i.index, i.nonce, i.len, i.plain, w.now).0;
            Clocked(w.peers[id], q, SignalsOf(w, e, id), w.now)
  {
    IncomingExactly(w, e.input, id);
  }

  lemma ReceiveClocked(w: World, e: Event, id: nat)
    requires Base(w) && Defined(w) && e.input.TransportMessage? && Enabled(w, e.input)
    requires e.input.index in w.indexMap && w.indexMap[e.input.index] == id
    ensures var i := e.input;
            ClockedAt(w, e, Receive(w, i.addr, i.index, i.nonce, i.len, i.plain, e.env).0, id)
  {
    var i := e.input;
    var (q, r) := w.peers[id].Incoming(i.addr, i.index, i.nonce, i.len, i.plain, w.now);
    IncomingClocked(w, e, id);
    if r.Ok? && r.value.promoted {
      DrainClocked(q, e.env, 0, false, w.now);
      ClockedTransitive(w.peers[id], q, q.DrainAll(e.env.udp, e.env.failing, w.now).0, SignalsOf(w, e, id), w.now);
    }
  }

  lemma ProceedClocked(w: World, id: nat, raw: Bytes, env: Env)
    requires Defined(w) && id < |w.peers|
    ensures |Proceed(w, id, raw, env).peers| == |w.peers|
    ensures Clocked(w.peers[id], Proceed(w, id, raw, env).peers[id], Silent(w.peers[id]), w.now)
  {
    StillClocked(w.peers[id], w.now);
    InitClocked(w, id, env);
  }

  lemma ThenClocked(w: World, e: Event, u: World, id: nat, v: World)
    requires Enabled(w, e.input) && ClockedAt(w, e, u, id) && id < |v.peers|
    requires Clocked(u.peers[id], v.peers[id], Silent(u.peers[id]), w.now)
    ensures ClockedAt(w, e, v, id)
  {
    ClockedTransitive(w.peers[id], u.peers[id], v.peers[id], SignalsOf(w, e, id), w.now);
  }

  lemma ReachedClocked(w: World, e: Event, id: nat)
    requires Base(w) && Defined(w) && e.input.TransportMessage? && Enabled(w, e.input)
    requires e.input.index in w.indexMap && w.indexMap[e.input.index] == id
    ensures var i := e.input; ClockedAt(w, e, OnTransport(w, i.addr, i.index, i.nonce, i.len, i.plain, e.env), id)
  {
    var i := e.input;
    var t := Receive(w, i.addr, i.index, i.nonce, i.len, i.plain, e.env);
    ReceiveClocked(w, e, id);
    ReceivedMoves(w, i, e.env, id, t);
    if t.1.Ok? {
      ProceedClocked(t.0, id, t.1.value, e.env);
      ThenClocked(w, e, t.0, id, Proceed(t.0, id, t.1.value, e.env));
    }
  }

  lemma TransportClocked(w: World, e: Event, id: nat)
    requires Base(w) && Defined(w) && e.input.TransportMessage? && Enabled(w, e.input) && id < |w.peers|
    ensures var i := e.input; ClockedAt(w, e, OnTransport(w, i.addr, i.index, i.nonce, i.len, i.plain, e.env), id)
  {
    if e.input.index in w.indexMap && w.indexMap[e.input.index] == id {
      ReachedClocked(w, e, id);
    } else {
      StillClocked(w.peers[id], w.now);
      assert SignalsOf(w, e, id) == Silent(w.peers[id]);
      if e.input.index in w.indexMap {
        ReachedMoves(w, e.input, e.env, w.indexMap[e.input.index]);
      }
    }
  }

  lemma QueueClocked(p: PeerState, packet: Bytes, env: Env, now: nat)
    requires p.CanAskNonce() && p.HeadSlot() >= 0
    ensures var s := Silent(p).(attempts := if HasRoom(p) then 0 else p.timers.handshakeAttempts);
            Clocked(p, QueueAndDrain(p, packet, env, now).0, s, now)
  {
    var q := p.QueueEgress(packet);
    var s := Silent(p).(attempts := if HasRoom(p) then 0 else p.timers.handshakeAttempts);
    assert Clocked(p, q, s, now);
    DrainClocked(q, env, 0, true, now);
    ClockedTransitive(p, q, q.Drain(env.udp, env.failing, 0, true, now).0, s, now);
  }

  lemma SendToClocked(w: World, id: nat, packet: Bytes, env: Env)
    requires id < |w.peers| && w.peers[id].CanAskNonce() && w.peers[id].HeadSlot() >= 0
    ensures var p := w.peers[id];
            var s := Silent(p).(attempts := if HasRoom(p) then 0 else p.timers.handshakeAttempts);
            Clocked(p, SendTo(w, id, packet, env).peers[id], s, w.now)
  {
    var p := w.peers[id];
    var s := Silent(p).(attempts := if HasRoom(p) then 0 else p.timers.handshakeAttempts);
    var w1 := SetPeer(w, id, QueueAndDrain(p, packet, env, w.now).0);
    QueueClocked(p, packet, env, w.now);
    InitClocked(w1, id, env);
    ClockedTransitive(p, w1.peers[id], SendHandshakeInit(w1, id, env).0.peers[id], s, w.now);
  }

  lemma SendToOthers(w: World, owner: nat, packet: Bytes, env: Env, id: nat)
    requires owner < |w.peers| && w.peers[owner].CanAskNonce() && w.peers[owner].HeadSlot() >= 0 && id < |w.peers|
    ensures var v := SendTo(w, owner, packet, env); |v.peers| == |w.peers| && (id != owner ==> v.peers[id] == w.peers[id])
  {
  }

  lemma EgressFor(w: World, packet: Bytes, env: Env, id: nat)
    requires RoutesOk(w) && Defined(w) && id < |w.peers|
    ensures var v := OnEgress(w, packet, env);
            |v.peers| == |w.peers| && v.peers[id] == if Enters(w, packet, id) then SendTo(w, id, packet, env).peers[id] else w.peers[id]
  {
    EntersExactly(w, packet, id);
    var owner := RouteTo(w.routes, packet);
    if packet != [] && |packet| <= MAX_CONTENT_SIZE && owner.Some? {
      assert OnEgress(w, packet, env) == SendTo(w, owner.value, packet, env);
      SendToOthers(w, owner.value, packet, env, id);
    }
  }

  lemma EgressSignals(w: World, e: Event, id: nat)
    requires e.input.Egress? && id < |w.peers|
    ensures var p := w.peers[id];
            SignalsOf(w, e, id) ==
            Silent(p).(attempts := if Enters(w, e.input.packet, id) && HasRoom(p) then 0 else p.timers.handshakeAttempts)
  {
  }

  lemma EgressClocked(w: World, e: Event, id: nat)
    requires RoutesOk(w) && Defined(w) && e.input.Egress? && id < |w.peers|
    ensures ClockedAt(w, e, OnEgress(w, e.input.packet, e.env), id)
  {
    EgressFor(w, e.input.packet, e.env, id);
    EgressSignals(w, e, id);
    if Enters(w, e.input.packet, id) {
      SendToClocked(w, id, e.input.packet, e.env);
    } else {
      StillClocked(w.peers[id], w.now);
    }
  }

  lemma KeepaliveClocked(p: PeerState, marked: bool, writes: bool, now: nat)
    ensures var q := if marked then p.MarkKeepalive() else p;
            Clocked(p, q.SendKeepalive(writes, now), Silent(p).(keepaliveSent := marked || p.timers.keepaliveSent), now)
  {
    var q := if marked then p.MarkKeepalive() else p;
    OutgoingClocked(q, [], None, writes, now);
    ClockedTransitive(p, q, q.SendKeepalive(writes, now), Silent(p).(keepaliveSent := marked || p.timers.keepaliveSent), now);
  }

  lemma RekeyClocked(w: World, id: nat, index: u32, env: Env)
    requires id < |w.peers|
    ensures var p := w.peers[id];
            var n := if RekeyDue(p, index, w.now) && p.Find(index) == Some(Next) then 1 else 0;
            Clocked(p, OnRekey(w, id, index, env).peers[id], Silent(p).(attempts := p.timers.handshakeAttempts + n), w.now)
  {
    var p := w.peers[id];
    var w1 := SetPeer(w, id, p.CountRetry());
    StillClocked(p, w.now);
    InitClocked(w, id, env);
    InitClocked(w1, id, env);
    ClockedTransitive(p, w1.peers[id], SendHandshakeInit(w1, id, env).0.peers[id],
                      Silent(p).(attempts := p.timers.handshakeAttempts + 1), w.now);
  }

  lemma TimerSignals(w: World, e: Event, id: nat)
    requires e.input.Timer? && id < |w.peers|
    ensures var p := w.peers[id];
            SignalsOf(w, e, id) ==
            Silent(p).(keepaliveSent := Answers(w, e.input, id) || p.timers.keepaliveSent,
                       attempts := p.timers.handshakeAttempts + if Retries(w, e.input, id) then 1 else 0)
  {
  }

  lemma UpgradedClocked(w: World, id: nat, message: TimerMessage, env: Env)
    requires Held(w, id)
    ensures var p, i := w.peers[id], Timer(id, message);
            var s := Silent(p).(keepaliveSent := Answers(w, i, id) || p.timers.keepaliveSent,
                                attempts := p.timers.handshakeAttempts + if Retries(w, i, id) then 1 else 0);
            Clocked(p, OnUpgraded(w, id, message, env).peers[id], s, w.now)
  {
    StillClocked(w.peers[id], w.now);
    match message
    case Rekey(index) => RekeyClocked(w, id, index, env);
    case PassiveKeepalive => KeepaliveClocked(w.peers[id], true, 0 !in env.failing, w.now);
    case PersistentKeepalive => KeepaliveClocked(w.peers[id], false, 0 !in env.failing, w.now);
    case Wipe =>
  }

  lemma TimerClocked(w: World, e: Event, id: nat)
    requires e.input.Timer? && id < |w.peers|
    ensures ClockedAt(w, e, OnTimer(w, e.input.peer, e.input.message, e.env), id)
  {
    TimerSignals(w, e, id);
    if Held(w, e.input.peer) {
      if e.input.peer == id {
        UpgradedClocked(w, id, e.input.message, e.env);
      } else {
        OthersStay(w, e.input.peer, e.input.message, e.env, id);
        StillClocked(w.peers[id], w.now);
      }
    } else {
      StillClocked(w.peers[id], w.now);
    }
  }

  lemma ConfiguredClocked(w: World, e: Event, id: nat)
    requires e.input.KeepaliveConfigured? && id < |w.peers|
    ensures ClockedAt(w, e, OnKeepaliveConfigured(w, e.input.peer, e.env), id)
  {
    StillClocked(w.peers[id], w.now);
    KeepaliveClocked(w.peers[id], false, 0 !in e.env.failing, w.now);
  }

  lemma UpdateClocked(w: World, e: Event, id: nat)
    requires Defined(w) && e.input.Configure? && id < |w.peers|
    ensures ClockedAt(w, e, HandleUpdate(w, e.input.update, e.input.derived).0, id)
  {
    UpdateEffect(w, e.input.update, e.input.derived, id);
    assert SignalsOf(w, e, id) == Silent(w.peers[id]);
  }

  lemma StepClocked(w: World, e: Event, v: World, id: nat)
    requires Base(w) && Steps(w, e, v) && id < |w.peers|
    ensures ClockedAt(w, e, v, id)
  {
    match e.input
    case Initiation(_, _, _) => InitiationClocked(w, e, id);
    case Response(_, _, _, _) => ResponseClocked(w, e, id);
    case TransportMessage(_, _, _, _, _) => TransportClocked(w, e, id);
    case Egress(_) => EgressClocked(w, e, id);
    case Timer(_, _) => TimerClocked(w, e, id);
    case KeepaliveConfigured(_) => ConfiguredClocked(w, e, id);
    case Configure(_, _) => UpdateClocked(w, e, id);
    case ClockTick(_) => StillClocked(w.peers[id], w.now);
  }

  // At every step of every run.
  lemma TimersExact(ws: seq<World>, es: seq<Event>, k: nat, id: nat)
    requires Run(ws, es) && k < |es| && id < |ws[k].peers|
    ensures Enabled(ws[k], es[k].input) && ClockedAt(ws[k], es[k], ws[k + 1], id)
  {
    assert Steps(ws[k], es[k], ws[k + 1]);
    RunBase(ws, es, k);
    StepClocked(ws[k], es[k], ws[k + 1], id);
  }
}
