// Which steps of a run send an initiation or retry one, and what follows for them.
module Attempts {
  import opened Types
  import opened Consts
  import opened PeerModel
  import opened Router
  import opened World
  import opened Runs
  import opened Theorems
  import opened SessionMap

  // ----- What one step sends -----

  // The step hands an initiation for peer `id` to the socket.
  ghost predicate Initiates(w: World, env: Env, i: Input, id: nat)
    requires Defined(w) && Enabled(w, i)
  {
    && env.udp && id < |w.peers|
    && match i
       case TransportMessage(addr, index, nonce, len, plain) =>
         && index in w.indexMap && w.indexMap[index] == id
         && var (v, r) := Receive(w, addr, index, nonce, len, plain, env);
         r.Ok? && v.peers[id].NeedsNewHandshake(false, v.now) && Starts(v, id, env)
       case Egress(packet) =>
         && packet != [] && |packet| <= MAX_CONTENT_SIZE && RouteTo(w.routes, packet) == Some(id)
         && var (q, sent) := QueueAndDrain(w.peers[id], packet, env, w.now);
         sent && w.peers[id].NeedsNewHandshake(true, w.now) && Starts(SetPeer(w, id, q), id, env)
       case Timer(peer, Rekey(index)) =>
         peer == id && Held(w, id) && RekeyDue(w.peers[id], index, w.now) && Starts(w, id, env)
       case _ => false
  }

  // The step is the rekey timer trying a pending handshake of peer `id` once more.
  ghost predicate Retries(w: World, i: Input, id: nat) {
    && id < |w.peers| && i.Timer? && i.peer == id && i.message.Rekey? && Held(w, id)
    && w.peers[id].Find(i.message.index) == Some(Next) && RekeyDue(w.peers[id], i.message.index, w.now)
  }

  // The same attempts in both, but for those of peer `id`, which gained these.
  ghost predicate Gains(w: World, v: World, id: nat, initiations: seq<nat>, retries: nat) {
    && |w.peers| <= |v.peers|
    && (forall j :: 0 <= j < |w.peers| ==>
          && v.peers[j].hist.initiations == w.peers[j].hist.initiations + (if j == id then initiations else [])
          && v.peers[j].hist.retries == w.peers[j].hist.retries + (if j == id then retries else 0))
    && (forall j :: |w.peers| <= j < |v.peers| ==> v.peers[j].hist.initiations == [] && v.peers[j].hist.retries == 0)
  }

  lemma GainsNothing(w: World, v: World, id: nat, q: PeerState)
    requires id < |w.peers| && v.peers == w.peers[id := q]
    requires q.hist.initiations == w.peers[id].hist.initiations && q.hist.retries == w.peers[id].hist.retries
    ensures Gains(w, v, id, [], 0)
  {
  }

  lemma GainsTransitive(u: World, v: World, w: World, id: nat, a: seq<nat>, b: seq<nat>, m: nat, n: nat)
    requires Gains(u, v, id, a, m) && Gains(v, w, id, b, n) && |u.peers| == |v.peers| == |w.peers|
    ensures Gains(u, w, id, a + b, m + n)
  {
  }

  ghost function Sends(w: World, id: nat, env: Env): seq<nat>
    requires id < |w.peers|
  {
    if Starts(w, id, env) && env.udp then [w.now] else []
  }

  lemma InitGains(w: World, id: nat, env: Env)
    requires id < |w.peers|
    ensures Gains(w, SendHandshakeInit(w, id, env).0, id, Sends(w, id, env), 0)
  {
  }

  lemma InitiationGains(w: World, addr: Endpoint, admitted: bool, hello: Option<Hello>, env: Env, id: nat)
    requires Defined(w)
    ensures Gains(w, OnInitiation(w, addr, admitted, hello, env), id, [], 0)
  {
    var v := OnInitiation(w, addr, admitted, hello, env);
    if v != w {
      var j := w.pubkeyMap[hello.value.pubKey];
      GainsNothing(w, v, j, v.peers[j]);
    }
  }

  lemma ResponseGains(w: World, addr: Endpoint, admitted: bool, index: u32, theirIndex: u32, env: Env, id: nat)
    requires Defined(w)
    ensures Gains(w, OnResponse(w, addr, admitted, index, theirIndex, env), id, [], 0)
  {
    var v := OnResponse(w, addr, admitted, index, theirIndex, env);
    if v != w {
      var j := w.indexMap[index];
      GainsNothing(w, v, j, v.peers[j]);
    }
  }

  lemma ReceiveGains(w: World, i: Input, env: Env)
    requires Defined(w) && i.TransportMessage? && Enabled(w, i) && i.index in w.indexMap
    ensures Gains(w, Receive(w, i.addr, i.index, i.nonce, i.len, i.plain, env).0, w.indexMap[i.index], [], 0)
  {
    var v, j := Receive(w, i.addr, i.index, i.nonce, i.len, i.plain, env).0, w.indexMap[i.index];
    GainsNothing(w, v, j, v.peers[j]);
  }

  lemma ProceedGains(w: World, id: nat, raw: Bytes, env: Env)
    requires Defined(w) && id < |w.peers|
    ensures Gains(w, Proceed(w, id, raw, env), id,
                  if w.peers[id].NeedsNewHandshake(false, w.now) then Sends(w, id, env) else [], 0)
  {
    InitGains(w, id, env);
  }

  lemma TransportGains(w: World, i: Input, env: Env)
    requires Defined(w) && i.TransportMessage? && Enabled(w, i) && i.index in w.indexMap
    ensures var id := w.indexMap[i.index];
            Gains(w, OnTransport(w, i.addr, i.index, i.nonce, i.len, i.plain, env), id,
                  if Initiates(w, env, i, id) then [w.now] else [], 0)
  {
    var id := w.indexMap[i.index];
    var (v, r) := Receive(w, i.addr, i.index, i.nonce, i.len, i.plain, env);
    ReceiveGains(w, i, env);
    if r.Ok? {
      ProceedGains(v, id, r.value, env);
      GainsTransitive(w, v, Proceed(v, id, r.value, env), id, [],
                      if v.peers[id].NeedsNewHandshake(false, v.now) then Sends(v, id, env) else [], 0, 0);
    }
  }

  lemma EgressGains(w: World, packet: Bytes, env: Env, id: nat)
    requires Defined(w) && packet != [] && |packet| <= MAX_CONTENT_SIZE && RouteTo(w.routes, packet) == Some(id)
    ensures Gains(w, OnEgress(w, packet, env), id, if Initiates(w, env, Egress(packet), id) then [w.now] else [], 0)
  {
    var (q, sent) := QueueAndDrain(w.peers[id], packet, env, w.now);
    var w1 := SetPeer(w, id, q);
    GainsNothing(w, w1, id, q);
    if sent && w.peers[id].NeedsNewHandshake(true, w.now) {
      InitGains(w1, id, env);
      GainsTransitive(w, w1, SendHandshakeInit(w1, id, env).0, id, [], Sends(w1, id, env), 0, 0);
    }
  }

  lemma RekeyGains(w: World, id: nat, index: u32, env: Env)
    requires id < |w.peers|
    ensures Gains(w, OnRekey(w, id, index, env), id,
                  if RekeyDue(w.peers[id], index, w.now) then Sends(w, id, env) else [],
                  if RekeyDue(w.peers[id], index, w.now) && w.peers[id].Find(index) == Some(Next) then 1 else 0)
  {
    var p := w.peers[id];
    if RekeyDue(p, index, w.now) {
      if p.Find(index) == Some(Next) {
        var w1 := SetPeer(w, id, p.CountRetry());
        assert Gains(w, w1, id, [], 1);
        InitGains(w1, id, env);
        GainsTransitive(w, w1, SendHandshakeInit(w1, id, env).0, id, [], Sends(w1, id, env), 1, 0);
      } else {
        InitGains(w, id, env);
      }
    }
  }

  lemma TimerGains(w: World, id: nat, message: TimerMessage, env: Env)
    requires Defined(w) && id < |w.peers|
    ensures Gains(w, OnTimer(w, id, message, env), id,
                  if Initiates(w, env, Timer(id, message), id) then [w.now] else [],
                  if Retries(w, Timer(id, message), id) then 1 else 0)
  {
    if Held(w, id) {
      var v := OnUpgraded(w, id, message, env);
      if message.Rekey? {
        RekeyGains(w, id, message.index, env);
      } else if v != w {
        GainsNothing(w, v, id, v.peers[id]);
      }
    }
  }

  lemma KeepaliveGains(w: World, peer: nat, env: Env, id: nat)
    ensures Gains(w, OnKeepaliveConfigured(w, peer, env), id, [], 0)
  {
    var v := OnKeepaliveConfigured(w, peer, env);
    if v != w {
      GainsNothing(w, v, peer, v.peers[peer]);
    }
  }

  lemma UpdateGains(w: World, e: UpdateEvent, derived: Key, id: nat)
    requires Defined(w)
    ensures Gains(w, HandleUpdate(w, e, derived).0, id, [], 0)
  {
  }

  // What a step adds to the record of a peer.
  ghost predicate Adds(w: World, e: Event, v: World, id: nat)
    requires Defined(w) && Enabled(w, e.input) && id < |v.peers|
  {
    var old' := if id < |w.peers| then w.peers[id].hist else NO_HISTORY;
    && v.peers[id].hist.initiations == old'.initiations + (if Initiates(w, e.env, e.input, id) then [w.now] else [])
    && v.peers[id].hist.retries == old'.retries + (if Retries(w, e.input, id) then 1 else 0)
  }

  lemma MessageAdds(w: World, e: Event, v: World, id: nat)
    requires Steps(w, e, v) && id < |v.peers| && FromPeers(e.input)
    ensures Adds(w, e, v, id)
  {
    match e.input
    case Initiation(addr, admitted, hello) =>
      assert v == OnInitiation(w, addr, admitted, hello, e.env);
      InitiationGains(w, addr, admitted, hello, e.env, id);
    case Response(addr, admitted, index, theirIndex) =>
      assert v == OnResponse(w, addr, admitted, index, theirIndex, e.env);
      ResponseGains(w, addr, admitted, index, theirIndex, e.env, id);
    case TransportMessage(addr, index, nonce, len, plain) =>
      TransportAdds(w, e, v, id);
    case Egress(packet) =>
      EgressAdds(w, e, v, id);
  }

  lemma TransportAdds(w: World, e: Event, v: World, id: nat)
    requires Steps(w, e, v) && id < |v.peers| && e.input.TransportMessage?
    ensures Adds(w, e, v, id)
  {
    var i := e.input;
    assert v == OnTransport(w, i.addr, i.index, i.nonce, i.len, i.plain, e.env);
    if i.index in w.indexMap {
      TransportGains(w, i, e.env);
    }
  }

  lemma EgressAdds(w: World, e: Event, v: World, id: nat)
    requires Steps(w, e, v) && id < |v.peers| && e.input.Egress?
    ensures Adds(w, e, v, id)
  {
    var packet := e.input.packet;
    assert v == OnEgress(w, packet, e.env);
    if packet != [] && |packet| <= MAX_CONTENT_SIZE && RouteTo(w.routes, packet).Some? {
      EgressGains(w, packet, e.env, RouteTo(w.routes, packet).value);
    }
  }

  // Every step adds to the initiations and retries of a peer exactly those that it makes.
  lemma StepAdds(w: World, e: Event, v: World, id: nat)
    requires Steps(w, e, v) && id < |v.peers|
    ensures Adds(w, e, v, id)
  {
    match e.input
    case Timer(peer, message) =>
      assert v == OnTimer(w, peer, message, e.env);
      if peer < |w.peers| {
        TimerGains(w, peer, message, e.env);
      }
    case KeepaliveConfigured(peer) =>
      assert v == OnKeepaliveConfigured(w, peer, e.env);
      KeepaliveGains(w, peer, e.env, id);
    case Configure(update, derived) =>
      assert v == HandleUpdate(w, update, derived).0;
      UpdateGains(w, update, derived, id);
    case ClockTick(now) =>
      assert v == w.(now := now) && Gains(w, v, id, [], 0);
    case _ =>
      MessageAdds(w, e, v, id);
  }

  lemma RunAdds(ws: seq<World>, es: seq<Event>, k: nat, id: nat)
    requires Run(ws, es) && k < |es| && id < |ws[k + 1].peers|
    ensures Defined(ws[k]) && Enabled(ws[k], es[k].input) && Adds(ws[k], es[k], ws[k + 1], id)
  {
    var e := es[k];
    assert Steps(ws[k], e, ws[k + 1]);
    StepAdds(ws[k], e, ws[k + 1], id);
  }

  // ----- Whole runs -----

  // Step `k` of the run hands an initiation for the peer to the socket.
  ghost predicate InitiatesAt(ws: seq<World>, es: seq<Event>, k: nat, id: nat) {
    k < |es| < |ws| && Defined(ws[k]) && Enabled(ws[k], es[k].input) && Initiates(ws[k], es[k].env, es[k].input, id)
  }

  // Any two steps that send an initiation to one peer are REKEY_TIMEOUT apart.
  lemma InitiatingStepsApart(ws: seq<World>, es: seq<Event>, i: nat, j: nat, id: nat)
    requires Run(ws, es) && i < j && InitiatesAt(ws, es, i, id) && InitiatesAt(ws, es, j, id)
    ensures ws[i].now + REKEY_TIMEOUT <= ws[j].now
  {
    InitiationLogged(ws, es, i, id);
    InitiationLogged(ws, es, j, id);
    LoggedApart(ws, es, i, j, id);
  }

  // Step `k` puts its time at the end of the record.
  ghost predicate Logged(ws: seq<World>, k: nat, id: nat) {
    && k + 1 < |ws| && id < |ws[k].peers| && id < |ws[k + 1].peers|
    && ws[k + 1].peers[id].hist.initiations == ws[k].peers[id].hist.initiations + [ws[k].now]
  }

  lemma InitiationLogged(ws: seq<World>, es: seq<Event>, k: nat, id: nat)
    requires Run(ws, es) && InitiatesAt(ws, es, k, id)
    ensures Logged(ws, k, id)
  {
    PeerInRun(ws, es, k, k + 1, id);
    RunAdds(ws, es, k, id);
  }

  lemma LoggedApart(ws: seq<World>, es: seq<Event>, i: nat, j: nat, id: nat)
    requires Run(ws, es) && i < j && Logged(ws, i, id) && Logged(ws, j, id)
    ensures ws[i].now + REKEY_TIMEOUT <= ws[j].now
  {
    var a, b := |ws[i].peers[id].hist.initiations|, |ws[j].peers[id].hist.initiations|;
    InitiationStays(ws, es, i + 1, j, id, a);
    InitiationsApart(ws, es, j + 1, id, a, b);
  }

  lemma InitiationStays(ws: seq<World>, es: seq<Event>, i: nat, j: nat, id: nat, a: nat)
    requires Run(ws, es) && i <= j < |ws| && id < |ws[i].peers| && a < |ws[i].peers[id].hist.initiations|
    ensures id < |ws[j].peers| && a < |ws[j].peers[id].hist.initiations|
    ensures ws[j].peers[id].hist.initiations[a] == ws[i].peers[id].hist.initiations[a]
  {
    PeerInRun(ws, es, i, j, id);
  }

  // How many steps from `i` on and before `j` retry a handshake of the peer.
  ghost function RetryCount(ws: seq<World>, es: seq<Event>, i: nat, j: nat, id: nat): nat
    requires i <= j <= |es| < |ws|
    decreases j
  {
    if j == i then 0
    else RetryCount(ws, es, i, j - 1, id) + if Retries(ws[j - 1], es[j - 1].input, id) then 1 else 0
  }

  // Step `k` counts its retry, if it is one.
  ghost predicate Counts(ws: seq<World>, es: seq<Event>, k: nat, id: nat) {
    && k < |es| < |ws| && id < |ws[k].peers| && id < |ws[k + 1].peers|
    && ws[k + 1].peers[id].hist.retries == ws[k].peers[id].hist.retries + if Retries(ws[k], es[k].input, id) then 1 else 0
  }

  lemma {:induction false} CountsAddUp(ws: seq<World>, es: seq<Event>, i: nat, j: nat, id: nat)
    requires i <= j < |ws| == |es| + 1 && id < |ws[i].peers| && forall k: nat :: i <= k < j ==> Counts(ws, es, k, id)
    ensures id < |ws[j].peers|
    ensures ws[j].peers[id].hist.retries == ws[i].peers[id].hist.retries + RetryCount(ws, es, i, j, id)
    decreases j
  {
    if i < j {
      CountsAddUp(ws, es, i, j - 1, id);
      assert Counts(ws, es, j - 1, id);
    }
  }

  lemma StepCounts(ws: seq<World>, es: seq<Event>, k: nat, id: nat)
    requires Run(ws, es) && k < |es| && id < |ws[k].peers|
    ensures Counts(ws, es, k, id)
  {
    PeerInRun(ws, es, k, k + 1, id);
    RunAdds(ws, es, k, id);
  }

  // The retries that a peer counts are the steps of the run that retry.
  lemma RetriesCounted(ws: seq<World>, es: seq<Event>, i: nat, j: nat, id: nat)
    requires Run(ws, es) && i <= j < |ws| && id < |ws[i].peers|
    ensures id < |ws[j].peers|
    ensures ws[j].peers[id].hist.retries == ws[i].peers[id].hist.retries + RetryCount(ws, es, i, j, id)
  {
    forall k: nat | i <= k < j ensures Counts(ws, es, k, id) {
      PeerInRun(ws, es, i, k, id);
      StepCounts(ws, es, k, id);
    }
    CountsAddUp(ws, es, i, j, id);
  }

  // In any stretch of any run, at most so many steps retry.
  lemma RetryingStepsBounded(ws: seq<World>, es: seq<Event>, i: nat, j: nat, id: nat)
    requires Run(ws, es) && i <= j < |ws| && id < |ws[i].peers|
    ensures id < |ws[j].peers|
    ensures var p, q := ws[i].peers[id], ws[j].peers[id];
            RetryCount(ws, es, i, j, id) <=
              MAX_HANDSHAKE_ATTEMPTS - p.timers.handshakeAttempts
              + MAX_HANDSHAKE_ATTEMPTS * (|q.hist.queued| - |p.hist.queued|)
  {
    RetriesCounted(ws, es, i, j, id);
    RetriesBounded(ws, es, i, j, id);
  }
}
