// The promises of the system, over whole runs.
module Theorems {
  import opened Types
  import opened Consts
  import opened Timestamps
  import opened IpPackets
  import opened PeerModel
  import opened PeerInvariants
  import opened Router
  import opened World
  import opened WorldInvariants
  import opened StepInvariants
  import opened RunTheory
  import opened Runs

  ghost predicate Run(ws: seq<World>, es: seq<Event>) {
    IsRun(EMPTY_WORLD, Steps, ws, es)
  }

  lemma RunExtends(ws: seq<World>, es: seq<Event>, e: Event, v: World)
    requires Run(ws, es) && Steps(ws[|es|], e, v)
    ensures Run(ws + [v], es + [e])
  {
    var ws', es' := ws + [v], es + [e];
    forall k | 0 <= k < |es'| ensures Steps(ws'[k], es'[k], ws'[k + 1]) {
      if k < |es| {
        assert es'[k] == es[k] && ws'[k] == ws[k] && ws'[k + 1] == ws[k + 1];
      }
    }
  }

  // What is known of one peer in two states of a run.
  lemma PeerInRun(ws: seq<World>, es: seq<Event>, i: nat, j: nat, id: nat)
    requires Run(ws, es) && i <= j < |ws| && id < |ws[i].peers|
    ensures id < |ws[j].peers|
    ensures PeerInv(ws[i].peers[id], ws[i].now) && PeerInv(ws[j].peers[id], ws[j].now)
    ensures Evolves(ws[i].peers[id], ws[j].peers[id])
  {
    RunBase(ws, es, i);
    RunBase(ws, es, j);
    RunEvolves(ws, es, i, j);
  }

  // ----- Receiving -----

  lemma RefusesReceived(p: PeerState, t: SessionType, nonce: u64, now: nat)
    requires PeerInv(p, now) && p.Get(t).Some? && Receipt(p.Get(t).value.sid, nonce) in p.hist.received
    ensures !p.Admits(t, nonce, now)
  {
    var s := p.Get(t).value;
    assert SessionOk(s, p.hist, now);
    assert nonce in s.replay.accepted;
  }

  // A nonce that passed the replay check of a session is never accepted by that session
  // again, wherever the session has moved to in the meantime: the message is refused and
  // nothing changes.
  lemma AtMostOnce(ws: seq<World>, es: seq<Event>, i: nat, j: nat, id: nat, sid: nat, nonce: u64,
                   addr: Endpoint, index: u32, len: nat, plain: Option<Bytes>)
    requires Run(ws, es) && i <= j < |ws| && id < |ws[i].peers|
    requires Receipt(sid, nonce) in ws[i].peers[id].hist.received
    requires plain.Some? ==> |plain.value| <= len
    ensures id < |ws[j].peers|
    ensures var p := ws[j].peers[id];
            p.Find(index).Some? && p.Get(p.Find(index).value).value.sid == sid ==>
              p.Incoming(addr, index, nonce, len, plain, ws[j].now) == (p, Err)
  {
    PeerInRun(ws, es, i, j, id);
    var p := ws[j].peers[id];
    var was := ws[i].peers[id].hist.received;
    assert was <= p.hist.received;
    var a :| 0 <= a < |was| && was[a] == Receipt(sid, nonce);
    assert p.hist.received[a] == Receipt(sid, nonce);
    if p.Find(index).Some? && p.Get(p.Find(index).value).value.sid == sid {
      RefusesReceived(p, p.Find(index).value, nonce, ws[j].now);
    }
  }

  // ----- Sending -----

  // In every state of every run, the nonces of all messages sent are below the limit, and
  // those that one session wrote are strictly increasing, so no nonce is ever used twice with
  // one key.
  lemma NoncesIncrease(ws: seq<World>, es: seq<Event>, i: nat, id: nat)
    requires Run(ws, es) && i < |ws| && id < |ws[i].peers|
    ensures var s := ws[i].peers[id].hist.sent;
            && (forall a :: 0 <= a < |s| ==> s[a].message.nonce < REJECT_AFTER_MESSAGES)
            && (forall a, b :: 0 <= a < b < |s| && s[a].sid == s[b].sid ==> s[a].message.nonce < s[b].message.nonce)
  {
    PeerInRun(ws, es, i, i, id);
    var s := ws[i].peers[id].hist.sent;
    forall a | 0 <= a < |s| ensures s[a].message.nonce < REJECT_AFTER_MESSAGES {
      assert s[a] in s;
    }
  }

  // In every state of every run the queue is bounded, and the messages sent that are not
  // keepalives are a subsequence of the packets queued: each with its own contents, in the order
  // they were queued, and at most once.
  lemma EgressInOrder(ws: seq<World>, es: seq<Event>, i: nat, id: nat)
    requires Run(ws, es) && i < |ws| && id < |ws[i].peers|
    ensures |ws[i].peers[id].queue| <= MAX_QUEUED_PACKETS
    ensures var s, q := ws[i].peers[id].hist.sent, ws[i].peers[id].hist.queued;
            && (forall a :: 0 <= a < |s| ==> s[a].message.plain == Pad(s[a].packet) && (s[a].slot.Some? <==> s[a].packet != []))
            && (forall a :: 0 <= a < |s| && s[a].slot.Some? ==> s[a].slot.value < |q| && s[a].packet == q[s[a].slot.value])
            && (forall a, b :: 0 <= a < b < |s| && s[a].slot.Some? && s[b].slot.Some? ==>
                  s[a].slot.value < s[b].slot.value)
  {
    PeerInRun(ws, es, i, i, id);
    var p := ws[i].peers[id];
    var s := p.hist.sent;
    forall a | 0 <= a < |s|
      ensures s[a].message.plain == Pad(s[a].packet) && (s[a].slot.Some? <==> s[a].packet != [])
      ensures s[a].slot.Some? ==> s[a].slot.value < |p.hist.queued| && s[a].packet == p.hist.queued[s[a].slot.value]
    {
      assert s[a] in s;
    }
  }

  // ----- Handshakes -----

  // Two initiations sent to one peer, by whatever handler, are REKEY_TIMEOUT apart.
  lemma InitiationsApart(ws: seq<World>, es: seq<Event>, i: nat, id: nat, a: nat, b: nat)
    requires Run(ws, es) && i < |ws| && id < |ws[i].peers|
    requires a < b < |ws[i].peers[id].hist.initiations|
    ensures ws[i].peers[id].hist.initiations[a] + REKEY_TIMEOUT <= ws[i].peers[id].hist.initiations[b]
  {
    PeerInRun(ws, es, i, i, id);
  }

  // In any stretch of any run, the rekey timer retries at most MAX_HANDSHAKE_ATTEMPTS times,
  // less the attempts already made, and as many times again for each packet queued in it.
  lemma RetriesBounded(ws: seq<World>, es: seq<Event>, i: nat, j: nat, id: nat)
    requires Run(ws, es) && i <= j < |ws| && id < |ws[i].peers|
    ensures id < |ws[j].peers| && MAX_HANDSHAKE_ATTEMPTS == 17
    ensures var p, q := ws[i].peers[id], ws[j].peers[id];
            && p.hist.queued <= q.hist.queued
            && q.hist.retries - p.hist.retries <=
                 MAX_HANDSHAKE_ATTEMPTS - p.timers.handshakeAttempts
                 + MAX_HANDSHAKE_ATTEMPTS * (|q.hist.queued| - |p.hist.queued|)
  {
    PeerInRun(ws, es, i, j, id);
  }

  // No initiation is accepted twice by a peer: one with a timestamp accepted before, or an
  // older one, is ignored.
  lemma NoInitiationTwice(ws: seq<World>, es: seq<Event>, i: nat, j: nat, id: nat, a: nat, tai: Bytes)
    requires Run(ws, es) && i <= j < |ws| && id < |ws[i].peers| && a < |ws[i].peers[id].hist.timestamps|
    requires tai == ws[i].peers[id].hist.timestamps[a] || LexLess(tai, ws[i].peers[id].hist.timestamps[a])
    ensures id < |ws[j].peers| && !ws[j].peers[id].Newer(tai)
  {
    PeerInRun(ws, es, i, j, id);
    var h := ws[j].peers[id].hist.timestamps;
    var t := ws[i].peers[id].hist.timestamps[a];
    assert h[a] == t;
    var last := h[|h| - 1];
    if LexLess(last, tai) {
      if tai != t {
        LexTransitive(last, tai, t);
      }
      if a < |h| - 1 {
        LexTransitive(last, t, last);
      }
      LexIrreflexive(last);
    }
  }

  // ----- Sessions -----

  // The current session can always be asked for its nonce, and a wipe never throws away a
  // current session that could still be used.
  lemma WipeKeepsUsable(ws: seq<World>, es: seq<Event>, i: nat, id: nat)
    requires Run(ws, es) && i < |ws| && id < |ws[i].peers|
    ensures ws[i].peers[id].CanAskNonce()
    ensures ws[i].peers[id].ReadyForTransport(ws[i].now) || ws[i].peers[id].CanSend(ws[i].now) ==>
              OnWipe(ws[i], id) == ws[i]
  {
    PeerInRun(ws, es, i, i, id);
    if Elapsed(ws[i].peers[id].timers.handshakeCompleted, ws[i].now) >= WIPE_AFTER_TIME {
      WipeIsLate(ws[i].peers[id], ws[i].now);
    }
  }

  // Whether a message on the session in slot `t` could still be taken.
  predicate Takes(p: PeerState, t: SessionType, now: nat) {
    p.Get(t).Some? && p.Get(t).value.noise.Transport? && Elapsed(p.Get(t).value.birthday, now) < REJECT_AFTER_TIME
  }

  // A wipe throws away a session that could still take messages exactly when it is due and such
  // a session is in the past or the next slot; it goes by the age of the last completed handshake
  // alone. The current session is never such a one.
  lemma WipeDropsExactly(ws: seq<World>, es: seq<Event>, i: nat, id: nat)
    requires Run(ws, es) && i < |ws| && id < |ws[i].peers|
    ensures var w, p, q := ws[i], ws[i].peers[id], OnWipe(ws[i], id).peers[id];
            var due := Elapsed(p.timers.handshakeCompleted, w.now) >= WIPE_AFTER_TIME;
            && (due ==> !Takes(p, Current, w.now))
            && ((exists t :: Takes(p, t, w.now) && !Takes(q, t, w.now)) <==>
                  due && (Takes(p, Past, w.now) || Takes(p, Next, w.now)))
  {
    PeerInRun(ws, es, i, i, id);
    var w, p, q := ws[i], ws[i].peers[id], OnWipe(ws[i], id).peers[id];
    if Elapsed(p.timers.handshakeCompleted, w.now) >= WIPE_AFTER_TIME {
      assert !Takes(p, Current, w.now);
      assert !Takes(q, Past, w.now) && !Takes(q, Next, w.now);
    }
  }

  // ----- Configuration and routing -----

  lemma ConfigurationConsistent(ws: seq<World>, es: seq<Event>, i: nat)
    requires Run(ws, es) && i < |ws|
    ensures forall k :: k in ws[i].pubkeyMap ==>
              ws[i].pubkeyMap[k] < |ws[i].peers| && ws[i].peers[ws[i].pubkeyMap[k]].info.pubKey == k
    ensures forall r :: r in ws[i].routes ==>
              Live(ws[i], ws[i].routes[r]) && Lists(ws[i].peers[ws[i].routes[r]].info.allowedIps, r)
    ensures ws[i].info.pubKey.Some? ==> ws[i].info.pubKey.value !in ws[i].pubkeyMap
    ensures |ws[i].pubkeyMap| <= MAX_PEERS_PER_DEVICE
  {
    RunBase(ws, es, i);
  }

  lemma InitDeliversNothing(w: World, id: nat, env: Env)
    requires id < |w.peers|
    ensures var v := SendHandshakeInit(w, id, env).0;
            v.delivered == w.delivered && v.routes == w.routes && |v.peers| == |w.peers| && v.pubkeyMap == w.pubkeyMap
    ensures forall j :: 0 <= j < |w.peers| ==> SendHandshakeInit(w, id, env).0.peers[j].info == w.peers[j].info
  {
  }

  lemma OthersDeliverNothing(w: World, e: Event, v: World)
    requires Steps(w, e, v) && !e.input.TransportMessage?
    ensures v.delivered == w.delivered
  {
    match e.input
    case Initiation(addr, admitted, hello) =>
      assert v == OnInitiation(w, addr, admitted, hello, e.env);
    case Response(addr, admitted, index, theirIndex) =>
      assert v == OnResponse(w, addr, admitted, index, theirIndex, e.env);
    case Egress(packet) =>
      assert v == OnEgress(w, packet, e.env);
    case Timer(id, message) =>
      assert v == OnTimer(w, id, message, e.env);
    case Configure(update, derived) =>
      assert v == HandleUpdate(w, update, derived).0;
    case _ =>
  }

  // The step from `w` to `v` hands one packet of the peer over: the longest allowed-IP prefix
  // that begins with the same bits as its source address is listed by a configured peer with the
  // same public key.
  ghost predicate Routed(w: World, id: nat, raw: Bytes, v: World) {
    && id < |v.peers| && v.delivered == w.delivered + [Delivery(id, raw)]
    && var ip := Parse(raw);
    && ip.Some?
    && var route := LongestMatch(v.routes, ip.value.Source());
    && route.Some? && Live(v, v.routes[route.value])
    && var owner := v.peers[v.routes[route.value]].info;
    && owner.pubKey == v.peers[id].info.pubKey && Lists(owner.allowedIps, route.value)
    && exists x :: x in owner.allowedIps && Owns(v.routes, x, ip.value.Source(), v.routes[route.value])
  }

  // A packet handed to the tunnel was decrypted by the peer that the index of its message
  // led to, and its source is routed to that peer.
  ghost predicate ProperlyDelivered(w: World, i: Input, v: World)
    requires i.TransportMessage? && Enabled(w, i)
  {
    && i.index in w.indexMap && w.indexMap[i.index] < |w.peers|
    && var id := w.indexMap[i.index];
    var r := w.peers[id].Incoming(i.addr, i.index, i.nonce, i.len, i.plain, w.now).1;
    r.Ok? && Routed(w, id, r.value.raw, v)
  }

  lemma DeliverRouted(w: World, id: nat, raw: Bytes)
    requires ConfigOk(w) && Defined(w) && id < |w.peers| && Deliver(w, id, raw).delivered != w.delivered
    ensures Routed(w, id, raw, Deliver(w, id, raw))
  {
    var route := LongestMatch(w.routes, Parse(raw).value.Source());
    assert Live(w, w.routes[route.value]);
    LongestIsOwned(w.routes, w.peers[w.routes[route.value]].info.allowedIps, Parse(raw).value.Source());
  }

  // What the receiving half returned for a packet of `id` is handed over only along a route
  // to that peer.
  lemma ProceedRouted(w: World, id: nat, raw: Bytes, env: Env)
    requires Base(w) && Defined(w) && id < |w.peers| && Proceed(w, id, raw, env).delivered != w.delivered
    ensures Routed(w, id, raw, Proceed(w, id, raw, env))
  {
    if w.peers[id].NeedsNewHandshake(false, w.now) {
      InitDeliversNothing(w, id, env);
      SendHandshakeInitBase(w, id, env);
      DeliverRouted(SendHandshakeInit(w, id, env).0, id, raw);
    } else {
      DeliverRouted(w, id, raw);
    }
  }

  lemma ReceiveDeliversNothing(w: World, i: Input, env: Env)
    requires Defined(w) && i.TransportMessage? && Enabled(w, i) && i.index in w.indexMap
    ensures var (v, r) := Receive(w, i.addr, i.index, i.nonce, i.len, i.plain, env);
            && v.delivered == w.delivered && |v.peers| == |w.peers|
            && (r.Ok? ==>
                  var q := w.peers[w.indexMap[i.index]].Incoming(i.addr, i.index, i.nonce, i.len, i.plain, w.now).1;
                  q.Ok? && q.value.raw == r.value)
  {
  }

  lemma TransportDelivers(w: World, i: Input, env: Env, v: World)
    requires Base(w) && Defined(w) && i.TransportMessage? && Enabled(w, i)
    requires v == OnTransport(w, i.addr, i.index, i.nonce, i.len, i.plain, env) && v.delivered != w.delivered
    ensures ProperlyDelivered(w, i, v)
  {
    var id := w.indexMap[i.index];
    var (w1, r) := Receive(w, i.addr, i.index, i.nonce, i.len, i.plain, env);
    ReceiveDeliversNothing(w, i, env);
    ReceiveBase(w, i.addr, i.index, i.nonce, i.len, i.plain, env);
    ProceedRouted(w1, id, r.value, env);
  }

  // Cryptokey routing, at every step of every run.
  lemma DeliveriesAreRouted(ws: seq<World>, es: seq<Event>, i: nat)
    requires Run(ws, es) && i < |es| && ws[i + 1].delivered != ws[i].delivered
    ensures es[i].input.TransportMessage? && Enabled(ws[i], es[i].input)
    ensures ProperlyDelivered(ws[i], es[i].input, ws[i + 1])
  {
    var w, e, v := ws[i], es[i], ws[i + 1];
    assert Steps(w, e, v);
    RunBase(ws, es, i);
    if !e.input.TransportMessage? {
      OthersDeliverNothing(w, e, v);
    } else {
      TransportDelivers(w, e.input, e.env, v);
    }
  }

  lemma TransportKeepsLive(w: World, i: Input, env: Env, id: nat)
    requires Base(w) && Defined(w) && i.TransportMessage? && Enabled(w, i) && Live(w, id)
    ensures Live(OnTransport(w, i.addr, i.index, i.nonce, i.len, i.plain, env), id)
  {
    OnTransportBase(w, i.addr, i.index, i.nonce, i.len, i.plain, env);
    TransportKeepsKeys(w, i, env);
  }

  lemma TransportKeepsKeys(w: World, i: Input, env: Env)
    requires Defined(w) && i.TransportMessage? && Enabled(w, i)
    ensures OnTransport(w, i.addr, i.index, i.nonce, i.len, i.plain, env).pubkeyMap == w.pubkeyMap
  {
    if i.index in w.indexMap {
      var (v, r) := Receive(w, i.addr, i.index, i.nonce, i.len, i.plain, env);
      ReceiveKeepsKeys(w, i, env);
      if r.Ok? {
        ProceedKeepsKeys(v, w.indexMap[i.index], r.value, env);
      }
    }
  }

  lemma ReceiveKeepsKeys(w: World, i: Input, env: Env)
    requires Defined(w) && i.TransportMessage? && Enabled(w, i) && i.index in w.indexMap
    ensures Receive(w, i.addr, i.index, i.nonce, i.len, i.plain, env).0.pubkeyMap == w.pubkeyMap
  {
  }

  lemma ProceedKeepsKeys(w: World, id: nat, raw: Bytes, env: Env)
    requires Defined(w) && id < |w.peers|
    ensures Proceed(w, id, raw, env).pubkeyMap == w.pubkeyMap
  {
    var v := SendHandshakeInit(w, id, env).0;
    InitDeliversNothing(w, id, env);
    DeliverAlike(w, id, raw);
    DeliverAlike(v, id, raw);
  }

  // Unless a removal left a stale index, the owner of the route is the very peer object that
  // decrypted the packet.
  lemma DeliveredByOwner(ws: seq<World>, es: seq<Event>, i: nat)
    requires IsRun(EMPTY_WORLD, StepsWithoutStale, ws, es) && i < |es| && ws[i + 1].delivered != ws[i].delivered
    ensures es[i].input.TransportMessage? && es[i].input.index in ws[i].indexMap && ws[i + 1].delivered != []
    ensures var id, raw := ws[i].indexMap[es[i].input.index], ws[i + 1].delivered[|ws[i + 1].delivered| - 1].packet;
            && Parse(raw).Some?
            && var route := LongestMatch(ws[i + 1].routes, Parse(raw).value.Source());
            route.Some? && ws[i + 1].routes[route.value] == id
  {
    Weaken(EMPTY_WORLD, StepsWithoutStale, Steps, ws, es);
    DeliveriesAreRouted(ws, es, i);
    DecrypterIsLive(ws, es, i);
  }

  lemma DecrypterIsLive(ws: seq<World>, es: seq<Event>, i: nat)
    requires IsRun(EMPTY_WORLD, StepsWithoutStale, ws, es) && i < |es|
    requires es[i].input.TransportMessage? && es[i].input.index in ws[i].indexMap
    ensures Live(ws[i + 1], ws[i].indexMap[es[i].input.index])
  {
    var e := es[i];
    assert StepsWithoutStale(ws[i], e, ws[i + 1]);
    RunMapping(ws, es, i);
    TransportKeepsLive(ws[i], e.input, e.env, ws[i].indexMap[e.input.index]);
  }

  // ----- Indices never run out -----

  // The indices of the sessions of the peers configured under `ks`.
  ghost function IndicesOf(w: World, ks: set<Key>): set<u32>
    requires Defined(w) && ks <= w.pubkeyMap.Keys
  {
    set k, x | k in ks && x in w.peers[w.pubkeyMap[k]].Indices() :: x
  }

  lemma {:induction false} FewIndices(w: World, ks: set<Key>)
    requires Defined(w) && ks <= w.pubkeyMap.Keys
    ensures |IndicesOf(w, ks)| <= 3 * |ks|
    decreases |ks|
  {
    if ks == {} {
      assert IndicesOf(w, ks) == {};
    } else {
      var k :| k in ks;
      var p := w.peers[w.pubkeyMap[k]];
      FewIndices(w, ks - {k});
      assert IndicesOf(w, ks) == IndicesOf(w, ks - {k}) + p.Indices();
      assert |p.Indices()| <= |IndexSet(p.past)| + |IndexSet(p.current)| + |IndexSet(p.next)| <= 3;
    }
  }

  lemma {:induction false} Pigeonhole(used: set<u32>, n: nat)
    requires n <= 0x1_0000_0000 && forall x: u32 :: x as int < n ==> x in used
    ensures n <= |used|
    decreases n
  {
    if n > 0 {
      var top := (n - 1) as u32;
      Pigeonhole(used - {top}, n - 1);
    }
  }

  // The indices that lead to a peer without a session under them.
  ghost function StaleSet(w: World): set<u32> {
    set i | i in w.indexMap && Stale(w, i)
  }

  // How many of the first `j` steps dropped a next session.
  ghost function Drops(ws: seq<World>, es: seq<Event>, j: nat): nat
    requires j <= |es| < |ws|
  {
    if j == 0 then 0
    else Drops(ws, es, j - 1) + if DropsNext(ws[j - 1], es[j - 1].env, es[j - 1].input) then 1 else 0
  }

  lemma StepStale(w: World, e: Event, v: World)
    requires Base(w) && Steps(w, e, v) && IndexOk(w)
    ensures |StaleSet(v)| <= |StaleSet(w)| + if DropsNext(w, e.env, e.input) then 1 else 0
  {
    StepLink(w, e, v);
    if DropsNext(w, e.env, e.input) {
      OneMoreStale(w, v, w.peers[w.indexMap[e.input.index]].next.value.ourIndex);
    } else {
      NoMoreStale(w, v);
    }
  }

  lemma OneMoreStale(w: World, v: World, x: u32)
    requires NoNewStaleBut(w, v, x)
    ensures |StaleSet(v)| <= |StaleSet(w)| + 1
  {
    SubsetSize(StaleSet(v), StaleSet(w) + {x});
  }

  lemma NoMoreStale(w: World, v: World)
    requires NoNewStale(w, v)
    ensures |StaleSet(v)| <= |StaleSet(w)|
  {
    SubsetSize(StaleSet(v), StaleSet(w));
  }

  // Step `k` makes no index stale but by a drop.
  ghost predicate StaleByDrop(ws: seq<World>, es: seq<Event>, k: nat) {
    && k < |es| < |ws|
    && |StaleSet(ws[k + 1])| <= |StaleSet(ws[k])| + if DropsNext(ws[k], es[k].env, es[k].input) then 1 else 0
  }

  lemma {:induction false} DropsAddUp(ws: seq<World>, es: seq<Event>, j: nat)
    requires j < |ws| == |es| + 1 && StaleSet(ws[0]) == {} && forall k: nat :: k < j ==> StaleByDrop(ws, es, k)
    ensures |StaleSet(ws[j])| <= Drops(ws, es, j)
    decreases j
  {
    if j > 0 {
      DropsAddUp(ws, es, j - 1);
      assert StaleByDrop(ws, es, j - 1);
    }
  }

  lemma StaleBounded(ws: seq<World>, es: seq<Event>, j: nat)
    requires IsRun(EMPTY_WORLD, StepsWithoutStale, ws, es) && j < |ws|
    ensures |StaleSet(ws[j])| <= Drops(ws, es, j)
  {
    NoneStaleAtFirst();
    forall k: nat | k < j ensures StaleByDrop(ws, es, k) {
      LastStepStale(ws, es, k);
    }
    DropsAddUp(ws, es, j);
  }

  lemma NoneStaleAtFirst()
    ensures StaleSet(EMPTY_WORLD) == {}
  {
  }

  lemma LastStepStale(ws: seq<World>, es: seq<Event>, j: nat)
    requires IsRun(EMPTY_WORLD, StepsWithoutStale, ws, es) && j < |es|
    ensures |StaleSet(ws[j + 1])| <= |StaleSet(ws[j])| + if DropsNext(ws[j], es[j].env, es[j].input) then 1 else 0
  {
    var e := es[j];
    assert StepsWithoutStale(ws[j], e, ws[j + 1]);
    RunMapping(ws, es, j);
    StepStale(ws[j], e, ws[j + 1]);
  }

  lemma IndexCount(w: World)
    requires Defined(w) && OwnersLive(w)
    ensures |w.indexMap| <= 3 * |w.pubkeyMap| + |StaleSet(w)|
  {
    FewIndices(w, w.pubkeyMap.Keys);
    forall x | x in w.indexMap ensures x in IndicesOf(w, w.pubkeyMap.Keys) + StaleSet(w) {
      var id := w.indexMap[x];
      assert Live(w, id);
      assert w.peers[id].info.pubKey in w.pubkeyMap.Keys;
    }
    SubsetSize(w.indexMap.Keys, IndicesOf(w, w.pubkeyMap.Keys) + StaleSet(w));
  }

  // The index map has at most three entries for each peer and one for each next session
  // dropped so far. So while these are fewer than the indices there are, one is unused, and
  // the search for it can end.
  lemma SomeIndexUnused(ws: seq<World>, es: seq<Event>, j: nat)
    requires IsRun(EMPTY_WORLD, StepsWithoutStale, ws, es) && j < |ws|
    ensures |ws[j].indexMap| <= 3 * |ws[j].pubkeyMap| + Drops(ws, es, j) <= 3 * MAX_PEERS_PER_DEVICE + Drops(ws, es, j)
    ensures 3 * |ws[j].pubkeyMap| + Drops(ws, es, j) < 0x1_0000_0000 ==> exists x: u32 :: x !in ws[j].indexMap
  {
    StaleBounded(ws, es, j);
    RunMapping(ws, es, j);
    BaseIsDefined(ws[j]);
    IndexCount(ws[j]);
    if forall x: u32 :: x in ws[j].indexMap {
      Pigeonhole(ws[j].indexMap.Keys, 0x1_0000_0000);
    }
  }

  lemma {:induction false} SubsetSize<T>(a: set<T>, b: set<T>)
    requires a <= b
    ensures |a| <= |b|
  {
    assert b == a + (b - a);
  }
}
