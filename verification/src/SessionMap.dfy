// When a session of a configured peer can be found under its index: the exact rule, for every
// step and every run.
module SessionMap {
  import opened Types
  import opened Consts
  import opened Timestamps
  import opened PeerModel
  import opened World
  import opened WorldInvariants
  import opened StepInvariants
  import opened RunTheory
  import opened Runs

  // ----- Which step unmaps what -----

  // The index leads to a configured peer that has a session under it.
  predicate InUse(w: World, x: u32) {
    x in w.indexMap && Live(w, w.indexMap[x]) && x in w.peers[w.indexMap[x]].Indices()
  }

  function Only(x: Option<u32>): set<u32> {
    if x.Some? then {x.value} else {}
  }

  // Whether send_handshake_init gets as far as a new session.
  predicate Starts(w: World, id: nat, env: Env)
    requires id < |w.peers|
  {
    && Elapsed(w.peers[id].timers.handshakeInitialized, w.now) >= REKEY_TIMEOUT
    && w.info.privateKey.Some? && FirstUnused(env.draws, w.indexMap).Some?
    && env.noise && w.peers[id].info.endpoint.Some?
  }

  // Whether the rekey timer gets as far as send_handshake_init.
  predicate RekeyDue(p: PeerState, index: u32, now: nat) {
    match p.Find(index)
    case Some(Next) =>
      Elapsed(p.timers.handshakeInitialized, now) >= REKEY_TIMEOUT && p.timers.handshakeAttempts < MAX_HANDSHAKE_ATTEMPTS
    case Some(Current) =>
      var sinceReceived := Elapsed(p.timers.authenticatedReceived, now);
      Elapsed(p.timers.dataSent, now) <= sinceReceived && sinceReceived > STALE_SESSION_TIMEOUT
    case _ => false
  }

  // The peer object that a message or a timer is for.
  ghost function Actor(w: World, i: Input): Option<nat> {
    match i
    case Response(_, _, index, _) => if index in w.indexMap then Some(w.indexMap[index]) else None
    case TransportMessage(_, index, _, _, _) => if index in w.indexMap then Some(w.indexMap[index]) else None
    case Timer(id, _) => if Held(w, id) then Some(id) else None
    case _ => None
  }

  ghost function ResponseUnlinks(w: World, id: nat, admitted: bool, env: Env): set<u32>
    requires id < |w.peers|
  {
    if admitted && env.noise && w.peers[id].next.Some? then IndexSet(w.peers[id].past) else {}
  }

  ghost function TransportUnlinks(w: World, id: nat, i: Input, env: Env): set<u32>
    requires Defined(w) && id < |w.peers| && i.TransportMessage? && Enabled(w, i)
  {
    var p := w.peers[id];
    var (q, r) := p.Incoming(i.addr, i.index, i.nonce, i.len, i.plain, w.now);
    if r.Err? then {}
    else if r.value.promoted then IndexSet(p.past)
    else if q.NeedsNewHandshake(false, w.now) && Starts(SetPeer(w, id, q), id, env) then Only(p.PushedOut())
    else {}
  }

  ghost function TimerUnlinks(w: World, id: nat, message: TimerMessage, env: Env): set<u32>
    requires id < |w.peers|
  {
    var p := w.peers[id];
    match message
    case Rekey(index) => if RekeyDue(p, index, w.now) && Starts(w, id, env) then Only(p.PushedOut()) else {}
    case Wipe => if Elapsed(p.timers.handshakeCompleted, w.now) >= WIPE_AFTER_TIME then p.Indices() else {}
    case _ => {}
  }

  // The indices that the step takes out of the index map on behalf of that object.
  ghost function Unlinks(w: World, env: Env, i: Input): set<u32>
    requires Defined(w) && Enabled(w, i) && Actor(w, i).Some?
  {
    var id := Actor(w, i).value;
    match i
    case Response(_, admitted, _, _) => ResponseUnlinks(w, id, admitted, env)
    case TransportMessage(_, _, _, _, _) => TransportUnlinks(w, id, i, env)
    case Timer(_, message) => TimerUnlinks(w, id, message, env)
  }

  // The step is for a peer object that is no longer configured, and takes an index out that
  // some configured peer uses.
  ghost predicate Unmaps(w: World, env: Env, i: Input)
    requires Defined(w) && Enabled(w, i)
  {
    && Actor(w, i).Some? && !Live(w, Actor(w, i).value)
    && exists x :: x in Unlinks(w, env, i) && InUse(w, x)
  }

  // An object without sessions takes out nothing.
  lemma UnlinksOwnIndices(w: World, env: Env, i: Input)
    requires Defined(w) && Enabled(w, i) && Actor(w, i).Some?
    ensures Unlinks(w, env, i) <= w.peers[Actor(w, i).value].Indices()
  {
  }

  // ----- Steps for objects that are not configured -----

  // Only the object `id` and its entries change, and of the old entries those under `out` go.
  ghost predicate Cuts(w: World, v: World, id: nat, out: set<u32>) {
    && |v.peers| == |w.peers| && id < |w.peers| && v.pubkeyMap == w.pubkeyMap
    && v.peers[id].info.pubKey == w.peers[id].info.pubKey
    && (forall j :: 0 <= j < |w.peers| && j != id ==> v.peers[j] == w.peers[j])
    && (forall i :: i in w.indexMap && i !in out ==> i in v.indexMap && v.indexMap[i] == w.indexMap[i])
    && (forall i :: i in v.indexMap ==>
          v.indexMap[i] == id || (i in w.indexMap && i !in out && v.indexMap[i] == w.indexMap[i]))
  }

  lemma CutsTransitive(u: World, v: World, w: World, id: nat, a: set<u32>, b: set<u32>)
    requires Cuts(u, v, id, a) && Cuts(v, w, id, b)
    ensures Cuts(u, w, id, a + b)
  {
  }

  lemma CutsLive(w: World, v: World, id: nat, out: set<u32>, j: nat)
    requires Cuts(w, v, id, out)
    ensures Live(v, j) <==> Live(w, j)
  {
  }

  lemma CutsApart(w: World, v: World, id: nat, out: set<u32>)
    requires Cuts(w, v, id, out) && !Live(w, id) && AllApart(w)
    ensures AllApart(v)
  {
    forall j: nat | Live(v, j) ensures IndicesApart(v.peers[j]) {
      CutsLive(w, v, id, out, j);
    }
  }

  lemma CutInUse(w: World, v: World, id: nat, out: set<u32>, x: u32)
    requires Cuts(w, v, id, out) && !Live(w, id) && x in out && InUse(w, x)
    ensures !SessionsMapped(v)
  {
    var j := w.indexMap[x];
    CutsLive(w, v, id, out, j);
    assert v.peers[j] == w.peers[j];
    assert !(x in v.indexMap && v.indexMap[x] == j);
  }

  lemma CutUnused(w: World, v: World, id: nat, out: set<u32>)
    requires Cuts(w, v, id, out) && !Live(w, id) && SessionsMapped(w) && forall x :: x in out ==> !InUse(w, x)
    ensures SessionsMapped(v)
  {
    forall j: nat, i: u32 | Live(v, j) && i in v.peers[j].Indices() ensures i in v.indexMap && v.indexMap[i] == j {
      CutsLive(w, v, id, out, j);
      assert v.peers[j] == w.peers[j];
      assert i in w.indexMap && w.indexMap[i] == j;
      assert InUse(w, i);
    }
  }

  // Sessions stay mapped exactly when no index that goes is in use.
  lemma CutsMapped(w: World, v: World, id: nat, out: set<u32>)
    requires Cuts(w, v, id, out) && !Live(w, id) && Linked(w)
    ensures AllApart(v)
    ensures SessionsMapped(v) <==> !exists x :: x in out && InUse(w, x)
  {
    CutsApart(w, v, id, out);
    if x :| x in out && InUse(w, x) {
      CutInUse(w, v, id, out, x);
    } else {
      CutUnused(w, v, id, out);
    }
  }

  lemma InPlaceCuts(w: World, id: nat, q: PeerState)
    requires id < |w.peers| && q.info.pubKey == w.peers[id].info.pubKey
    ensures Cuts(w, SetPeer(w, id, q), id, {})
  {
  }

  lemma UnlinkCuts(w: World, id: nat, q: PeerState, dead: Option<u32>)
    requires id < |w.peers| && q.info.pubKey == w.peers[id].info.pubKey
    ensures Cuts(w, SetPeer(w, id, q).(indexMap := Unlink(w.indexMap, dead)), id, Only(dead))
  {
  }

  lemma InitCuts(w: World, id: nat, env: Env)
    requires id < |w.peers|
    ensures Cuts(w, SendHandshakeInit(w, id, env).0, id, if Starts(w, id, env) then Only(w.peers[id].PushedOut()) else {})
  {
  }

  lemma SameKeyAfterResponse(p: PeerState, addr: Endpoint, theirIndex: u32, env: Env, now: nat)
    requires p.next.Some? && p.HeadSlot() >= 0
    ensures var q := p.AcceptResponse(addr, theirIndex, now);
            q.CanAskNonce() ==> AfterHandshake(q, env, now).info.pubKey == p.info.pubKey
  {
  }

  lemma ResponseCuts(w: World, addr: Endpoint, admitted: bool, index: u32, theirIndex: u32, env: Env)
    requires Defined(w) && index in w.indexMap
    ensures var id := w.indexMap[index];
            Cuts(w, OnResponse(w, addr, admitted, index, theirIndex, env), id, ResponseUnlinks(w, id, admitted, env))
  {
    var id := w.indexMap[index];
    var v := OnResponse(w, addr, admitted, index, theirIndex, env);
    if !admitted || w.peers[id].next.None? {
      assert v == SetPeer(w, id, w.peers[id]);
      InPlaceCuts(w, id, w.peers[id]);
    } else if !env.noise {
      InPlaceCuts(w, id, w.peers[id].DropNext());
    } else {
      SameKeyAfterResponse(w.peers[id], addr, theirIndex, env, w.now);
      UnlinkCuts(w, id, AfterHandshake(w.peers[id].AcceptResponse(addr, theirIndex, w.now), env, w.now), IndexOf(w.peers[id].past));
    }
  }

  lemma DeliverCuts(w: World, id: nat, raw: Bytes)
    requires Defined(w) && id < |w.peers|
    ensures Cuts(w, Deliver(w, id, raw), id, {})
  {
    DeliverAlike(w, id, raw);
  }

  lemma ProceedCuts(w: World, id: nat, raw: Bytes, env: Env)
    requires Defined(w) && id < |w.peers|
    ensures Cuts(w, Proceed(w, id, raw, env), id,
                 if w.peers[id].NeedsNewHandshake(false, w.now) && Starts(w, id, env) then Only(w.peers[id].PushedOut()) else {})
  {
    var out := if Starts(w, id, env) then Only(w.peers[id].PushedOut()) else {};
    if w.peers[id].NeedsNewHandshake(false, w.now) {
      var (v, started) := SendHandshakeInit(w, id, env);
      InitCuts(w, id, env);
      if started {
        DeliverCuts(v, id, raw);
        CutsTransitive(w, v, Deliver(v, id, raw), id, out, {});
        assert out + {} == out;
      }
    } else {
      DeliverCuts(w, id, raw);
    }
  }

  // The two halves of handle_ingress_transport never both take an index out.
  lemma TransportCuts(w: World, i: Input, env: Env)
    requires Base(w) && Defined(w) && i.TransportMessage? && Enabled(w, i) && i.index in w.indexMap
    ensures var id := w.indexMap[i.index];
            Cuts(w, OnTransport(w, i.addr, i.index, i.nonce, i.len, i.plain, env), id, TransportUnlinks(w, id, i, env))
  {
    var id := w.indexMap[i.index];
    var q := w.peers[id].Incoming(i.addr, i.index, i.nonce, i.len, i.plain, w.now);
    var t := Receive(w, i.addr, i.index, i.nonce, i.len, i.plain, env);
    ReceiveParts(w, i, env);
    if q.1.Ok? && q.1.value.promoted {
      UnlinkCuts(w, id, t.0.peers[id], IndexOf(w.peers[id].past));
      PromotedCuts(w, t, id, env, IndexSet(w.peers[id].past));
    } else {
      InPlaceCuts(w, id, q.0);
      ReceivedCuts(w, t, id, env, {}, if t.1.Ok? then TransportUnlinks(w, id, i, env) else {});
    }
  }

  lemma PromotedCuts(w: World, t: (World, Result<Bytes>), id: nat, env: Env, a: set<u32>)
    requires Cuts(w, t.0, id, a) && Defined(t.0) && t.0.peers[id].next.None?
    ensures Cuts(w, if t.1.Err? then t.0 else Proceed(t.0, id, t.1.value, env), id, a)
  {
    ReceivedCuts(w, t, id, env, a, {});
    assert a + {} == a;
  }

  lemma ReceivedCuts(w: World, t: (World, Result<Bytes>), id: nat, env: Env, a: set<u32>, b: set<u32>)
    requires Cuts(w, t.0, id, a) && Defined(t.0)
    requires t.1.Ok? ==>
      b == if t.0.peers[id].NeedsNewHandshake(false, t.0.now) && Starts(t.0, id, env) then Only(t.0.peers[id].PushedOut()) else {}
    ensures Cuts(w, if t.1.Err? then t.0 else Proceed(t.0, id, t.1.value, env), id, if t.1.Err? then a else a + b)
  {
    if t.1.Ok? {
      ProceedCuts(t.0, id, t.1.value, env);
      CutsTransitive(w, t.0, Proceed(t.0, id, t.1.value, env), id, a, b);
    }
  }

  lemma RetryCuts(w: World, id: nat, env: Env)
    requires id < |w.peers|
    ensures Cuts(w, SendHandshakeInit(SetPeer(w, id, w.peers[id].CountRetry()), id, env).0, id,
                 if Starts(w, id, env) then Only(w.peers[id].PushedOut()) else {})
  {
    var w1 := SetPeer(w, id, w.peers[id].CountRetry());
    var out := if Starts(w, id, env) then Only(w.peers[id].PushedOut()) else {};
    InPlaceCuts(w, id, w.peers[id].CountRetry());
    InitCuts(w1, id, env);
    CutsTransitive(w, w1, SendHandshakeInit(w1, id, env).0, id, {}, out);
    assert {} + out == out;
  }

  lemma RekeyCuts(w: World, id: nat, index: u32, env: Env)
    requires id < |w.peers|
    ensures Cuts(w, OnRekey(w, id, index, env), id, TimerUnlinks(w, id, Rekey(index), env))
  {
    RekeyCases(w, id, index, env);
    if !RekeyDue(w.peers[id], index, w.now) {
      InPlaceCuts(w, id, w.peers[id]);
    } else {
      RetryCuts(w, id, env);
      InitCuts(w, id, env);
    }
  }

  lemma RekeyCases(w: World, id: nat, index: u32, env: Env)
    requires id < |w.peers|
    ensures var p, v := w.peers[id], OnRekey(w, id, index, env);
            if !RekeyDue(p, index, w.now) then v == SetPeer(w, id, p)
            else if p.Find(index) == Some(Next) then v == SendHandshakeInit(SetPeer(w, id, p.CountRetry()), id, env).0
            else v == SendHandshakeInit(w, id, env).0
  {
  }

  lemma WipeCuts(w: World, id: nat)
    requires id < |w.peers|
    ensures Cuts(w, OnWipe(w, id), id,
                 if Elapsed(w.peers[id].timers.handshakeCompleted, w.now) >= WIPE_AFTER_TIME then w.peers[id].Indices() else {})
  {
    InPlaceCuts(w, id, w.peers[id]);
    assert SetPeer(w, id, w.peers[id]) == w;
  }

  lemma TimerCuts(w: World, id: nat, message: TimerMessage, env: Env)
    requires id < |w.peers|
    ensures Cuts(w, OnUpgraded(w, id, message, env), id, TimerUnlinks(w, id, message, env))
  {
    var v := OnUpgraded(w, id, message, env);
    match message
    case Rekey(index) => RekeyCuts(w, id, index, env);
    case Wipe => WipeCuts(w, id);
    case _ =>
      assert v == SetPeer(w, id, v.peers[id]);
      InPlaceCuts(w, id, v.peers[id]);
  }

  // ----- Every step -----

  lemma OutsiderStep(w: World, e: Event, v: World)
    requires Base(w) && Steps(w, e, v) && Actor(w, e.input).Some?
    ensures Cuts(w, v, Actor(w, e.input).value, Unlinks(w, e.env, e.input))
  {
    match e.input
    case Response(addr, admitted, index, theirIndex) =>
      assert v == OnResponse(w, addr, admitted, index, theirIndex, e.env);
      ResponseCuts(w, addr, admitted, index, theirIndex, e.env);
    case TransportMessage(addr, index, nonce, len, plain) =>
      assert v == OnTransport(w, addr, index, nonce, len, plain, e.env);
      TransportCuts(w, e.input, e.env);
    case Timer(id, message) =>
      assert v == OnUpgraded(w, id, message, e.env);
      TimerCuts(w, id, message, e.env);
  }

  lemma InsiderMessage(w: World, e: Event, v: World)
    requires Base(w) && Steps(w, e, v) && Linked(w) && (Actor(w, e.input).Some? ==> Live(w, Actor(w, e.input).value))
    requires FromPeers(e.input)
    ensures Linked(v)
  {
    match e.input
    case Initiation(addr, admitted, hello) =>
      assert v == OnInitiation(w, addr, admitted, hello, e.env);
      OnInitiationOk(w, addr, admitted, hello, e.env);
    case Response(addr, admitted, index, theirIndex) =>
      assert v == OnResponse(w, addr, admitted, index, theirIndex, e.env);
      OnResponseLink(w, addr, admitted, index, theirIndex, e.env);
    case TransportMessage(addr, index, nonce, len, plain) =>
      assert v == OnTransport(w, addr, index, nonce, len, plain, e.env);
      OnTransportLink(w, addr, index, nonce, len, plain, e.env);
    case Egress(packet) =>
      assert v == OnEgress(w, packet, e.env);
      OnEgressOk(w, packet, e.env);
  }

  lemma InsiderStep(w: World, e: Event, v: World)
    requires Base(w) && Steps(w, e, v) && Linked(w) && (Actor(w, e.input).Some? ==> Live(w, Actor(w, e.input).value))
    ensures Linked(v)
  {
    match e.input
    case Timer(id, message) =>
      assert v == OnTimer(w, id, message, e.env);
      OnTimerLink(w, id, message, e.env);
    case KeepaliveConfigured(id) =>
      assert v == OnKeepaliveConfigured(w, id, e.env);
      OnKeepaliveConfiguredOk(w, id, e.env);
    case Configure(update, derived) =>
      assert v == HandleUpdate(w, update, derived).0;
      HandleUpdateLinked(w, update, derived);
    case ClockTick(now) =>
      assert v == w.(now := now);
      NewRoutesLink(w, v);
    case _ =>
      InsiderMessage(w, e, v);
  }

  // A step for a configured peer, or for none, never unmaps a session. A step for a peer object
  // that is no longer configured does so exactly when an index that it takes out is in use.
  lemma StepMapped(w: World, e: Event, v: World)
    requires Base(w) && Steps(w, e, v) && Linked(w)
    ensures AllApart(v)
    ensures SessionsMapped(v) <==> !Unmaps(w, e.env, e.input)
  {
    if Actor(w, e.input).Some? && !Live(w, Actor(w, e.input).value) {
      OutsiderStep(w, e, v);
      CutsMapped(w, v, Actor(w, e.input).value, Unlinks(w, e.env, e.input));
    } else {
      InsiderStep(w, e, v);
    }
  }

  // ----- Every run -----

  // Step `i` of the run unmaps a session.
  ghost predicate UnmapsAt(ws: seq<World>, es: seq<Event>, i: nat) {
    i < |es| < |ws| && Defined(ws[i]) && Enabled(ws[i], es[i].input) && Unmaps(ws[i], es[i].env, es[i].input)
  }

  ghost predicate MappedAt(ws: seq<World>, k: nat) {
    k < |ws| ==> SessionsMapped(ws[k])
  }

  lemma RunStepMapped(ws: seq<World>, es: seq<Event>, i: nat)
    requires IsRun(EMPTY_WORLD, Steps, ws, es) && i < |es| && Linked(ws[i])
    ensures AllApart(ws[i + 1]) && (SessionsMapped(ws[i + 1]) <==> !UnmapsAt(ws, es, i))
  {
    var e := es[i];
    assert Steps(ws[i], e, ws[i + 1]);
    RunBase(ws, es, i);
    StepMapped(ws[i], e, ws[i + 1]);
  }

  lemma {:induction false} LinkedUpTo(ws: seq<World>, es: seq<Event>, j: nat)
    requires IsRun(EMPTY_WORLD, Steps, ws, es) && j < |ws| && forall i: nat :: i < j ==> !UnmapsAt(ws, es, i)
    ensures Linked(ws[j])
    decreases j
  {
    if j == 0 {
      EmptyOk();
    } else {
      LinkedUpTo(ws, es, j - 1);
      RunStepMapped(ws, es, j - 1);
    }
  }

  // The sessions of configured peers are all found under their indices, from the start of a run
  // up to some state, exactly when no step up to there unmaps one.
  lemma MappedExactly(ws: seq<World>, es: seq<Event>, j: nat)
    requires IsRun(EMPTY_WORLD, Steps, ws, es) && j < |ws|
    ensures (forall k: nat :: k <= j ==> MappedAt(ws, k)) <==> (forall i: nat :: i < j ==> !UnmapsAt(ws, es, i))
  {
    if forall i: nat :: i < j ==> !UnmapsAt(ws, es, i) {
      forall k: nat | k <= j ensures MappedAt(ws, k) {
        LinkedUpTo(ws, es, k);
      }
    } else {
      var i := FirstUnmapping(ws, es, j);
      LinkedUpTo(ws, es, i);
      RunStepMapped(ws, es, i);
      assert !MappedAt(ws, i + 1);
    }
  }

  lemma {:induction false} FirstUnmapping(ws: seq<World>, es: seq<Event>, j: nat) returns (i: nat)
    requires exists i: nat :: i < j && UnmapsAt(ws, es, i)
    ensures i < j && UnmapsAt(ws, es, i) && forall k: nat :: k < i ==> !UnmapsAt(ws, es, k)
    decreases j
  {
    if k: nat :| k < j - 1 && UnmapsAt(ws, es, k) {
      i := FirstUnmapping(ws, es, j - 1);
    } else {
      i := j - 1;
    }
  }
}
