// Why a peer must not be removed while a stale index leads to it: a run in which a failed
// response and a removal make a live session of another peer unreachable.
module StaleIndex {
  import opened Types
  import opened Consts
  import opened Timestamps
  import opened PeerModel
  import opened World
  import opened WorldInvariants
  import opened Runs
  import opened Theorems
  import opened SessionMap
  import opened Scenario

  // The handshake under index 1 fails, the one under index 2 is retried under index 3.
  ghost predicate TwoPending(w: World) {
    && Defined(w) && |w.peers| == 1 && w.pubkeyMap == map[ALICE := 0]
    && w.info.privateKey == Some(SECRET) && w.info.pubKey == Some(OWN)
    && w.indexMap == map[1 := 0, 2 := 0, 3 := 0]
    && var p := w.peers[0];
    && p.info == ALICE_INFO && p.current.None?
    && p.past.Some? && p.past.value.ourIndex == 2
    && p.next.Some? && p.next.value.ourIndex == 3 && p.next.value.noise.Handshake?
  }

  lemma FailsThenWaits(w: World) returns (v: World, t: World)
    requires Ready(w) && Defined(w) && w.indexMap == map[1 := 0] && w.now == 0
    requires w.peers[0].next.Some?
    ensures v == Handle(w, Noisy(0, false), Response(ADDR, true, 1, 0)) && Defined(v) && v.now == 0
    ensures t == Handle(v, Noisy(0, true), ClockTick(REKEY_TIMEOUT)) && Defined(t)
    ensures t == w.(peers := [w.peers[0].DropNext()], now := REKEY_TIMEOUT)
  {
    v := Handle(w, Noisy(0, false), Response(ADDR, true, 1, 0));
    assert v == SetPeer(w, 0, w.peers[0].DropNext());
    assert w.peers[0 := w.peers[0].DropNext()] == [w.peers[0].DropNext()];
    t := Handle(v, Noisy(0, true), ClockTick(REKEY_TIMEOUT));
  }

  // Alice has one handshake pending, under index 2, that may be retried.
  ghost predicate Retryable(w: World) {
    && Defined(w) && |w.peers| == 1 && w.pubkeyMap == map[ALICE := 0] && w.indexMap == map[1 := 0, 2 := 0]
    && w.info.privateKey == Some(SECRET) && w.info.pubKey == Some(OWN)
    && var p := w.peers[0];
    && p.info == ALICE_INFO && p.past.None? && p.current.None? && p.next.Some? && p.next.value.ourIndex == 2
    && Elapsed(p.timers.handshakeInitialized, w.now) >= REKEY_TIMEOUT
  }

  lemma Restarts(w: World) returns (v: World)
    requires Retryable(w)
    ensures v == SendHandshakeInit(w, 0, Noisy(3, true)).0 && TwoPending(v)
  {
    v := SendHandshakeInit(w, 0, Noisy(3, true)).0;
    assert FirstUnused([3], w.indexMap) == Some(3);
    assert v.indexMap == map[1 := 0, 2 := 0, 3 := 0];
  }

  lemma RetryIsRestart(w: World)
    requires Retryable(w) && w.peers[0].timers.handshakeAttempts == 0
    ensures OnRekey(w, 0, 2, Noisy(3, true)) == SendHandshakeInit(SetPeer(w, 0, w.peers[0].CountRetry()), 0, Noisy(3, true)).0
  {
  }

  lemma Retries(w: World) returns (v: World)
    requires Retryable(w) && w.peers[0].timers.handshakeAttempts == 0
    ensures v == Handle(w, Noisy(3, true), Timer(0, Rekey(2))) && TwoPending(v)
  {
    assert w.pubkeyMap[ALICE] == 0;
    assert Held(w, 0);
    var w1 := SetPeer(w, 0, w.peers[0].CountRetry());
    v := Restarts(w1);
    RetryIsRestart(w);
  }

  // Removing Alice unmaps 2 and 3 but not 1.
  lemma AliceRemoved(w: World) returns (v: World)
    requires TwoPending(w)
    ensures v == Handle(w, Noisy(0, true), Configure(RemovePeer(ALICE), OWN)) && Defined(v)
    ensures v.peers == w.peers && v.info == w.info && v.indexMap == map[1 := 0] && v.pubkeyMap == map[]
  {
    v := Handle(w, Noisy(0, true), Configure(RemovePeer(ALICE), OWN));
    assert v == ForgetPeer(w, ALICE);
    assert w.peers[0].Indices() == {2, 3};
    assert v.indexMap == map[1 := 0];
    assert v.pubkeyMap == map[];
  }

  lemma BobAdded(w: World) returns (v: World)
    requires Defined(w) && |w.peers| == 1 && w.pubkeyMap == map[] && w.info.pubKey == Some(OWN)
    ensures v == Handle(w, Noisy(0, true), Configure(UpdatePeer(BOB_INFO, false), OWN)) && Defined(v)
    ensures v.peers == w.peers + [NewPeer(BOB_INFO)] && v.info == w.info && v.indexMap == w.indexMap
    ensures v.pubkeyMap == map[BOB := 1]
  {
    v := Handle(w, Noisy(0, true), Configure(UpdatePeer(BOB_INFO, false), OWN));
    assert BOB != OWN by { assert BOB[0] != OWN[0]; }
    assert v == AddPeer(w, BOB_INFO);
  }

  // Bob gets a session under index 2.
  lemma BobConnects(w: World) returns (v: World)
    requires Defined(w) && |w.peers| == 2 && w.peers[1] == NewPeer(BOB_INFO) && w.pubkeyMap == map[BOB := 1]
    requires w.info.privateKey.Some? && w.indexMap == map[1 := 0]
    ensures v == Handle(w, Noisy(2, true), Initiation(ADDR, true, Some(Hello(BOB, 0, Zeros(12))))) && Defined(v)
    ensures |v.peers| == 2 && v.peers[0] == w.peers[0] && v.pubkeyMap == w.pubkeyMap
    ensures v.indexMap == map[1 := 0, 2 := 1] && v.peers[1].info.pubKey == BOB
    ensures v.peers[1].next.Some? && v.peers[1].next.value.ourIndex == 2
  {
    v := Handle(w, Noisy(2, true), Initiation(ADDR, true, Some(Hello(BOB, 0, Zeros(12)))));
    assert FirstUnused([2], w.indexMap) == Some(2);
    assert v.indexMap == map[1 := 0, 2 := 1];
  }

  // A response on the stale index 1 retires Alice's old session, and with it Bob's index.
  lemma BobUnmapped(w: World) returns (v: World)
    requires Defined(w) && |w.peers| == 2 && w.indexMap == map[1 := 0, 2 := 1] && w.pubkeyMap == map[BOB := 1]
    requires w.peers[0].next.Some? && w.peers[0].past.Some? && w.peers[0].past.value.ourIndex == 2
    requires w.peers[1].info.pubKey == BOB && w.peers[1].next.Some? && w.peers[1].next.value.ourIndex == 2
    ensures v == Handle(w, Noisy(0, true), Response(ADDR, true, 1, 0))
    ensures Live(v, 1) && v.peers[1].next.Some? && v.peers[1].next.value.ourIndex !in v.indexMap
    ensures Unmaps(w, Noisy(0, true), Response(ADDR, true, 1, 0))
  {
    v := Handle(w, Noisy(0, true), Response(ADDR, true, 1, 0));
    assert w.indexMap[1] == 0;
    assert v.indexMap == w.indexMap - {2};
    assert 2 in Unlinks(w, Noisy(0, true), Response(ADDR, true, 1, 0)) && InUse(w, 2);
    assert v.peers[1] == w.peers[1];
  }

  lemma UpToFailure() returns (ws: seq<World>, es: seq<Event>)
    ensures Run(ws, es) && Ready(Last(ws)) && Defined(Last(ws))
    ensures Last(ws).indexMap == map[1 := 0] && Last(ws).now == REKEY_TIMEOUT
    ensures var p := Last(ws).peers[0];
            p.next.None? && p.timers.handshakeInitialized == Some(0) && p.timers.handshakeAttempts == 0
  {
    ws, es := Configured();
    RunBase(ws, es, 2);
    var a := StartsHandshake(ws[2], 1);
    ws, es := Grow(ws, es, Noisy(1, true), Egress(PACKET), a);
    var b, c := FailsThenWaits(a);
    ws, es := Grow(ws, es, Noisy(0, false), Response(ADDR, true, 1, 0), b);
    ws, es := Grow(ws, es, Noisy(0, true), ClockTick(REKEY_TIMEOUT), c);
  }

  lemma UpToRetry() returns (ws: seq<World>, es: seq<Event>)
    ensures Run(ws, es) && TwoPending(Last(ws))
  {
    ws, es := UpToFailure();
    var d := StartsHandshake(Last(ws), 2);
    ws, es := Grow(ws, es, Noisy(2, true), Egress(PACKET), d);
    var t := d.(now := 2 * REKEY_TIMEOUT);
    ws, es := Grow(ws, es, Noisy(0, true), ClockTick(2 * REKEY_TIMEOUT), t);
    var e := Retries(t);
    ws, es := Grow(ws, es, Noisy(3, true), Timer(0, Rekey(2)), e);
  }

  // A run at whose end a live session of a configured peer is not found under its index.
  lemma RemovalCanUnmap() returns (ws: seq<World>, es: seq<Event>)
    ensures Run(ws, es)
    ensures Live(Last(ws), 1) && Last(ws).peers[1].next.Some?
    ensures Last(ws).peers[1].next.value.ourIndex !in Last(ws).indexMap
    ensures es != [] && UnmapsAt(ws, es, |es| - 1)
  {
    ws, es := UpToRetry();
    var a := AliceRemoved(Last(ws));
    ws, es := Grow(ws, es, Noisy(0, true), Configure(RemovePeer(ALICE), OWN), a);
    var b := BobAdded(a);
    ws, es := Grow(ws, es, Noisy(0, true), Configure(UpdatePeer(BOB_INFO, false), OWN), b);
    var c := BobConnects(b);
    ws, es := Grow(ws, es, Noisy(2, true), Initiation(ADDR, true, Some(Hello(BOB, 0, Zeros(12)))), c);
    var d := BobUnmapped(c);
    ws, es := Grow(ws, es, Noisy(0, true), Response(ADDR, true, 1, 0), d);
  }
}
