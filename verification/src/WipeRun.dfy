// What a wipe may throw away: a run in which it takes a session that was made at that very
// moment.
module WipeRun {
  import opened Types
  import opened Consts
  import opened Timestamps
  import opened AntiReplay
  import opened PeerModel
  import opened World
  import opened Runs
  import opened Theorems
  import opened Scenario
  import opened ForgedRun

  const HELLO_AGAIN := Initiation(ADDR, true, Some(Hello(ALICE, 0, [1] + Zeros(11))))

  // Alice has a current session since time 0.
  ghost predicate Promoted(w: World) {
    && Defined(w) && |w.peers| == 1 && w.pubkeyMap == map[ALICE := 0] && w.info.privateKey.Some?
    && (forall i :: i in w.indexMap ==> i == 1)
    && var p := w.peers[0];
    && p.next.None? && p.timers.handshakeCompleted == Some(0) && p.lastTai64n == Some(Zeros(12))
  }

  lemma Promotes(w: World) returns (v: World)
    requires Connected(w, EMPTY)
    ensures v == Handle(w, Noisy(0, true), GENUINE)
    ensures v.now == 0 && (Defined(v) ==> Promoted(v))
  {
    v := Handle(w, Noisy(0, true), GENUINE);
    var (q, r) := w.peers[0].Incoming(ADDR, 1, 0, 32, Some([]), 0);
    assert r == Ok(Inbound([], true, None));
    assert q.queue == [] && q.DrainAll(true, {}, 0) == (q, true);
    assert Receive(w, ADDR, 1, 0, 32, Some([]), Noisy(0, true)) == (SetPeer(w, 0, q), Ok([]));
  }

  lemma ConnectsAgain(w: World) returns (v: World)
    requires Promoted(w) && w.now == WIPE_AFTER_TIME
    ensures v == Handle(w, Noisy(2, true), HELLO_AGAIN)
    ensures |v.peers| == 1 && v.pubkeyMap == map[ALICE := 0] && v.now == WIPE_AFTER_TIME
    ensures Takes(v.peers[0], Next, v.now) && v.peers[0].timers.handshakeCompleted == Some(0)
  {
    v := Handle(w, Noisy(2, true), HELLO_AGAIN);
    assert LexLess(Zeros(12), [1] + Zeros(11));
    assert FirstUnused([2], w.indexMap) == Some(2);
  }

  lemma Wipes(w: World) returns (v: World)
    requires Defined(w) && |w.peers| == 1 && w.pubkeyMap == map[ALICE := 0] && w.now == WIPE_AFTER_TIME
    requires w.peers[0].timers.handshakeCompleted == Some(0)
    ensures v == Handle(w, Noisy(0, true), Timer(0, Wipe)) && |v.peers| == 1 && v.peers[0].next.None?
  {
    assert w.pubkeyMap[ALICE] == 0;
    assert Held(w, 0);
    v := OnWipe(w, 0);
  }

  lemma UpToPromoted() returns (ws: seq<World>, es: seq<Event>)
    ensures Run(ws, es) && Promoted(Last(ws)) && Last(ws).now == WIPE_AFTER_TIME
  {
    ws, es := UpToConnected();
    var a := Promotes(Last(ws));
    ws, es := Grow(ws, es, Noisy(0, true), GENUINE, a);
    var b := a.(now := WIPE_AFTER_TIME);
    ws, es := Grow(ws, es, Noisy(0, true), ClockTick(WIPE_AFTER_TIME), b);
  }

  // At the end of the run the timer wipes a next session as old as the clock.
  lemma WipeDropsNext() returns (ws: seq<World>, es: seq<Event>)
    ensures Run(ws, es) && |es| >= 1 && es[|es| - 1].input == Timer(0, Wipe)
    ensures |ws[|es| - 1].peers| == 1 && Takes(ws[|es| - 1].peers[0], Next, ws[|es| - 1].now)
    ensures |Last(ws).peers| == 1 && Last(ws).peers[0].next.None?
  {
    ws, es := UpToPromoted();
    var a := ConnectsAgain(Last(ws));
    ws, es := Grow(ws, es, Noisy(2, true), HELLO_AGAIN, a);
    var b := Wipes(a);
    ws, es := Grow(ws, es, Noisy(0, true), Timer(0, Wipe), b);
  }
}
