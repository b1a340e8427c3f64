// Why a counter should not be recorded before its message is authenticated: a run in which a
// message that cannot be decrypted shuts a genuine one out.
module ForgedRun {
  import opened Types
  import opened AntiReplay
  import opened PeerModel
  import opened World
  import opened Runs
  import opened Theorems
  import opened Replays
  import opened Scenario

  const HELLO := Initiation(ADDR, true, Some(Hello(ALICE, 0, Zeros(12))))
  const FORGED := TransportMessage(ADDR, 1, 5000, 32, None)
  const GENUINE := TransportMessage(ADDR, 1, 0, 32, Some([]))

  // Alice has one session, in transport mode, under index 1.
  ghost predicate Connected(w: World, replay: Seen) {
    && Defined(w) && |w.peers| == 1 && w.indexMap == map[1 := 0] && w.now == 0
    && w.pubkeyMap == map[ALICE := 0] && w.info.privateKey.Some?
    && var p := w.peers[0];
    && p.next == Some(Session(0, Transport(0), 1, 0, replay, Some(0))) && p.past.None? && p.current.None?
    && p.lastTai64n == Some(Zeros(12)) && p.queue == []
  }

  lemma Connects(w: World) returns (v: World)
    requires Ready(w) && Defined(w) && w.peers == [NewPeer(ALICE_INFO)] && w.indexMap == map[] && w.now == 0
    ensures v == Handle(w, Noisy(1, true), HELLO) && Enabled(w, HELLO)
    ensures Defined(v) ==> Connected(v, EMPTY)
  {
    v := Handle(w, Noisy(1, true), HELLO);
    assert FirstUnused([1], w.indexMap) == Some(1);
    assert v.indexMap == map[1 := 0];
  }

  // Before the forged message both would pass.
  lemma BothPass(w: World)
    requires Connected(w, EMPTY)
    ensures Passes(w, FORGED, 0, 0) && Passes(w, GENUINE, 0, 0)
  {
  }

  lemma Forges(w: World) returns (v: World)
    requires Connected(w, EMPTY)
    ensures v == Handle(w, Noisy(0, true), FORGED) && Connected(v, EMPTY.Accept(5000))
  {
    v := Handle(w, Noisy(0, true), FORGED);
    assert v == SetPeer(w, 0, w.peers[0].Record(Next, 5000));
  }

  lemma Misses(w: World)
    requires Connected(w, EMPTY.Accept(5000))
    ensures !Passes(w, GENUINE, 0, 0) && Handle(w, Noisy(0, true), GENUINE) == w
  {
    RefusedChangesNothing(w, GENUINE, 0, Noisy(0, true));
  }

  lemma UpToConnected() returns (ws: seq<World>, es: seq<Event>)
    ensures Run(ws, es) && |es| == 3 && Connected(Last(ws), EMPTY)
  {
    ws, es := Configured();
    RunBase(ws, es, 2);
    var a := Connects(ws[2]);
    ws, es := Grow(ws, es, Noisy(1, true), HELLO, a);
  }

  lemma UpToForged() returns (ws: seq<World>, es: seq<Event>)
    ensures Run(ws, es) && |es| == 4 && es[3].input == FORGED
    ensures Connected(ws[3], EMPTY) && Connected(Last(ws), EMPTY.Accept(5000))
  {
    ws, es := UpToConnected();
    var b := Forges(Last(ws));
    ws, es := Grow(ws, es, Noisy(0, true), FORGED, b);
  }

  lemma ForgedShutsOutGenuine() returns (ws: seq<World>, es: seq<Event>)
    ensures Run(ws, es) && |es| == 5 && es[3].input == FORGED && es[4].input == GENUINE
    ensures Passes(ws[3], FORGED, 0, 0) && Passes(ws[3], GENUINE, 0, 0)
    ensures !Passes(ws[4], GENUINE, 0, 0) && ws[5] == ws[4]
  {
    ws, es := UpToForged();
    BothPass(ws[3]);
    Misses(Last(ws));
    ws, es := Grow(ws, es, Noisy(0, true), GENUINE, Last(ws));
  }
}
