// How many retries are possible: a run that reaches the bound of Theorems.RetriesBounded.
module RetryRun {
  import opened Types
  import opened Consts
  import opened PeerModel
  import opened Router
  import opened World
  import opened Runs
  import opened Theorems
  import opened Scenario

  // Alice has a handshake pending under index `x`, the highest so far, after `k` attempts.
  ghost predicate Pending(w: World, x: u32, k: nat) {
    && Defined(w) && |w.peers| == 1 && w.pubkeyMap == map[ALICE := 0] && w.info.privateKey == Some(SECRET)
    && RouteTo(w.routes, PACKET) == Some(0)
    && (forall i :: i in w.indexMap ==> i <= x)
    && var p := w.peers[0];
    && p.info == ALICE_INFO && p.current.None? && p.next.Some? && p.next.value.ourIndex == x
    && p.timers.handshakeAttempts == k && p.timers.handshakeInitialized == Some(w.now)
  }

  lemma Waits(w: World, x: u32, k: nat) returns (v: World)
    requires Pending(w, x, k)
    ensures v == Handle(w, Noisy(0, true), ClockTick(w.now + REKEY_TIMEOUT)) && Defined(v)
    ensures v == w.(now := w.now + REKEY_TIMEOUT)
  {
    v := w.(now := w.now + REKEY_TIMEOUT);
  }

  // One retry: the initiation is sent again under the next index.
  lemma Resends(w: World, v: World, x: u32, k: nat)
    requires Pending(w, x, k) && k < MAX_HANDSHAKE_ATTEMPTS && x < 1000
    requires v == w.(now := w.now + REKEY_TIMEOUT) && Defined(v)
    ensures var u := OnRekey(v, 0, x, Noisy(x + 1, true));
            && u.peers == [w.peers[0].CountRetry().Initiate(x + 1).MarkInitiated(v.now)]
            && (forall i :: i in u.indexMap ==> i <= x + 1)
            && u.pubkeyMap == w.pubkeyMap && u.info == w.info && u.routes == w.routes && u.now == v.now
  {
    var w1 := SetPeer(v, 0, w.peers[0].CountRetry());
    assert FirstUnused([x + 1], w.indexMap) == Some(x + 1);
    assert OnRekey(v, 0, x, Noisy(x + 1, true)) == SendHandshakeInit(w1, 0, Noisy(x + 1, true)).0;
  }

  lemma Retries(w: World, v: World, x: u32, k: nat) returns (u: World)
    requires Pending(w, x, k) && k < MAX_HANDSHAKE_ATTEMPTS && x < 1000
    requires v == w.(now := w.now + REKEY_TIMEOUT) && Defined(v)
    ensures u == Handle(v, Noisy(x + 1, true), Timer(0, Rekey(x)))
    ensures Defined(u) ==> Pending(u, x + 1, k + 1)
    ensures |u.peers| == 1 && u.peers[0].hist.retries == w.peers[0].hist.retries + 1
    ensures u.peers[0].hist.queued == w.peers[0].hist.queued && u.peers[0].queue == w.peers[0].queue
  {
    assert w.pubkeyMap[ALICE] == 0;
    assert Held(v, 0);
    u := OnRekey(v, 0, x, Noisy(x + 1, true));
    Resends(w, v, x, k);
  }

  // What a stretch of a run from `w` to `v` adds: so many retries and so many queued packets.
  ghost predicate Adds(w: World, v: World, retries: nat, queued: nat) {
    && |w.peers| == 1 && |v.peers| == 1
    && v.peers[0].hist.retries == w.peers[0].hist.retries + retries
    && |v.peers[0].hist.queued| == |w.peers[0].hist.queued| + queued
    && |v.peers[0].queue| == |w.peers[0].queue| + queued
  }

  lemma RetryOnce(ws: seq<World>, es: seq<Event>, x: u32, k: nat) returns (ws': seq<World>, es': seq<Event>)
    requires Run(ws, es) && Pending(Last(ws), x, k) && k < MAX_HANDSHAKE_ATTEMPTS && x < 1000
    ensures Run(ws', es') && ws <= ws' && Pending(Last(ws'), x + 1, k + 1) && Adds(Last(ws), Last(ws'), 1, 0)
  {
    var w := Last(ws);
    var v := Waits(w, x, k);
    ws', es' := Grow(ws, es, Noisy(0, true), ClockTick(w.now + REKEY_TIMEOUT), v);
    var u := Retries(w, v, x, k);
    ws', es' := Grow(ws', es', Noisy(x + 1, true), Timer(0, Rekey(x)), u);
  }

  // Retries until the attempts are used up.
  lemma {:induction false} RetryAll(ws: seq<World>, es: seq<Event>, x: u32, k: nat) returns (ws': seq<World>, es': seq<Event>, x': u32)
    requires Run(ws, es) && k <= MAX_HANDSHAKE_ATTEMPTS && Pending(Last(ws), x, k)
    requires x as nat + MAX_HANDSHAKE_ATTEMPTS - k < 1000
    ensures Run(ws', es') && ws <= ws' && Pending(Last(ws'), x', MAX_HANDSHAKE_ATTEMPTS)
    ensures x' as nat == x as nat + MAX_HANDSHAKE_ATTEMPTS - k
    ensures Adds(Last(ws), Last(ws'), MAX_HANDSHAKE_ATTEMPTS - k, 0)
    decreases MAX_HANDSHAKE_ATTEMPTS - k
  {
    if k == MAX_HANDSHAKE_ATTEMPTS {
      ws', es', x' := ws, es, x;
    } else {
      ws', es' := RetryOnce(ws, es, x, k);
      var before := ws';
      ws', es', x' := RetryAll(ws', es', x + 1, k + 1);
      assert ws <= before <= ws';
    }
  }

  // A packet queued at once forgives all attempts, but no new handshake is due yet.
  lemma Forgives(w: World, x: u32) returns (v: World)
    requires Pending(w, x, MAX_HANDSHAKE_ATTEMPTS) && |w.peers[0].queue| < MAX_QUEUED_PACKETS
    ensures v == Handle(w, Noisy(0, true), Egress(PACKET))
    ensures Defined(v) ==> Pending(v, x, 0)
    ensures Adds(w, v, 0, 1)
  {
    var env := Noisy(0, true);
    v := Handle(w, env, Egress(PACKET));
    var q := w.peers[0].QueueEgress(PACKET);
    assert |PACKET| == 20;
    assert QueueAndDrain(w.peers[0], PACKET, env, w.now) == (q, true);
    assert v == SetPeer(w, 0, q);
  }

  lemma Starts(w: World) returns (v: World)
    requires Ready(w) && Defined(w) && w.peers == [NewPeer(ALICE_INFO)] && w.indexMap == map[] && w.now == 0
    ensures v == Handle(w, Noisy(1, true), Egress(PACKET))
    ensures Defined(v) ==> Pending(v, 1, 0)
    ensures |v.peers| == 1 && |v.peers[0].queue| == 1
  {
    v := StartsHandshake(w, 1);
  }

  lemma Started() returns (ws: seq<World>, es: seq<Event>)
    ensures Run(ws, es) && Pending(Last(ws), 1, 0) && |Last(ws).peers[0].queue| == 1
  {
    ws, es := Configured();
    RunBase(ws, es, 2);
    var a := Starts(ws[2]);
    ws, es := Grow(ws, es, Noisy(1, true), Egress(PACKET), a);
  }

  lemma ForgivesInRun(ws: seq<World>, es: seq<Event>, x: u32) returns (ws': seq<World>, es': seq<Event>)
    requires Run(ws, es) && Pending(Last(ws), x, MAX_HANDSHAKE_ATTEMPTS) && |Last(ws).peers[0].queue| < MAX_QUEUED_PACKETS
    ensures Run(ws', es') && ws <= ws' && Pending(Last(ws'), x, 0) && Adds(Last(ws), Last(ws'), 0, 1)
  {
    var b := Forgives(Last(ws), x);
    ws', es' := Grow(ws, es, Noisy(0, true), Egress(PACKET), b);
  }

  // A run in which one queued packet lets the timer retry 34 times: the bound is reached.
  lemma RetriesReached() returns (ws: seq<World>, es: seq<Event>, i: nat)
    ensures Run(ws, es) && i < |ws| && |ws[i].peers| == 1 && ws[i].peers[0].timers.handshakeAttempts == 0
    ensures Adds(ws[i], Last(ws), 2 * MAX_HANDSHAKE_ATTEMPTS, 1)
  {
    ws, es := Started();
    i := |ws| - 1;
    var ws1, es1, x := RetryAll(ws, es, 1, 0);
    var ws2, es2 := ForgivesInRun(ws1, es1, x);
    var ws3, es3, y := RetryAll(ws2, es2, x, 0);
    assert ws <= ws1 <= ws2 <= ws3 && ws3[i] == Last(ws);
    ws, es := ws3, es3;
  }
}
