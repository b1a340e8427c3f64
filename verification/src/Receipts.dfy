// Which messages a session refuses because of which others: the exact rule, over whole runs.
module Receipts {
  import opened Types
  import opened Consts
  import opened Timestamps
  import opened AntiReplay
  import opened PeerModel
  import opened PeerInvariants
  import opened Router
  import opened World
  import opened WorldInvariants
  import opened Runs
  import opened Theorems
  import opened Replays

  // ----- What one step records -----

  // What a message adds to the receipts of peer `id`.
  ghost function Recorded(w: World, i: Input, id: nat): seq<Receipt> {
    if i.TransportMessage? && i.index in w.indexMap && w.indexMap[i.index] == id && id < |w.peers|
      && w.peers[id].Find(i.index).Some? && w.peers[id].Admits(w.peers[id].Find(i.index).value, i.nonce, w.now)
    then [Receipt(w.peers[id].Get(w.peers[id].Find(i.index).value).value.sid, i.nonce)]
    else []
  }

  ghost predicate SameReceipts(w: World, v: World) {
    && |w.peers| <= |v.peers|
    && (forall id :: 0 <= id < |w.peers| ==> v.peers[id].hist.received == w.peers[id].hist.received)
    && (forall id :: |w.peers| <= id < |v.peers| ==> v.peers[id].hist.received == [])
  }

  lemma OnePeerReceipts(w: World, id: nat, q: PeerState, v: World)
    requires id < |w.peers| && v.peers == w.peers[id := q] && q.hist.received == w.peers[id].hist.received
    ensures SameReceipts(w, v)
  {
  }

  lemma InitReceipts(w: World, id: nat, env: Env)
    requires id < |w.peers|
    ensures SameReceipts(w, SendHandshakeInit(w, id, env).0)
  {
    var v := SendHandshakeInit(w, id, env).0;
    if v != w {
      OnePeerReceipts(w, id, v.peers[id], v);
    }
  }

  lemma InitiationReceipts(w: World, addr: Endpoint, admitted: bool, hello: Option<Hello>, env: Env)
    requires Defined(w)
    ensures SameReceipts(w, OnInitiation(w, addr, admitted, hello, env))
  {
    var v := OnInitiation(w, addr, admitted, hello, env);
    if v != w {
      var id := w.pubkeyMap[hello.value.pubKey];
      OnePeerReceipts(w, id, v.peers[id], v);
    }
  }

  lemma ResponseReceipts(w: World, addr: Endpoint, admitted: bool, index: u32, theirIndex: u32, env: Env)
    requires Defined(w)
    ensures SameReceipts(w, OnResponse(w, addr, admitted, index, theirIndex, env))
  {
    var v := OnResponse(w, addr, admitted, index, theirIndex, env);
    if v != w {
      var id := w.indexMap[index];
      OnePeerReceipts(w, id, v.peers[id], v);
    }
  }

  lemma EgressReceipts(w: World, packet: Bytes, env: Env)
    requires Defined(w)
    ensures SameReceipts(w, OnEgress(w, packet, env))
  {
    var v := OnEgress(w, packet, env);
    if v != w {
      var id := RouteTo(w.routes, packet).value;
      var q := QueueAndDrain(w.peers[id], packet, env, w.now).0;
      OnePeerReceipts(w, id, q, SetPeer(w, id, q));
      InitReceipts(SetPeer(w, id, q), id, env);
    }
  }

  lemma TimerReceipts(w: World, id: nat, message: TimerMessage, env: Env)
    ensures SameReceipts(w, OnTimer(w, id, message, env))
  {
    var v := OnTimer(w, id, message, env);
    if v != w {
      if message.Rekey? {
        InitReceipts(w, id, env);
        OnePeerReceipts(w, id, w.peers[id].CountRetry(), SetPeer(w, id, w.peers[id].CountRetry()));
        InitReceipts(SetPeer(w, id, w.peers[id].CountRetry()), id, env);
      } else {
        OnePeerReceipts(w, id, v.peers[id], v);
      }
    }
  }

  lemma UpdateReceipts(w: World, e: UpdateEvent, derived: Key)
    requires Defined(w)
    ensures SameReceipts(w, HandleUpdate(w, e, derived).0)
  {
  }

  lemma OthersRecordNothing(w: World, e: Event, v: World)
    requires Steps(w, e, v) && !e.input.TransportMessage?
    ensures SameReceipts(w, v)
  {
    match e.input
    case Initiation(addr, admitted, hello) =>
      InitiationReceipts(w, addr, admitted, hello, e.env);
    case Response(addr, admitted, index, theirIndex) =>
      ResponseReceipts(w, addr, admitted, index, theirIndex, e.env);
    case Egress(packet) =>
      EgressReceipts(w, packet, e.env);
    case Timer(id, message) =>
      TimerReceipts(w, id, message, e.env);
    case KeepaliveConfigured(id) =>
      assert v == OnKeepaliveConfigured(w, id, e.env);
    case Configure(update, derived) =>
      UpdateReceipts(w, update, derived);
    case ClockTick(now) =>
  }

  lemma ReceiveReceipts(w: World, i: Input, env: Env)
    requires Defined(w) && i.TransportMessage? && Enabled(w, i) && i.index in w.indexMap
    ensures var v := Receive(w, i.addr, i.index, i.nonce, i.len, i.plain, env).0;
            |v.peers| == |w.peers| &&
            forall id :: 0 <= id < |w.peers| ==> v.peers[id].hist.received == w.peers[id].hist.received + Recorded(w, i, id)
  {
  }

  lemma ProceedReceipts(w: World, id: nat, raw: Bytes, env: Env)
    requires Defined(w) && id < |w.peers|
    ensures SameReceipts(w, Proceed(w, id, raw, env)) && |Proceed(w, id, raw, env).peers| == |w.peers|
  {
    InitReceipts(w, id, env);
  }

  // Every step adds exactly the message that passed a replay check, if there is one.
  lemma StepRecords(w: World, e: Event, v: World, id: nat)
    requires Steps(w, e, v) && id < |v.peers|
    ensures v.peers[id].hist.received == (if id < |w.peers| then w.peers[id].hist.received else []) + Recorded(w, e.input, id)
  {
    if !e.input.TransportMessage? {
      OthersRecordNothing(w, e, v);
    } else if e.input.index in w.indexMap {
      ReceiveReceipts(w, e.input, e.env);
      var (w1, r) := Receive(w, e.input.addr, e.input.index, e.input.nonce, e.input.len, e.input.plain, e.env);
      if r.Ok? {
        ProceedReceipts(w1, w.indexMap[e.input.index], r.value, e.env);
      }
    }
  }

  // ----- Which messages of a run are refused -----

  // Message `i` of the run got past the replay check of session `sid` with counter `n`.
  ghost predicate PassedAt(ws: seq<World>, es: seq<Event>, i: nat, id: nat, sid: nat, n: u64) {
    i < |es| < |ws| && Passes(ws[i], es[i].input, id, sid) && es[i].input.nonce == n
  }

  ghost predicate PassedBefore(ws: seq<World>, es: seq<Event>, j: nat, id: nat, sid: nat, n: u64) {
    exists i: nat :: i < j && PassedAt(ws, es, i, id, sid, n)
  }

  lemma RecordedIsPassed(w: World, i: Input, id: nat, sid: nat, n: u64)
    ensures Receipt(sid, n) in Recorded(w, i, id) <==> Passes(w, i, id, sid) && i.nonce == n
  {
  }

  lemma PassedOneMore(ws: seq<World>, es: seq<Event>, j: nat, id: nat, sid: nat, n: u64)
    ensures PassedBefore(ws, es, j + 1, id, sid, n) <==>
            PassedBefore(ws, es, j, id, sid, n) || PassedAt(ws, es, j, id, sid, n)
  {
    if PassedBefore(ws, es, j, id, sid, n) {
      var i: nat :| i < j && PassedAt(ws, es, i, id, sid, n);
      assert i < j + 1;
    }
  }

  lemma NoneBeforeBirth(ws: seq<World>, es: seq<Event>, j: nat, id: nat, sid: nat, n: u64)
    requires Run(ws, es) && j < |ws| && id >= |ws[j].peers|
    ensures !PassedBefore(ws, es, j, id, sid, n)
  {
    if PassedBefore(ws, es, j, id, sid, n) {
      var i: nat :| i < j && PassedAt(ws, es, i, id, sid, n);
      RunEvolves(ws, es, i, j);
      assert false;
    }
  }

  // The receipts of a peer are the messages of the run that got past a replay check.
  ghost predicate Agree(ws: seq<World>, es: seq<Event>, j: nat, id: nat, sid: nat, n: u64) {
    j < |ws| && (PassedBefore(ws, es, j, id, sid, n) <==>
                 id < |ws[j].peers| && Receipt(sid, n) in ws[j].peers[id].hist.received)
  }

  lemma AgreeAtBirth(ws: seq<World>, es: seq<Event>, j: nat, id: nat, sid: nat, n: u64)
    requires Run(ws, es) && j < |ws| && id >= |ws[j].peers|
    ensures Agree(ws, es, j, id, sid, n)
  {
    NoneBeforeBirth(ws, es, j, id, sid, n);
  }

  // If they agree before step `k`, they agree after it.
  ghost predicate KeepsAgreeing(ws: seq<World>, es: seq<Event>, k: nat, id: nat, sid: nat, n: u64) {
    Agree(ws, es, k, id, sid, n) ==> Agree(ws, es, k + 1, id, sid, n)
  }

  lemma {:induction false} AgreeUpTo(ws: seq<World>, es: seq<Event>, j: nat, id: nat, sid: nat, n: u64)
    requires Agree(ws, es, 0, id, sid, n) && forall k: nat :: k < j ==> KeepsAgreeing(ws, es, k, id, sid, n)
    ensures Agree(ws, es, j, id, sid, n)
    decreases j
  {
    if j > 0 {
      AgreeUpTo(ws, es, j - 1, id, sid, n);
      assert KeepsAgreeing(ws, es, j - 1, id, sid, n);
    }
  }

  lemma StepKeepsAgreeing(ws: seq<World>, es: seq<Event>, k: nat, id: nat, sid: nat, n: u64)
    requires Run(ws, es) && k < |es|
    ensures KeepsAgreeing(ws, es, k, id, sid, n)
  {
    if id >= |ws[k + 1].peers| {
      AgreeAtBirth(ws, es, k + 1, id, sid, n);
    } else {
      StepJoins(ws, es, k, id, sid, n);
      if Agree(ws, es, k, id, sid, n) {
        JoinsAgree(ws, es, k, id, sid, n);
      }
    }
  }

  lemma ReceiptsAreMessages(ws: seq<World>, es: seq<Event>, j: nat, id: nat, sid: nat, n: u64)
    requires Run(ws, es) && j < |ws| && id < |ws[j].peers|
    ensures Receipt(sid, n) in ws[j].peers[id].hist.received <==> PassedBefore(ws, es, j, id, sid, n)
  {
    AgreeAtBirth(ws, es, 0, id, sid, n);
    forall k: nat | k < j ensures KeepsAgreeing(ws, es, k, id, sid, n) {
      StepKeepsAgreeing(ws, es, k, id, sid, n);
    }
    AgreeUpTo(ws, es, j, id, sid, n);
  }

  // Message `k` is added to the receipts exactly if it got past the check.
  ghost predicate Joins(ws: seq<World>, es: seq<Event>, k: nat, id: nat, sid: nat, n: u64) {
    && k + 1 < |ws| && id < |ws[k + 1].peers|
    && (Receipt(sid, n) in ws[k + 1].peers[id].hist.received <==>
          (id < |ws[k].peers| && Receipt(sid, n) in ws[k].peers[id].hist.received) || PassedAt(ws, es, k, id, sid, n))
  }

  lemma StepJoins(ws: seq<World>, es: seq<Event>, k: nat, id: nat, sid: nat, n: u64)
    requires Run(ws, es) && k < |es| && id < |ws[k + 1].peers|
    ensures Joins(ws, es, k, id, sid, n)
  {
    LastStepRecords(ws, es, k + 1, id);
    RecordedIsPassed(ws[k], es[k].input, id, sid, n);
  }

  lemma JoinsAgree(ws: seq<World>, es: seq<Event>, k: nat, id: nat, sid: nat, n: u64)
    requires Agree(ws, es, k, id, sid, n) && Joins(ws, es, k, id, sid, n)
    ensures Agree(ws, es, k + 1, id, sid, n)
  {
    PassedOneMore(ws, es, k, id, sid, n);
  }

  lemma LastStepRecords(ws: seq<World>, es: seq<Event>, j: nat, id: nat)
    requires Run(ws, es) && 0 < j < |ws| && id < |ws[j].peers|
    ensures ws[j].peers[id].hist.received ==
            (if id < |ws[j - 1].peers| then ws[j - 1].peers[id].hist.received else []) + Recorded(ws[j - 1], es[j - 1].input, id)
  {
    var e := es[j - 1];
    assert Steps(ws[j - 1], e, ws[j]);
    StepRecords(ws[j - 1], e, ws[j], id);
  }

  // The conditions on a message other than the replay check.
  ghost predicate Usable(w: World, i: Input, id: nat, sid: nat) {
    && Reaches(w, i, id, sid)
    && var s := w.peers[id].Get(w.peers[id].Find(i.index).value).value;
    s.noise.Transport? && i.nonce < REJECT_AFTER_MESSAGES && Elapsed(s.birthday, w.now) < REJECT_AFTER_TIME
  }

  // Counter `n` has no chance after `m`.
  predicate Blocks(m: u64, n: u64) {
    m == n || (m > n && m - n > WINDOW_SIZE)
  }

  // Message `i` of the run keeps counter `n` out of session `sid`.
  ghost predicate BlockedBy(ws: seq<World>, es: seq<Event>, i: nat, id: nat, sid: nat, n: u64) {
    i < |es| < |ws| && Passes(ws[i], es[i].input, id, sid) && Blocks(es[i].input.nonce, n)
  }

  lemma SessionShutOut(w: World, i: Input, id: nat, sid: nat)
    requires Base(w) && Usable(w, i, id, sid)
    ensures var h := w.peers[id].hist;
            !Passes(w, i, id, sid) <==> exists m: u64 :: Receipt(sid, m) in h.received && Blocks(m, i.nonce)
  {
    var p := w.peers[id];
    var s := p.Get(p.Find(i.index).value).value;
    assert SessionOk(s, p.hist, w.now);
    FreshExactly(s.replay, i.nonce);
    if ShutOut(s.replay.accepted, i.nonce) {
      var m: u64 :| m in s.replay.accepted && Blocks(m, i.nonce);
      assert Receipt(sid, m) in p.hist.received;
    }
  }

  // A message that a session would take is refused exactly when some earlier message of the
  // run got past the replay check of that session with the same counter, or with one that is
  // more than the window above. Whether that earlier message was genuine does not matter: the
  // check comes before decryption.
  lemma RefusedExactly(ws: seq<World>, es: seq<Event>, j: nat, id: nat, sid: nat)
    requires Run(ws, es) && j < |es| && Usable(ws[j], es[j].input, id, sid)
    ensures !Passes(ws[j], es[j].input, id, sid) <==>
            exists i: nat :: i < j && BlockedBy(ws, es, i, id, sid, es[j].input.nonce)
  {
    var w, n := ws[j], es[j].input.nonce;
    RunBase(ws, es, j);
    SessionShutOut(w, es[j].input, id, sid);
    if !Passes(w, es[j].input, id, sid) {
      var m: u64 :| Receipt(sid, m) in w.peers[id].hist.received && Blocks(m, n);
      ReceiptsAreMessages(ws, es, j, id, sid, m);
      var i: nat :| i < j && PassedAt(ws, es, i, id, sid, m);
      assert BlockedBy(ws, es, i, id, sid, n);
    }
    forall i: nat | i < j && BlockedBy(ws, es, i, id, sid, n) ensures !Passes(w, es[j].input, id, sid) {
      ReceiptsAreMessages(ws, es, j, id, sid, es[i].input.nonce);
      assert PassedAt(ws, es, i, id, sid, es[i].input.nonce);
    }
  }

  // In particular a message that cannot be decrypted, and that gets past the replay check,
  // shuts out exactly the later messages with its own counter or one too far below: of those
  // that nothing else shuts out.
  lemma ForgedShutsOut(ws: seq<World>, es: seq<Event>, i: nat, j: nat, id: nat, sid: nat)
    requires Run(ws, es) && i < j < |es| && Usable(ws[j], es[j].input, id, sid)
    requires Passes(ws[i], es[i].input, id, sid) && es[i].input.plain.None?
    requires forall k: nat :: k < j && k != i ==> !BlockedBy(ws, es, k, id, sid, es[j].input.nonce)
    ensures !Passes(ws[j], es[j].input, id, sid) <==> Blocks(es[i].input.nonce, es[j].input.nonce)
  {
    RefusedExactly(ws, es, j, id, sid);
    assert BlockedBy(ws, es, i, id, sid, es[j].input.nonce) <==> Blocks(es[i].input.nonce, es[j].input.nonce);
  }
}
