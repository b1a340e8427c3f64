// What duplicated messages do, in terms of the messages of a run alone.
module Replays {
  import opened Types
  import opened Timestamps
  import opened PeerModel
  import opened PeerInvariants
  import opened World
  import opened WorldInvariants
  import opened StepInvariants
  import opened Runs
  import opened Theorems

  // ----- Transport messages -----

  // The message reaches session `sid` of peer `id`.
  ghost predicate Reaches(w: World, i: Input, id: nat, sid: nat) {
    && i.TransportMessage? && i.index in w.indexMap && w.indexMap[i.index] == id && id < |w.peers|
    && w.peers[id].Find(i.index).Some?
    && w.peers[id].Get(w.peers[id].Find(i.index).value).value.sid == sid
  }

  // The message reaches a session and gets past its replay check.
  ghost predicate Passes(w: World, i: Input, id: nat, sid: nat) {
    Reaches(w, i, id, sid) && w.peers[id].Admits(w.peers[id].Find(i.index).value, i.nonce, w.now)
  }

  lemma PassedIsRecorded(w: World, i: Input, id: nat, sid: nat)
    requires Passes(w, i, id, sid) && Enabled(w, i)
    ensures var q := w.peers[id].Incoming(i.addr, i.index, i.nonce, i.len, i.plain, w.now).0;
            Receipt(sid, i.nonce) in q.hist.received
  {
    var p := w.peers[id];
    var t := p.Find(i.index).value;
    assert Receipt(sid, i.nonce) in p.Record(t, i.nonce).hist.received;
  }

  lemma TransportRecords(w: World, i: Input, env: Env, id: nat, sid: nat)
    requires Base(w) && Defined(w) && Passes(w, i, id, sid) && Enabled(w, i)
    ensures var v := OnTransport(w, i.addr, i.index, i.nonce, i.len, i.plain, env);
            id < |v.peers| && Receipt(sid, i.nonce) in v.peers[id].hist.received
  {
    PassedIsRecorded(w, i, id, sid);
    ReceiveParts(w, i, env);
    ReceiveBase(w, i.addr, i.index, i.nonce, i.len, i.plain, env);
    AfterReceive(Receive(w, i.addr, i.index, i.nonce, i.len, i.plain, env), id, env, Receipt(sid, i.nonce));
  }

  lemma AfterReceive(t: (World, Result<Bytes>), id: nat, env: Env, m: Receipt)
    requires Base(t.0) && Defined(t.0) && id < |t.0.peers| && m in t.0.peers[id].hist.received
    ensures var v := if t.1.Err? then t.0 else Proceed(t.0, id, t.1.value, env);
            id < |v.peers| && m in v.peers[id].hist.received
  {
    if t.1.Ok? {
      ProceedBase(t.0, id, t.1.value, env);
      assert Evolves(t.0.peers[id], Proceed(t.0, id, t.1.value, env).peers[id]);
    }
  }

  // Of two messages of a run that reach one session with the same counter, at most one gets
  // past the replay check, whatever comes between them and wherever the session has moved;
  // the other one changes nothing.
  lemma ReplayRefused(ws: seq<World>, es: seq<Event>, i: nat, j: nat, id: nat, sid: nat)
    requires Run(ws, es) && i < j < |es|
    requires Passes(ws[i], es[i].input, id, sid) && Reaches(ws[j], es[j].input, id, sid)
    requires es[i].input.nonce == es[j].input.nonce
    ensures !Passes(ws[j], es[j].input, id, sid) && ws[j + 1] == ws[j]
  {
    RecordedSince(ws, es, i, j, id, sid);
    RefusedInRun(ws, es, j, id, sid);
  }

  lemma RecordedSince(ws: seq<World>, es: seq<Event>, i: nat, j: nat, id: nat, sid: nat)
    requires Run(ws, es) && i < j < |es| && Passes(ws[i], es[i].input, id, sid)
    ensures id < |ws[j].peers| && Receipt(sid, es[i].input.nonce) in ws[j].peers[id].hist.received
  {
    Recorded(ws, es, i, id, sid);
    StillRecorded(ws, es, i + 1, j, id, Receipt(sid, es[i].input.nonce));
  }

  lemma RefusedInRun(ws: seq<World>, es: seq<Event>, j: nat, id: nat, sid: nat)
    requires Run(ws, es) && j < |es| && Reaches(ws[j], es[j].input, id, sid)
    requires Receipt(sid, es[j].input.nonce) in ws[j].peers[id].hist.received
    ensures !Passes(ws[j], es[j].input, id, sid) && ws[j + 1] == ws[j]
  {
    assert Steps(ws[j], es[j], ws[j + 1]);
    RunBase(ws, es, j);
    Refused(ws[j], es[j], ws[j + 1], id, sid);
  }

  lemma StillRecorded(ws: seq<World>, es: seq<Event>, i: nat, j: nat, id: nat, m: Receipt)
    requires Run(ws, es) && i <= j < |ws| && id < |ws[i].peers| && m in ws[i].peers[id].hist.received
    ensures id < |ws[j].peers| && m in ws[j].peers[id].hist.received
  {
    PeerInRun(ws, es, i, j, id);
    StillReceived(ws[i].peers[id], ws[j].peers[id], m);
  }

  lemma Refused(w: World, e: Event, v: World, id: nat, sid: nat)
    requires Base(w) && Steps(w, e, v) && Reaches(w, e.input, id, sid)
    requires Receipt(sid, e.input.nonce) in w.peers[id].hist.received
    ensures !Passes(w, e.input, id, sid) && v == w
  {
    var p := w.peers[id];
    RefusesReceived(p, p.Find(e.input.index).value, e.input.nonce, w.now);
    RefusedChangesNothing(w, e.input, id, e.env);
  }

  lemma Recorded(ws: seq<World>, es: seq<Event>, i: nat, id: nat, sid: nat)
    requires Run(ws, es) && i < |es| && Passes(ws[i], es[i].input, id, sid)
    ensures id < |ws[i + 1].peers| && Receipt(sid, es[i].input.nonce) in ws[i + 1].peers[id].hist.received
  {
    var m := es[i].input;
    assert Steps(ws[i], es[i], ws[i + 1]);
    RunBase(ws, es, i);
    TransportRecords(ws[i], m, es[i].env, id, sid);
  }

  lemma StillReceived(p: PeerState, q: PeerState, m: Receipt)
    requires p.hist.received <= q.hist.received && m in p.hist.received
    ensures m in q.hist.received
  {
    var a :| 0 <= a < |p.hist.received| && p.hist.received[a] == m;
    assert q.hist.received[a] == m;
  }

  lemma RefusedChangesNothing(w: World, i: Input, id: nat, env: Env)
    requires Defined(w) && i.TransportMessage? && Enabled(w, i) && i.index in w.indexMap && w.indexMap[i.index] == id
    requires w.peers[id].Incoming(i.addr, i.index, i.nonce, i.len, i.plain, w.now) == (w.peers[id], Err)
    ensures OnTransport(w, i.addr, i.index, i.nonce, i.len, i.plain, env) == w
  {
    assert SetPeer(w, id, w.peers[id]) == w;
  }

  // ----- Initiations -----

  // The initiation names the public key of peer `id`.
  ghost predicate Names(w: World, i: Input, id: nat) {
    && i.Initiation? && i.hello.Some?
    && i.hello.value.pubKey in w.pubkeyMap && w.pubkeyMap[i.hello.value.pubKey] == id
  }

  lemma AcceptedIsRecorded(w: World, i: Input, env: Env, id: nat)
    requires Defined(w) && Names(w, i, id)
    ensures var v := OnInitiation(w, i.addr, i.admitted, i.hello, env);
            v != w ==> id < |v.peers| && v.peers[id].hist.timestamps == w.peers[id].hist.timestamps + [i.hello.value.tai]
  {
  }

  // An initiation that is no newer than one the peer has accepted before is ignored.
  lemma InitiationReplayIgnored(ws: seq<World>, es: seq<Event>, i: nat, j: nat, id: nat)
    requires Run(ws, es) && i < j < |es| && ws[i + 1] != ws[i]
    requires Names(ws[i], es[i].input, id) && Names(ws[j], es[j].input, id)
    requires var t, u := es[i].input.hello.value.tai, es[j].input.hello.value.tai; u == t || LexLess(u, t)
    ensures ws[j + 1] == ws[j]
  {
    assert Steps(ws[i], es[i], ws[i + 1]) && Steps(ws[j], es[j], ws[j + 1]);
    AcceptedIsRecorded(ws[i], es[i].input, es[i].env, id);
    var h := ws[i + 1].peers[id].hist.timestamps;
    NoInitiationTwice(ws, es, i + 1, j, id, |h| - 1, es[j].input.hello.value.tai);
  }
}
