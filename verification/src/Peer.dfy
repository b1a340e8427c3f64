// The peer as an object that its methods update in place (src/peer.rs). Each method is
// proved against the operation of PeerState of the same purpose.
module PeerObject {
  import opened Types
  import opened Consts
  import opened Timestamps
  import opened IpPackets
  import opened AntiReplay
  import opened PeerModel

  // A session as the peer stores it. `sid` and `accepted` are what the specification knows of
  // it beyond that: its name, and every counter its filter has let through.
  datatype Stored = Stored(
    noise: Noise,
    ourIndex: u32,
    theirIndex: u32,
    filter: Filter,
    birthday: Timestamp,
    ghost sid: nat,
    ghost accepted: set<u64>)
  {
    ghost function View(): Session {
      Session(sid, noise, ourIndex, theirIndex, Seen(filter.last, accepted), birthday)
    }

    ghost predicate Valid() {
      filter.Holds(accepted)
    }
  }

  ghost function ViewOf(s: Option<Stored>): Option<Session> {
    if s.Some? then Some(s.value.View()) else None
  }

  ghost predicate ValidSlot(s: Option<Stored>) {
    s.Some? ==> s.value.Valid()
  }

  function StoredIndex(s: Option<Stored>): (i: Option<u32>)
    ensures i == IndexOf(ViewOf(s))
  {
    if s.Some? then Some(s.value.ourIndex) else None
  }

  class Peer {
    ghost const id: nat
    var info: PeerInfo
    var past: Option<Stored>
    var current: Option<Stored>
    var next: Option<Stored>
    var timers: Timers
    var lastTai64n: Option<Bytes>
    var queue: seq<Bytes>
    // What the peer has done so far.
    ghost var hist: History

    ghost function State(): PeerState
      reads this
    {
      PeerState(info, ViewOf(past), ViewOf(current), ViewOf(next), timers, lastTai64n, queue, hist)
    }

    // The filter of every session agrees with the counters that it has let through.
    ghost predicate Valid()
      reads this
    {
      ValidSlot(past) && ValidSlot(current) && ValidSlot(next)
    }

    constructor (ghost id: nat, info: PeerInfo)
      ensures this.id == id && State() == NewPeer(info) && Valid()
    {
      this.id := id;
      this.info := info;
      past, current, next := None, None, None;
      timers := NO_TIMERS;
      lastTai64n := None;
      queue := [];
      hist := NO_HISTORY;
    }

    method FindSession(index: u32) returns (t: Option<SessionType>)
      ensures t == State().Find(index)
      ensures t.Some? ==> State().Get(t.value).Some? && State().Get(t.value).value.ourIndex == index
      ensures t.None? ==> index !in State().Indices()
    {
      if next.Some? && next.value.ourIndex == index {
        return Some(Next);
      } else if current.Some? && current.value.ourIndex == index {
        return Some(Current);
      } else if past.Some? && past.value.ourIndex == index {
        return Some(Past);
      }
      return None;
    }

    method GetMappedIndices() returns (indices: seq<u32>)
      ensures (set i | i in indices) == State().Indices()
    {
      indices := [];
      if past.Some? { indices := indices + [past.value.ourIndex]; }
      if current.Some? { indices := indices + [current.value.ourIndex]; }
      if next.Some? { indices := indices + [next.value.ourIndex]; }
    }

    method Wipe() returns (indices: seq<u32>)
      requires Valid()
      modifies this
      ensures Valid() && State() == old(State()).Wipe()
      ensures (set i | i in indices) == old(State().Indices())
    {
      indices := GetMappedIndices();
      past, current, next := None, None, None;
    }

    method NeedsNewHandshake(sending: bool, now: nat) returns (needs: bool)
      requires State().CanAskNonce()
      ensures needs == State().NeedsNewHandshake(sending, now)
    {
      if next.Some? {
        return timers.handshakeAttempts >= MAX_HANDSHAKE_ATTEMPTS;
      }
      if current.None? {
        return true;
      }
      if sending && Elapsed(timers.handshakeCompleted, now) > REKEY_AFTER_TIME {
        return true;
      }
      if !sending && Elapsed(timers.handshakeCompleted, now) > REKEY_AFTER_TIME_RECV {
        return true;
      }
      return current.value.noise.sendNonce >= REKEY_AFTER_MESSAGES;
    }

    method ReadyForTransport(now: nat) returns (ready: bool)
      requires State().CanAskNonce()
      ensures ready == State().ReadyForTransport(now)
    {
      if current.None? {
        return false;
      }
      return Elapsed(current.value.birthday, now) < REJECT_AFTER_TIME
          && current.value.noise.sendNonce < REJECT_AFTER_MESSAGES;
    }

    method QueueEgress(packet: Bytes)
      requires Valid()
      modifies this
      ensures Valid() && State() == old(State()).QueueEgress(packet)
    {
      if |queue| < MAX_QUEUED_PACKETS {
        queue := queue + [packet];
        timers := timers.(handshakeAttempts := 0);
        hist := hist.(queued := hist.queued + [packet]);
      }
    }

    // Takes the packet at the head of the queue.
    method PopQueue() returns (packet: Bytes)
      requires Valid() && queue != []
      modifies this
      ensures packet == old(queue[0])
      ensures Valid() && State() == old(State()).(queue := old(queue[1..]))
    {
      packet := queue[0];
      queue := queue[1..];
    }

    // Takes the whole queue.
    method TakeQueue() returns (packets: seq<Bytes>)
      requires Valid()
      modifies this
      ensures packets == old(queue)
      ensures Valid() && State() == old(State()).(queue := [])
    {
      packets := queue;
      queue := [];
    }

    method MarkInitiated(now: nat)
      requires Valid()
      modifies this
      ensures Valid() && State() == old(State()).MarkInitiated(now)
    {
      timers := timers.(handshakeInitialized := Some(now));
      hist := hist.(initiations := hist.initiations + [now]);
    }

    method CountRetry()
      requires Valid()
      modifies this
      ensures Valid() && State() == old(State()).CountRetry()
    {
      timers := timers.(handshakeAttempts := timers.handshakeAttempts + 1);
      hist := hist.(retries := hist.retries + 1);
    }

    method MarkKeepalive()
      requires Valid()
      modifies this
      ensures Valid() && State() == old(State()).MarkKeepalive()
    {
      timers := timers.(keepaliveSent := true);
    }

    method Reconfigure(info: PeerInfo)
      requires Valid()
      modifies this
      ensures Valid() && State() == old(State()).Reconfigure(info)
    {
      this.info := info;
    }

    // Stores a new session as next and gives back the index that falls out.
    method PushNext(noise: Noise, index: u32, theirIndex: u32, birthday: Timestamp) returns (dead: Option<u32>)
      requires Valid()
      modifies this
      ensures Valid()
      ensures State() == old(State()).Push(Session(old(hist.nextSid), noise, index, theirIndex, EMPTY, birthday))
      ensures dead == old(State()).PushedOut()
    {
      NewFilterHolds();
      var oldNext := next;
      next := Some(Stored(noise, index, theirIndex, NEW_FILTER, birthday, hist.nextSid, {}));
      if oldNext.Some? {
        dead := StoredIndex(past);
        past := oldNext;
      } else {
        dead := None;
      }
      hist := hist.(nextSid := hist.nextSid + 1);
    }

    method InitiateNewSession(index: u32, noise: bool) returns (r: Result<Option<u32>>)
      requires Valid()
      modifies this
      ensures Valid()
      ensures r.Ok? <==> noise && old(info).endpoint.Some?
      ensures r.Err? ==> State() == old(State())
      ensures r.Ok? ==> State() == old(State()).Initiate(index) && r.value == old(State()).PushedOut()
    {
      if !noise || info.endpoint.None? {
        return Err;
      }
      var dead := PushNext(Handshake, index, 0, None);
      return Ok(dead);
    }

    method CompleteIncomingHandshake(addr: Endpoint, index: u32, theirIndex: u32, tai: Bytes, noise: bool, now: nat)
      returns (r: Result<Option<u32>>)
      requires Valid()
      modifies this
      ensures Valid()
      ensures r.Ok? <==> noise && old(State()).Newer(tai)
      ensures r.Err? ==> State() == old(State())
      ensures r.Ok? ==> State() == old(State()).CompleteIncoming(addr, index, theirIndex, tai, now)
      ensures r.Ok? ==> r.value == old(State()).PushedOut()
    {
      if lastTai64n.Some? && !LexLess(lastTai64n.value, tai) {
        return Err;
      }
      if !noise {
        return Err;
      }
      var dead := PushNext(Transport(0), index, theirIndex, Some(now));
      info := info.(endpoint := Some(addr));
      lastTai64n := Some(tai);
      timers := timers.(authenticatedReceived := Some(now), authenticatedTraversed := Some(now));
      hist := hist.(timestamps := hist.timestamps + [tai]);
      return Ok(dead);
    }

    method ProcessIncomingHandshakeResponse(addr: Endpoint, theirIndex: u32, noise: bool, now: nat)
      returns (r: Result<Option<u32>>)
      requires Valid()
      modifies this
      ensures Valid()
      ensures r.Ok? <==> old(State()).next.Some? && noise
      ensures r.Err? ==> State() == if old(State()).next.Some? then old(State()).DropNext() else old(State())
      ensures r.Ok? ==> State() == old(State()).AcceptResponse(addr, theirIndex, now)
      ensures r.Ok? ==> r.value == IndexOf(old(State()).past)
    {
      var session := next;
      next := None;
      if session.None? || !noise {
        return Err;
      }
      var ready := session.value.(noise := if session.value.noise.Handshake? then Transport(0) else session.value.noise,
                                  theirIndex := theirIndex,
                                  birthday := Some(now));
      info := info.(endpoint := Some(addr));
      timers := timers.(authenticatedReceived := Some(now),
                        authenticatedTraversed := Some(now),
                        handshakeCompleted := Some(now));
      var dead := StoredIndex(past);
      past := current;
      current := Some(ready);
      return Ok(dead);
    }

    method PutSession(t: SessionType, session: Stored)
      requires Valid() && session.Valid()
      modifies this
      ensures Valid() && State() == old(State()).Put(t, session.View())
    {
      match t
      case Past => past := Some(session);
      case Current => current := Some(session);
      case Next => next := Some(session);
    }

    method GetSession(t: SessionType) returns (session: Option<Stored>)
      requires Valid()
      ensures ViewOf(session) == State().Get(t) && ValidSlot(session)
    {
      match t
      case Past => session := past;
      case Current => session := current;
      case Next => session := next;
    }

    // Offers the counter to the filter of a session.
    method Record(t: SessionType, session: Stored, nonce: u64) returns (ok: bool)
      requires Valid() && session.Valid() && State().Get(t) == Some(session.View())
      modifies this
      ensures Valid() && (ok <==> session.View().replay.Fresh(nonce))
      ensures State() == if ok then old(State()).Record(t, nonce) else old(State())
    {
      var filter;
      ok, filter := PassFilter(session.filter, nonce, session.accepted);
      if ok {
        PutSession(t, session.(filter := filter, accepted := session.accepted + {nonce}));
        hist := hist.(received := hist.received + [Receipt(session.sid, nonce)]);
      }
    }

    // A message on session `t` was decrypted to `raw`.
    method Authenticate(t: SessionType, addr: Endpoint, raw: Bytes, now: nat) returns (dead: Option<u32>)
      requires Valid() && State().Get(t).Some?
      modifies this
      ensures Valid() && State() == old(State()).Authenticated(t, addr, raw, now)
      ensures dead == if t.Next? then IndexOf(old(State()).past) else None
    {
      if raw != [] {
        timers := timers.(dataReceived := Some(now));
      }
      timers := timers.(authenticatedReceived := Some(now), authenticatedTraversed := Some(now), keepaliveSent := false);
      dead := None;
      if t.Next? {
        var promoted := next;
        next := None;
        dead := StoredIndex(past);
        past := current;
        current := promoted;
        timers := timers.(handshakeCompleted := Some(now));
      }
      info := info.(endpoint := Some(addr));
    }

    method HandleIncomingTransport(addr: Endpoint, index: u32, nonce: u64, messageLen: nat, plain: Option<Bytes>, now: nat)
      returns (r: Result<Inbound>)
      requires Valid() && (plain.Some? ==> |plain.value| <= messageLen)
      modifies this
      ensures Valid() && (State(), r) == old(State()).Incoming(addr, index, nonce, messageLen, plain, now)
    {
      var t := FindSession(index);
      if t.None? {
        return Err;
      }
      var found := GetSession(t.value);
      var session := found.value;
      if session.noise.Handshake? || nonce >= REJECT_AFTER_MESSAGES || Elapsed(session.birthday, now) >= REJECT_AFTER_TIME {
        return Err;
      }
      var passed := Record(t.value, session, nonce);
      if !passed || plain.None? {
        return Err;
      }
      var raw := Unpad(plain.value, messageLen);
      if raw.Err? {
        return Err;
      }
      var dead := Authenticate(t.value, addr, raw.value, now);
      return Ok(Inbound(raw.value, t.value.Next?, dead));
    }

    method HandleOutgoingTransport(packet: Bytes, ghost slot: Option<nat>, writes: bool, now: nat) returns (r: Result<Outbound>)
      requires Valid()
      modifies this
      ensures Valid() && (State(), r) == old(State()).Outgoing(packet, slot, writes, now)
    {
      if current.None? || info.endpoint.None? {
        return Err;
      }
      var session := current.value;
      if session.noise.Handshake?
        || session.noise.sendNonce >= REJECT_AFTER_MESSAGES
        || Elapsed(session.birthday, now) >= REJECT_AFTER_TIME
        || !writes
      {
        return Err;
      }
      var nonce := session.noise.sendNonce;
      current := Some(session.(noise := Transport(nonce + 1)));
      if packet != [] {
        timers := timers.(dataSent := Some(now));
      }
      timers := timers.(authenticatedTraversed := Some(now));
      var message := Outbound(info.endpoint.value, session.theirIndex, nonce, Pad(packet));
      hist := hist.(sent := hist.sent + [Sent(session.sid, slot, packet, message)]);
      return Ok(message);
    }
  }
}
