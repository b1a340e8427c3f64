// The server as a whole: one message handled at a time, on the shared objects.
module Dispatch {
  import opened Types
  import opened PeerModel
  import opened PeerObject
  import opened World
  import opened Runs
  import opened Theorems
  import opened PeerServer
  import opened Configuration

  // What arrives at the server. Timers and the configuration channel carry references to peers.
  datatype Arrival =
    | Initiation(addr: Endpoint, admitted: bool, hello: Option<Hello>)
    | Response(addr: Endpoint, admitted: bool, index: u32, theirIndex: u32)
    | TransportMessage(addr: Endpoint, index: u32, nonce: u64, len: nat, plain: Option<Bytes>)
    | Egress(packet: Bytes)
    | Timer(peer: Peer, message: TimerMessage)
    | KeepaliveConfigured(peer: Peer)
    | Configure(update: UpdateEvent, derived: Key)
    | ClockTick(now: nat)

  ghost function InputOf(a: Arrival): Input {
    match a
    case Initiation(addr, admitted, hello) => Input.Initiation(addr, admitted, hello)
    case Response(addr, admitted, index, theirIndex) => Input.Response(addr, admitted, index, theirIndex)
    case TransportMessage(addr, index, nonce, len, plain) => Input.TransportMessage(addr, index, nonce, len, plain)
    case Egress(packet) => Input.Egress(packet)
    case Timer(peer, message) => Input.Timer(peer.id, message)
    case KeepaliveConfigured(peer) => Input.KeepaliveConfigured(peer.id)
    case Configure(update, derived) => Input.Configure(update, derived)
    case ClockTick(now) => Input.ClockTick(now)
  }

  // The peers that a message refers to were made by this server.
  ghost predicate Refers(state: State, a: Arrival)
    reads state`arena
  {
    (a.Timer? ==> state.Known(a.peer)) && (a.KeepaliveConfigured? ==> state.Known(a.peer))
  }

  method Tick(state: State, now: nat, ghost w: World)
    requires state.Represents(w)
    modifies state`now
    ensures state.Represents(w.(now := now))
  {
    state.now := now;
  }

  method FromPeer(state: State, a: Arrival, env: Env, ghost w: World)
    requires state.Represents(w) && Defined(w) && Enabled(w, InputOf(a))
    requires a.Initiation? || a.Response? || a.TransportMessage? || a.Egress?
    modifies state, state.arena
    ensures state.Represents(Handle(w, env, InputOf(a)))
  {
    match a
    case Initiation(addr, admitted, hello) => HandleIngressHandshakeInit(state, addr, admitted, hello, env, w);
    case Response(addr, admitted, index, theirIndex) => HandleIngressHandshakeResp(state, addr, admitted, index, theirIndex, env, w);
    case TransportMessage(addr, index, nonce, len, plain) => HandleIngressTransport(state, addr, index, nonce, len, plain, env, w);
    case Egress(packet) => HandleEgressPacket(state, packet, env, w);
  }

  method FromWithin(state: State, a: Arrival, env: Env, ghost w: World)
    requires state.Represents(w) && Defined(w) && Enabled(w, InputOf(a)) && Refers(state, a)
    requires a.Timer? || a.KeepaliveConfigured? || a.Configure? || a.ClockTick?
    modifies state, state.arena
    ensures state.Represents(Handle(w, env, InputOf(a)))
  {
    match a
    case Timer(peer, message) =>
      assert Handle(w, env, InputOf(a)) == OnTimer(w, peer.id, message, env);
      HandleTimer(state, peer, message, env, w);
    case KeepaliveConfigured(peer) =>
      assert Handle(w, env, InputOf(a)) == OnKeepaliveConfigured(w, peer.id, env);
      HandleNewKeepalive(state, peer, env, w);
    case Configure(update, derived) =>
      assert Handle(w, env, InputOf(a)) == HandleUpdate(w, update, derived).0;
      var _ := HandleUpdateEvent(state, update, derived, w);
    case ClockTick(now) =>
      Tick(state, now, w);
  }

  // ----- The objects go through the states of a run -----

  // A state that some run reaches.
  ghost predicate Reachable(w: World) {
    exists ws, es :: Run(ws, es) && ws[|ws| - 1] == w
  }

  lemma ReachableIsDefined(w: World)
    requires Reachable(w)
    ensures Defined(w)
  {
    var ws, es :| Run(ws, es) && ws[|ws| - 1] == w;
    RunBase(ws, es, |ws| - 1);
  }

  lemma ReachableStep(w: World, e: Event, v: World)
    requires Reachable(w) && Steps(w, e, v)
    ensures Reachable(v)
  {
    var ws, es :| Run(ws, es) && ws[|ws| - 1] == w;
    RunExtends(ws, es, e, v);
    assert (ws + [v])[|ws + [v]| - 1] == v;
  }

  // A server starts in the first state of every run.
  method Start() returns (state: State)
    ensures fresh(state) && state.arena == [] && state.Represents(EMPTY_WORLD) && Reachable(EMPTY_WORLD)
  {
    state := new State();
    assert Run([EMPTY_WORLD], []);
    assert [EMPTY_WORLD][|[EMPTY_WORLD]| - 1] == EMPTY_WORLD;
  }

  // Handling one message takes the objects from one state of a run to the next, so what is
  // proved of all runs holds of the objects at any time.
  method HandleArrival(state: State, a: Arrival, env: Env, ghost w: World)
    requires state.Represents(w) && Reachable(w) && Enabled(w, InputOf(a)) && Refers(state, a)
    modifies state, state.arena
    ensures Defined(w) && state.Represents(Handle(w, env, InputOf(a))) && Reachable(Handle(w, env, InputOf(a)))
  {
    ReachableIsDefined(w);
    ReachableStep(w, Event(env, InputOf(a)), Handle(w, env, InputOf(a)));
    if a.Initiation? || a.Response? || a.TransportMessage? || a.Egress? {
      FromPeer(state, a, env, w);
    } else {
      FromWithin(state, a, env, w);
    }
  }
}
