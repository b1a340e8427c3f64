// Whole runs of the system: what holds in every state that can be reached, and between
// any two states of one run.
module Runs {
  import opened Types
  import opened PeerInvariants
  import opened World
  import opened WorldInvariants
  import opened StepInvariants
  import opened RunTheory

  datatype Event = Event(env: Env, input: Input)

  ghost predicate Steps(w: World, e: Event, v: World) {
    Defined(w) && Enabled(w, e.input) && v == Handle(w, e.env, e.input)
  }

  // ----- One step -----

  lemma TickBase(w: World, now: nat)
    requires Base(w) && w.now <= now
    ensures BaseStep(w, w.(now := now))
  {
    var v := w.(now := now);
    assert PeersOk(v) by {
      forall id | 0 <= id < |v.peers| ensures PeerInv(v.peers[id], now) {
        Later(w.peers[id], w.now, now);
      }
    }
    assert ConfigOk(v) by {
      forall r | r in v.routes ensures Live(v, v.routes[r]) {
        assert Live(w, w.routes[r]);
      }
    }
    WorldEvolvesReflexive(w);
  }

  predicate FromPeers(i: Input) {
    i.Initiation? || i.Response? || i.TransportMessage? || i.Egress?
  }

  lemma PeerHandlerBase(w: World, e: Event, v: World)
    requires Base(w) && Steps(w, e, v) && FromPeers(e.input)
    ensures BaseStep(w, v)
  {
    match e.input
    case Initiation(addr, admitted, hello) =>
      assert v == OnInitiation(w, addr, admitted, hello, e.env);
      OnInitiationOk(w, addr, admitted, hello, e.env);
    case Response(addr, admitted, index, theirIndex) =>
      assert v == OnResponse(w, addr, admitted, index, theirIndex, e.env);
      OnResponseBase(w, addr, admitted, index, theirIndex, e.env);
    case TransportMessage(addr, index, nonce, len, plain) =>
      assert v == OnTransport(w, addr, index, nonce, len, plain, e.env);
      OnTransportBase(w, addr, index, nonce, len, plain, e.env);
    case Egress(packet) =>
      assert v == OnEgress(w, packet, e.env);
      OnEgressOk(w, packet, e.env);
  }

  lemma OtherHandlerBase(w: World, e: Event, v: World)
    requires Base(w) && Steps(w, e, v) && !FromPeers(e.input)
    ensures BaseStep(w, v)
  {
    match e.input
    case Timer(id, message) =>
      assert v == OnTimer(w, id, message, e.env);
      OnTimerBase(w, id, message, e.env);
    case KeepaliveConfigured(id) =>
      assert v == OnKeepaliveConfigured(w, id, e.env);
      OnKeepaliveConfiguredOk(w, id, e.env);
    case Configure(update, derived) =>
      assert v == HandleUpdate(w, update, derived).0;
      HandleUpdateBase(w, update, derived);
    case ClockTick(now) =>
      assert v == w.(now := now);
      TickBase(w, now);
  }

  lemma StepBase(w: World, e: Event, v: World)
    requires Base(w) && Steps(w, e, v)
    ensures BaseStep(w, v)
  {
    if FromPeers(e.input) {
      PeerHandlerBase(w, e, v);
    } else {
      OtherHandlerBase(w, e, v);
    }
  }

  // The step removes one peer and leaves an entry of the index map that leads to it.
  ghost predicate LeavesStale(w: World, i: Input) {
    && i.Configure?
    && Removes(w, i.update, i.derived).Some?
    && !Removable(w, w.pubkeyMap[Removes(w, i.update, i.derived).value])
  }

  lemma PeerHandlerLink(w: World, e: Event, v: World)
    requires Base(w) && Steps(w, e, v) && FromPeers(e.input) && IndexOk(w)
    ensures IndexOk(v) && DropsOrKeeps(w, e.env, e.input, v)
  {
    match e.input
    case Initiation(addr, admitted, hello) =>
      assert v == OnInitiation(w, addr, admitted, hello, e.env);
      OnInitiationOk(w, addr, admitted, hello, e.env);
    case Response(addr, admitted, index, theirIndex) =>
      assert v == OnResponse(w, addr, admitted, index, theirIndex, e.env);
      OnResponseLink(w, addr, admitted, index, theirIndex, e.env);
    case TransportMessage(addr, index, nonce, len, plain) =>
      assert v == OnTransport(w, addr, index, nonce, len, plain, e.env);
      OnTransportLink(w, addr, index, nonce, len, plain, e.env);
    case Egress(packet) =>
      assert v == OnEgress(w, packet, e.env);
      OnEgressOk(w, packet, e.env);
  }

  lemma OtherHandlerLink(w: World, e: Event, v: World)
    requires Base(w) && Steps(w, e, v) && !FromPeers(e.input) && IndexOk(w)
    ensures IndexOk(v) <==> !LeavesStale(w, e.input)
    ensures NoNewStale(w, v) && (Exact(w) ==> !LeavesStale(w, e.input))
  {
    match e.input
    case Timer(id, message) =>
      assert v == OnTimer(w, id, message, e.env);
      if Held(w, id) {
        HeldIsLive(w, id);
      }
      OnTimerLink(w, id, message, e.env);
    case KeepaliveConfigured(id) =>
      assert v == OnKeepaliveConfigured(w, id, e.env);
      OnKeepaliveConfiguredOk(w, id, e.env);
    case Configure(update, derived) =>
      assert v == HandleUpdate(w, update, derived).0;
      HandleUpdateLink(w, update, derived);
    case ClockTick(now) =>
      assert v == w.(now := now);
      NewRoutesLink(w, v);
  }

  // Exactly these two kinds of step break the agreement between the index map and the
  // sessions: removing a peer to which a stale index leads, and dropping the next session
  // on a response that cannot be read.
  lemma StepLink(w: World, e: Event, v: World)
    requires Base(w) && Steps(w, e, v) && IndexOk(w)
    ensures IndexOk(v) <==> !LeavesStale(w, e.input)
    ensures DropsOrKeeps(w, e.env, e.input, v)
    ensures Exact(w) ==> !LeavesStale(w, e.input) && (Exact(v) <==> !DropsNext(w, e.env, e.input))
  {
    if FromPeers(e.input) {
      PeerHandlerLink(w, e, v);
    } else {
      OtherHandlerLink(w, e, v);
    }
    if Exact(w) && !DropsNext(w, e.env, e.input) {
      ExactMeansNoneStale(w, v);
    }
  }

  // ----- Every run -----

  lemma EmptyOk()
    ensures Base(EMPTY_WORLD) && IndexOk(EMPTY_WORLD) && Exact(EMPTY_WORLD)
  {
  }

  lemma BasePreserved()
    ensures Preserves(Steps, Base)
  {
    forall w, e, v | Base(w) && Steps(w, e, v) ensures Base(v) {
      StepBase(w, e, v);
    }
  }

  // In every reachable state every peer keeps its own invariant and the configuration is
  // consistent, so every enabled step can be taken.
  lemma RunBase(ws: seq<World>, es: seq<Event>, i: nat)
    requires IsRun(EMPTY_WORLD, Steps, ws, es) && i < |ws|
    ensures Base(ws[i]) && Defined(ws[i])
  {
    EmptyOk();
    BasePreserved();
    Invariant(EMPTY_WORLD, Steps, Base, ws, es, i);
    BaseIsDefined(ws[i]);
  }

  lemma EvolvesOrders()
    ensures Orders(Steps, Base, WorldEvolves)
  {
    forall w ensures WorldEvolves(w, w) {
      WorldEvolvesReflexive(w);
    }
    forall u, v, w | WorldEvolves(u, v) && WorldEvolves(v, w) ensures WorldEvolves(u, w) {
      WorldEvolvesTransitive(u, v, w);
    }
    forall w, e, v | Base(w) && Steps(w, e, v) ensures WorldEvolves(w, v) {
      StepBase(w, e, v);
    }
  }

  lemma RunEvolves(ws: seq<World>, es: seq<Event>, i: nat, j: nat)
    requires IsRun(EMPTY_WORLD, Steps, ws, es) && i <= j < |ws|
    ensures WorldEvolves(ws[i], ws[j])
  {
    EmptyOk();
    BasePreserved();
    EvolvesOrders();
    Monotone(EMPTY_WORLD, Steps, Base, WorldEvolves, ws, es, i, j);
  }

  // ----- The index map -----

  ghost predicate StepsWithoutStale(w: World, e: Event, v: World) {
    Steps(w, e, v) && !LeavesStale(w, e.input)
  }

  ghost predicate StepsWithoutDrop(w: World, e: Event, v: World) {
    Steps(w, e, v) && !DropsNext(w, e.env, e.input)
  }

  ghost predicate StepsWithoutRemoval(w: World, e: Event, v: World) {
    Steps(w, e, v) && (e.input.Configure? ==> Removes(w, e.input.update, e.input.derived).None?)
  }

  ghost predicate Mapping(w: World) {
    Base(w) && IndexOk(w)
  }

  ghost predicate Mirroring(w: World) {
    Base(w) && IndexOk(w) && Exact(w)
  }

  lemma MappingPreserved()
    ensures Preserves(StepsWithoutStale, Mapping)
  {
    forall w, e, v | Mapping(w) && StepsWithoutStale(w, e, v) ensures Mapping(v) {
      StepBase(w, e, v);
      StepLink(w, e, v);
    }
  }

  lemma MirroringPreserved()
    ensures Preserves(StepsWithoutDrop, Mirroring)
  {
    forall w, e, v | Mirroring(w) && StepsWithoutDrop(w, e, v) ensures Mirroring(v) {
      StepBase(w, e, v);
      StepLink(w, e, v);
    }
  }

  // Every peer object that some map refers to is configured.
  ghost predicate HeldAreLive(w: World) {
    forall id: nat :: Held(w, id) ==> Live(w, id)
  }

  // The index map is exactly the map from the indices of the sessions of configured peers.
  ghost predicate MapsSessions(w: World) {
    forall id: nat, x: u32 :: (x in w.indexMap && w.indexMap[x] == id) <==> (Live(w, id) && x in w.peers[id].Indices())
  }

  lemma MappingHolds(w: World)
    requires ConfigOk(w) && OwnersLive(w)
    ensures HeldAreLive(w)
  {
    forall id: nat | Held(w, id) ensures Live(w, id) {
      HeldIsLive(w, id);
    }
  }

  lemma ExactMapsSessions(w: World)
    requires OwnersLive(w) && SessionsMapped(w) && Exact(w)
    ensures MapsSessions(w)
  {
    forall id: nat, x: u32 | x in w.indexMap && w.indexMap[x] == id
      ensures Live(w, id) && x in w.peers[id].Indices()
    {
    }
  }

  lemma RunMapping(ws: seq<World>, es: seq<Event>, i: nat)
    requires IsRun(EMPTY_WORLD, StepsWithoutStale, ws, es) && i < |ws|
    ensures Mapping(ws[i])
  {
    EmptyOk();
    MappingPreserved();
    Invariant(EMPTY_WORLD, StepsWithoutStale, Mapping, ws, es, i);
  }

  lemma RunMirroring(ws: seq<World>, es: seq<Event>, i: nat)
    requires IsRun(EMPTY_WORLD, StepsWithoutDrop, ws, es) && i < |ws|
    ensures Mirroring(ws[i])
  {
    EmptyOk();
    MirroringPreserved();
    Invariant(EMPTY_WORLD, StepsWithoutDrop, Mirroring, ws, es, i);
  }

  // In every run in which no peer is removed while some index that is not one of its
  // sessions leads to it, each session of a configured peer is found under its own index,
  // and no two sessions share one.
  lemma EverySessionMapped(ws: seq<World>, es: seq<Event>, i: nat)
    requires IsRun(EMPTY_WORLD, StepsWithoutStale, ws, es) && i < |ws|
    ensures SessionsMapped(ws[i]) && AllApart(ws[i]) && HeldAreLive(ws[i])
  {
    RunMapping(ws, es, i);
    MappingHolds(ws[i]);
  }

  // Runs without single-peer removals are of that kind, however many responses fail.
  lemma WithoutRemovalsNoneStale(ws: seq<World>, es: seq<Event>)
    requires IsRun(EMPTY_WORLD, StepsWithoutRemoval, ws, es)
    ensures IsRun(EMPTY_WORLD, StepsWithoutStale, ws, es)
  {
    Weaken(EMPTY_WORLD, StepsWithoutRemoval, StepsWithoutStale, ws, es);
  }

  // So are runs in which no response fails after it took the next session, with any removals.
  lemma WithoutDropsNoneStale(ws: seq<World>, es: seq<Event>)
    requires IsRun(EMPTY_WORLD, StepsWithoutDrop, ws, es)
    ensures IsRun(EMPTY_WORLD, StepsWithoutStale, ws, es)
  {
    forall k | 0 <= k < |es| ensures StepsWithoutStale(ws[k], es[k], ws[k + 1]) {
      var e := es[k];
      assert StepsWithoutDrop(ws[k], e, ws[k + 1]);
      RunMirroring(ws, es, k);
      StepLink(ws[k], e, ws[k + 1]);
    }
  }

  // In every run in which no response fails after it took the next session, the index map
  // is exactly the map from the indices of the sessions of the configured peers.
  lemma IndexMapExact(ws: seq<World>, es: seq<Event>, i: nat)
    requires IsRun(EMPTY_WORLD, StepsWithoutDrop, ws, es) && i < |ws|
    ensures MapsSessions(ws[i]) && AllApart(ws[i])
  {
    RunMirroring(ws, es, i);
    ExactMapsSessions(ws[i]);
  }
}
