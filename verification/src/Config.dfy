// Configuration updates on the shared state (src/interface/config.rs), in place.
module Configuration {
  import opened Types
  import opened Consts
  import opened PeerModel
  import opened PeerObject
  import opened Router
  import opened World
  import opened PeerServer

  datatype ChannelMessage =
    | ClearPrivateKey
    | NewPrivateKey
    | NewListenPort(port: u16)
    | NewFwmark(mark: u32)
    | NewPersistentKeepalive(peer: Peer)
    | NewPeer(peer: Peer)

  ghost function NoticeOf(m: Option<ChannelMessage>): Option<Notice> {
    match m
    case None => None
    case Some(ClearPrivateKey) => Some(Notice.ClearPrivateKey)
    case Some(NewPrivateKey) => Some(Notice.NewPrivateKey)
    case Some(NewListenPort(port)) => Some(Notice.NewListenPort(port))
    case Some(NewFwmark(mark)) => Some(Notice.NewFwmark(mark))
    case Some(NewPersistentKeepalive(peer)) => Some(Notice.NewPersistentKeepalive(peer.id))
    case Some(NewPeer(peer)) => Some(Notice.NewPeerAdded(peer.id))
  }

  ghost function ResultOf(r: Result<Option<ChannelMessage>>): Result<Option<Notice>> {
    if r.Ok? then Ok(NoticeOf(r.value)) else Err
  }

  // ----- Routing tables -----

  lemma {:induction false} AddIds(t: map<Route, Peer>, ips: seq<Prefix>, peer: Peer)
    ensures Ids(Add(t, ips, peer)) == Add(Ids(t), ips, peer.id)
    decreases |ips|
  {
    if ips != [] {
      AddIds(t, ips[..|ips| - 1], peer);
      IdsUpdate(Add(t, ips[..|ips| - 1], peer), RouteOf(ips[|ips| - 1]), peer);
    }
  }

  lemma {:induction false} RemoveIds(t: map<Route, Peer>, ips: seq<Prefix>)
    ensures Ids(Remove(t, ips)) == Remove(Ids(t), ips)
    decreases |ips|
  {
    if ips != [] {
      RemoveIds(t, ips[..|ips| - 1]);
      IdsMinus(Remove(t, ips[..|ips| - 1]), {RouteOf(ips[|ips| - 1])});
    }
  }

  method AddRoutes(t: map<Route, Peer>, ips: seq<Prefix>, peer: Peer) returns (u: map<Route, Peer>)
    ensures u == Add(t, ips, peer)
  {
    u := t;
    var k := 0;
    while k < |ips|
      invariant 0 <= k <= |ips| && u == Add(t, ips[..k], peer)
    {
      assert ips[..k + 1][..k] == ips[..k];
      u := u[RouteOf(ips[k]) := peer];
      k := k + 1;
    }
    assert ips[..k] == ips;
  }

  method RemoveRoutes(t: map<Route, Peer>, ips: seq<Prefix>) returns (u: map<Route, Peer>)
    ensures u == Remove(t, ips)
  {
    u := t;
    var k := 0;
    while k < |ips|
      invariant 0 <= k <= |ips| && u == Remove(t, ips[..k])
    {
      assert ips[..k + 1][..k] == ips[..k];
      u := u - {RouteOf(ips[k])};
      k := k + 1;
    }
    assert ips[..k] == ips;
  }

  method SetRoutes(state: State, t: map<Route, Peer>, ghost w: World)
    requires state.Represents(w) && forall r :: r in t ==> state.Known(t[r])
    modifies state`routes
    ensures state.Represents(w.(routes := Ids(t)))
  {
    state.routes := t;
  }

  // `add_allowed_ips`
  method AddAllowedIps(state: State, ips: seq<Prefix>, peer: Peer, ghost w: World)
    requires state.Represents(w) && state.Known(peer)
    modifies state`routes
    ensures state.Represents(w.(routes := Add(w.routes, ips, peer.id)))
  {
    var t := AddRoutes(state.routes, ips, peer);
    AddIds(state.routes, ips, peer);
    forall r | r in t ensures state.Known(t[r]) {
      Added(state.routes, ips, peer, r);
    }
    SetRoutes(state, t, w);
  }

  // `remove_allowed_ips`
  method RemoveAllowedIps(state: State, ips: seq<Prefix>, ghost w: World)
    requires state.Represents(w)
    modifies state`routes
    ensures state.Represents(w.(routes := Remove(w.routes, ips)))
  {
    var t := RemoveRoutes(state.routes, ips);
    RemoveIds(state.routes, ips);
    forall r | r in t ensures state.Known(t[r]) {
      Removed(state.routes, ips, r);
    }
    SetRoutes(state, t, w);
  }

  // ----- Updates -----

  // `pubkey_map.remove` and `clear_peer_refs`
  method Forget(state: State, k: Key, ghost w: World)
    requires state.Represents(w) && k in w.pubkeyMap && w.pubkeyMap[k] < |w.peers|
    modifies state`pubkeyMap, state`indexMap, state`routes
    ensures state.Represents(ForgetPeer(w, k))
  {
    var peer := state.pubkeyMap[k];
    IdsMinus(state.pubkeyMap, {k});
    state.pubkeyMap := state.pubkeyMap - {k};
    ghost var w1 := w.(pubkeyMap := w.pubkeyMap - {k});
    var indices := peer.GetMappedIndices();
    RemoveIndices(state, indices, w1);
    RemoveAllowedIps(state, peer.info.allowedIps, w1.(indexMap := w.indexMap - peer.State().Indices()));
  }

  method SetInfo(state: State, info: InterfaceInfo, ghost w: World)
    requires state.Represents(w)
    modifies state`info
    ensures state.Represents(w.(info := info))
  {
    state.info := info;
  }

  method SetPeerInfo(state: State, peer: Peer, info: PeerInfo, ghost w: World)
    requires state.Represents(w) && state.Known(peer)
    modifies peer
    ensures state.Represents(SetPeer(w, peer.id, w.peers[peer.id].Reconfigure(info)))
  {
    peer.Reconfigure(info);
    state.PeerChanged(w, peer);
  }

  // Moves the routes of a peer from the old settings to the new ones.
  method MoveRoutes(state: State, peer: Peer, was: seq<Prefix>, ips: seq<Prefix>, replace: bool, ghost w: World)
    requires state.Represents(w) && state.Known(peer)
    modifies state`routes
    ensures state.Represents(w.(routes := Add(if replace then Remove(w.routes, was) else w.routes, ips, peer.id)))
  {
    ghost var kept := w.routes;
    if replace {
      RemoveAllowedIps(state, was, w);
      kept := Remove(w.routes, was);
    }
    assert !replace ==> w.(routes := kept) == w;
    AddAllowedIps(state, ips, peer, w.(routes := kept));
  }

  lemma ChangePeerParts(w: World, info: PeerInfo, replaceAllowedIps: bool)
    requires Defined(w) && info.pubKey in w.pubkeyMap
    ensures var id := w.pubkeyMap[info.pubKey];
            ChangePeer(w, info, replaceAllowedIps) ==
              Reconfigured(w, id, MergeInfo(w.peers[id].info, info, replaceAllowedIps), replaceAllowedIps)
  {
  }

  ghost function Reconfigured(w: World, id: nat, merged: PeerInfo, replace: bool): World
    requires id < |w.peers|
  {
    var kept := if replace then Remove(w.routes, w.peers[id].info.allowedIps) else w.routes;
    SetPeer(w.(routes := Add(kept, merged.allowedIps, id)), id, w.peers[id].Reconfigure(merged))
  }

  method Reconfigure(state: State, peer: Peer, merged: PeerInfo, replace: bool, ghost w: World)
    requires state.Represents(w) && state.Known(peer)
    modifies state`routes, peer
    ensures state.Represents(Reconfigured(w, peer.id, merged, replace))
  {
    ghost var kept := if replace then Remove(w.routes, peer.info.allowedIps) else w.routes;
    MoveRoutes(state, peer, peer.info.allowedIps, merged.allowedIps, replace, w);
    SetPeerInfo(state, peer, merged, w.(routes := Add(kept, merged.allowedIps, peer.id)));
  }

  method ChangeKnown(state: State, peer: Peer, info: PeerInfo, replaceAllowedIps: bool, ghost w: World)
    returns (m: Option<ChannelMessage>)
    requires state.Represents(w) && state.Known(peer)
    modifies state`routes, peer
    ensures var was := w.peers[peer.id].info;
            && state.Represents(Reconfigured(w, peer.id, MergeInfo(was, info, replaceAllowedIps), replaceAllowedIps))
            && NoticeOf(m) == KeepaliveNotice(was, info, peer.id)
  {
    m := if info.keepalive.Some? && peer.info.keepalive != info.keepalive
      then Some(ChannelMessage.NewPersistentKeepalive(peer))
      else None;
    Reconfigure(state, peer, MergeInfo(peer.info, info, replaceAllowedIps), replaceAllowedIps, w);
  }

  // An update of a peer that is already configured.
  method Change(state: State, info: PeerInfo, replaceAllowedIps: bool, ghost w: World) returns (m: Option<ChannelMessage>)
    requires state.Represents(w) && Defined(w) && info.pubKey in w.pubkeyMap
    modifies state`routes, state.arena
    ensures state.Represents(ChangePeer(w, info, replaceAllowedIps))
    ensures var id := w.pubkeyMap[info.pubKey]; NoticeOf(m) == KeepaliveNotice(w.peers[id].info, info, id)
  {
    var peer := state.pubkeyMap[info.pubKey];
    m := ChangeKnown(state, peer, info, replaceAllowedIps, w);
    ChangePeerParts(w, info, replaceAllowedIps);
  }

  // A new peer, alone at first.
  method MakePeer(state: State, info: PeerInfo, ghost w: World) returns (peer: Peer)
    requires state.Represents(w)
    modifies state`pubkeyMap, state`arena
    ensures state.Represents(w.(peers := w.peers + [PeerModel.NewPeer(info)], pubkeyMap := w.pubkeyMap[info.pubKey := |w.peers|]))
    ensures state.Known(peer) && peer.id == |w.peers|
  {
    peer := new Peer(|state.arena|, info);
    IdsUpdate(state.pubkeyMap, info.pubKey, peer);
    state.arena := state.arena + [peer];
    state.pubkeyMap := state.pubkeyMap[info.pubKey := peer];
  }

  method AddNew(state: State, info: PeerInfo, ghost w: World) returns (peer: Peer)
    requires state.Represents(w)
    modifies state`pubkeyMap, state`arena, state`routes
    ensures state.Represents(AddPeer(w, info)) && peer.id == |w.peers|
  {
    ghost var w1 := w.(peers := w.peers + [PeerModel.NewPeer(info)], pubkeyMap := w.pubkeyMap[info.pubKey := |w.peers|]);
    peer := MakePeer(state, info, w);
    AddAllowedIps(state, info.allowedIps, peer, w1);
  }

  lemma IdsSize<K>(m: map<K, Peer>)
    ensures |Ids(m)| == |m|
  {
    assert Ids(m).Keys == m.Keys;
    assert |Ids(m)| == |Ids(m).Keys| && |m| == |m.Keys|;
  }

  method UpdatePeerInfo(state: State, info: PeerInfo, replaceAllowedIps: bool, ghost w: World)
    returns (r: Result<Option<ChannelMessage>>)
    requires state.Represents(w) && Defined(w)
    modifies state, state.arena
    ensures state.Represents(OnUpdatePeer(w, info, replaceAllowedIps).0)
    ensures ResultOf(r) == OnUpdatePeer(w, info, replaceAllowedIps).1
  {
    if info.pubKey in state.pubkeyMap {
      assert OnUpdatePeer(w, info, replaceAllowedIps).0 == ChangePeer(w, info, replaceAllowedIps);
      var m := Change(state, info, replaceAllowedIps, w);
      return Ok(m);
    }
    r := AddUnlessFull(state, info, replaceAllowedIps, w);
  }

  // An update of a peer that is not configured yet.
  method AddUnlessFull(state: State, info: PeerInfo, replaceAllowedIps: bool, ghost w: World)
    returns (r: Result<Option<ChannelMessage>>)
    requires state.Represents(w) && Defined(w) && info.pubKey !in w.pubkeyMap
    modifies state`pubkeyMap, state`arena, state`routes
    ensures state.Represents(OnUpdatePeer(w, info, replaceAllowedIps).0)
    ensures ResultOf(r) == OnUpdatePeer(w, info, replaceAllowedIps).1
  {
    IdsSize(state.pubkeyMap);
    if state.info.pubKey == Some(info.pubKey) {
      return Ok(None);
    }
    if |state.pubkeyMap| >= MAX_PEERS_PER_DEVICE {
      return Err;
    }
    var peer := AddNew(state, info, w);
    return Ok(Some(ChannelMessage.NewPeer(peer)));
  }

  method SetKey(state: State, key: Key, derived: Key, ghost w: World) returns (r: Result<Option<ChannelMessage>>)
    requires state.Represents(w) && Defined(w)
    modifies state
    ensures state.Represents(HandleUpdate(w, SetPrivateKey(key), derived).0)
    ensures ResultOf(r) == HandleUpdate(w, SetPrivateKey(key), derived).1
  {
    if key == Zeros(32) {
      SetInfo(state, state.info.(privateKey := None, pubKey := None), w);
      return Ok(Some(ChannelMessage.ClearPrivateKey));
    }
    var info := state.info.(privateKey := Some(key), pubKey := Some(derived));
    SetInfo(state, info, w);
    if derived in state.pubkeyMap {
      Forget(state, derived, w.(info := info));
    }
    return Ok(Some(ChannelMessage.NewPrivateKey));
  }

  // `handle_update`
  method HandleUpdateEvent(state: State, e: UpdateEvent, derived: Key, ghost w: World)
    returns (r: Result<Option<ChannelMessage>>)
    requires state.Represents(w) && Defined(w)
    modifies state, state.arena
    ensures state.Represents(HandleUpdate(w, e, derived).0)
    ensures ResultOf(r) == HandleUpdate(w, e, derived).1
  {
    match e
    case SetPrivateKey(key) =>
      r := SetKey(state, key, derived, w);
    case SetListenPort(port) =>
      SetInfo(state, state.info.(listenPort := Some(port)), w);
      r := Ok(Some(ChannelMessage.NewListenPort(port)));
    case SetFwmark(mark) =>
      SetInfo(state, state.info.(fwmark := Some(mark)), w);
      r := Ok(Some(ChannelMessage.NewFwmark(mark)));
    case UpdatePeer(info, replaceAllowedIps) =>
      r := UpdatePeerInfo(state, info, replaceAllowedIps, w);
    case RemovePeer(k) =>
      if k !in state.pubkeyMap {
        return Err;
      }
      Forget(state, k, w);
      r := Ok(None);
    case RemoveAllPeers =>
      state.pubkeyMap, state.indexMap, state.routes := map[], map[], map[];
      r := Ok(None);
  }
}
