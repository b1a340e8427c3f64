// What a configuration update changes, field by field, and what it leaves alone.
module Updates {
  import opened Types
  import opened PeerModel
  import opened Router
  import opened World
  import opened WorldInvariants

  // A setting after an update that may give it.
  predicate Given<T(==)>(was: Option<T>, update: Option<T>, now: Option<T>) {
    (update.Some? ==> now == update) && (update.None? ==> now == was)
  }

  ghost predicate OthersKept(w: World, v: World, id: nat) {
    && |v.peers| == |w.peers| && (forall j :: 0 <= j < |w.peers| && j != id ==> v.peers[j] == w.peers[j])
    && v.pubkeyMap == w.pubkeyMap && v.indexMap == w.indexMap && v.info == w.info
    && v.delivered == w.delivered && v.now == w.now
  }

  // An update of a configured peer sets what it gives, and nothing else of that peer.
  lemma SettingsUpdated(w: World, info: PeerInfo, replace: bool, derived: Key)
    requires Defined(w) && KeysOk(w) && info.pubKey in w.pubkeyMap
    ensures var (v, r) := HandleUpdate(w, UpdatePeer(info, replace), derived);
            var id := w.pubkeyMap[info.pubKey];
            && OthersKept(w, v, id)
            && var p, q := w.peers[id], v.peers[id];
            && q == p.(info := q.info) && q.info.pubKey == p.info.pubKey
            && Given(p.info.endpoint, info.endpoint, q.info.endpoint)
            && Given(p.info.keepalive, info.keepalive, q.info.keepalive)
            && Given(p.info.psk, info.psk, q.info.psk)
            && (forall x :: x in q.info.allowedIps <==> x in info.allowedIps || (!replace && x in p.info.allowedIps))
            && r == Ok(if info.keepalive.Some? && info.keepalive != p.info.keepalive then Some(NewPersistentKeepalive(id)) else None)
  {
  }

  // Afterwards the prefixes given, and the old ones unless they are replaced, lead to the peer;
  // old ones that are replaced lead nowhere; and all others lead where they did.
  lemma RoutesUpdated(w: World, info: PeerInfo, replace: bool, derived: Key, r: Route)
    requires Defined(w) && KeysOk(w) && info.pubKey in w.pubkeyMap
    ensures var v := HandleUpdate(w, UpdatePeer(info, replace), derived).0;
            var id := w.pubkeyMap[info.pubKey];
            var was := w.peers[id].info.allowedIps;
            && (Lists(info.allowedIps, r) || (!replace && Lists(was, r)) ==> r in v.routes && v.routes[r] == id)
            && (!Lists(info.allowedIps, r) && replace && Lists(was, r) ==> r !in v.routes)
            && (!Lists(info.allowedIps, r) && !Lists(was, r) ==>
                  (r in v.routes <==> r in w.routes) && (r in w.routes ==> v.routes[r] == w.routes[r]))
  {
    var id := w.pubkeyMap[info.pubKey];
    var was := w.peers[id].info.allowedIps;
    var kept := if replace then Remove(w.routes, was) else w.routes;
    var merged := if replace then info.allowedIps else info.allowedIps + was;
    assert HandleUpdate(w, UpdatePeer(info, replace), derived).0.routes == Add(kept, merged, id);
    Removed(w.routes, was, r);
    Added(kept, merged, id, r);
    ListsBoth(info.allowedIps, was, r);
  }

  lemma ListsBoth(a: seq<Prefix>, b: seq<Prefix>, r: Route)
    ensures Lists(a + b, r) <==> Lists(a, r) || Lists(b, r)
  {
    if Lists(a, r) {
      var x :| x in a && RouteOf(x) == r;
      assert x in a + b;
    }
    if Lists(b, r) {
      var x :| x in b && RouteOf(x) == r;
      assert x in a + b;
    }
  }

  // An update for an unknown key makes a new peer with exactly the settings given, unless it is
  // the own key or the device is full.
  lemma PeerAdded(w: World, info: PeerInfo, replace: bool, derived: Key)
    requires Defined(w) && info.pubKey !in w.pubkeyMap
    ensures var (v, r) := HandleUpdate(w, UpdatePeer(info, replace), derived);
            if w.info.pubKey == Some(info.pubKey) then v == w && r == Ok(None)
            else if |w.pubkeyMap| >= 0x10_0000 then v == w && r == Err
            else
              && v == w.(peers := v.peers, pubkeyMap := w.pubkeyMap[info.pubKey := |w.peers|], routes := v.routes)
              && |v.peers| == |w.peers| + 1 && v.peers[..|w.peers|] == w.peers
              && var q := v.peers[|w.peers|];
              && q.info == info && q.past.None? && q.current.None? && q.next.None? && q.queue == [] && q.lastTai64n.None?
              && r == Ok(Some(NewPeerAdded(|w.peers|)))
  {
    var v := HandleUpdate(w, UpdatePeer(info, replace), derived).0;
    assert |v.peers| == |w.peers| + 1 ==> v.peers[..|w.peers|] == w.peers;
  }

  lemma RoutesAdded(w: World, info: PeerInfo, replace: bool, derived: Key, r: Route)
    requires Defined(w) && info.pubKey !in w.pubkeyMap && w.info.pubKey != Some(info.pubKey) && |w.pubkeyMap| < 0x10_0000
    ensures var v := HandleUpdate(w, UpdatePeer(info, replace), derived).0;
            && (Lists(info.allowedIps, r) ==> r in v.routes && v.routes[r] == |w.peers|)
            && (!Lists(info.allowedIps, r) ==>
                  (r in v.routes <==> r in w.routes) && (r in w.routes ==> v.routes[r] == w.routes[r]))
  {
    Added<nat>(w.routes, info.allowedIps, |w.peers|, r);
  }

  // Removing a peer takes its key, the indices of its sessions and the routes it lists, and
  // nothing else; an unknown key is refused.
  lemma PeerRemoved(w: World, k: Key, derived: Key, r: Route)
    requires Defined(w)
    ensures var (v, result) := HandleUpdate(w, RemovePeer(k), derived);
            if k !in w.pubkeyMap then v == w && result == Err
            else
              && result == Ok(None)
              && var p := w.peers[w.pubkeyMap[k]];
              && v == w.(pubkeyMap := w.pubkeyMap - {k}, indexMap := w.indexMap - p.Indices(), routes := v.routes)
              && (r in v.routes <==> r in w.routes && !Lists(p.info.allowedIps, r))
              && (r in v.routes ==> v.routes[r] == w.routes[r])
  {
    if k in w.pubkeyMap {
      Removed(w.routes, w.peers[w.pubkeyMap[k]].info.allowedIps, r);
    }
  }

  // The settings of the interface. A key of zeros clears the key; another one is stored with its
  // public key, and a peer with that public key is removed.
  lemma InterfaceUpdated(w: World, key: Key, derived: Key, port: u16, mark: u32)
    requires Defined(w)
    ensures HandleUpdate(w, SetListenPort(port), derived) ==
            (w.(info := w.info.(listenPort := Some(port))), Ok(Some(NewListenPort(port))))
    ensures HandleUpdate(w, SetFwmark(mark), derived) ==
            (w.(info := w.info.(fwmark := Some(mark))), Ok(Some(NewFwmark(mark))))
    ensures HandleUpdate(w, RemoveAllPeers, derived) ==
            (w.(pubkeyMap := map[], indexMap := map[], routes := map[]), Ok(None))
    ensures var (v, r) := HandleUpdate(w, SetPrivateKey(key), derived);
            if key == Zeros(32) then v == w.(info := w.info.(privateKey := None, pubKey := None)) && r == Ok(Some(ClearPrivateKey))
            else
              && r == Ok(Some(NewPrivateKey))
              && v.info == w.info.(privateKey := Some(key), pubKey := Some(derived))
              && v.(info := w.info) == HandleUpdate(w, RemovePeer(derived), derived).0
  {
  }
}
