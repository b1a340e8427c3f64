// What every step of the system keeps.
module WorldInvariants {
  import opened Types
  import opened Consts
  import opened PeerModel
  import opened PeerInvariants
  import opened Router
  import opened World

  // ----- Kept by every step -----

  ghost predicate PeersOk(w: World) {
    forall id :: 0 <= id < |w.peers| ==> PeerInv(w.peers[id], w.now)
  }

  // The peer object is the one its public key stands for.
  predicate Live(w: World, id: nat) {
    && id < |w.peers|
    && w.peers[id].info.pubKey in w.pubkeyMap
    && w.pubkeyMap[w.peers[id].info.pubKey] == id
  }

  // Each public key stands for a peer that has it, and each route leads to a live peer that
  // lists it.
  ghost predicate KeysOk(w: World) {
    forall k :: k in w.pubkeyMap ==> w.pubkeyMap[k] < |w.peers| && w.peers[w.pubkeyMap[k]].info.pubKey == k
  }

  ghost predicate RoutesOk(w: World) {
    forall r :: r in w.routes ==> Live(w, w.routes[r]) && Lists(w.peers[w.routes[r]].info.allowedIps, r)
  }

  ghost predicate ConfigOk(w: World) {
    && KeysOk(w)
    && RoutesOk(w)
    && (w.info.pubKey.Some? ==> w.info.pubKey.value !in w.pubkeyMap)
    && |w.pubkeyMap| <= MAX_PEERS_PER_DEVICE
    && (forall i :: i in w.indexMap ==> w.indexMap[i] < |w.peers|)
  }

  ghost predicate Base(w: World) {
    PeersOk(w) && ConfigOk(w)
  }

  ghost predicate WorldEvolves(w: World, v: World) {
    && |w.peers| <= |v.peers|
    && w.now <= v.now
    && w.delivered <= v.delivered
    && (forall id :: 0 <= id < |w.peers| ==> Evolves(w.peers[id], v.peers[id]))
  }

  lemma BaseIsDefined(w: World)
    requires Base(w)
    ensures Defined(w)
  {
    forall id | 0 <= id < |w.peers|
      ensures w.peers[id].CanAskNonce() && w.peers[id].HeadSlot() >= 0
    {
      assert PeerInv(w.peers[id], w.now);
    }
  }

  lemma WorldEvolvesReflexive(w: World)
    ensures WorldEvolves(w, w)
  {
  }

  lemma WorldEvolvesTransitive(u: World, v: World, w: World)
    requires WorldEvolves(u, v) && WorldEvolves(v, w)
    ensures WorldEvolves(u, w)
  {
    forall id | 0 <= id < |u.peers| ensures Evolves(u.peers[id], w.peers[id]) {
      EvolvesTransitive(u.peers[id], v.peers[id], w.peers[id]);
    }
  }

  lemma ReplaceKeepsPeers(w: World, id: nat, q: PeerState, m: map<u32, nat>)
    requires PeersOk(w) && id < |w.peers| && PeerInv(q, w.now)
    ensures PeersOk(SetPeer(w, id, q).(indexMap := m))
  {
    var v := SetPeer(w, id, q).(indexMap := m);
    forall j | 0 <= j < |v.peers| ensures PeerInv(v.peers[j], v.now) {
      if j != id {
        assert v.peers[j] == w.peers[j];
      }
    }
  }

  lemma ReplaceEvolves(w: World, id: nat, q: PeerState, m: map<u32, nat>)
    requires id < |w.peers| && Evolves(w.peers[id], q)
    ensures WorldEvolves(w, SetPeer(w, id, q).(indexMap := m))
  {
    var v := SetPeer(w, id, q).(indexMap := m);
    forall j | 0 <= j < |w.peers| ensures Evolves(w.peers[j], v.peers[j]) {
      if j != id {
        assert v.peers[j] == w.peers[j];
      }
    }
  }

  lemma ReplaceKeepsConfig(w: World, id: nat, q: PeerState, m: map<u32, nat>)
    requires ConfigOk(w) && id < |w.peers|
    requires q.info.pubKey == w.peers[id].info.pubKey && q.info.allowedIps == w.peers[id].info.allowedIps
    requires forall i :: i in m ==> m[i] < |w.peers|
    ensures ConfigOk(SetPeer(w, id, q).(indexMap := m))
  {
    var v := SetPeer(w, id, q).(indexMap := m);
    forall r | r in v.routes ensures Live(v, v.routes[r]) && Lists(v.peers[v.routes[r]].info.allowedIps, r) {
      assert Live(w, w.routes[r]);
    }
  }

  // Replacing one peer by a good successor with the same allowed IPs, and the index map by
  // any map to existing peers.
  lemma ReplacePeer(w: World, id: nat, q: PeerState, m: map<u32, nat>)
    requires Base(w) && id < |w.peers|
    requires Good(w.peers[id], q, w.now) && q.info.allowedIps == w.peers[id].info.allowedIps
    requires forall i :: i in m ==> m[i] < |w.peers|
    ensures var v := SetPeer(w, id, q).(indexMap := m); Base(v) && WorldEvolves(w, v)
  {
    ReplaceKeepsPeers(w, id, q, m);
    ReplaceKeepsConfig(w, id, q, m);
    ReplaceEvolves(w, id, q, m);
  }

  // ----- The index map -----

  predicate Differ(s: Option<Session>, t: Option<Session>) {
    s.Some? && t.Some? ==> s.value.ourIndex != t.value.ourIndex
  }

  predicate IndicesApart(p: PeerState) {
    Differ(p.past, p.current) && Differ(p.past, p.next) && Differ(p.current, p.next)
  }

  // Every session of a live peer is found under its own index, which no other session of the
  // peer has.
  ghost predicate Linked(w: World) {
    SessionsMapped(w) && AllApart(w)
  }

  // And every index belongs to a live peer.
  ghost predicate IndexOk(w: World) {
    OwnersLive(w) && Linked(w)
  }

  ghost predicate OwnersLive(w: World) {
    forall i :: i in w.indexMap ==> Live(w, w.indexMap[i])
  }

  ghost predicate SessionsMapped(w: World) {
    forall id: nat, i: u32 :: Live(w, id) && i in w.peers[id].Indices() ==> i in w.indexMap && w.indexMap[i] == id
  }

  ghost predicate AllApart(w: World) {
    forall id: nat :: Live(w, id) ==> IndicesApart(w.peers[id])
  }

  // Every index leads to a session.
  ghost predicate Exact(w: World) {
    forall i :: i in w.indexMap ==> w.indexMap[i] < |w.peers| && i in w.peers[w.indexMap[i]].Indices()
  }

  // The entries of one peer are replaced, and those of the others stay.
  ghost predicate Relinks(w: World, id: nat, q: PeerState, m: map<u32, nat>) {
    && IndicesApart(q)
    && (forall i :: i in q.Indices() ==> i in m && m[i] == id)
    && (forall i :: i in m ==> m[i] == id || (i in w.indexMap && m[i] == w.indexMap[i]))
    && (forall i :: i in w.indexMap && w.indexMap[i] != id ==> i in m && m[i] == w.indexMap[i])
  }

  // An index that leads to a peer which has no session under it.
  predicate Stale(w: World, i: u32) {
    i in w.indexMap && !(w.indexMap[i] < |w.peers| && i in w.peers[w.indexMap[i]].Indices())
  }

  ghost predicate NoNewStale(w: World, v: World) {
    forall i :: Stale(v, i) ==> Stale(w, i)
  }

  lemma ExactMeansNoneStale(w: World, v: World)
    requires Exact(w) && NoNewStale(w, v)
    ensures Exact(v)
  {
    forall i | i in v.indexMap ensures !Stale(v, i) {
      assert !Stale(w, i);
    }
  }

  // The entries of the peer that are not for a session are old ones.
  ghost predicate OldStale(w: World, id: nat, q: PeerState, m: map<u32, nat>)
    requires id < |w.peers|
  {
    forall i :: i in m && m[i] == id ==>
      i in q.Indices() || (i in w.indexMap && w.indexMap[i] == id && i !in w.peers[id].Indices())
  }

  lemma RelinkLive(w: World, id: nat, q: PeerState, m: map<u32, nat>, j: nat)
    requires id < |w.peers| && q.info.pubKey == w.peers[id].info.pubKey
    ensures Live(SetPeer(w, id, q).(indexMap := m), j) <==> Live(w, j)
  {
  }

  lemma RelinkOwners(w: World, id: nat, q: PeerState, m: map<u32, nat>)
    requires OwnersLive(w) && Live(w, id) && q.info.pubKey == w.peers[id].info.pubKey
    requires Relinks(w, id, q, m)
    ensures OwnersLive(SetPeer(w, id, q).(indexMap := m))
  {
    forall i | i in m ensures Live(SetPeer(w, id, q).(indexMap := m), m[i]) {
      RelinkLive(w, id, q, m, m[i]);
    }
  }

  lemma RelinkLinked(w: World, id: nat, q: PeerState, m: map<u32, nat>)
    requires Linked(w) && Live(w, id) && q.info.pubKey == w.peers[id].info.pubKey
    requires Relinks(w, id, q, m)
    ensures Linked(SetPeer(w, id, q).(indexMap := m))
  {
    var v := SetPeer(w, id, q).(indexMap := m);
    forall j: nat | Live(v, j) ensures IndicesApart(v.peers[j]) {
      RelinkLive(w, id, q, m, j);
    }
    RelinkMapped(w, id, q, m);
  }

  lemma RelinkMapped(w: World, id: nat, q: PeerState, m: map<u32, nat>)
    requires SessionsMapped(w) && id < |w.peers| && q.info.pubKey == w.peers[id].info.pubKey
    requires Relinks(w, id, q, m)
    ensures SessionsMapped(SetPeer(w, id, q).(indexMap := m))
  {
    var v := SetPeer(w, id, q).(indexMap := m);
    forall j: nat, i: u32 | Live(v, j) && i in v.peers[j].Indices() ensures i in m && m[i] == j {
      RelinkLive(w, id, q, m, j);
      if j != id {
        assert v.peers[j] == w.peers[j];
        assert i in w.indexMap && w.indexMap[i] == j;
      }
    }
  }

  lemma RelinkStale(w: World, id: nat, q: PeerState, m: map<u32, nat>)
    requires id < |w.peers| && Relinks(w, id, q, m) && OldStale(w, id, q, m)
    ensures NoNewStale(w, SetPeer(w, id, q).(indexMap := m))
  {
    var v := SetPeer(w, id, q).(indexMap := m);
    forall i | Stale(v, i) ensures Stale(w, i) {
      if m[i] != id {
        assert i in w.indexMap && m[i] == w.indexMap[i];
      }
    }
  }

  lemma Mapped(w: World, id: nat)
    requires Linked(w) && Live(w, id)
    ensures forall i :: i in w.peers[id].Indices() ==> i in w.indexMap && w.indexMap[i] == id
    ensures IndicesApart(w.peers[id])
  {
  }

  // Pushing a session in takes the indices that fall out and adds its own.
  lemma PushIndices(p: PeerState, s: Session)
    requires IndicesApart(p) && s.ourIndex !in p.Indices()
    ensures IndicesApart(p.Push(s))
    ensures forall i :: i in p.Push(s).Indices() <==> i == s.ourIndex || (i in p.Indices() && p.PushedOut() != Some(i))
  {
    assert p.Indices() == IndexSet(p.past) + IndexSet(p.current) + IndexSet(p.next);
  }

  // A session pushed in under an unused index.
  lemma PushRelinks(w: World, id: nat, s: Session)
    requires Linked(w) && Live(w, id) && s.ourIndex !in w.indexMap
    ensures var p := w.peers[id];
            var m := Unlink(w.indexMap[s.ourIndex := id], p.PushedOut());
            && m == Unlink(w.indexMap, p.PushedOut())[s.ourIndex := id]
            && Relinks(w, id, p.Push(s), m)
            && OldStale(w, id, p.Push(s), m)
  {
    var p := w.peers[id];
    var q := p.Push(s);
    var m := Unlink(w.indexMap[s.ourIndex := id], p.PushedOut());
    Mapped(w, id);
    PushIndices(p, s);
    assert m == Unlink(w.indexMap, p.PushedOut())[s.ourIndex := id];
  }

  // The next session promoted to current; the past one falls out.
  lemma PromoteRelinks(w: World, id: nat, s: Session)
    requires Linked(w) && Live(w, id) && w.peers[id].next.Some? && s.ourIndex == w.peers[id].next.value.ourIndex
    ensures var p := w.peers[id];
            var m := Unlink(w.indexMap, IndexOf(p.past));
            && Relinks(w, id, p.Promote(s), m)
            && OldStale(w, id, p.Promote(s), m)
  {
    var p := w.peers[id];
    var q := p.Promote(s);
    Mapped(w, id);
    assert p.Indices() == IndexSet(p.past) + IndexSet(p.current) + IndexSet(p.next);
    assert q.Indices() == p.Indices() - IndexSet(p.past);
  }
}
