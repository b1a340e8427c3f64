// The one-pass parser of configuration pairs (`UpdateEvent::from` in
// src/interface/config.rs), against a description of its result by groups of pairs.
module ConfigParser {
  import opened Types
  import opened PeerModel
  import opened World

  // Decoding of the values: hexadecimal keys, numbers and addresses.
  datatype Codec = Codec(
    key: string -> Option<Key>,
    port: string -> Option<u16>,
    mark: string -> Option<u32>,
    interval: string -> Option<u16>,
    endpoint: string -> Option<Endpoint>,
    prefix: string -> Option<Prefix>)

  const NO_INFO := PeerInfo(Zeros(32), None, None, [], None)

  // ----- What the pairs say -----

  // One pair with its value decoded.
  datatype Item =
    | Interface(event: UpdateEvent)
    | PublicKey(key: Key)
    | PresharedKey(psk: Key)
    | Keepalive(interval: u16)
    | PeerEndpoint(endpoint: Endpoint)
    | AllowedIp(prefix: Prefix)
    | ReplaceAllowedIps
    | Remove
    | Unknown

  function Decode(c: Codec, pair: (string, string)): Option<Item> {
    var (key, value) := pair;
    if key == "private_key" then
      (var k := c.key(value); if k.Some? then Some(Interface(SetPrivateKey(k.value))) else None)
    else if key == "listen_port" then
      (var p := c.port(value); if p.Some? then Some(Interface(SetListenPort(p.value))) else None)
    else if key == "fwmark" then
      (var m := c.mark(value); if m.Some? then Some(Interface(SetFwmark(m.value))) else None)
    else if key == "replace_peers" then Some(Interface(RemoveAllPeers))
    else if key == "preshared_key" then
      (var k := c.key(value); if k.Some? then Some(PresharedKey(k.value)) else None)
    else if key == "persistent_keepalive_interval" then
      (var i := c.interval(value); if i.Some? then Some(Keepalive(i.value)) else None)
    else if key == "endpoint" then
      (var e := c.endpoint(value); if e.Some? then Some(PeerEndpoint(e.value)) else None)
    else if key == "replace_allowed_ips" then Some(ReplaceAllowedIps)
    else if key == "remove" then Some(Remove)
    else if key == "public_key" then
      (var k := c.key(value); if k.Some? then Some(PublicKey(k.value)) else None)
    else if key == "allowed_ip" then
      (var p := c.prefix(value); if p.Some? then Some(AllowedIp(p.value)) else None)
    else Some(Unknown)
  }

  type Decoder = ((string, string)) -> Option<Item>

  function DecoderOf(c: Codec): Decoder {
    pair => Decode(c, pair)
  }

  // The decoded pairs, unless some value is malformed.
  function DecodeAll(d: Decoder, pairs: seq<(string, string)>): (r: Option<seq<Item>>)
    ensures r.Some? ==> |r.value| == |pairs|
  {
    if pairs == [] then Some([])
    else
      var init, last := DecodeAll(d, pairs[..|pairs| - 1]), d(pairs[|pairs| - 1]);
      if init.Some? && last.Some? then Some(init.value + [last.value]) else None
  }

  // One malformed value is enough to refuse them all, and the only reason to.
  lemma {:induction false} DecodesAll(d: Decoder, pairs: seq<(string, string)>)
    ensures DecodeAll(d, pairs).Some? <==> forall i :: 0 <= i < |pairs| ==> d(pairs[i]).Some?
    decreases |pairs|
  {
    if pairs != [] {
      DecodesAll(d, pairs[..|pairs| - 1]);
    }
  }

  // The interface settings among some items, in order.
  function InterfaceEvents(items: seq<Item>): seq<UpdateEvent> {
    if items == [] then []
    else
      var last := items[|items| - 1];
      InterfaceEvents(items[..|items| - 1]) + if last.Interface? then [last.event] else []
  }

  // The effect of one attribute.
  function Attribute(item: Item, info: PeerInfo): PeerInfo {
    match item
    case PresharedKey(k) => info.(psk := Some(k))
    case Keepalive(i) => info.(keepalive := Some(i))
    case PeerEndpoint(e) => info.(endpoint := Some(e))
    case AllowedIp(p) => info.(allowedIps := info.allowedIps + [p])
    case _ => info
  }

  // The settings that the attributes in `group` give to the peer `key`.
  function Settings(key: Key, group: seq<Item>): PeerInfo {
    if group == [] then NO_INFO.(pubKey := key)
    else Attribute(group[|group| - 1], Settings(key, group[..|group| - 1]))
  }

  function PeerEvent(key: Key, group: seq<Item>): UpdateEvent {
    if Remove in group then RemovePeer(key) else UpdatePeer(Settings(key, group), ReplaceAllowedIps in group)
  }

  // How many items there are before the first public key.
  function UpToKey(items: seq<Item>): (n: nat)
    ensures n <= |items|
    ensures forall i :: 0 <= i < n ==> !items[i].PublicKey?
    ensures n < |items| ==> items[n].PublicKey?
  {
    if items == [] || items[0].PublicKey? then 0 else 1 + UpToKey(items[1..])
  }

  // One event for every public key, in order, from the attributes up to the next one.
  function PeerEvents(items: seq<Item>): seq<UpdateEvent>
    decreases |items|
  {
    if items == [] then []
    else if items[0].PublicKey? then
      [PeerEvent(items[0].key, items[1..1 + UpToKey(items[1..])])] + PeerEvents(items[1..])
    else PeerEvents(items[1..])
  }

  // ----- What the parser produces -----

  predicate Keyless(items: seq<Item>) {
    forall i :: 0 <= i < |items| ==> !items[i].PublicKey?
  }

  // Where the last public key is, if there is one.
  function LastKey(items: seq<Item>): (n: int)
    ensures -1 <= n < |items|
    ensures n >= 0 ==> items[n].PublicKey?
  {
    if items == [] then -1
    else if items[|items| - 1].PublicKey? then |items| - 1
    else LastKey(items[..|items| - 1])
  }

  lemma {:induction false} NoLaterKey(items: seq<Item>)
    ensures Keyless(items[LastKey(items) + 1..])
    decreases |items|
  {
    if items != [] && !items[|items| - 1].PublicKey? {
      var init, n := items[..|items| - 1], LastKey(items);
      NoLaterKey(init);
      assert items[n + 1..] == init[n + 1..] + [items[|items| - 1]];
    }
  }

  // The event of a peer comes when the next public key, or the end, is reached.
  function Events(items: seq<Item>): seq<UpdateEvent>
    decreases |items|
  {
    var n := LastKey(items);
    if n < 0 then InterfaceEvents(items)
    else
      Events(items[..n]) + InterfaceEvents(items[n + 1..]) + [PeerEvent(items[n].key, items[n + 1..])]
  }

  predicate ForPeer(e: UpdateEvent) {
    e.UpdatePeer? || e.RemovePeer?
  }

  function OfPeers(es: seq<UpdateEvent>, peers: bool): seq<UpdateEvent> {
    if es == [] then []
    else OfPeers(es[..|es| - 1], peers) + if ForPeer(es[|es| - 1]) == peers then [es[|es| - 1]] else []
  }

  predicate Proper(items: seq<Item>) {
    forall i :: 0 <= i < |items| && items[i].Interface? ==> !ForPeer(items[i].event)
  }

  // ----- The parser -----

  // The variables of the loop of `UpdateEvent::from`.
  datatype Variables = Variables(events: seq<UpdateEvent>, pending: bool, remove: bool, replace: bool, info: PeerInfo)
  {
    // The events once the peer that is being read, if any, is added.
    ghost function Flushed(): seq<UpdateEvent> {
      if !pending then events
      else events + [if remove then RemovePeer(info.pubKey) else UpdatePeer(info, replace)]
    }

    ghost function After(item: Item): Variables {
      if item.PublicKey? then Variables(Flushed(), true, false, false, NO_INFO.(pubKey := item.key))
      else Variables(
          events + if item.Interface? then [item.event] else [],
          pending,
          remove || item.Remove?,
          replace || item.ReplaceAllowedIps?,
          Attribute(item, info))
    }
  }

  const START := Variables([], false, false, false, NO_INFO)

  ghost function AfterAll(items: seq<Item>): Variables {
    if items == [] then START else AfterAll(items[..|items| - 1]).After(items[|items| - 1])
  }

  // Adds the event of the peer that is being read, if any.
  method AddPending(v: Variables) returns (events: seq<UpdateEvent>)
    ensures events == v.Flushed()
  {
    events := v.events;
    if v.pending && v.remove {
      events := events + [RemovePeer(v.info.pubKey)];
    } else if v.pending {
      events := events + [UpdatePeer(v.info, v.replace)];
    }
  }

  // The branches of the loop.
  method ReadItem(item: Item, v: Variables) returns (v': Variables)
    ensures v' == v.After(item)
  {
    v' := v;
    match item
    case Interface(e) => v' := v.(events := v.events + [e]);
    case PublicKey(key) =>
      var events := AddPending(v);
      v' := Variables(events, true, false, false, NO_INFO.(pubKey := key));
    case PresharedKey(psk) => v' := v.(info := v.info.(psk := Some(psk)));
    case Keepalive(i) => v' := v.(info := v.info.(keepalive := Some(i)));
    case PeerEndpoint(e) => v' := v.(info := v.info.(endpoint := Some(e)));
    case AllowedIp(p) => v' := v.(info := v.info.(allowedIps := v.info.allowedIps + [p]));
    case ReplaceAllowedIps => v' := v.(replace := true);
    case Remove => v' := v.(remove := true);
    case Unknown =>
  }

  lemma DecodeFails(d: Decoder, pairs: seq<(string, string)>, k: nat)
    requires k < |pairs| && d(pairs[k]).None?
    ensures DecodeAll(d, pairs).None?
  {
    DecodesAll(d, pairs);
  }

  lemma DecodeOneMore(d: Decoder, pairs: seq<(string, string)>, k: nat)
    requires k < |pairs|
    ensures DecodeAll(d, pairs[..k + 1]) ==
            var init, last := DecodeAll(d, pairs[..k]), d(pairs[k]);
            if init.Some? && last.Some? then Some(init.value + [last.value]) else None
  {
    assert pairs[..k + 1][..k] == pairs[..k] && pairs[..k + 1][k] == pairs[k];
  }

  // The loop, for any way to decode the values.
  method ParseItems(pairs: seq<(string, string)>, decode: Decoder) returns (r: Result<seq<UpdateEvent>>)
    ensures r == var items := DecodeAll(decode, pairs); if items.Some? then Ok(AfterAll(items.value).Flushed()) else Err
  {
    var v := START;
    ghost var items: seq<Item> := [];
    var k := 0;
    while k < |pairs|
      invariant 0 <= k <= |pairs|
      invariant DecodeAll(decode, pairs[..k]) == Some(items)
      invariant v == AfterAll(items)
    {
      var item := decode(pairs[k]);
      if item.None? {
        DecodeFails(decode, pairs, k);
        return Err;
      }
      DecodeOneMore(decode, pairs, k);
      v := ReadItem(item.value, v);
      assert (items + [item.value])[..|items|] == items;
      items := items + [item.value];
      k := k + 1;
    }
    assert pairs[..k] == pairs;
    var events := AddPending(v);
    return Ok(events);
  }

  // `UpdateEvent::from`
  method ParsePairs(pairs: seq<(string, string)>, codec: Codec) returns (r: Result<seq<UpdateEvent>>)
    ensures r == var items := DecodeAll(DecoderOf(codec), pairs); if items.Some? then Ok(Events(items.value)) else Err
    ensures r.Ok? ==>
              var items := DecodeAll(DecoderOf(codec), pairs).value;
              OfPeers(r.value, true) == PeerEvents(items) && OfPeers(r.value, false) == InterfaceEvents(items)
  {
    var d := DecoderOf(codec);
    DecodesProperly(codec);
    r := ParseProperly(pairs, d);
  }

  method ParseProperly(pairs: seq<(string, string)>, d: Decoder) returns (r: Result<seq<UpdateEvent>>)
    requires ProperDecoder(d)
    ensures r == var items := DecodeAll(d, pairs); if items.Some? then Ok(Events(items.value)) else Err
    ensures r.Ok? ==>
              var items := DecodeAll(d, pairs).value;
              OfPeers(r.value, true) == PeerEvents(items) && OfPeers(r.value, false) == InterfaceEvents(items)
  {
    r := ParseItems(pairs, d);
    if r.Ok? {
      Parsed(DecodeAll(d, pairs).value);
      ParsedByKind(d, pairs);
    }
  }

  // ----- What the variables hold -----

  // What the variables hold after some items.
  ghost predicate Tracks(items: seq<Item>, v: Variables) {
    var n := LastKey(items);
    && v.pending == (n >= 0)
    && (n < 0 ==> v.events == InterfaceEvents(items))
    && (n >= 0 ==>
          var group := items[n + 1..];
          && v.events == Events(items[..n]) + InterfaceEvents(group)
          && v.info == Settings(items[n].key, group)
          && v.remove == (Remove in group)
          && v.replace == (ReplaceAllowedIps in group))
  }

  lemma Flush(items: seq<Item>, v: Variables)
    requires Tracks(items, v)
    ensures Events(items) == v.Flushed()
  {
    var n := LastKey(items);
    if n >= 0 {
      SettingsKey(items[n].key, items[n + 1..]);
    }
  }

  lemma {:induction false} SettingsKey(key: Key, group: seq<Item>)
    ensures Settings(key, group).pubKey == key
    decreases |group|
  {
    if group != [] {
      SettingsKey(key, group[..|group| - 1]);
    }
  }

  // Reading one more item that is not a public key.
  lemma OneMore(items: seq<Item>, item: Item)
    requires !item.PublicKey?
    ensures LastKey(items + [item]) == LastKey(items)
    ensures InterfaceEvents(items + [item]) == InterfaceEvents(items) + if item.Interface? then [item.event] else []
    ensures LastKey(items) >= 0 ==>
              var n := LastKey(items);
              && (items + [item])[..n] == items[..n] && (items + [item])[n] == items[n]
              && (items + [item])[n + 1..] == items[n + 1..] + [item]
  {
    assert (items + [item])[..|items|] == items;
  }

  lemma AtKey(items: seq<Item>, item: Item, v: Variables)
    requires item.PublicKey? && v == Variables(Events(items), true, false, false, NO_INFO.(pubKey := item.key))
    ensures Tracks(items + [item], v)
  {
    KeyComesLast(items, item);
    assert InterfaceEvents([]) == [] && Settings(item.key, []) == v.info;
  }

  lemma KeyComesLast(items: seq<Item>, item: Item)
    requires item.PublicKey?
    ensures var all := items + [item];
            && LastKey(all) == |items|
            && all[..|items|] == items && all[|items|] == item && all[|items| + 1..] == []
  {
  }

  lemma InGroup(items: seq<Item>, item: Item, v: Variables)
    requires !item.PublicKey? && Tracks(items, v)
    ensures Tracks(items + [item], v.After(item))
  {
    OneMore(items, item);
    var n := LastKey(items);
    if n >= 0 {
      var group := items[n + 1..];
      OneMore(group, item);
      assert (group + [item])[..|group|] == group;
      assert Settings(items[n].key, group + [item]) == v.After(item).info;
    }
  }

  lemma {:induction false} Tracked(items: seq<Item>)
    ensures Tracks(items, AfterAll(items))
    decreases |items|
  {
    if items != [] {
      var init, last := items[..|items| - 1], items[|items| - 1];
      assert items == init + [last];
      Tracked(init);
      if last.PublicKey? {
        Flush(init, AfterAll(init));
        AtKey(init, last, AfterAll(items));
      } else {
        InGroup(init, last, AfterAll(init));
      }
    }
  }

  lemma Parsed(items: seq<Item>)
    ensures AfterAll(items).Flushed() == Events(items)
  {
    Tracked(items);
    Flush(items, AfterAll(items));
  }

  // ----- What the events say -----

  lemma {:induction false} OfPeersConcat(a: seq<UpdateEvent>, b: seq<UpdateEvent>, peers: bool)
    ensures OfPeers(a + b, peers) == OfPeers(a, peers) + OfPeers(b, peers)
    decreases |b|
  {
    if b == [] {
      assert a + b == a;
    } else {
      assert (a + b)[..|a + b| - 1] == a + b[..|b| - 1];
      OfPeersConcat(a, b[..|b| - 1], peers);
    }
  }

  lemma OneEvent(e: UpdateEvent)
    ensures OfPeers([e], ForPeer(e)) == [e] && OfPeers([e], !ForPeer(e)) == []
  {
    assert [e][..0] == [];
  }

  lemma {:induction false} InterfaceNotPeers(items: seq<Item>)
    requires Proper(items)
    ensures OfPeers(InterfaceEvents(items), true) == []
    ensures OfPeers(InterfaceEvents(items), false) == InterfaceEvents(items)
    decreases |items|
  {
    if items != [] {
      var init, last := items[..|items| - 1], items[|items| - 1];
      var es := InterfaceEvents(init);
      InterfaceNotPeers(init);
      if last.Interface? {
        OneEvent(last.event);
        OfPeersConcat(es, [last.event], true);
        OfPeersConcat(es, [last.event], false);
      } else {
        assert es + [] == es;
      }
    }
  }

  lemma {:induction false} InterfaceConcat(a: seq<Item>, b: seq<Item>)
    ensures InterfaceEvents(a + b) == InterfaceEvents(a) + InterfaceEvents(b)
    decreases |b|
  {
    if b == [] {
      assert a + b == a;
    } else {
      assert (a + b)[..|a + b| - 1] == a + b[..|b| - 1];
      InterfaceConcat(a, b[..|b| - 1]);
    }
  }

  lemma {:induction false} KeylessPeerEvents(items: seq<Item>)
    requires Keyless(items)
    ensures PeerEvents(items) == [] && UpToKey(items) == |items|
    decreases |items|
  {
    if items != [] {
      KeylessPeerEvents(items[1..]);
    }
  }

  lemma {:induction false} UpToKeyConcat(a: seq<Item>, key: Item, group: seq<Item>)
    requires key.PublicKey?
    ensures UpToKey(a + [key] + group) == UpToKey(a)
    decreases |a|
  {
    var all := a + [key] + group;
    if a != [] {
      assert all[0] == a[0] && all[1..] == a[1..] + [key] + group;
      UpToKeyConcat(a[1..], key, group);
    }
  }

  lemma OneGroup(key: Item, group: seq<Item>)
    requires key.PublicKey? && Keyless(group)
    ensures PeerEvents([key] + group) == [PeerEvent(key.key, group)]
  {
    var all := [key] + group;
    assert all[1..] == group && all[1..1 + |group|] == group;
    KeylessPeerEvents(group);
  }

  // What comes after a public key further on does not matter to the first group.
  lemma FirstGroup(a: seq<Item>, key: Item, group: seq<Item>)
    requires a != [] && key.PublicKey?
    ensures var all, n := a + [key] + group, UpToKey(a[1..]);
            UpToKey(all[1..]) == n && all[1..1 + n] == a[1..1 + n]
  {
    assert (a + [key] + group)[1..] == a[1..] + [key] + group;
    UpToKeyConcat(a[1..], key, group);
  }

  lemma FirstEvents(a: seq<Item>, all: seq<Item>, es: seq<UpdateEvent>)
    requires a != [] && a <= all && PeerEvents(all[1..]) == PeerEvents(a[1..]) + es
    requires var n := UpToKey(a[1..]); UpToKey(all[1..]) == n && all[1..1 + n] == a[1..1 + n]
    ensures PeerEvents(all) == PeerEvents(a) + es
  {
  }

  // The last group adds one event and does not change the others.
  lemma {:induction false} PeerEventsConcat(a: seq<Item>, key: Item, group: seq<Item>)
    requires key.PublicKey? && Keyless(group)
    ensures PeerEvents(a + [key] + group) == PeerEvents(a) + [PeerEvent(key.key, group)]
    decreases |a|
  {
    if a == [] {
      assert a + [key] + group == [key] + group;
      OneGroup(key, group);
    } else {
      PeerEventsConcat(a[1..], key, group);
      FirstGroup(a, key, group);
      assert (a + [key] + group)[1..] == a[1..] + [key] + group;
      FirstEvents(a, a + [key] + group, [PeerEvent(key.key, group)]);
    }
  }

  // The events for peers are, in order, one for each public key, with exactly the
  // attributes up to the next public key; the other events are the interface settings in
  // order.
  lemma {:induction false} EventsByKind(items: seq<Item>)
    requires Proper(items)
    ensures OfPeers(Events(items), true) == PeerEvents(items)
    ensures OfPeers(Events(items), false) == InterfaceEvents(items)
    decreases |items|
  {
    var n := LastKey(items);
    NoLaterKey(items);
    if n < 0 {
      InterfaceNotPeers(items);
      KeylessPeerEvents(items);
    } else {
      var before, key, group := items[..n], items[n], items[n + 1..];
      assert items == before + [key] + group;
      EventsByKind(before);
      LastGroup(items, before, key, group);
      OneMoreGroup(before, key, group);
    }
  }

  lemma OneMoreGroup(before: seq<Item>, key: Item, group: seq<Item>)
    requires key.PublicKey? && Keyless(group) && Proper(group)
    requires OfPeers(Events(before), true) == PeerEvents(before)
    requires OfPeers(Events(before), false) == InterfaceEvents(before)
    ensures var es := Events(before) + InterfaceEvents(group) + [PeerEvent(key.key, group)];
            && OfPeers(es, true) == PeerEvents(before + [key] + group)
            && OfPeers(es, false) == InterfaceEvents(before + [key] + group)
  {
    GroupByKind(Events(before), key, group, true);
    GroupByKind(Events(before), key, group, false);
    PeerEventsConcat(before, key, group);
    GroupInterface(before, key, group);
  }

  lemma GroupInterface(before: seq<Item>, key: Item, group: seq<Item>)
    requires key.PublicKey?
    ensures InterfaceEvents(before + [key] + group) == InterfaceEvents(before) + InterfaceEvents(group)
  {
    InterfaceConcat(before + [key], group);
    AppendKey(before, key);
  }

  lemma AppendKey(before: seq<Item>, key: Item)
    requires key.PublicKey?
    ensures InterfaceEvents(before + [key]) == InterfaceEvents(before)
  {
    assert (before + [key])[..|before|] == before;
  }

  lemma GroupByKind(before: seq<UpdateEvent>, key: Item, group: seq<Item>, peers: bool)
    requires key.PublicKey? && Proper(group)
    ensures OfPeers(before + InterfaceEvents(group) + [PeerEvent(key.key, group)], peers) ==
            OfPeers(before, peers) + if peers then [PeerEvent(key.key, group)] else InterfaceEvents(group)
  {
    InterfaceNotPeers(group);
    OneEvent(PeerEvent(key.key, group));
    SplitEvents(before, InterfaceEvents(group), PeerEvent(key.key, group), peers);
  }

  lemma SplitEvents(a: seq<UpdateEvent>, b: seq<UpdateEvent>, e: UpdateEvent, peers: bool)
    ensures OfPeers(a + b + [e], peers) == OfPeers(a, peers) + OfPeers(b, peers) + OfPeers([e], peers)
  {
    OfPeersConcat(a + b, [e], peers);
    OfPeersConcat(a, b, peers);
  }

  // Attributes before the first public key have no effect at all.
  lemma {:induction false} LeadingAttributesIgnored(lead: seq<Item>, items: seq<Item>)
    requires Keyless(lead) && (items == [] || items[0].PublicKey?)
    ensures Events(lead + items) == InterfaceEvents(lead) + Events(items)
    decreases |items|
  {
    var n := LastKey(items);
    NoLaterKey(items);
    if n < 0 {
      KeylessLast(lead);
      assert items == [] && lead + items == lead;
    } else {
      var before, key, group := items[..n], items[n], items[n + 1..];
      assert items == before + [key] + group;
      LeadingAttributesIgnored(lead, before);
      LeadingGroup(lead, items, before, key, group);
    }
  }

  lemma LeadingGroup(lead: seq<Item>, items: seq<Item>, before: seq<Item>, key: Item, group: seq<Item>)
    requires Keyless(lead) && items == before + [key] + group && key.PublicKey? && LastKey(items) == |before|
    requires Events(lead + before) == InterfaceEvents(lead) + Events(before)
    ensures Events(lead + items) == InterfaceEvents(lead) + Events(items)
  {
    var all, first := lead + items, lead + before;
    LastKeyConcat(lead, items);
    SplitLead(lead, before, key, group);
    LastGroup(items, before, key, group);
    LastGroup(all, first, key, group);
    Reassociate(InterfaceEvents(lead), Events(before), InterfaceEvents(group), [PeerEvent(key.key, group)]);
  }

  lemma SplitLead(lead: seq<Item>, before: seq<Item>, key: Item, group: seq<Item>)
    ensures lead + (before + [key] + group) == (lead + before) + [key] + group
  {
  }

  lemma Reassociate(a: seq<UpdateEvent>, b: seq<UpdateEvent>, c: seq<UpdateEvent>, d: seq<UpdateEvent>)
    ensures a + b + c + d == a + (b + c + d)
  {
  }

  lemma LastGroup(items: seq<Item>, before: seq<Item>, key: Item, group: seq<Item>)
    requires items == before + [key] + group && key.PublicKey? && LastKey(items) == |before|
    ensures Events(items) == Events(before) + InterfaceEvents(group) + [PeerEvent(key.key, group)]
  {
    assert items[..|before|] == before && items[|before|] == key && items[|before| + 1..] == group;
  }

  lemma KeylessLast(items: seq<Item>)
    requires Keyless(items)
    ensures LastKey(items) == -1
  {
  }

  lemma {:induction false} LastKeyConcat(a: seq<Item>, b: seq<Item>)
    requires Keyless(a)
    ensures LastKey(a + b) == if LastKey(b) >= 0 then |a| + LastKey(b) else -1
    decreases |b|
  {
    if b == [] {
      assert a + b == a;
    } else {
      assert (a + b)[..|a + b| - 1] == a + b[..|b| - 1];
      LastKeyConcat(a, b[..|b| - 1]);
    }
  }

  predicate ProperItem(item: Option<Item>) {
    item.Some? && item.value.Interface? ==> !ForPeer(item.value.event)
  }

  ghost predicate ProperDecoder(d: Decoder) {
    forall pair :: ProperItem(d(pair))
  }

  lemma {:induction false} AllProper(d: Decoder, pairs: seq<(string, string)>)
    requires DecodeAll(d, pairs).Some? && ProperDecoder(d)
    ensures Proper(DecodeAll(d, pairs).value)
    decreases |pairs|
  {
    if pairs != [] {
      AllProper(d, pairs[..|pairs| - 1]);
      assert ProperItem(d(pairs[|pairs| - 1]));
    }
  }

  // No pair sets the interface and configures a peer at once.
  lemma DecodesProperly(c: Codec)
    ensures ProperDecoder(DecoderOf(c))
  {
    forall pair ensures ProperItem(DecoderOf(c)(pair)) {
      assert DecoderOf(c)(pair) == Decode(c, pair);
    }
  }

  // The events of any accepted list of pairs, by kind.
  lemma ParsedByKind(d: Decoder, pairs: seq<(string, string)>)
    requires ProperDecoder(d) && DecodeAll(d, pairs).Some?
    ensures var items := DecodeAll(d, pairs).value;
            OfPeers(Events(items), true) == PeerEvents(items) && OfPeers(Events(items), false) == InterfaceEvents(items)
  {
    AllProper(d, pairs);
    EventsByKind(DecodeAll(d, pairs).value);
  }

  // ----- Which key means what -----

  // What ParsePairs gives.
  ghost function Outcome(d: Decoder, pairs: seq<(string, string)>): Result<seq<UpdateEvent>> {
    var items := DecodeAll(d, pairs);
    if items.Some? then Ok(Events(items.value)) else Err
  }

  lemma OnePair(d: Decoder, p: (string, string))
    ensures d(p).None? ==> Outcome(d, [p]) == Err
    ensures d(p).Some? && d(p).value.Interface? ==> Outcome(d, [p]) == Ok([d(p).value.event])
  {
    DecodeOne(d, [], p);
    if d(p).Some? {
      var items := [d(p).value];
      assert items[..0] == [];
      assert InterfaceEvents(items) == if items[0].Interface? then [items[0].event] else [];
    }
  }

  lemma DecodeOne(d: Decoder, init: seq<(string, string)>, p: (string, string))
    ensures DecodeAll(d, init + [p]) ==
            if DecodeAll(d, init).Some? && d(p).Some? then Some(DecodeAll(d, init).value + [d(p).value]) else None
  {
    assert (init + [p])[..|init|] == init;
  }

  lemma KeyAndItem(k: Key, item: Item)
    requires !item.PublicKey? && !item.Interface?
    ensures Events([PublicKey(k), item]) == [PeerEvent(k, [item])]
  {
    var items := [PublicKey(k), item];
    assert [] + [PublicKey(k)] + [item] == items;
    OneMore([PublicKey(k)], item);
    KeyComesLast([], PublicKey(k));
    assert [PublicKey(k)] + [item] == items && [] + [PublicKey(k)] == [PublicKey(k)];
    LastGroup(items, [], PublicKey(k), [item]);
    NoEvents(item);
  }

  lemma NoEvents(item: Item)
    requires !item.Interface?
    ensures InterfaceEvents([item]) == [] && Events([]) == []
  {
    assert [item][..0] == [];
  }

  lemma OneAttribute(k: Key, item: Item)
    ensures Settings(k, [item]) == Attribute(item, PeerInfo(k, None, None, [], None))
    ensures (Remove in [item] <==> item == Remove) && (ReplaceAllowedIps in [item] <==> item == ReplaceAllowedIps)
  {
    assert [item][..0] == [];
  }

  // A public key and one attribute.
  lemma TwoPairs(d: Decoder, p: (string, string), q: (string, string), k: Key, item: Option<Item>)
    requires d(p) == Some(PublicKey(k)) && d(q) == item && (item.Some? ==> !item.value.PublicKey? && !item.value.Interface?)
    ensures Outcome(d, [p, q]) ==
            if item.None? then Err
            else if item.value == Remove then Ok([RemovePeer(k)])
            else Ok([UpdatePeer(Attribute(item.value, PeerInfo(k, None, None, [], None)), item.value == ReplaceAllowedIps)])
  {
    DecodeOne(d, [], p);
    DecodeOne(d, [p], q);
    assert [] + [p] == [p] && [p] + [q] == [p, q];
    if item.Some? {
      assert [] + [PublicKey(k)] + [item.value] == [PublicKey(k), item.value];
      KeyAndItem(k, item.value);
      OneAttribute(k, item.value);
    }
  }

  // The settings of the interface, each by its key.
  lemma InterfaceKeys(c: Codec, v: string)
    ensures c.key(v).Some? ==> Outcome(DecoderOf(c), [("private_key", v)]) == Ok([SetPrivateKey(c.key(v).value)])
    ensures c.port(v).Some? ==> Outcome(DecoderOf(c), [("listen_port", v)]) == Ok([SetListenPort(c.port(v).value)])
    ensures c.mark(v).Some? ==> Outcome(DecoderOf(c), [("fwmark", v)]) == Ok([SetFwmark(c.mark(v).value)])
    ensures Outcome(DecoderOf(c), [("replace_peers", v)]) == Ok([RemoveAllPeers])
    ensures c.key(v).None? ==> Outcome(DecoderOf(c), [("private_key", v)]) == Err
    ensures c.port(v).None? ==> Outcome(DecoderOf(c), [("listen_port", v)]) == Err
    ensures c.mark(v).None? ==> Outcome(DecoderOf(c), [("fwmark", v)]) == Err
  {
    var d := DecoderOf(c);
    OnePair(d, ("private_key", v));
    OnePair(d, ("listen_port", v));
    OnePair(d, ("fwmark", v));
    OnePair(d, ("replace_peers", v));
  }

  // The attributes of a peer, each by its key.
  lemma RemoveKey(c: Codec, s: string, v: string, k: Key)
    requires c.key(s) == Some(k)
    ensures Outcome(DecoderOf(c), [("public_key", s), ("remove", v)]) ==
            Ok([RemovePeer(k)])
  {
    var item := DecoderOf(c)(("remove", v));
    TwoPairs(DecoderOf(c), ("public_key", s), ("remove", v), k, item);
  }

  lemma ReplaceKey(c: Codec, s: string, v: string, k: Key)
    requires c.key(s) == Some(k)
    ensures Outcome(DecoderOf(c), [("public_key", s), ("replace_allowed_ips", v)]) ==
            Ok([UpdatePeer(PeerInfo(k, None, None, [], None), true)])
  {
    var item := DecoderOf(c)(("replace_allowed_ips", v));
    TwoPairs(DecoderOf(c), ("public_key", s), ("replace_allowed_ips", v), k, item);
  }

  lemma PresharedKeyKey(c: Codec, s: string, v: string, k: Key)
    requires c.key(s) == Some(k)
    ensures Outcome(DecoderOf(c), [("public_key", s), ("preshared_key", v)]) ==
            if c.key(v).Some? then Ok([UpdatePeer(PeerInfo(k, c.key(v), None, [], None), false)]) else Err
  {
    var item := DecoderOf(c)(("preshared_key", v));
    TwoPairs(DecoderOf(c), ("public_key", s), ("preshared_key", v), k, item);
  }

  lemma KeepaliveKey(c: Codec, s: string, v: string, k: Key)
    requires c.key(s) == Some(k)
    ensures Outcome(DecoderOf(c), [("public_key", s), ("persistent_keepalive_interval", v)]) ==
            if c.interval(v).Some? then Ok([UpdatePeer(PeerInfo(k, None, None, [], c.interval(v)), false)]) else Err
  {
    var item := DecoderOf(c)(("persistent_keepalive_interval", v));
    TwoPairs(DecoderOf(c), ("public_key", s), ("persistent_keepalive_interval", v), k, item);
  }

  lemma EndpointKey(c: Codec, s: string, v: string, k: Key)
    requires c.key(s) == Some(k)
    ensures Outcome(DecoderOf(c), [("public_key", s), ("endpoint", v)]) ==
            if c.endpoint(v).Some? then Ok([UpdatePeer(PeerInfo(k, None, c.endpoint(v), [], None), false)]) else Err
  {
    var item := DecoderOf(c)(("endpoint", v));
    TwoPairs(DecoderOf(c), ("public_key", s), ("endpoint", v), k, item);
  }

  lemma AllowedIpKey(c: Codec, s: string, v: string, k: Key)
    requires c.key(s) == Some(k)
    ensures Outcome(DecoderOf(c), [("public_key", s), ("allowed_ip", v)]) ==
            if c.prefix(v).Some? then Ok([UpdatePeer(PeerInfo(k, None, None, [c.prefix(v).value], None), false)]) else Err
  {
    var item := DecoderOf(c)(("allowed_ip", v));
    assert c.prefix(v).Some? ==> [] + [c.prefix(v).value] == [c.prefix(v).value];
    TwoPairs(DecoderOf(c), ("public_key", s), ("allowed_ip", v), k, item);
  }
}
