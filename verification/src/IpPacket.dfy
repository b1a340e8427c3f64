// Views of IPv4 and IPv6 packets (src/ip_packet.rs), and the padding that transport
// messages put around them (src/peer.rs).
module IpPackets {
  import opened Types
  import opened Consts

  // An address as its family and its bits read as one number, most significant first.
  datatype Ip = Ip(v6: bool, bits: nat)

  function Width(v6: bool): nat {
    if v6 then 128 else 32
  }

  function Number(b: Bytes): nat
    decreases |b|
  {
    if b == [] then 0 else 256 * Number(b[..|b| - 1]) + b[|b| - 1] as nat
  }

  // The minimum header sizes of section 3.1 of RFC 791 and section 3 of RFC 8200.
  datatype IpPacket = V4(bytes: Bytes) | V6(bytes: Bytes) {
    predicate Valid() {
      |bytes| >= if V4? then 20 else 40
    }

    function Source(): Ip
      requires Valid()
    {
      if V4? then Ip(false, Number(bytes[12..16])) else Ip(true, Number(bytes[8..24]))
    }

    function Destination(): Ip
      requires Valid()
    {
      if V4? then Ip(false, Number(bytes[16..20])) else Ip(true, Number(bytes[24..40]))
    }

    // The size the header declares.
    function Declared(): nat
      requires Valid()
    {
      if V4? then 256 * bytes[2] as nat + bytes[3] as nat
      else 40 + 256 * bytes[4] as nat + bytes[5] as nat
    }

    // `length`, computed in 16 bits.
    function Length(): u16
      requires Valid()
    {
      (Declared() % 0x1_0000) as u16
    }
  }

  function Parse(b: Bytes): (p: Option<IpPacket>)
    ensures p.Some? ==> p.value.Valid() && p.value.bytes == b
    ensures p.Some? <==> (|b| >= 20 && b[0] / 16 == 4) || (|b| >= 40 && b[0] / 16 == 6)
    ensures p.Some? ==> (p.value.V4? <==> b[0] / 16 == 4)
  {
    if b == [] then None
    else if b[0] / 16 == 4 && |b| >= 20 then Some(V4(b))
    else if b[0] / 16 == 6 && |b| >= 40 then Some(V6(b))
    else None
  }

  // Where the fields of an IPv4 header are: total length, source, destination.
  lemma HeaderV4(b: Bytes)
    requires |b| >= 20 && b[0] / 16 == 4
    ensures Parse(b) == Some(V4(b))
    ensures var p := V4(b);
            && p.Declared() == b[2] as nat * 0x100 + b[3] as nat
            && p.Source() == Ip(false, b[12] as nat * 0x100_0000 + b[13] as nat * 0x1_0000 + b[14] as nat * 0x100 + b[15] as nat)
            && p.Destination() == Ip(false, b[16] as nat * 0x100_0000 + b[17] as nat * 0x1_0000 + b[18] as nat * 0x100 + b[19] as nat)
  {
    Number4(b[12..16]);
    Number4(b[16..20]);
  }

  lemma Number4(b: Bytes)
    requires |b| == 4
    ensures Number(b) == b[0] as nat * 0x100_0000 + b[1] as nat * 0x1_0000 + b[2] as nat * 0x100 + b[3] as nat
  {
    var c, e, f := b[..3], b[..2], b[..1];
    assert c[..2] == e && e[..1] == f && f[..0] == [];
    assert Number(f) == b[0] as nat;
    assert Number(e) == 256 * Number(f) + b[1] as nat;
    assert Number(c) == 256 * Number(e) + b[2] as nat;
  }

  // The same for IPv6: payload length, and byte `k` of the addresses, read as big-endian numbers
  // of sixteen bytes.
  lemma HeaderV6(b: Bytes, k: nat)
    requires |b| >= 40 && b[0] / 16 == 6 && k < 16
    ensures Parse(b) == Some(V6(b))
    ensures var p := V6(b);
            && p.Declared() == 40 + b[4] as nat * 0x100 + b[5] as nat
            && p.Source().v6 && p.Destination().v6
            && p.Source().bits / Pow256(15 - k) % 256 == b[8 + k] as nat
            && p.Destination().bits / Pow256(15 - k) % 256 == b[24 + k] as nat
  {
    DigitOf(b[8..24], k);
    DigitOf(b[24..40], k);
  }

  // Byte `k` of a big-endian number.
  lemma {:induction false} DigitOf(b: Bytes, k: nat)
    requires k < |b|
    ensures Number(b) / Pow256(|b| - 1 - k) % 256 == b[k] as nat
    decreases |b|
  {
    var init, last := b[..|b| - 1], b[|b| - 1] as nat;
    if k < |b| - 1 {
      DigitOf(init, k);
      var d := Pow256(|b| - 2 - k);
      DivideTwice(256 * Number(init) + last, 256, d);
      assert (256 * Number(init) + last) / 256 == Number(init);
    }
  }

  // Padding adds the fewest zeros that make the length a multiple of sixteen.
  lemma PadExactly(packet: Bytes)
    ensures |Pad(packet)| % 16 == 0 && |packet| <= |Pad(packet)| < |packet| + 16
    ensures Pad(packet)[..|packet|] == packet
    ensures forall i :: |packet| <= i < |Pad(packet)| ==> Pad(packet)[i] == 0
  {
    var n := |packet| % 16;
    assert |packet| == |packet| / 16 * 16 + n;
  }

  function Padding(len: nat): nat {
    if len % PADDING_MULTIPLE != 0 then PADDING_MULTIPLE - len % PADDING_MULTIPLE else 0
  }

  function Pad(packet: Bytes): Bytes {
    packet + Zeros(Padding(|packet|))
  }

  // What the receiver keeps of a decrypted payload. The buffer it decrypts into is as
  // long as the whole transport message and starts out zeroed.
  function Unpad(plain: Bytes, messageLen: nat): Result<Bytes>
    requires |plain| <= messageLen
  {
    if plain == [] then Ok([])
    else
      match Parse(plain)
      case None => Err
      case Some(ip) =>
        var buffer := plain + Zeros(messageLen - |plain|);
        var len := ip.Length() as nat;
        Ok(if len < messageLen then buffer[..len] else buffer)
  }

  // Padding and unpadding returns the packet exactly when it is a keepalive or its
  // header declares its own size, counted in 16 bits.
  lemma UnpadPad(packet: Bytes)
    ensures Unpad(Pad(packet), |Pad(packet)| + TRANSPORT_OVERHEAD) == Ok(packet) <==>
            packet == [] || (Parse(Pad(packet)).Some? && Parse(Pad(packet)).value.Length() as nat == |packet|)
  {
    var padded := Pad(packet);
    var buffer := padded + Zeros(TRANSPORT_OVERHEAD);
    assert buffer[..|packet|] == packet;
    if packet != [] && Parse(padded).Some? {
      var len := Parse(padded).value.Length() as nat;
      if len != |packet| && len < |padded| + TRANSPORT_OVERHEAD {
        assert |buffer[..len]| == len;
      }
    }
  }

  // The 16-bit length is the declared one unless an IPv6 payload is longer than 65495
  // bytes; no packet that fits a transport message is.
  lemma LengthExact(ip: IpPacket)
    requires ip.Valid()
    ensures ip.Length() as nat == ip.Declared() <==>
            (ip.V6? ==> 256 * ip.bytes[4] as nat + ip.bytes[5] as nat <= 65495)
    ensures ip.Declared() <= MAX_CONTENT_SIZE ==> ip.Length() as nat == ip.Declared()
  {
  }

  // An IPv6 header that declares 65496 bytes of payload has length 0, so whatever follows it is
  // taken for a keepalive.
  lemma LengthWraps(rest: Bytes, messageLen: nat)
    requires |rest| >= 34 && 6 + |rest| <= messageLen
    ensures var b := [0x60, 0, 0, 0, 0xff, 0xd8] + rest;
            && Parse(b) == Some(V6(b)) && V6(b).Declared() == 65536 && V6(b).Length() == 0
            && Unpad(b, messageLen) == Ok([])
  {
    var b: Bytes := [0x60, 0, 0, 0, 0xff, 0xd8] + rest;
    assert b[0] == 0x60 && b[4] == 0xff && b[5] == 0xd8;
    assert Parse(b) == Some(V6(b));
  }

  // Padding does not change what a well-formed packet's header says.
  lemma ParsePad(packet: Bytes)
    requires Parse(packet).Some?
    ensures Parse(Pad(packet)).Some?
    ensures var p, q := Parse(packet).value, Parse(Pad(packet)).value;
            && p.V4? == q.V4? && p.Declared() == q.Declared()
            && p.Source() == q.Source() && p.Destination() == q.Destination()
  {
    var padded := Pad(packet);
    assert forall i :: 0 <= i < |packet| ==> padded[i] == packet[i];
    if Parse(packet).value.V4? {
      assert padded[12..16] == packet[12..16] && padded[16..20] == packet[16..20];
    } else {
      assert padded[8..24] == packet[8..24] && padded[24..40] == packet[24..40];
    }
  }
}
