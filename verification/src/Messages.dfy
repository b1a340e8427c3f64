// The four message kinds and their fields at fixed offsets (src/message.rs), and the
// packets that src/peer.rs builds.
module Messages {
  import opened Types
  import opened Consts
  import opened IpPackets

  // ----- Little-endian numbers -----

  function Le(v: nat, n: nat): (b: Bytes)
    ensures |b| == n
    decreases n
  {
    if n == 0 then [] else [(v % 256) as byte] + Le(v / 256, n - 1)
  }

  function FromLe(b: Bytes): nat
    decreases |b|
  {
    if b == [] then 0 else b[0] as nat + 256 * FromLe(b[1..])
  }

  lemma {:induction false} LeRoundTrip(v: nat, n: nat)
    requires v < Pow256(n)
    ensures FromLe(Le(v, n)) == v
    decreases n
  {
    if n > 0 {
      LeRoundTrip(v / 256, n - 1);
      assert Le(v, n)[1..] == Le(v / 256, n - 1);
    }
  }

  // ----- Messages -----

  datatype Message =
    | Initiation(bytes: Bytes)
    | Response(bytes: Bytes)
    | CookieReply(bytes: Bytes)
    | Transport(bytes: Bytes)
  {
    predicate Valid() {
      match this
      case Initiation(b) => |b| == 148
      case Response(b) => |b| == 92
      case CookieReply(b) => |b| == 64
      case Transport(b) => |b| >= 32
    }

    // The first byte of a message of this kind.
    function Kind(): byte {
      match this
      case Initiation(_) => 1
      case Response(_) => 2
      case CookieReply(_) => 3
      case Transport(_) => 4
    }

    // The index of the sender, in handshake messages.
    function SenderIndex(): nat
      requires Valid() && (Initiation? || Response?)
    {
      FromLe(bytes[4..8])
    }

    // The index of the receiver, in all others and in responses.
    function ReceiverIndex(): nat
      requires Valid() && !Initiation?
    {
      if Response? then FromLe(bytes[8..12]) else FromLe(bytes[4..8])
    }

    function NoiseBytes(): Bytes
      requires Valid() && (Initiation? || Response?)
    {
      if Initiation? then bytes[8..116] else bytes[12..60]
    }

    // `mac1`, which for an initiation reads from the middle of the Noise message.
    function Mac1(): Bytes
      requires Valid() && (Initiation? || Response?)
    {
      if Initiation? then bytes[84..100] else bytes[60..76]
    }

    function Nonce(): Bytes
      requires Valid() && CookieReply?
    {
      bytes[8..32]
    }

    function Cookie(): Bytes
      requires Valid() && CookieReply?
    {
      bytes[32..48]
    }

    function AeadTag(): Bytes
      requires Valid() && CookieReply?
    {
      bytes[48..64]
    }

    function Counter(): nat
      requires Valid() && Transport?
    {
      FromLe(bytes[8..16])
    }

    function Payload(): Bytes
      requires Valid() && Transport?
    {
      bytes[16..]
    }
  }

  // What becomes of a datagram.
  datatype Conversion = Read(message: Message) | Refused | Panics

  // `try_from`. The first byte is looked at before the length, so an empty datagram, which the
  // socket hands on like any other, makes the program panic.
  function Parse(packet: Bytes): (m: Conversion)
    ensures m.Panics? <==> packet == []
    ensures m.Read? ==> m.message.Valid() && m.message.bytes == packet && packet[0] == m.message.Kind()
    ensures m.Read? <==>
      packet != [] &&
      (|| (packet[0] == 1 && |packet| == 148)
       || (packet[0] == 2 && |packet| == 92)
       || (packet[0] == 3 && |packet| == 64)
       || (packet[0] == 4 && |packet| >= 32))
  {
    if packet == [] then Panics
    else if packet[0] == 1 then (if |packet| == 148 then Read(Initiation(packet)) else Refused)
    else if packet[0] == 2 then (if |packet| == 92 then Read(Response(packet)) else Refused)
    else if packet[0] == 3 then (if |packet| == 64 then Read(CookieReply(packet)) else Refused)
    else if packet[0] == 4 then (if |packet| >= 32 then Read(Transport(packet)) else Refused)
    else Refused
  }

  // ----- Packets -----

  function Mac2Bytes(mac2: Option<Bytes>): Bytes {
    if mac2.Some? then mac2.value else Zeros(16)
  }

  // The part of an initiation that the MACs cover first, and the whole packet.
  function InitiationInput(ourIndex: u32, noise: Bytes): Bytes {
    [1] + Zeros(3) + Le(ourIndex as nat, 4) + noise
  }

  function InitiationPacket(ourIndex: u32, noise: Bytes, mac1: Bytes, mac2: Option<Bytes>): Bytes {
    InitiationInput(ourIndex, noise) + mac1 + Mac2Bytes(mac2)
  }

  function ResponseInput(ourIndex: u32, theirIndex: u32, noise: Bytes): Bytes {
    [2] + Zeros(3) + Le(ourIndex as nat, 4) + Le(theirIndex as nat, 4) + noise
  }

  function ResponsePacket(ourIndex: u32, theirIndex: u32, noise: Bytes, mac1: Bytes, mac2: Option<Bytes>): Bytes {
    ResponseInput(ourIndex, theirIndex, noise) + mac1 + Mac2Bytes(mac2)
  }

  function CookieReplyPacket(receiver: u32, nonce: Bytes, cookie: Bytes, tag: Bytes): Bytes {
    [3] + Zeros(3) + Le(receiver as nat, 4) + nonce + cookie + tag
  }

  function TransportPacket(receiver: u32, counter: u64, cipher: Bytes): Bytes {
    [4] + Zeros(3) + Le(receiver as nat, 4) + Le(counter as nat, 8) + cipher
  }

  // Cutting a concatenation where its parts meet.
  lemma Cut(a: Bytes, b: Bytes, c: Bytes)
    ensures (a + b + c)[..|a|] == a
    ensures (a + b + c)[|a|..|a| + |b|] == b
    ensures (a + b + c)[|a| + |b|..] == c
  {
  }

  lemma Cut4(h: Bytes, i: Bytes, j: Bytes, n: Bytes, p: Bytes)
    requires |h| == 4 && |i| == 4 && p == h + i + j + n
    ensures |p| == 8 + |j| + |n| && p[0] == h[0]
    ensures p[4..8] == i && p[8..8 + |j|] == j && p[8 + |j|..] == n
  {
    Cut(h, i, j + n);
    assert h + i + (j + n) == p;
    Cut(h + i, j, n);
  }

  // The fields of a packet are where the receiver looks for them, except that the
  // receiver of an initiation takes sixteen bytes of the Noise message for its mac1.
  lemma InitiationFields(ourIndex: u32, noise: Bytes, mac1: Bytes, mac2: Option<Bytes>)
    requires |noise| == 108 && |mac1| == 16 && (mac2.Some? ==> |mac2.value| == 16)
    ensures var p := InitiationPacket(ourIndex, noise, mac1, mac2);
            && Parse(p) == Read(Initiation(p))
            && Initiation(p).SenderIndex() == ourIndex as nat && Initiation(p).NoiseBytes() == noise
            && Initiation(p).Mac1() == noise[76..92]
            && p[..116] == InitiationInput(ourIndex, noise) && p[116..132] == mac1 && p[132..] == Mac2Bytes(mac2)
  {
    Pow256Widths();
    LeRoundTrip(ourIndex as nat, 4);
    var p := InitiationPacket(ourIndex, noise, mac1, mac2);
    InitiationLayout([1] + Zeros(3), Le(ourIndex as nat, 4), noise, mac1, Mac2Bytes(mac2), p);
  }

  lemma InitiationLayout(h: Bytes, i: Bytes, noise: Bytes, mac1: Bytes, mac2: Bytes, p: Bytes)
    requires |h| == 4 && |i| == 4 && |noise| == 108 && |mac1| == 16 && |mac2| == 16
    requires p == h + i + noise + mac1 + mac2
    ensures |p| == 148 && p[0] == h[0] && p[4..8] == i && p[8..116] == noise && p[84..100] == noise[76..92]
    ensures p[..116] == h + i + noise && p[116..132] == mac1 && p[132..] == mac2
  {
    Cut(h + i + noise, mac1, mac2);
    var q := h + i + noise;
    Cut(h, i, noise);
    assert p[..116] == q;
    assert p[4..8] == q[4..8] && p[8..116] == q[8..];
    assert p[84..100] == p[8..116][76..92];
  }

  lemma ResponseLayout(h: Bytes, i: Bytes, j: Bytes, noise: Bytes, mac1: Bytes, mac2: Bytes, p: Bytes)
    requires |h| == 4 && |i| == 4 && |j| == 4 && |noise| == 48 && |mac1| == 16 && |mac2| == 16
    requires p == h + i + j + noise + mac1 + mac2
    ensures |p| == 92 && p[0] == h[0] && p[4..8] == i && p[8..12] == j && p[12..60] == noise && p[60..76] == mac1
    ensures p[..60] == h + i + j + noise && p[76..] == mac2
  {
    Cut(h + i + j + noise, mac1, mac2);
    var q := h + i + j + noise;
    Cut4(h, i, j, noise, q);
    assert p[..60] == q;
    assert p[4..8] == q[4..8] && p[8..12] == q[8..12] && p[12..60] == q[12..];
  }

  lemma ResponseFields(ourIndex: u32, theirIndex: u32, noise: Bytes, mac1: Bytes, mac2: Option<Bytes>)
    requires |noise| == 48 && |mac1| == 16 && (mac2.Some? ==> |mac2.value| == 16)
    ensures var p := ResponsePacket(ourIndex, theirIndex, noise, mac1, mac2);
            && Parse(p) == Read(Response(p))
            && Response(p).SenderIndex() == ourIndex as nat && Response(p).ReceiverIndex() == theirIndex as nat
            && Response(p).NoiseBytes() == noise && Response(p).Mac1() == mac1
            && p[..60] == ResponseInput(ourIndex, theirIndex, noise) && p[76..] == Mac2Bytes(mac2)
  {
    Pow256Widths();
    LeRoundTrip(ourIndex as nat, 4);
    LeRoundTrip(theirIndex as nat, 4);
    var p := ResponsePacket(ourIndex, theirIndex, noise, mac1, mac2);
    var h, m2 := [2] + Zeros(3), Mac2Bytes(mac2);
    ResponseLayout(h, Le(ourIndex as nat, 4), Le(theirIndex as nat, 4), noise, mac1, m2, p);
  }

  lemma CookieReplyFields(receiver: u32, nonce: Bytes, cookie: Bytes, tag: Bytes)
    requires |nonce| == 24 && |cookie| == 16 && |tag| == 16
    ensures var p := CookieReplyPacket(receiver, nonce, cookie, tag);
            && Parse(p) == Read(CookieReply(p)) && CookieReply(p).ReceiverIndex() == receiver as nat
            && CookieReply(p).Nonce() == nonce && CookieReply(p).Cookie() == cookie && CookieReply(p).AeadTag() == tag
  {
    Pow256Widths();
    LeRoundTrip(receiver as nat, 4);
    var p := CookieReplyPacket(receiver, nonce, cookie, tag);
    var h, i := [3] + Zeros(3), Le(receiver as nat, 4);
    assert p == h + i + nonce + (cookie + tag);
    Cut4(h, i, nonce, cookie + tag, p);
    Cut(h + i + nonce, cookie, tag);
    assert p[48..64] == p[48..];
  }

  lemma TransportFields(receiver: u32, counter: u64, cipher: Bytes)
    requires |cipher| >= 16
    ensures var p := TransportPacket(receiver, counter, cipher);
            && |p| == |cipher| + TRANSPORT_HEADER_SIZE
            && Parse(p) == Read(Transport(p)) && Transport(p).ReceiverIndex() == receiver as nat
            && Transport(p).Counter() == counter as nat && Transport(p).Payload() == cipher
  {
    Pow256Widths();
    LeRoundTrip(receiver as nat, 4);
    LeRoundTrip(counter as nat, 8);
    var p := TransportPacket(receiver, counter, cipher);
    Cut4([4] + Zeros(3), Le(receiver as nat, 4), Le(counter as nat, 8), cipher, p);
  }

  // ----- A packet through the tunnel -----

  // The cipher of one direction of a session, given the message counter.
  datatype Cipher = Cipher(write: (u64, Bytes) -> Bytes, read: (u64, Bytes) -> Option<Bytes>)

  ghost predicate Lawful(c: Cipher) {
    forall n: u64, p: Bytes :: |c.write(n, p)| == |p| + AEAD_TAG_SIZE && c.read(n, c.write(n, p)) == Some(p)
  }

  // Such ciphers exist; this one hides nothing.
  lemma CipherExists() returns (c: Cipher)
    ensures Lawful(c)
  {
    c := Cipher((n: u64, p: Bytes) => p + Zeros(AEAD_TAG_SIZE),
                (n: u64, b: Bytes) => if |b| < AEAD_TAG_SIZE then None else Some(b[..|b| - AEAD_TAG_SIZE]));
    forall p: Bytes ensures (p + Zeros(AEAD_TAG_SIZE))[..|p|] == p {
    }
  }

  function Wrap(c: Cipher, receiver: u32, counter: u64, packet: Bytes): Bytes {
    TransportPacket(receiver, counter, c.write(counter, Pad(packet)))
  }

  function Unwrap(c: Cipher, message: Bytes): Result<Bytes> {
    var m := Parse(message);
    if !m.Read? || !m.message.Transport? || m.message.Counter() > U64_MAX as nat then Err
    else
      var plain := c.read(m.message.Counter() as u64, m.message.Payload());
      if plain.None? || |plain.value| > |message| then Err else Unpad(plain.value, |message|)
  }

  // A packet comes out of the tunnel as it went in exactly when it is a keepalive or its
  // header declares its size; every well-formed packet that may be sent does.
  lemma TunnelRoundTrip(c: Cipher, receiver: u32, counter: u64, packet: Bytes)
    requires Lawful(c)
    ensures Unwrap(c, Wrap(c, receiver, counter, packet)) == Ok(packet) <==>
            packet == [] || (IpPackets.Parse(Pad(packet)).Some? &&
                             IpPackets.Parse(Pad(packet)).value.Length() as nat == |packet|)
  {
    Unwrapped(c, receiver, counter, packet);
    UnpadPad(packet);
  }

  lemma Unwrapped(c: Cipher, receiver: u32, counter: u64, packet: Bytes)
    requires Lawful(c)
    ensures Unwrap(c, Wrap(c, receiver, counter, packet)) == Unpad(Pad(packet), |Pad(packet)| + TRANSPORT_OVERHEAD)
  {
    TransportFields(receiver, counter, c.write(counter, Pad(packet)));
  }

  lemma WellFormedRoundTrip(c: Cipher, receiver: u32, counter: u64, packet: Bytes)
    requires Lawful(c) && |packet| <= MAX_CONTENT_SIZE
    requires packet == [] || (IpPackets.Parse(packet).Some? && IpPackets.Parse(packet).value.Declared() == |packet|)
    ensures Unwrap(c, Wrap(c, receiver, counter, packet)) == Ok(packet)
  {
    if packet != [] {
      ParsePad(packet);
      LengthExact(IpPackets.Parse(Pad(packet)).value);
    }
    TunnelRoundTrip(c, receiver, counter, packet);
  }
}
