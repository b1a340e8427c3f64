// MACs and the cookie exchange (src/cookie.rs). Hashing and authenticated encryption are
// abstract; the clock is passed in.
module Cookie {
  import opened Types
  import opened Consts
  import opened Messages
  import opened XChaCha20Poly1305

  // Blake2s with an output length, a key and an input; and the cipher of the replies.
  datatype Crypto = Crypto(hash: (nat, Bytes, Bytes) -> Bytes, derive: Derivation, aead: Aead)

  ghost predicate Hashes(c: Crypto) {
    forall n: nat, k: Bytes, m: Bytes :: n <= 32 ==> |c.hash(n, k, m)| == n
  }

  ghost predicate Sound(c: Crypto) {
    Hashes(c) && Inverts(c.aead)
  }

  const SAMPLE := Crypto((n: nat, k: Bytes, m: Bytes) => Zeros(n), ByHChaCha20(WORDS), TAGGING)

  // What is asked of the primitives can be had.
  lemma SoundExists()
    ensures Sound(SAMPLE) && Rejects(SAMPLE.aead)
  {
    LawfulExists();
  }

  const LABEL_MAC1: Bytes := [0x6d, 0x61, 0x63, 0x31, 0x2d, 0x2d, 0x2d, 0x2d]
  const LABEL_COOKIE: Bytes := [0x63, 0x6f, 0x6f, 0x6b, 0x69, 0x65, 0x2d, 0x2d]

  datatype ValidatorState = ValidatorState(mac1Key: Bytes, key: Bytes, secret: Bytes, secretTime: Option<nat>)

  datatype GeneratorState = GeneratorState(
    mac1Key: Bytes,
    key: Bytes,
    cookie: Bytes,
    cookieTime: Option<nat>,
    lastMac1: Option<Bytes>)

  predicate Fresh(time: Option<nat>, now: nat) {
    time.Some? && now - time.value <= COOKIE_REFRESH_TIME
  }

  // ----- The validator -----

  function NewValidator(c: Crypto, pubKey: Bytes): ValidatorState {
    ValidatorState(c.hash(32, [], LABEL_MAC1 + pubKey), c.hash(32, [], LABEL_COOKIE + pubKey), Zeros(16), None)
  }

  predicate VerifyMac1(c: Crypto, v: ValidatorState, input: Bytes, mac: Bytes) {
    mac == c.hash(16, v.mac1Key, input)
  }

  predicate VerifyMac2(c: Crypto, v: ValidatorState, message: Bytes, source: Bytes, now: nat)
    requires |message| >= 16
  {
    && Fresh(v.secretTime, now)
    && message[|message| - 16..] == c.hash(16, c.hash(16, v.secret, source), message[..|message| - 16])
  }

  // The secret after a reply at time `now`, for which `random` is drawn if need be.
  function Refresh(v: ValidatorState, random: Bytes, now: nat): ValidatorState {
    if Fresh(v.secretTime, now) then v else v.(secret := random, secretTime := Some(now))
  }

  function Reply(c: Crypto, v: ValidatorState, sender: u32, mac1: Bytes, source: Bytes, nonce: Bytes): Result<Bytes> {
    var r := Encrypt(c.derive, c.aead, v.key, nonce, c.hash(16, v.secret, source), mac1);
    if r.Err? then Err else Ok(CookieReplyPacket(sender, nonce, r.value.0, r.value.1))
  }

  class Validator {
    const crypto: Crypto
    var state: ValidatorState

    constructor (crypto: Crypto, pubKey: Bytes)
      ensures this.crypto == crypto && state == NewValidator(crypto, pubKey)
    {
      this.crypto := crypto;
      state := NewValidator(crypto, pubKey);
    }

    // The random secret and nonce are drawn by the caller.
    method GenerateReply(sender: u32, mac1: Bytes, source: Bytes, random: Bytes, nonce: Bytes, now: nat)
      returns (r: Result<Bytes>)
      modifies this
      ensures state == Refresh(old(state), random, now)
      ensures r == Reply(crypto, state, sender, mac1, source, nonce)
    {
      if !Fresh(state.secretTime, now) {
        state := state.(secret := random);
        state := state.(secretTime := Some(now));
      }
      var input := crypto.hash(16, state.secret, source);
      var sealed := Encrypt(crypto.derive, crypto.aead, state.key, nonce, input, mac1);
      if sealed.Err? {
        return Err;
      }
      return Ok(CookieReplyPacket(sender, nonce, sealed.value.0, sealed.value.1));
    }
  }

  // ----- The generator -----

  function NewGenerator(c: Crypto, pubKey: Bytes): GeneratorState {
    GeneratorState(c.hash(32, [], LABEL_MAC1 + pubKey), c.hash(32, [], LABEL_COOKIE + pubKey), Zeros(16), None, None)
  }

  // `consume_reply`; the flag says whether it succeeded.
  function Consume(c: Crypto, g: GeneratorState, reply: Message, now: nat): (GeneratorState, bool)
    requires reply.CookieReply? && reply.Valid()
  {
    if g.lastMac1.None? then (g, false)
    else
      var r := Decrypt(c.derive, c.aead, g.key, reply.Nonce(), reply.Cookie(), g.lastMac1.value, reply.AeadTag());
      if r.Err? then (g, false)
      else (g.(cookie := r.value, cookieTime := Some(now)), true)
  }

  // `build_macs`
  function Macs(c: Crypto, g: GeneratorState, input: Bytes, now: nat): (Bytes, Option<Bytes>) {
    var mac1 := c.hash(16, g.mac1Key, input);
    (mac1, if Fresh(g.cookieTime, now) then Some(c.hash(16, g.cookie, input + mac1)) else None)
  }

  function Built(c: Crypto, g: GeneratorState, input: Bytes): GeneratorState {
    g.(lastMac1 := Some(c.hash(16, g.mac1Key, input)))
  }

  class Generator {
    const crypto: Crypto
    var state: GeneratorState

    constructor (crypto: Crypto, pubKey: Bytes)
      ensures this.crypto == crypto && state == NewGenerator(crypto, pubKey)
    {
      this.crypto := crypto;
      state := NewGenerator(crypto, pubKey);
    }

    method ConsumeReply(reply: Message, now: nat) returns (ok: bool)
      requires reply.CookieReply? && reply.Valid()
      modifies this
      ensures (state, ok) == Consume(crypto, old(state), reply, now)
    {
      if state.lastMac1.None? {
        return false;
      }
      var r := Decrypt(crypto.derive, crypto.aead, state.key, reply.Nonce(), reply.Cookie(), state.lastMac1.value, reply.AeadTag());
      if r.Err? {
        return false;
      }
      state := state.(cookie := r.value);
      state := state.(cookieTime := Some(now));
      return true;
    }

    method BuildMacs(input: Bytes, now: nat) returns (mac1: Bytes, mac2: Option<Bytes>)
      modifies this
      ensures (mac1, mac2) == Macs(crypto, old(state), input, now)
      ensures state == Built(crypto, old(state), input)
    {
      mac1 := crypto.hash(16, state.mac1Key, input);
      mac2 := None;
      if Fresh(state.cookieTime, now) {
        mac2 := Some(crypto.hash(16, state.cookie, input + mac1));
      }
      state := state.(lastMac1 := Some(mac1));
    }
  }

  // ----- The exchange -----

  // The validator of an interface and the generators its peers have for it agree on keys,
  // so the mac1 that is built is accepted, and nothing else.
  lemma Mac1Accepted(c: Crypto, pubKey: Bytes, input: Bytes, mac: Bytes, now: nat)
    ensures VerifyMac1(c, NewValidator(c, pubKey), input, mac) <==> mac == Macs(c, NewGenerator(c, pubKey), input, now).0
  {
  }

  // After an answer the secret is fresh; it is the one drawn now exactly when the old one was
  // more than 120 seconds old or there was none.
  lemma SecretAfterAnswer(v: ValidatorState, random: Bytes, now: nat)
    ensures var u := Refresh(v, random, now);
            && Fresh(u.secretTime, now)
            && (v.secretTime.None? || now > v.secretTime.value + 120 * SECOND ==> u.secret == random && u.secretTime == Some(now))
            && (v.secretTime.Some? && now <= v.secretTime.value + 120 * SECOND ==> u == v)
  {
  }

  // A mac2 is built exactly while the cookie is at most 120 seconds old.
  lemma Mac2Built(c: Crypto, g: GeneratorState, input: Bytes, now: nat)
    ensures Macs(c, g, input, now).1.Some? <==> g.cookieTime.Some? && now <= g.cookieTime.value + 120 * SECOND
  {
  }

  // The validator goes on answering others: each answer may refresh the secret.
  datatype Answer = Answer(random: Bytes, at: nat)

  function AfterAnswers(v: ValidatorState, answers: seq<Answer>): ValidatorState
    decreases |answers|
  {
    if answers == [] then v
    else AfterAnswers(Refresh(v, answers[0].random, answers[0].at), answers[1..])
  }

  // While the secret is not too old, no answer replaces it.
  lemma {:induction false} SecretStays(v: ValidatorState, answers: seq<Answer>, now: nat)
    requires Fresh(v.secretTime, now) && forall a :: a in answers ==> a.at <= now
    ensures AfterAnswers(v, answers) == v
    decreases |answers|
  {
    if answers != [] {
      assert answers[0] in answers;
      SecretStays(v, answers[1..], now);
    }
  }

  // The generator goes on building messages, which does not change the cookie.
  function AfterBuilds(c: Crypto, g: GeneratorState, inputs: seq<Bytes>): GeneratorState
    decreases |inputs|
  {
    if inputs == [] then g else AfterBuilds(c, Built(c, g, inputs[0]), inputs[1..])
  }

  lemma {:induction false} CookieStays(c: Crypto, g: GeneratorState, inputs: seq<Bytes>)
    ensures AfterBuilds(c, g, inputs) == g.(lastMac1 := AfterBuilds(c, g, inputs).lastMac1)
    decreases |inputs|
  {
    if inputs != [] {
      CookieStays(c, Built(c, g, inputs[0]), inputs[1..]);
    }
  }

  // A reply is made whenever key and nonce have their sizes, and is read back part by part.
  lemma ReplyReads(c: Crypto, v: ValidatorState, sender: u32, mac1: Bytes, source: Bytes, nonce: Bytes)
    requires Sound(c) && |v.key| == 32 && |nonce| == 24
    ensures var sealed := Encrypt(c.derive, c.aead, v.key, nonce, c.hash(16, v.secret, source), mac1);
            var r := Reply(c, v, sender, mac1, source, nonce);
            && sealed.Ok? && r.Ok? && Parse(r.value) == Read(CookieReply(r.value))
            && var m := CookieReply(r.value);
            m.Nonce() == nonce && m.Cookie() == sealed.value.0 && m.AeadTag() == sealed.value.1
  {
    var plain := c.hash(16, v.secret, source);
    DecryptEncrypt(c.derive, c.aead, v.key, nonce, plain, mac1, mac1);
    var (cipher, tag) := Encrypt(c.derive, c.aead, v.key, nonce, plain, mac1).value;
    CookieReplyFields(sender, nonce, cipher, tag);
  }

  // A reply for `mac1` is consumed when that is the last mac1 that was built, and gives the
  // cookie of the source. If the cipher rejects other associated data, it is consumed only then.
  lemma ReplyConsumed(c: Crypto, v: ValidatorState, g: GeneratorState, sender: u32, mac1: Bytes, source: Bytes,
                      nonce: Bytes, now: nat)
    requires Sound(c) && |v.key| == 32 && g.key == v.key && |nonce| == 24
    ensures Reply(c, v, sender, mac1, source, nonce).Ok?
    ensures var p := Reply(c, v, sender, mac1, source, nonce).value;
            && Parse(p) == Read(CookieReply(p))
            && (g.lastMac1 == Some(mac1) ==>
                  Consume(c, g, CookieReply(p), now) == (g.(cookie := c.hash(16, v.secret, source), cookieTime := Some(now)), true))
            && (g.lastMac1 != Some(mac1) && Rejects(c.aead) && |mac1| == 16 && (g.lastMac1.Some? ==> |g.lastMac1.value| == 16) ==>
                  Consume(c, g, CookieReply(p), now) == (g, false))
  {
    ReplyReads(c, v, sender, mac1, source, nonce);
    Opened(c, v, g, CookieReply(Reply(c, v, sender, mac1, source, nonce).value), mac1, source, nonce, now);
  }

  lemma Opened(c: Crypto, v: ValidatorState, g: GeneratorState, m: Message, mac1: Bytes, source: Bytes, nonce: Bytes, now: nat)
    requires Sound(c) && |v.key| == 32 && g.key == v.key && |nonce| == 24 && m.CookieReply? && m.Valid()
    requires var sealed := Encrypt(c.derive, c.aead, v.key, nonce, c.hash(16, v.secret, source), mac1);
             m.Nonce() == nonce && m.Cookie() == sealed.value.0 && m.AeadTag() == sealed.value.1
    ensures g.lastMac1 == Some(mac1) ==>
              Consume(c, g, m, now) == (g.(cookie := c.hash(16, v.secret, source), cookieTime := Some(now)), true)
    ensures g.lastMac1 != Some(mac1) && Rejects(c.aead) && |mac1| == 16 && (g.lastMac1.Some? ==> |g.lastMac1.value| == 16) ==>
              Consume(c, g, m, now) == (g, false)
  {
    var last := if g.lastMac1.Some? then g.lastMac1.value else [];
    DecryptEncrypt(c.derive, c.aead, v.key, nonce, c.hash(16, v.secret, source), mac1, last);
  }

  // The packets that peers build, with the MACs of their generator.
  function BuildResponse(c: Crypto, g: GeneratorState, ourIndex: u32, theirIndex: u32, noise: Bytes, now: nat): Bytes {
    var (mac1, mac2) := Macs(c, g, ResponseInput(ourIndex, theirIndex, noise), now);
    ResponsePacket(ourIndex, theirIndex, noise, mac1, mac2)
  }

  function BuildInitiation(c: Crypto, g: GeneratorState, ourIndex: u32, noise: Bytes, now: nat): Bytes {
    var (mac1, mac2) := Macs(c, g, InitiationInput(ourIndex, noise), now);
    InitiationPacket(ourIndex, noise, mac1, mac2)
  }

  // The mac1 that the receiver of a response reads is the one that its sender remembers.
  lemma ResponseMac1(c: Crypto, g: GeneratorState, ourIndex: u32, theirIndex: u32, noise: Bytes, now: nat)
    requires Hashes(c) && |noise| == 48
    ensures var packet := BuildResponse(c, g, ourIndex, theirIndex, noise, now);
            && |packet| == 92 && Parse(packet) == Read(Response(packet)) && Response(packet).SenderIndex() == ourIndex as nat
            && |Response(packet).Mac1()| == 16
            && Built(c, g, ResponseInput(ourIndex, theirIndex, noise)).lastMac1 == Some(Response(packet).Mac1())
  {
    var (mac1, mac2) := Macs(c, g, ResponseInput(ourIndex, theirIndex, noise), now);
    ResponseFields(ourIndex, theirIndex, noise, mac1, mac2);
  }

  // A response built with the cookie of a source carries a mac2 that the validator with
  // the same secret accepts from that source exactly as long as the secret is fresh.
  lemma Mac2Accepted(c: Crypto, v: ValidatorState, g: GeneratorState, source: Bytes,
                     ourIndex: u32, theirIndex: u32, noise: Bytes, t3: nat, t4: nat)
    requires Hashes(c) && |noise| == 48
    requires g.cookie == c.hash(16, v.secret, source) && Fresh(g.cookieTime, t3)
    ensures var packet := BuildResponse(c, g, ourIndex, theirIndex, noise, t3);
            |packet| == 92 && (VerifyMac2(c, v, packet, source, t4) <==> Fresh(v.secretTime, t4))
  {
    BuiltMac2(c, g, ourIndex, theirIndex, noise, t3);
  }

  // From the same source no other mac2 is accepted for that response.
  lemma OtherMac2Refused(c: Crypto, v: ValidatorState, g: GeneratorState, source: Bytes,
                         ourIndex: u32, theirIndex: u32, noise: Bytes, t3: nat, t4: nat, mac2: Bytes)
    requires Hashes(c) && |noise| == 48 && |mac2| == 16
    requires g.cookie == c.hash(16, v.secret, source) && Fresh(g.cookieTime, t3)
    ensures var packet := BuildResponse(c, g, ourIndex, theirIndex, noise, t3);
            && |packet| == 92
            && (VerifyMac2(c, v, packet[..76] + mac2, source, t4) <==> Fresh(v.secretTime, t4) && mac2 == packet[76..])
  {
    BuiltMac2(c, g, ourIndex, theirIndex, noise, t3);
    var packet := BuildResponse(c, g, ourIndex, theirIndex, noise, t3);
    assert (packet[..76] + mac2)[..76] == packet[..76] && (packet[..76] + mac2)[76..] == mac2;
  }

  // From another source that mac2 is accepted only if both cookies happen to give the same.
  lemma OtherSourceRefused(c: Crypto, v: ValidatorState, g: GeneratorState, source: Bytes, other: Bytes,
                           ourIndex: u32, theirIndex: u32, noise: Bytes, t3: nat, t4: nat)
    requires Hashes(c) && |noise| == 48
    requires g.cookie == c.hash(16, v.secret, source) && Fresh(g.cookieTime, t3)
    ensures var packet := BuildResponse(c, g, ourIndex, theirIndex, noise, t3);
            && |packet| == 92
            && (VerifyMac2(c, v, packet, other, t4) <==>
                  Fresh(v.secretTime, t4) &&
                  c.hash(16, c.hash(16, v.secret, other), packet[..76]) == c.hash(16, c.hash(16, v.secret, source), packet[..76]))
  {
    BuiltMac2(c, g, ourIndex, theirIndex, noise, t3);
  }

  lemma BuiltMac2(c: Crypto, g: GeneratorState, ourIndex: u32, theirIndex: u32, noise: Bytes, t3: nat)
    requires Hashes(c) && |noise| == 48 && Fresh(g.cookieTime, t3)
    ensures var packet := BuildResponse(c, g, ourIndex, theirIndex, noise, t3);
            && |packet| == 92
            && packet[..76] == ResponseInput(ourIndex, theirIndex, noise) + c.hash(16, g.mac1Key, packet[..60])
            && packet[76..] == c.hash(16, g.cookie, packet[..76])
  {
    var input := ResponseInput(ourIndex, theirIndex, noise);
    var (mac1, mac2) := Macs(c, g, input, t3);
    ResponseFields(ourIndex, theirIndex, noise, mac1, mac2);
    var packet := BuildResponse(c, g, ourIndex, theirIndex, noise, t3);
    assert packet == (input + mac1) + mac2.value;
    Cut(input, mac1, mac2.value);
    assert packet[..76] == input + mac1;
  }

  // What the validator and the generator hold after a reply went through and both went on.
  lemma ReplyGoesThrough(c: Crypto, v: ValidatorState, g: GeneratorState, sender: u32, source: Bytes, nonce: Bytes,
                         answers: seq<Answer>, inputs: seq<Bytes>, t2: nat, t4: nat)
    requires Sound(c) && |v.key| == 32 && g.key == v.key && |nonce| == 24
    requires g.lastMac1.Some? && Fresh(v.secretTime, t4) && forall a :: a in answers ==> a.at <= t4
    ensures var reply := Reply(c, v, sender, g.lastMac1.value, source, nonce);
            && reply.Ok? && Parse(reply.value) == Read(CookieReply(reply.value))
            && var (g1, ok) := Consume(c, g, CookieReply(reply.value), t2);
            && ok && AfterAnswers(v, answers) == v
            && AfterBuilds(c, g1, inputs).cookie == c.hash(16, v.secret, source)
            && AfterBuilds(c, g1, inputs).cookieTime == Some(t2)
  {
    ReplyConsumed(c, v, g, sender, g.lastMac1.value, source, nonce, t2);
    var reply := Reply(c, v, sender, g.lastMac1.value, source, nonce).value;
    CookieStays(c, Consume(c, g, CookieReply(reply), t2).0, inputs);
    SecretStays(v, answers, t4);
  }

  // One handshake response as the generator builds it and the validator reads it.
  datatype Sending = Sending(ourIndex: u32, theirIndex: u32, noise: Bytes)

  // The whole exchange over handshake responses: a response is built at `t0`; the validator
  // answers the mac1 it reads there at `t1`; the reply is consumed at `t2` while that mac1 is
  // the last one built; other messages are built in between; and the next response is built
  // at `t3` and checked at `t4`. Its mac2 is accepted for the same source as long as the secret
  // the cookie was made from is not too old, whatever the validator answered in the meantime.
  lemma CookieExchange(c: Crypto, v: ValidatorState, g: GeneratorState, first: Sending, second: Sending, source: Bytes,
                       random: Bytes, nonce: Bytes, answers: seq<Answer>, inputs: seq<Bytes>,
                       t0: nat, t1: nat, t2: nat, t3: nat, t4: nat)
    requires Sound(c) && |v.key| == 32 && g.key == v.key && |nonce| == 24 && |first.noise| == 48 && |second.noise| == 48
    requires t0 <= t1 <= t2 <= t3 <= t4 && (v.secretTime.Some? ==> v.secretTime.value <= t1)
    requires Fresh(Refresh(v, random, t1).secretTime, t4) && forall a :: a in answers ==> a.at <= t4
    ensures var packet := BuildResponse(c, g, first.ourIndex, first.theirIndex, first.noise, t0);
            && Parse(packet) == Read(Response(packet)) && Response(packet).SenderIndex() == first.ourIndex as nat
            && var v1 := Refresh(v, random, t1);
            var reply := Reply(c, v1, first.ourIndex, Response(packet).Mac1(), source, nonce);
            && reply.Ok? && Parse(reply.value) == Read(CookieReply(reply.value))
            && var g1 := Built(c, g, ResponseInput(first.ourIndex, first.theirIndex, first.noise));
            var (g2, ok) := Consume(c, g1, CookieReply(reply.value), t2);
            var next := BuildResponse(c, AfterBuilds(c, g2, inputs), second.ourIndex, second.theirIndex, second.noise, t3);
            ok && |next| == 92 && VerifyMac2(c, AfterAnswers(v1, answers), next, source, t4)
  {
    ResponseMac1(c, g, first.ourIndex, first.theirIndex, first.noise, t0);
    var v1 := Refresh(v, random, t1);
    var g1 := Built(c, g, ResponseInput(first.ourIndex, first.theirIndex, first.noise));
    ReplyGoesThrough(c, v1, g1, first.ourIndex, source, nonce, answers, inputs, t2, t4);
    var reply := Reply(c, v1, first.ourIndex, g1.lastMac1.value, source, nonce).value;
    var g2 := AfterBuilds(c, Consume(c, g1, CookieReply(reply), t2).0, inputs);
    Mac2Accepted(c, v1, g2, source, second.ourIndex, second.theirIndex, second.noise, t3, t4);
  }

  // Whether the reply to an initiation, made from the mac1 that the validator reads in it, is
  // consumed by the generator that built it.
  ghost predicate InitiationCloses(c: Crypto, v: ValidatorState, g: GeneratorState, ourIndex: u32, noise: Bytes,
                                   source: Bytes, nonce: Bytes, now: nat)
  {
    var packet := BuildInitiation(c, g, ourIndex, noise, now);
    && Parse(packet) == Read(Initiation(packet))
    && var reply := Reply(c, v, ourIndex, Initiation(packet).Mac1(), source, nonce);
    && reply.Ok? && Parse(reply.value) == Read(CookieReply(reply.value))
    && Consume(c, Built(c, g, InitiationInput(ourIndex, noise)), CookieReply(reply.value), now).1
  }

  // Over an initiation the exchange closes only by accident: the validator answers with
  // sixteen bytes of the Noise message in place of mac1.
  lemma InitiationReplyConsumed(c: Crypto, v: ValidatorState, g: GeneratorState, ourIndex: u32, noise: Bytes,
                                source: Bytes, nonce: Bytes, now: nat)
    requires Sound(c) && Rejects(c.aead) && |v.key| == 32 && g.key == v.key && |nonce| == 24 && |noise| == 108
    ensures var packet := BuildInitiation(c, g, ourIndex, noise, now);
            Parse(packet) == Read(Initiation(packet)) &&
            Reply(c, v, ourIndex, Initiation(packet).Mac1(), source, nonce).Ok?
    ensures InitiationCloses(c, v, g, ourIndex, noise, source, nonce, now) <==>
            noise[76..92] == c.hash(16, g.mac1Key, InitiationInput(ourIndex, noise))
  {
    var input := InitiationInput(ourIndex, noise);
    var (mac1, mac2) := Macs(c, g, input, now);
    InitiationFields(ourIndex, noise, mac1, mac2);
    ReplyConsumed(c, v, Built(c, g, input), ourIndex, noise[76..92], source, nonce, now);
  }

  // An initiation whose reply is refused, for a validator and a generator of one key.
  lemma InitiationReplyRefused() returns (c: Crypto, v: ValidatorState, g: GeneratorState, noise: Bytes)
    ensures Sound(c) && Rejects(c.aead) && v == NewValidator(c, Zeros(32)) && g == NewGenerator(c, Zeros(32)) && |noise| == 108
    ensures !InitiationCloses(c, v, g, 0, noise, [], Zeros(24), 0)
  {
    SoundExists();
    c := SAMPLE;
    v, g := NewValidator(c, Zeros(32)), NewGenerator(c, Zeros(32));
    noise := seq(108, _ => 1);
    ZeroHash(g, noise);
    assert noise[76..92][0] == 1;
    InitiationReplyConsumed(c, v, g, 0, noise, [], Zeros(24), 0);
  }

  lemma ZeroHash(g: GeneratorState, noise: Bytes)
    ensures SAMPLE.hash(16, g.mac1Key, InitiationInput(0, noise)) == Zeros(16)
  {
  }
}
