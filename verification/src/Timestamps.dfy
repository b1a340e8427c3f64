// Monotone instants with an unset case, and the TAI64N wire timestamp
// (src/timestamp.rs).
module Timestamps {
  import opened Types
  import opened Consts

  // ----- Instants -----

  const FOREVER: nat := 0xffff_ffff * SECOND

  // `Timestamp(Option<Instant>)`; an instant is a number of nanoseconds.
  type Timestamp = Option<nat>

  function Elapsed(t: Timestamp, now: nat): nat {
    if t.None? then FOREVER
    else if t.value <= now then now - t.value
    else 0
  }

  predicate NotAfter(t: Timestamp, now: nat) {
    t.Some? ==> t.value <= now
  }

  // ----- Byte strings in lexicographic order -----

  predicate LexLess(a: Bytes, b: Bytes)
    decreases |b|
  {
    b != [] && (a == [] || a[0] < b[0] || (a[0] == b[0] && LexLess(a[1..], b[1..])))
  }

  lemma {:induction false} LexIrreflexive(a: Bytes)
    ensures !LexLess(a, a)
    decreases |a|
  {
    if a != [] {
      LexIrreflexive(a[1..]);
    }
  }

  lemma {:induction false} LexTransitive(a: Bytes, b: Bytes, c: Bytes)
    requires LexLess(a, b) && LexLess(b, c)
    ensures LexLess(a, c)
    decreases |c|
  {
    if a != [] && a[0] == b[0] == c[0] {
      LexTransitive(a[1..], b[1..], c[1..]);
    }
  }

  lemma {:induction false} LexConcat(a: Bytes, x: Bytes, b: Bytes, y: Bytes)
    requires |a| == |b|
    ensures LexLess(a + x, b + y) <==> (LexLess(a, b) || (a == b && LexLess(x, y)))
    decreases |a|
  {
    if a == [] {
      assert a + x == x && b + y == y;
    } else {
      assert (a + x)[1..] == a[1..] + x && (b + y)[1..] == b[1..] + y;
      assert a == [a[0]] + a[1..] && b == [b[0]] + b[1..];
      LexConcat(a[1..], x, b[1..], y);
    }
  }

  // ----- Big-endian integers -----

  function BigEndian(v: nat, n: nat): (s: Bytes)
    requires v < Pow256(n)
    ensures |s| == n
    decreases n
  {
    if n == 0 then [] else BigEndian(v / 256, n - 1) + [(v % 256) as byte]
  }

  // Big-endian encodings of one width sort as the numbers do.
  lemma {:induction false} BigEndianOrder(v: nat, w: nat, n: nat)
    requires v < Pow256(n) && w < Pow256(n)
    ensures LexLess(BigEndian(v, n), BigEndian(w, n)) <==> v < w
    ensures BigEndian(v, n) == BigEndian(w, n) <==> v == w
    decreases n
  {
    if n > 0 {
      var a, b := BigEndian(v / 256, n - 1), BigEndian(w / 256, n - 1);
      var x, y := [(v % 256) as byte], [(w % 256) as byte];
      BigEndianOrder(v / 256, w / 256, n - 1);
      LexConcat(a, x, b, y);
      assert a + x == b + y ==> a == b && x == y by {
        if a + x == b + y {
          assert a == (a + x)[..n - 1] && b == (b + y)[..n - 1] && x[0] == (a + x)[n - 1] && y[0] == (b + y)[n - 1];
        }
      }
    }
  }

  // ----- TAI64N -----

  const TAI64N_BASE: nat := 4611686018427387914

  // The first second count whose label wraps around 64 bits.
  const TAI64N_LIMIT: nat := TWO64 - TAI64N_BASE

  function Label(secs: u64): (l: nat)
    ensures l < TWO64
    ensures l == if secs as nat < TAI64N_LIMIT then TAI64N_BASE + secs as nat else secs as nat - TAI64N_LIMIT
  {
    (TAI64N_BASE + secs as nat) % TWO64
  }

  // `Tai64n::now` at a given system time: the 64-bit label in two's complement, then
  // the 32-bit nanosecond count, both big-endian.
  function Tai64n(secs: u64, nanos: nat): (t: Bytes)
    requires nanos < SECOND
    ensures |t| == 12
  {
    Pow256Widths();
    BigEndian(Label(secs), 8) + BigEndian(nanos, 4)
  }

  // The byte order of the wire timestamps is the order of (seconds, nanoseconds),
  // except exactly between two times on different sides of the 64-bit wrap.
  lemma Tai64nOrder(s1: u64, n1: nat, s2: u64, n2: nat)
    requires n1 < SECOND && n2 < SECOND
    ensures (s1 as nat < TAI64N_LIMIT <==> s2 as nat < TAI64N_LIMIT) <==>
            (LexLess(Tai64n(s1, n1), Tai64n(s2, n2)) <==> (s1 < s2 || (s1 == s2 && n1 < n2)))
  {
    Pow256Widths();
    var l1, l2 := Label(s1), Label(s2);
    BigEndianOrder(l1, l2, 8);
    BigEndianOrder(n1, n2, 4);
    LexConcat(BigEndian(l1, 8), BigEndian(n1, 4), BigEndian(l2, 8), BigEndian(n2, 4));
  }

  // The last second before the wrap and the next one compare the wrong way.
  lemma Tai64nWraps(n1: nat, n2: nat)
    requires n1 < SECOND && n2 < SECOND
    ensures var s1, s2 := (TAI64N_LIMIT - 1) as u64, TAI64N_LIMIT as u64;
            s1 < s2 && LexLess(Tai64n(s2, n2), Tai64n(s1, n1)) && !LexLess(Tai64n(s1, n1), Tai64n(s2, n2))
  {
    Pow256Widths();
    var l1, l2 := Label((TAI64N_LIMIT - 1) as u64), Label(TAI64N_LIMIT as u64);
    BigEndianOrder(l1, l2, 8);
    BigEndianOrder(l2, l1, 8);
    LexConcat(BigEndian(l1, 8), BigEndian(n1, 4), BigEndian(l2, 8), BigEndian(n2, 4));
    LexConcat(BigEndian(l2, 8), BigEndian(n2, 4), BigEndian(l1, 8), BigEndian(n1, 4));
  }
}
