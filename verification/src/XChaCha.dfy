// XChaCha20-Poly1305 (src/xchacha20poly1305.rs): the unrolled HChaCha20 permutation, and
// the derivation of a subkey and nonce around an abstract ChaCha20-Poly1305.
module XChaCha20Poly1305 {
  import opened Types

  // ----- 32-bit words -----

  const TWO32: nat := 0x1_0000_0000

  type Word = x: nat | x < TWO32

  function Plus(x: Word, y: Word): Word { (x + y) % TWO32 }
  function Minus(x: Word, y: Word): Word { (x + TWO32 - y) % TWO32 }

  // Exclusive or of the `n` lowest bits.
  function XorBits(x: nat, y: nat, n: nat): (z: nat)
    ensures z < Pow2(n)
    decreases n
  {
    if n == 0 then 0
    else (if x % 2 == y % 2 then 0 else 1) + 2 * XorBits(x / 2, y / 2, n - 1)
  }

  lemma Pow2Word()
    ensures Pow2(32) == TWO32
  {
    assert Pow2(8) == 256;
    assert Pow2(16) == 256 * Pow2(8);
    assert Pow2(24) == 256 * Pow2(16);
    assert Pow2(32) == 256 * Pow2(24);
  }

  function Xor(x: Word, y: Word): Word {
    Pow2Word();
    XorBits(x, y, 32)
  }

  // Rotation by which the bits below `low` move up and the others move down, where
  // `low * high` is the size of a word: `(x << k) | (x >> 32 - k)` for `high == 1 << k`.
  function Rotate(x: Word, low: nat, high: nat): Word
    requires low * high == TWO32
  {
    RotateFits(x, low, high);
    x % low * high + x / low
  }

  lemma RotateFits(x: Word, low: nat, high: nat)
    requires low * high == TWO32
    ensures low > 0 && high > 0 && x / low < high && x % low * high + x / low < TWO32
  {
    if low == 0 || high == 0 {
      assert false;
    }
    var l, h := x % low, x / low;
    assert x == h * low + l;
    if h >= high {
      MulMono(high, h, low);
      assert false;
    }
    MulMono(l, low - 1, high);
  }

  // Rotating by the rest of the word brings every bit back.
  lemma RotateInverse(x: Word, low: nat, high: nat)
    requires low * high == TWO32
    ensures Rotate(Rotate(x, low, high), high, low) == x
  {
    RotateFits(x, low, high);
    var l, h := x % low, x / low;
    DivMod(l * high + h, high, l, h);
    assert x == h * low + l;
  }

  function Rotl16(x: Word): Word { Rotate(x, 0x1_0000, 0x1_0000) }
  function Rotl12(x: Word): Word { Rotate(x, 0x10_0000, 0x1000) }
  function Rotl8(x: Word): Word { Rotate(x, 0x100_0000, 0x100) }
  function Rotl7(x: Word): Word { Rotate(x, 0x200_0000, 0x80) }

  function Rotr16(x: Word): Word { Rotate(x, 0x1_0000, 0x1_0000) }
  function Rotr12(x: Word): Word { Rotate(x, 0x1000, 0x10_0000) }
  function Rotr8(x: Word): Word { Rotate(x, 0x100, 0x100_0000) }
  function Rotr7(x: Word): Word { Rotate(x, 0x80, 0x200_0000) }

  lemma PlusInverse(x: Word, y: Word)
    ensures Minus(Plus(x, y), y) == x && Plus(Minus(x, y), y) == x
  {
  }

  // The lowest bit of an exclusive or, and the rest.
  lemma XorLowest(x: nat, y: nat, n: nat)
    requires n > 0
    ensures XorBits(x, y, n) / 2 == XorBits(x / 2, y / 2, n - 1)
    ensures XorBits(x, y, n) % 2 == (if x % 2 == y % 2 then 0 else 1)
  {
    var bit, rest := if x % 2 == y % 2 then 0 else 1, XorBits(x / 2, y / 2, n - 1);
    assert XorBits(x, y, n) == bit + 2 * rest;
  }

  lemma {:induction false} XorBitsInverse(x: nat, y: nat, n: nat)
    requires x < Pow2(n)
    ensures XorBits(XorBits(x, y, n), y, n) == x
    decreases n
  {
    if n > 0 {
      var z := XorBits(x, y, n);
      XorLowest(x, y, n);
      XorLowest(z, y, n);
      XorBitsInverse(x / 2, y / 2, n - 1);
    }
  }

  lemma XorInverse(x: Word, y: Word)
    ensures Xor(Xor(x, y), y) == x
  {
    Pow2Word();
    XorBitsInverse(x, y, 32);
  }

  lemma RotationsInverse(x: Word)
    ensures Rotr16(Rotl16(x)) == x && Rotl16(Rotr16(x)) == x
    ensures Rotr12(Rotl12(x)) == x && Rotl12(Rotr12(x)) == x
    ensures Rotr8(Rotl8(x)) == x && Rotl8(Rotr8(x)) == x
    ensures Rotr7(Rotl7(x)) == x && Rotl7(Rotr7(x)) == x
  {
    RotateInverse(x, 0x1_0000, 0x1_0000);
    RotateInverse(x, 0x10_0000, 0x1000);
    RotateInverse(x, 0x1000, 0x10_0000);
    RotateInverse(x, 0x100_0000, 0x100);
    RotateInverse(x, 0x100, 0x100_0000);
    RotateInverse(x, 0x200_0000, 0x80);
    RotateInverse(x, 0x80, 0x200_0000);
  }

  // ----- Quarter rounds (section 2.1 of RFC 8439) -----

  datatype Quad = Quad(a: Word, b: Word, c: Word, d: Word)

  // The word operations that the rounds are made of. The unrolled code is compared with
  // the specification for all of them at once.
  datatype Ops = Ops(
    plus: (Word, Word) -> Word,
    xor: (Word, Word) -> Word,
    rotl16: Word -> Word,
    rotl12: Word -> Word,
    rotl8: Word -> Word,
    rotl7: Word -> Word)

  const WORDS := Ops(Plus, Xor, Rotl16, Rotl12, Rotl8, Rotl7)

  function QuarterRound(o: Ops, q: Quad): Quad {
    var a1 := o.plus(q.a, q.b);
    var d1 := o.rotl16(o.xor(q.d, a1));
    var c1 := o.plus(q.c, d1);
    var b1 := o.rotl12(o.xor(q.b, c1));
    var a2 := o.plus(a1, b1);
    var d2 := o.rotl8(o.xor(d1, a2));
    var c2 := o.plus(c1, d2);
    var b2 := o.rotl7(o.xor(b1, c2));
    Quad(a2, b2, c2, d2)
  }

  function Round(o: Ops): Quad -> Quad {
    q => QuarterRound(o, q)
  }

  // Each bit of an exclusive or is set exactly when it is set in one of the two words.
  lemma {:induction false} XorBitExactly(x: nat, y: nat, n: nat, i: nat)
    requires i < n
    ensures XorBits(x, y, n) / Pow2(i) % 2 == 1 <==> x / Pow2(i) % 2 != y / Pow2(i) % 2
    decreases n
  {
    var z := XorBits(x, y, n);
    XorLowest(x, y, n);
    if i > 0 {
      XorBitExactly(x / 2, y / 2, n - 1, i - 1);
      BitOfHalf(x, i);
      BitOfHalf(y, i);
      BitOfHalf(z, i);
    }
  }

  lemma BitOfHalf(x: nat, i: nat)
    requires i > 0
    ensures x / Pow2(i) == x / 2 / Pow2(i - 1)
  {
    DivideTwice(x, 2, Pow2(i - 1));
  }

  // How an exclusive or is computed, one bit after the other.
  ghost predicate XorStep(f: (nat, nat, nat) -> nat, x: nat, y: nat, n: nat) {
    f(x, y, n) == if n == 0 then 0 else 2 * f(x / 2, y / 2, n - 1) + (if x % 2 == y % 2 then 0 else 1)
  }

  ghost predicate Xors(f: (nat, nat, nat) -> nat) {
    forall x: nat, y: nat, n: nat :: XorStep(f, x, y, n)
  }

  lemma XorBitsXors()
    ensures Xors(XorBits)
  {
    forall x: nat, y: nat, n: nat ensures XorStep(XorBits, x, y, n) {
    }
  }

  lemma XorBit(f: (nat, nat, nat) -> nat, x: nat, y: nat, n: nat, a: nat, b: nat)
    requires Xors(f) && a < 2 && b < 2
    ensures f(2 * x + a, 2 * y + b, n + 1) == 2 * f(x, y, n) + (if a == b then 0 else 1)
  {
    assert XorStep(f, 2 * x + a, 2 * y + b, n + 1);
    assert (2 * x + a) / 2 == x && (2 * y + b) / 2 == y;
  }

  // Four bits more at the low end.
  lemma XorNibble(f: (nat, nat, nat) -> nat, x: nat, y: nat, n: nat, a: seq<nat>, b: seq<nat>)
    requires Xors(f) && |a| == 4 && |b| == 4 && forall i :: 0 <= i < 4 ==> a[i] < 2 && b[i] < 2
    ensures f(16 * x + 8 * a[0] + 4 * a[1] + 2 * a[2] + a[3], 16 * y + 8 * b[0] + 4 * b[1] + 2 * b[2] + b[3], n + 4) ==
            16 * f(x, y, n) + (if a[0] == b[0] then 0 else 8) + (if a[1] == b[1] then 0 else 4)
            + (if a[2] == b[2] then 0 else 2) + (if a[3] == b[3] then 0 else 1)
  {
    var x1, y1 := 2 * x + a[0], 2 * y + b[0];
    var x2, y2 := 2 * x1 + a[1], 2 * y1 + b[1];
    var x3, y3 := 2 * x2 + a[2], 2 * y2 + b[2];
    XorBit(f, x, y, n, a[0], b[0]);
    XorBit(f, x1, y1, n + 1, a[1], b[1]);
    XorBit(f, x2, y2, n + 2, a[2], b[2]);
    XorBit(f, x3, y3, n + 3, a[3], b[3]);
  }

  // The exclusive ors of the example in section 2.1.1 of RFC 8439, four bits at a time.
  lemma ExampleXor1(f: (nat, nat, nat) -> nat)
    requires Xors(f)
    ensures f(0x01234567, 0x12131415, 32) == 0x13305172
  {
    assert XorStep(f, 0, 0, 0);
    XorNibble(f, 0x0, 0x0, 0, [0, 0, 0, 0], [0, 0, 0, 1]);
    XorNibble(f, 0x0, 0x1, 4, [0, 0, 0, 1], [0, 0, 1, 0]);
    XorNibble(f, 0x1, 0x12, 8, [0, 0, 1, 0], [0, 0, 0, 1]);
    XorNibble(f, 0x12, 0x121, 12, [0, 0, 1, 1], [0, 0, 1, 1]);
    XorNibble(f, 0x123, 0x1213, 16, [0, 1, 0, 0], [0, 0, 0, 1]);
    XorNibble(f, 0x1234, 0x12131, 20, [0, 1, 0, 1], [0, 1, 0, 0]);
    XorNibble(f, 0x12345, 0x121314, 24, [0, 1, 1, 0], [0, 0, 0, 1]);
    XorNibble(f, 0x123456, 0x1213141, 28, [0, 1, 1, 1], [0, 1, 0, 1]);
  }

  lemma ExampleXor2(f: (nat, nat, nat) -> nat)
    requires Xors(f)
    ensures f(0x01020304, 0xecff8273, 32) == 0xedfd8177
  {
    assert XorStep(f, 0, 0, 0);
    XorNibble(f, 0x0, 0x0, 0, [0, 0, 0, 0], [1, 1, 1, 0]);
    XorNibble(f, 0x0, 0xe, 4, [0, 0, 0, 1], [1, 1, 0, 0]);
    XorNibble(f, 0x1, 0xec, 8, [0, 0, 0, 0], [1, 1, 1, 1]);
    XorNibble(f, 0x10, 0xecf, 12, [0, 0, 1, 0], [1, 1, 1, 1]);
    XorNibble(f, 0x102, 0xecff, 16, [0, 0, 0, 0], [1, 0, 0, 0]);
    XorNibble(f, 0x1020, 0xecff8, 20, [0, 0, 1, 1], [0, 0, 1, 0]);
    XorNibble(f, 0x10203, 0xecff82, 24, [0, 0, 0, 0], [0, 1, 1, 1]);
    XorNibble(f, 0x102030, 0xecff827, 28, [0, 1, 0, 0], [0, 0, 1, 1]);
  }

  lemma ExampleXor3(f: (nat, nat, nat) -> nat)
    requires Xors(f)
    ensures f(0x51721330, 0xea2a92f4, 32) == 0xbb5881c4
  {
    assert XorStep(f, 0, 0, 0);
    XorNibble(f, 0x0, 0x0, 0, [0, 1, 0, 1], [1, 1, 1, 0]);
    XorNibble(f, 0x5, 0xe, 4, [0, 0, 0, 1], [1, 0, 1, 0]);
    XorNibble(f, 0x51, 0xea, 8, [0, 1, 1, 1], [0, 0, 1, 0]);
    XorNibble(f, 0x517, 0xea2, 12, [0, 0, 1, 0], [1, 0, 1, 0]);
    XorNibble(f, 0x5172, 0xea2a, 16, [0, 0, 0, 1], [1, 0, 0, 1]);
    XorNibble(f, 0x51721, 0xea2a9, 20, [0, 0, 1, 1], [0, 0, 1, 0]);
    XorNibble(f, 0x517213, 0xea2a92, 24, [0, 0, 1, 1], [1, 1, 1, 1]);
    XorNibble(f, 0x5172133, 0xea2a92f, 28, [0, 0, 0, 0], [0, 1, 0, 0]);
  }

  lemma ExampleXor4(f: (nat, nat, nat) -> nat)
    requires Xors(f)
    ensures f(0xd8177edf, 0x4581472e, 32) == 0x9d9639f1
  {
    assert XorStep(f, 0, 0, 0);
    XorNibble(f, 0x0, 0x0, 0, [1, 1, 0, 1], [0, 1, 0, 0]);
    XorNibble(f, 0xd, 0x4, 4, [1, 0, 0, 0], [0, 1, 0, 1]);
    XorNibble(f, 0xd8, 0x45, 8, [0, 0, 0, 1], [1, 0, 0, 0]);
    XorNibble(f, 0xd81, 0x458, 12, [0, 1, 1, 1], [0, 0, 0, 1]);
    XorNibble(f, 0xd817, 0x4581, 16, [0, 1, 1, 1], [0, 1, 0, 0]);
    XorNibble(f, 0xd8177, 0x45814, 20, [1, 1, 1, 0], [0, 1, 1, 1]);
    XorNibble(f, 0xd8177e, 0x458147, 24, [1, 1, 0, 1], [0, 0, 1, 0]);
    XorNibble(f, 0xd8177ed, 0x4581472, 28, [1, 1, 1, 1], [1, 1, 1, 0]);
  }

  // That example, for every way to compute exclusive ors.
  lemma QuarterRoundExample(f: (nat, nat, nat) -> nat, o: Ops)
    requires Xors(f) && o.plus == Plus && o.rotl16 == Rotl16 && o.rotl12 == Rotl12 && o.rotl8 == Rotl8 && o.rotl7 == Rotl7
    requires forall x: Word, y: Word :: o.xor(x, y) == f(x, y, 32)
    ensures QuarterRound(o, Quad(0x11111111, 0x01020304, 0x9b8d6f43, 0x01234567)) ==
            Quad(0xea2a92f4, 0xcb1cf8ce, 0x4581472e, 0x5881c4bb)
  {
    ExampleXor1(f);
    ExampleXor2(f);
    ExampleXor3(f);
    ExampleXor4(f);
    assert Rotl16(0x13305172) == 0x51721330 && Rotl12(0xedfd8177) == 0xd8177edf;
    assert Rotl8(0xbb5881c4) == 0x5881c4bb && Rotl7(0x9d9639f1) == 0xcb1cf8ce;
  }

  // The operations of the source are of that kind.
  lemma WordsXor()
    ensures Xors(XorBits) && forall x: Word, y: Word :: WORDS.xor(x, y) == XorBits(x, y, 32)
  {
    XorBitsXors();
  }

  // ----- Undoing a quarter round -----

  function AddA(q: Quad): Quad { q.(a := Plus(q.a, q.b)) }
  function AddC(q: Quad): Quad { q.(c := Plus(q.c, q.d)) }
  function Mix16(q: Quad): Quad { q.(d := Rotl16(Xor(q.d, q.a))) }
  function Mix12(q: Quad): Quad { q.(b := Rotl12(Xor(q.b, q.c))) }
  function Mix8(q: Quad): Quad { q.(d := Rotl8(Xor(q.d, q.a))) }
  function Mix7(q: Quad): Quad { q.(b := Rotl7(Xor(q.b, q.c))) }


  function SubA(q: Quad): Quad { q.(a := Minus(q.a, q.b)) }
  function SubC(q: Quad): Quad { q.(c := Minus(q.c, q.d)) }
  function Unmix16(q: Quad): Quad { q.(d := Xor(Rotr16(q.d), q.a)) }
  function Unmix12(q: Quad): Quad { q.(b := Xor(Rotr12(q.b), q.c)) }
  function Unmix8(q: Quad): Quad { q.(d := Xor(Rotr8(q.d), q.a)) }
  function Unmix7(q: Quad): Quad { q.(b := Xor(Rotr7(q.b), q.c)) }

  function UndoQuarterRound(q: Quad): Quad {
    SubA(Unmix16(SubC(Unmix12(SubA(Unmix8(SubC(Unmix7(q))))))))
  }

  // Each function undoes the other.
  ghost predicate Inverse<T(!new)>(f: T -> T, g: T -> T) {
    forall q :: g(f(q)) == q && f(g(q)) == q
  }

  lemma AddSub()
    ensures Inverse(AddA, SubA) && Inverse(AddC, SubC)
  {
    forall q: Quad ensures SubA(AddA(q)) == q && AddA(SubA(q)) == q && SubC(AddC(q)) == q && AddC(SubC(q)) == q {
      PlusInverse(q.a, q.b);
      PlusInverse(q.c, q.d);
    }
  }

  lemma MixUnmix16()
    ensures Inverse(Mix16, Unmix16)
  {
    forall q: Quad ensures Unmix16(Mix16(q)) == q && Mix16(Unmix16(q)) == q {
      XorInverse(q.d, q.a);
      RotationsInverse(Xor(q.d, q.a));
      XorInverse(Rotr16(q.d), q.a);
      RotationsInverse(q.d);
    }
  }

  lemma MixUnmix12()
    ensures Inverse(Mix12, Unmix12)
  {
    forall q: Quad ensures Unmix12(Mix12(q)) == q && Mix12(Unmix12(q)) == q {
      XorInverse(q.b, q.c);
      RotationsInverse(Xor(q.b, q.c));
      XorInverse(Rotr12(q.b), q.c);
      RotationsInverse(q.b);
    }
  }

  lemma MixUnmix8()
    ensures Inverse(Mix8, Unmix8)
  {
    forall q: Quad ensures Unmix8(Mix8(q)) == q && Mix8(Unmix8(q)) == q {
      XorInverse(q.d, q.a);
      RotationsInverse(Xor(q.d, q.a));
      XorInverse(Rotr8(q.d), q.a);
      RotationsInverse(q.d);
    }
  }

  lemma MixUnmix7()
    ensures Inverse(Mix7, Unmix7)
  {
    forall q: Quad ensures Unmix7(Mix7(q)) == q && Mix7(Unmix7(q)) == q {
      XorInverse(q.b, q.c);
      RotationsInverse(Xor(q.b, q.c));
      XorInverse(Rotr7(q.b), q.c);
      RotationsInverse(q.b);
    }
  }

  lemma Compose<T(!new)>(f: T -> T, f': T -> T, g: T -> T, g': T -> T, h: T -> T, h': T -> T)
    requires Inverse(f, f') && Inverse(g, g')
    requires forall q :: h(q) == g(f(q))
    requires forall q :: h'(q) == f'(g'(q))
    ensures Inverse(h, h')
  {
  }

  function Half1(q: Quad): Quad { Mix12(AddC(Mix16(AddA(q)))) }
  function Half2(q: Quad): Quad { Mix7(AddC(Mix8(AddA(q)))) }
  function UndoHalf1(q: Quad): Quad { SubA(Unmix16(SubC(Unmix12(q)))) }
  function UndoHalf2(q: Quad): Quad { SubA(Unmix8(SubC(Unmix7(q)))) }

  lemma Chain4<T(!new)>(f1: T -> T, u1: T -> T, f2: T -> T, u2: T -> T, f3: T -> T, u3: T -> T, f4: T -> T, u4: T -> T,
                        h: T -> T, u: T -> T)
    requires Inverse(f1, u1) && Inverse(f2, u2) && Inverse(f3, u3) && Inverse(f4, u4)
    requires forall q :: h(q) == f4(f3(f2(f1(q))))
    requires forall q :: u(q) == u1(u2(u3(u4(q))))
    ensures Inverse(h, u)
  {
  }

  lemma HalvesInverse()
    ensures Inverse(Half1, UndoHalf1) && Inverse(Half2, UndoHalf2)
  {
    AddSub();
    MixUnmix16();
    MixUnmix12();
    MixUnmix8();
    MixUnmix7();
    Chain4(AddA, SubA, Mix16, Unmix16, AddC, SubC, Mix12, Unmix12, Half1, UndoHalf1);
    Chain4(AddA, SubA, Mix8, Unmix8, AddC, SubC, Mix7, Unmix7, Half2, UndoHalf2);
  }

  lemma QuarterRoundHalves(q: Quad)
    ensures Round(WORDS)(q) == Half2(Half1(q))
  {
  }

  lemma QuarterRoundInverse()
    ensures Inverse(Round(WORDS), UndoQuarterRound)
  {
    HalvesInverse();
    forall q: Quad ensures Round(WORDS)(q) == Half2(Half1(q)) {
      QuarterRoundHalves(q);
    }
    Compose(Half1, UndoHalf1, Half2, UndoHalf2, Round(WORDS), UndoQuarterRound);
  }

  // ----- Rounds (section 2.3 of RFC 8439) -----

  datatype Row = Row(w0: Word, w1: Word, w2: Word, w3: Word) {
    function Left(): Row {
      Row(w1, w2, w3, w0)
    }
  }

  // The sixteen words as a matrix of four rows.
  datatype Block = Block(a: Row, b: Row, c: Row, d: Row)

  function Columns(f: Quad -> Quad, s: Block): Block {
    var q0 := f(Quad(s.a.w0, s.b.w0, s.c.w0, s.d.w0));
    var q1 := f(Quad(s.a.w1, s.b.w1, s.c.w1, s.d.w1));
    var q2 := f(Quad(s.a.w2, s.b.w2, s.c.w2, s.d.w2));
    var q3 := f(Quad(s.a.w3, s.b.w3, s.c.w3, s.d.w3));
    Block(Row(q0.a, q1.a, q2.a, q3.a), Row(q0.b, q1.b, q2.b, q3.b),
          Row(q0.c, q1.c, q2.c, q3.c), Row(q0.d, q1.d, q2.d, q3.d))
  }

  // Row number k is turned left by k, which puts the diagonals into the columns.
  function Skew(s: Block): Block {
    Block(s.a, s.b.Left(), s.c.Left().Left(), s.d.Left().Left().Left())
  }

  function Unskew(s: Block): Block {
    Block(s.a, s.b.Left().Left().Left(), s.c.Left().Left(), s.d.Left())
  }

  // Four quarter rounds on the columns, then four on the diagonals.
  function DoubleRound(f: Quad -> Quad, s: Block): Block {
    Unskew(Columns(f, Skew(Columns(f, s))))
  }

  // The sixteen words in order, and a quarter round on four of them.
  function Words(s: Block): (ws: seq<Word>)
    ensures |ws| == 16
  {
    [s.a.w0, s.a.w1, s.a.w2, s.a.w3, s.b.w0, s.b.w1, s.b.w2, s.b.w3,
     s.c.w0, s.c.w1, s.c.w2, s.c.w3, s.d.w0, s.d.w1, s.d.w2, s.d.w3]
  }

  function On(f: Quad -> Quad, ws: seq<Word>, i: nat, j: nat, k: nat, l: nat): (r: seq<Word>)
    requires |ws| == 16 && i < 16 && j < 16 && k < 16 && l < 16
    ensures |r| == 16
  {
    var q := f(Quad(ws[i], ws[j], ws[k], ws[l]));
    ws[i := q.a][j := q.b][k := q.c][l := q.d]
  }

  lemma ColumnIndices(f: Quad -> Quad, s: Block)
    ensures var w := Words(s);
            var w1 := On(f, w, 0, 4, 8, 12);
            var w2 := On(f, w1, 1, 5, 9, 13);
            var w3 := On(f, w2, 2, 6, 10, 14);
            Words(Columns(f, s)) == On(f, w3, 3, 7, 11, 15)
  {
  }

  lemma DiagonalIndices(f: Quad -> Quad, s: Block)
    ensures var w := Words(s);
            var w1 := On(f, w, 0, 5, 10, 15);
            var w2 := On(f, w1, 1, 6, 11, 12);
            var w3 := On(f, w2, 2, 7, 8, 13);
            Words(Unskew(Columns(f, Skew(s)))) == On(f, w3, 3, 4, 9, 14)
  {
  }

  // The double round by word numbers, as section 2.3 of RFC 8439 lists its quarter rounds.
  lemma DoubleRoundIndices(f: Quad -> Quad, s: Block)
    ensures var w := Words(s);
            var c := On(f, On(f, On(f, On(f, w, 0, 4, 8, 12), 1, 5, 9, 13), 2, 6, 10, 14), 3, 7, 11, 15);
            Words(DoubleRound(f, s)) ==
              On(f, On(f, On(f, On(f, c, 0, 5, 10, 15), 1, 6, 11, 12), 2, 7, 8, 13), 3, 4, 9, 14)
  {
    ColumnIndices(f, s);
    DiagonalIndices(f, Columns(f, s));
  }

  function Rounds(f: Quad -> Quad, s: Block, n: nat): Block
    decreases n
  {
    if n == 0 then s else DoubleRound(f, Rounds(f, s, n - 1))
  }

  // The same backwards, from a way to undo a quarter round.
  function UndoDoubleRound(g: Quad -> Quad, s: Block): Block {
    Columns(g, Unskew(Columns(g, Skew(s))))
  }

  function UndoRounds(g: Quad -> Quad, s: Block, n: nat): Block
    decreases n
  {
    if n == 0 then s else UndoRounds(g, UndoDoubleRound(g, s), n - 1)
  }

  lemma ColumnsInverse(f: Quad -> Quad, g: Quad -> Quad, s: Block)
    requires Inverse(f, g)
    ensures Columns(g, Columns(f, s)) == s && Columns(f, Columns(g, s)) == s
  {
  }

  lemma SkewInverse(s: Block)
    ensures Unskew(Skew(s)) == s && Skew(Unskew(s)) == s
  {
  }

  lemma DoubleRoundInverse(f: Quad -> Quad, g: Quad -> Quad, s: Block)
    requires Inverse(f, g)
    ensures UndoDoubleRound(g, DoubleRound(f, s)) == s
    ensures DoubleRound(f, UndoDoubleRound(g, s)) == s
  {
    var t := Columns(f, s);
    ColumnsInverse(f, g, s);
    SkewInverse(t);
    ColumnsInverse(f, g, Skew(t));
    SkewInverse(Columns(f, Skew(t)));
    var u := Columns(g, Skew(s));
    SkewInverse(s);
    ColumnsInverse(f, g, Skew(s));
    SkewInverse(u);
    ColumnsInverse(f, g, Unskew(u));
  }

  lemma UnfoldRounds(f: Quad -> Quad, s: Block, t: Block, u: Block, n: nat)
    requires n > 0 && t == Rounds(f, s, n - 1) && u == DoubleRound(f, t)
    ensures u == Rounds(f, s, n)
  {
  }

  lemma UnfoldUndo(g: Quad -> Quad, u: Block, t: Block, n: nat)
    requires n > 0 && UndoDoubleRound(g, u) == t
    ensures UndoRounds(g, u, n) == UndoRounds(g, t, n - 1)
  {
  }

  lemma UndoneOnce(f: Quad -> Quad, g: Quad -> Quad, s: Block, t: Block, u: Block, n: nat)
    requires Inverse(f, g) && n > 0 && t == Rounds(f, s, n - 1) && u == Rounds(f, s, n)
    ensures UndoDoubleRound(g, u) == t
  {
    UnfoldRounds(f, s, t, DoubleRound(f, t), n);
    DoubleRoundInverse(f, g, t);
  }

  ghost predicate AfterRounds(f: Quad -> Quad, init: Block, k: nat, s: Block) {
    s == Rounds(f, init, k)
  }

  ghost predicate Undoes(g: Quad -> Quad, u: Block, n: nat, s: Block) {
    UndoRounds(g, u, n) == s
  }

  lemma LastRound(f: Quad -> Quad, g: Quad -> Quad, s: Block, u: Block, n: nat) returns (t: Block)
    requires Inverse(f, g) && n > 0 && AfterRounds(f, s, n, u)
    ensures AfterRounds(f, s, n - 1, t) && UndoDoubleRound(g, u) == t
  {
    t := Rounds(f, s, n - 1);
    UndoneOnce(f, g, s, t, u, n);
  }

  lemma {:induction false} RoundsUndone(f: Quad -> Quad, g: Quad -> Quad, s: Block, n: nat, u: Block)
    requires Inverse(f, g) && AfterRounds(f, s, n, u)
    ensures Undoes(g, u, n, s)
    decreases n
  {
    if n > 0 {
      var t := LastRound(f, g, s, u, n);
      RoundsUndone(f, g, s, n - 1, t);
      UnfoldUndo(g, u, t, n);
    }
  }

  lemma {:induction false} RoundsRedone(f: Quad -> Quad, g: Quad -> Quad, s: Block, n: nat, u: Block)
    requires Inverse(f, g) && u == UndoRounds(g, s, n)
    ensures Rounds(f, u, n) == s
    decreases n
  {
    if n > 0 {
      var t := UndoDoubleRound(g, s);
      UnfoldUndo(g, s, t, n);
      RoundsRedone(f, g, t, n - 1, u);
      DoubleRoundInverse(f, g, s);
      UnfoldRounds(f, u, t, s, n);
    }
  }

  // The permutation of HChaCha20 has a two-sided inverse, for any number of double rounds.
  lemma PermutationInverse(s: Block, n: nat)
    ensures UndoRounds(UndoQuarterRound, Rounds(Round(WORDS), s, n), n) == s
    ensures Rounds(Round(WORDS), UndoRounds(UndoQuarterRound, s, n), n) == s
  {
    QuarterRoundInverse();
    RoundsUndone(Round(WORDS), UndoQuarterRound, s, n, Rounds(Round(WORDS), s, n));
    RoundsRedone(Round(WORDS), UndoQuarterRound, s, n, UndoRounds(UndoQuarterRound, s, n));
  }

  // ----- The unrolled loop -----

  function ReadWord(b: Bytes, at: nat): Word
    requires at + 4 <= |b|
  {
    b[at] as nat + 0x100 * b[at + 1] as nat + 0x1_0000 * b[at + 2] as nat + 0x100_0000 * b[at + 3] as nat
  }

  function WriteWord(x: Word): (b: Bytes)
    ensures |b| == 4 && ReadWord(b, 0) == x
  {
    var y, z := x / 0x100, x / 0x1_0000;
    assert x == x % 0x100 + 0x100 * y && y == y % 0x100 + 0x100 * (y / 0x100) && z == z % 0x100 + 0x100 * (z / 0x100);
    assert y / 0x100 == z && z / 0x100 == x / 0x100_0000;
    [(x % 0x100) as byte, (x / 0x100 % 0x100) as byte, (x / 0x1_0000 % 0x100) as byte, (x / 0x100_0000) as byte]
  }

  function ReadRow(b: Bytes, at: nat): Row
    requires at + 16 <= |b|
  {
    Row(ReadWord(b, at), ReadWord(b, at + 4), ReadWord(b, at + 8), ReadWord(b, at + 12))
  }

  function WriteRow(r: Row): (b: Bytes)
    ensures |b| == 16
  {
    WriteWord(r.w0) + WriteWord(r.w1) + WriteWord(r.w2) + WriteWord(r.w3)
  }

  const DOUBLE_ROUNDS: nat := 10

  const SIGMA := Row(0x61707865, 0x3320646e, 0x79622d32, 0x6b206574)

  function Setup(key: Bytes, nonce: Bytes): Block
    requires |key| == 32 && |nonce| == 16
  {
    Block(SIGMA, ReadRow(key, 0), ReadRow(key, 16), ReadRow(nonce, 0))
  }

  // The first row spells "expand 32-byte k"; key and nonce follow, four bytes to a word, the
  // lowest byte first.
  lemma SetupBytes(key: Bytes, nonce: Bytes, i: nat)
    requires |key| == 32 && |nonce| == 16 && i < 8
    ensures WriteRow(Setup(key, nonce).a) ==
            [0x65, 0x78, 0x70, 0x61, 0x6e, 0x64, 0x20, 0x33, 0x32, 0x2d, 0x62, 0x79, 0x74, 0x65, 0x20, 0x6b]
    ensures var w := Words(Setup(key, nonce));
            && w[4 + i] == key[4 * i] as nat + 0x100 * key[4 * i + 1] as nat
                           + 0x1_0000 * key[4 * i + 2] as nat + 0x100_0000 * key[4 * i + 3] as nat
            && (i < 4 ==>
                  w[12 + i] == nonce[4 * i] as nat + 0x100 * nonce[4 * i + 1] as nat
                               + 0x1_0000 * nonce[4 * i + 2] as nat + 0x100_0000 * nonce[4 * i + 3] as nat)
  {
  }

  // The first and the last row.
  function Output(s: Block): (out: Bytes)
    ensures |out| == 32
  {
    WriteRow(s.a) + WriteRow(s.d)
  }

  // What comes out: words 0 to 3 and 12 to 15, the lowest byte first.
  lemma OutputBytes(s: Block)
    ensures var w, out := Words(s), Output(s);
            && ReadWord(out, 0) == w[0] && ReadWord(out, 4) == w[1] && ReadWord(out, 8) == w[2] && ReadWord(out, 12) == w[3]
            && ReadWord(out, 16) == w[12] && ReadWord(out, 20) == w[13] && ReadWord(out, 24) == w[14] && ReadWord(out, 28) == w[15]
  {
    RowBytes(s.a, s.d);
  }

  lemma RowBytes(a: Row, b: Row)
    ensures var out := WriteRow(a) + WriteRow(b);
            && ReadWord(out, 0) == a.w0 && ReadWord(out, 4) == a.w1 && ReadWord(out, 8) == a.w2 && ReadWord(out, 12) == a.w3
            && ReadWord(out, 16) == b.w0 && ReadWord(out, 20) == b.w1 && ReadWord(out, 24) == b.w2 && ReadWord(out, 28) == b.w3
  {
  }

  // Section 2.2 of draft-irtf-cfrg-xchacha: ten double rounds without the final addition,
  // of which the first and the last row are the result.
  function HChaCha20(o: Ops, key: Bytes, nonce: Bytes): (out: Bytes)
    requires |key| == 32 && |nonce| == 16
    ensures |out| == 32
  {
    Output(Rounds(Round(o), Setup(key, nonce), DOUBLE_ROUNDS))
  }

  // The body of the loop, with every quarter round written out.
  method UnrolledDoubleRound(o: Ops, start: Block) returns (s: Block)
    ensures s == DoubleRound(Round(o), start)
  {
    var v00, v01, v02, v03 := start.a.w0, start.a.w1, start.a.w2, start.a.w3;
    var v04, v05, v06, v07 := start.b.w0, start.b.w1, start.b.w2, start.b.w3;
    var v08, v09, v10, v11 := start.c.w0, start.c.w1, start.c.w2, start.c.w3;
    var v12, v13, v14, v15 := start.d.w0, start.d.w1, start.d.w2, start.d.w3;
    v00 := o.plus(v00, v04);
    v12 := o.xor(v12, v00);
    v12 := o.rotl16(v12);
    v08 := o.plus(v08, v12);
    v04 := o.xor(v04, v08);
    v04 := o.rotl12(v04);
    v00 := o.plus(v00, v04);
    v12 := o.xor(v12, v00);
    v12 := o.rotl8(v12);
    v08 := o.plus(v08, v12);
    v04 := o.xor(v04, v08);
    v04 := o.rotl7(v04);
    v01 := o.plus(v01, v05);
    v13 := o.xor(v13, v01);
    v13 := o.rotl16(v13);
    v09 := o.plus(v09, v13);
    v05 := o.xor(v05, v09);
    v05 := o.rotl12(v05);
    v01 := o.plus(v01, v05);
    v13 := o.xor(v13, v01);
    v13 := o.rotl8(v13);
    v09 := o.plus(v09, v13);
    v05 := o.xor(v05, v09);
    v05 := o.rotl7(v05);
    v02 := o.plus(v02, v06);
    v14 := o.xor(v14, v02);
    v14 := o.rotl16(v14);
    v10 := o.plus(v10, v14);
    v06 := o.xor(v06, v10);
    v06 := o.rotl12(v06);
    v02 := o.plus(v02, v06);
    v14 := o.xor(v14, v02);
    v14 := o.rotl8(v14);
    v10 := o.plus(v10, v14);
    v06 := o.xor(v06, v10);
    v06 := o.rotl7(v06);
    v03 := o.plus(v03, v07);
    v15 := o.xor(v15, v03);
    v15 := o.rotl16(v15);
    v11 := o.plus(v11, v15);
    v07 := o.xor(v07, v11);
    v07 := o.rotl12(v07);
    v03 := o.plus(v03, v07);
    v15 := o.xor(v15, v03);
    v15 := o.rotl8(v15);
    v11 := o.plus(v11, v15);
    v07 := o.xor(v07, v11);
    v07 := o.rotl7(v07);
    ghost var middle := Block(Row(v00, v01, v02, v03), Row(v04, v05, v06, v07), Row(v08, v09, v10, v11), Row(v12, v13, v14, v15));
    assert middle == Columns(Round(o), start);
    v00 := o.plus(v00, v05);
    v15 := o.xor(v15, v00);
    v15 := o.rotl16(v15);
    v10 := o.plus(v10, v15);
    v05 := o.xor(v05, v10);
    v05 := o.rotl12(v05);
    v00 := o.plus(v00, v05);
    v15 := o.xor(v15, v00);
    v15 := o.rotl8(v15);
    v10 := o.plus(v10, v15);
    v05 := o.xor(v05, v10);
    v05 := o.rotl7(v05);
    v01 := o.plus(v01, v06);
    v12 := o.xor(v12, v01);
    v12 := o.rotl16(v12);
    v11 := o.plus(v11, v12);
    v06 := o.xor(v06, v11);
    v06 := o.rotl12(v06);
    v01 := o.plus(v01, v06);
    v12 := o.xor(v12, v01);
    v12 := o.rotl8(v12);
    v11 := o.plus(v11, v12);
    v06 := o.xor(v06, v11);
    v06 := o.rotl7(v06);
    v02 := o.plus(v02, v07);
    v13 := o.xor(v13, v02);
    v13 := o.rotl16(v13);
    v08 := o.plus(v08, v13);
    v07 := o.xor(v07, v08);
    v07 := o.rotl12(v07);
    v02 := o.plus(v02, v07);
    v13 := o.xor(v13, v02);
    v13 := o.rotl8(v13);
    v08 := o.plus(v08, v13);
    v07 := o.xor(v07, v08);
    v07 := o.rotl7(v07);
    v03 := o.plus(v03, v04);
    v14 := o.xor(v14, v03);
    v14 := o.rotl16(v14);
    v09 := o.plus(v09, v14);
    v04 := o.xor(v04, v09);
    v04 := o.rotl12(v04);
    v03 := o.plus(v03, v04);
    v14 := o.xor(v14, v03);
    v14 := o.rotl8(v14);
    v09 := o.plus(v09, v14);
    v04 := o.xor(v04, v09);
    v04 := o.rotl7(v04);
    s := Block(Row(v00, v01, v02, v03), Row(v04, v05, v06, v07), Row(v08, v09, v10, v11), Row(v12, v13, v14, v15));
  }

  lemma OneMoreRound(f: Quad -> Quad, init: Block, k: nat, s: Block, t: Block)
    requires s == Rounds(f, init, k) && t == DoubleRound(f, s)
    ensures t == Rounds(f, init, k + 1)
  {
  }

  method NextRounds(o: Ops, s: Block, ghost f: Quad -> Quad, ghost init: Block, ghost k: nat) returns (t: Block)
    requires f == Round(o) && AfterRounds(f, init, k, s)
    ensures AfterRounds(f, init, k + 1, t)
  {
    t := UnrolledDoubleRound(o, s);
    OneMoreRound(f, init, k, s, t);
  }

  // The loop; `i` counts double rounds here.
  method UnrolledRounds(o: Ops, init: Block, n: nat, ghost f: Quad -> Quad) returns (s: Block)
    requires f == Round(o)
    ensures AfterRounds(f, init, n, s)
  {
    s := init;
    var i := 0;
    while i < n
      invariant 0 <= i <= n
      invariant AfterRounds(f, init, i, s)
    {
      s := NextRounds(o, s, f, init, i);
      i := i + 1;
    }
  }

  method WriteOut(out: array<byte>, head: Bytes, tail: Bytes)
    requires |head| == 16 && |tail| == 16 && out.Length == 32
    modifies out
    ensures out[..] == head + tail
  {
    var k := 0;
    while k < 16
      invariant 0 <= k <= 16
      invariant out[..k] == head[..k] && out[16..16 + k] == tail[..k]
    {
      out[k], out[16 + k] := head[k], tail[k];
      k := k + 1;
    }
    assert out[..] == out[..16] + out[16..32];
  }

  method Hchacha20(o: Ops, key: Bytes, nonce: Bytes, out: array<byte>)
    requires |key| == 32 && |nonce| == 16 && out.Length == 32
    modifies out
    ensures out[..] == HChaCha20(o, key, nonce)
  {
    var s := UnrolledRounds(o, Setup(key, nonce), DOUBLE_ROUNDS, Round(o));
    WriteOut(out, WriteRow(s.a), WriteRow(s.d));
  }

  // ----- Encryption and decryption -----

  // ChaCha20-Poly1305, of which only the laws below are used.
  datatype Aead = Aead(
    seal: (Bytes, Bytes, Bytes, Bytes) -> (Bytes, Bytes),
    open: (Bytes, Bytes, Bytes, Bytes, Bytes) -> Option<Bytes>)

  // Opening inverts sealing.
  ghost predicate Inverts(a: Aead) {
    && (forall k: Bytes, n: Bytes, aad: Bytes, p: Bytes ::
          |a.seal(k, n, aad, p).0| == |p| && |a.seal(k, n, aad, p).1| == 16)
    && (forall k: Bytes, n: Bytes, aad: Bytes, p: Bytes ::
          a.open(k, n, aad, a.seal(k, n, aad, p).0, a.seal(k, n, aad, p).1) == Some(p))
  }

  // Opening fails for other associated data, among those as long as a tag. This is an ideal:
  // a tag of this size can tell no more apart, and a real cipher only makes a clash unlikely.
  ghost predicate Rejects(a: Aead) {
    forall k: Bytes, n: Bytes, aad: Bytes, aad': Bytes, p: Bytes
      {:trigger a.open(k, n, aad', a.seal(k, n, aad, p).0, a.seal(k, n, aad, p).1)} ::
      |aad| == 16 && |aad'| == 16 && aad != aad' ==>
      a.open(k, n, aad', a.seal(k, n, aad, p).0, a.seal(k, n, aad, p).1) == None
  }

  // A cipher that hides nothing but keeps the laws.
  function TagOf(aad: Bytes): Bytes {
    if |aad| == 16 then aad else Zeros(16)
  }

  const TAGGING := Aead(
    (k: Bytes, n: Bytes, aad: Bytes, p: Bytes) => (p, TagOf(aad)),
    (k: Bytes, n: Bytes, aad: Bytes, c: Bytes, tag: Bytes) => if tag == TagOf(aad) then Some(c) else None)

  // The laws can be kept.
  lemma LawfulExists()
    ensures Inverts(TAGGING) && Rejects(TAGGING)
  {
  }

  function DerivedNonce(nonce: Bytes): Bytes
    requires |nonce| == 24
  {
    Zeros(4) + nonce[16..]
  }

  // How the key of one message is derived from the key and the first part of the nonce.
  type Derivation = (Bytes, Bytes) -> Bytes

  // The derivation of the source.
  function ByHChaCha20(o: Ops): Derivation {
    (key: Bytes, nonce: Bytes) => if |key| == 32 && |nonce| == 16 then HChaCha20(o, key, nonce) else []
  }

  function Encrypt(derive: Derivation, a: Aead, key: Bytes, nonce: Bytes, input: Bytes, aad: Bytes): Result<(Bytes, Bytes)> {
    if |key| != 32 || |nonce| != 24 then Err
    else Ok(a.seal(derive(key, nonce[..16]), DerivedNonce(nonce), aad, input))
  }

  function Decrypt(derive: Derivation, a: Aead, key: Bytes, nonce: Bytes, input: Bytes, aad: Bytes, tag: Bytes): Result<Bytes> {
    if |key| != 32 || |nonce| != 24 then Err
    else
      var p := a.open(derive(key, nonce[..16]), DerivedNonce(nonce), aad, input, tag);
      if p.Some? then Ok(p.value) else Err
  }

  // What was encrypted is decrypted with the same associated data; and if the cipher rejects
  // others, with no other of the size of a tag.
  lemma DecryptEncrypt(derive: Derivation, a: Aead, key: Bytes, nonce: Bytes, input: Bytes, aad: Bytes, aad': Bytes)
    requires Inverts(a) && |key| == 32 && |nonce| == 24
    ensures Encrypt(derive, a, key, nonce, input, aad).Ok?
    ensures var (c, tag) := Encrypt(derive, a, key, nonce, input, aad).value;
            && |c| == |input| && |tag| == 16
            && Decrypt(derive, a, key, nonce, c, aad, tag) == Ok(input)
            && (Rejects(a) && |aad| == 16 && |aad'| == 16 && aad != aad' ==> Decrypt(derive, a, key, nonce, c, aad', tag) == Err)
  {
  }
}
