// The sliding-window replay filter of section 2 of RFC 6479 (src/anti_replay.rs):
// a ring of 64 words of 32 bits, cleared lazily as the window moves forward.
module AntiReplay {
  import opened Types

  const BITMAP_BITLEN: u64 := 2048
  const SIZE_OF_INTEGER: u64 := 32
  const BITMAP_LEN: u64 := BITMAP_BITLEN / SIZE_OF_INTEGER
  const WINDOW_SIZE: u64 := BITMAP_BITLEN - SIZE_OF_INTEGER

  // ----- What the filter means: the set of every nonce accepted so far -----

  datatype Seen = Seen(last: u64, accepted: set<u64>) {
    ghost predicate Valid() {
      && (forall n :: n in accepted ==> n <= last)
      && (last in accepted || (last == 0 && accepted == {}))
    }

    predicate Fresh(nonce: u64) {
      nonce > last || (last - nonce <= WINDOW_SIZE && nonce !in accepted)
    }

    function Accept(nonce: u64): Seen {
      Seen(if nonce > last then nonce else last, accepted + {nonce})
    }
  }

  const EMPTY := Seen(0, {})

  // The state after offering `nonces` one by one, and which of them got through.
  function Feed(s: Seen, nonces: seq<u64>): Seen
    decreases |nonces|
  {
    if nonces == [] then s
    else Feed(if s.Fresh(nonces[0]) then s.Accept(nonces[0]) else s, nonces[1..])
  }

  function Passed(s: Seen, nonces: seq<u64>): seq<u64>
    decreases |nonces|
  {
    if nonces == [] then []
    else if s.Fresh(nonces[0]) then [nonces[0]] + Passed(s.Accept(nonces[0]), nonces[1..])
    else Passed(s, nonces[1..])
  }

  // No nonce gets through twice, whatever the order or duplication of the packets,
  // and none that had already been accepted gets through at all.
  lemma {:induction false} PassedOnce(s: Seen, nonces: seq<u64>)
    requires s.Valid()
    ensures forall i, j :: 0 <= i < j < |Passed(s, nonces)| ==> Passed(s, nonces)[i] != Passed(s, nonces)[j]
    ensures forall n :: n in Passed(s, nonces) ==> n !in s.accepted
    ensures Feed(s, nonces).Valid()
    ensures Feed(s, nonces).accepted == s.accepted + set n | n in Passed(s, nonces)
    decreases |nonces|
  {
    if nonces != [] {
      PassedOnce(if s.Fresh(nonces[0]) then s.Accept(nonces[0]) else s, nonces[1..]);
    }
  }

  // A nonce is refused exactly when it was accepted before, or one was that is too far above.
  ghost predicate ShutOut(accepted: set<u64>, nonce: u64) {
    nonce in accepted || exists m :: m in accepted && m > nonce && m - nonce > WINDOW_SIZE
  }

  lemma FreshExactly(s: Seen, nonce: u64)
    requires s.Valid()
    ensures s.Fresh(nonce) <==> !ShutOut(s.accepted, nonce)
  {
    if nonce <= s.last && s.last - nonce > WINDOW_SIZE {
      assert s.last in s.accepted;
    }
  }

  // What accepting `f` does to a nonce that was fresh: it is refused from now on exactly when
  // it is `f` itself or `f` moves the window past it.
  lemma AcceptShutsOut(s: Seen, f: u64, nonce: u64)
    requires s.Valid() && s.Fresh(f) && s.Fresh(nonce)
    ensures !s.Accept(f).Fresh(nonce) <==> nonce == f || (f > s.last && nonce < f && f - nonce > WINDOW_SIZE)
  {
  }

  // ----- Bits of a word -----

  // `word & (1 << loc) != 0`
  predicate Bit(word: nat, loc: nat) {
    if loc == 0 then word % 2 == 1 else Bit(word / 2, loc - 1)
  }

  // `word | (1 << loc)`, which fits the width of the word whenever the bit does.
  function SetBit(word: nat, loc: nat, width: nat): (w: nat)
    requires loc < width && word < Pow2(width)
    ensures w < Pow2(width)
  {
    var half := Pow2(width - 1);
    assert Pow2(width) == 2 * half;
    if loc == 0 then word + 1 - word % 2
    else 2 * SetBit(word / 2, loc - 1, width - 1) + word % 2
  }

  // Setting one bit of a word changes that bit and no other.
  lemma {:induction false} SetBitExact(word: nat, loc: nat, width: nat, other: nat)
    requires loc < width && word < Pow2(width)
    ensures Bit(SetBit(word, loc, width), other) <==> (other == loc || Bit(word, other))
  {
    if loc > 0 && other > 0 {
      SetBitExact(word / 2, loc - 1, width - 1, other - 1);
    }
  }

  lemma {:induction false} ZeroHasNoBits(loc: nat)
    ensures !Bit(0, loc)
  {
    if loc > 0 {
      ZeroHasNoBits(loc - 1);
    }
  }

  type Word = w: nat | w < Pow2(SIZE_OF_INTEGER as int)

  // ----- The ring -----

  // A block is a run of 32 consecutive nonces; Slot is the word that holds it.
  function Block(nonce: u64): u64 {
    nonce / SIZE_OF_INTEGER
  }

  function Loc(nonce: u64): (l: nat)
    ensures l < SIZE_OF_INTEGER as int
  {
    (nonce % SIZE_OF_INTEGER) as nat
  }

  function Slot(block: u64): (i: nat)
    ensures i < BITMAP_LEN as int
  {
    (block % BITMAP_LEN) as nat
  }

  lemma SlotsDistinct(a: u64, b: u64)
    requires a as int < b as int < a as int + BITMAP_LEN as int
    ensures Slot(a) != Slot(b)
  {
  }

  // The nonces that have a bit of their own while `last` is the newest one.
  predicate InRing(last: u64, n: u64) {
    Block(n) <= Block(last) < Block(n) + BITMAP_LEN
  }

  type Words = w: seq<Word> | |w| == BITMAP_LEN as int witness seq(BITMAP_LEN, _ => 0)

  predicate At(words: Words, n: u64) {
    Bit(words[Slot(Block(n))], Loc(n))
  }

  function Store(words: Words, n: u64): Words {
    words[Slot(Block(n)) := SetBit(words[Slot(Block(n))], Loc(n), SIZE_OF_INTEGER as int)]
  }

  ghost predicate Agrees(words: Words, last: u64, accepted: set<u64>) {
    forall n :: InRing(last, n) ==> (At(words, n) <==> n in accepted)
  }

  // Moving the window forward keeps the agreement when the blocks that enter it are
  // empty and the blocks that stay in it keep their words.
  lemma MoveKeeps(words: Words, words': Words, last: u64, last': u64, accepted: set<u64>)
    requires Agrees(words, last, accepted) && Seen(last, accepted).Valid() && last < last'
    requires forall k :: Block(last) < k <= Block(last') && Block(last') < k + BITMAP_LEN ==> words'[Slot(k)] == 0
    requires forall k :: k <= Block(last) && Block(last') < k + BITMAP_LEN ==> words'[Slot(k)] == words[Slot(k)]
    ensures Agrees(words', last', accepted)
  {
    forall n | InRing(last', n) ensures At(words', n) <==> n in accepted {
      if Block(n) <= Block(last) {
        assert InRing(last, n);
      } else {
        ZeroHasNoBits(Loc(n));
      }
    }
  }

  // Setting the bit of a nonce in the window adds exactly that nonce.
  lemma StoreKeeps(words: Words, last: u64, accepted: set<u64>, nonce: u64)
    requires Agrees(words, last, accepted) && InRing(last, nonce)
    ensures Agrees(Store(words, nonce), last, accepted + {nonce})
  {
    forall n | InRing(last, n) ensures At(Store(words, nonce), n) <==> n in accepted + {nonce} {
      if Block(n) == Block(nonce) {
        SetBitExact(words[Slot(Block(nonce))], Loc(nonce), SIZE_OF_INTEGER as int, Loc(n));
      } else if Block(n) < Block(nonce) {
        SlotsDistinct(Block(n), Block(nonce));
      } else {
        SlotsDistinct(Block(nonce), Block(n));
      }
    }
  }

  // The contents of a filter, as a session stores it.
  datatype Filter = Filter(words: Words, last: u64) {
    ghost predicate Holds(accepted: set<u64>) {
      Seen(last, accepted).Valid() && Agrees(words, last, accepted)
    }
  }

  const NEW_FILTER := Filter(seq(BITMAP_LEN, _ => 0), 0)

  lemma NewFilterHolds()
    ensures NEW_FILTER.Holds({})
  {
    forall n ensures !At(NEW_FILTER.words, n) {
      ZeroHasNoBits(Loc(n));
    }
  }

  class AntiReplay {
    const bitmap: array<Word>
    var last: u64
    ghost var accepted: set<u64>

    ghost predicate Valid()
      reads this, bitmap
    {
      && bitmap.Length == BITMAP_LEN as int
      && View().Valid()
      && Agrees(bitmap[..], last, accepted)
    }

    ghost function View(): Seen
      reads this
    {
      Seen(last, accepted)
    }

    constructor ()
      ensures Valid() && fresh(bitmap) && View() == EMPTY
    {
      bitmap := new Word[BITMAP_LEN](_ => 0);
      last := 0;
      accepted := {};
      new;
      forall n ensures !At(bitmap[..], n) {
        ZeroHasNoBits(Loc(n));
      }
    }

    // The filter that was stored as `f`.
    constructor Restore(f: Filter, ghost accepted: set<u64>)
      requires f.Holds(accepted)
      ensures Valid() && fresh(bitmap) && View() == Seen(f.last, accepted)
    {
      var words := f.words;
      bitmap := new Word[BITMAP_LEN](i requires 0 <= i < |words| => words[i]);
      last := f.last;
      this.accepted := accepted;
      new;
      assert bitmap[..] == words;
    }

    method Check(nonce: u64) returns (ok: bool)
      requires Valid()
      ensures ok <==> View().Fresh(nonce)
    {
      if nonce > last {
        return true;
      }
      if last - nonce > WINDOW_SIZE {
        return false;
      }
      assert InRing(last, nonce) && (At(bitmap[..], nonce) <==> nonce in accepted);
      ok := !Bit(bitmap[Slot(Block(nonce))], Loc(nonce));
    }

    // Clears the words of the blocks after `cur`, up to and including `index`.
    method Advance(cur: u64, index: u64)
      requires bitmap.Length == BITMAP_LEN as int
      requires cur <= index <= 0xffff_ffff_ffff_ffff / SIZE_OF_INTEGER
      modifies bitmap
      ensures forall k :: cur < k <= index && index < k + BITMAP_LEN ==> bitmap[Slot(k)] == 0
      ensures forall k :: k <= cur && index < k + BITMAP_LEN ==> bitmap[Slot(k)] == old(bitmap[Slot(k)])
    {
      var diff := index - cur;
      if diff >= BITMAP_LEN {
        forall i | 0 <= i < bitmap.Length {
          bitmap[i] := 0;
        }
      } else {
        var i := 0;
        while i < diff
          invariant i <= diff
          invariant forall k :: cur < k <= cur + i ==> bitmap[Slot(k)] == 0
          invariant forall k :: k <= cur && index < k + BITMAP_LEN ==> bitmap[Slot(k)] == old(bitmap[Slot(k)])
        {
          var block := cur + i + 1;
          forall k | k < block && index < k + BITMAP_LEN ensures Slot(k) != Slot(block) {
            SlotsDistinct(k, block);
          }
          bitmap[Slot(block)] := 0;
          i := i + 1;
        }
      }
    }

    method UpdateStore(nonce: u64)
      requires Valid()
      requires View().Fresh(nonce)
      modifies this, bitmap
      ensures Valid() && View() == old(View()).Accept(nonce)
    {
      if nonce > last {
        MoveTo(nonce);
      }
      StoreBit(nonce);
      accepted := accepted + {nonce};
    }

    // Moves the window forward.
    method MoveTo(nonce: u64)
      requires Valid() && nonce > last
      modifies this`last, bitmap
      ensures last == nonce && Agrees(bitmap[..], last, accepted)
    {
      ghost var before := bitmap[..];
      Advance(Block(last), Block(nonce));
      MoveKeeps(before, bitmap[..], last, nonce, accepted);
      last := nonce;
    }

    method StoreBit(nonce: u64)
      requires bitmap.Length == BITMAP_LEN as int && Agrees(bitmap[..], last, accepted) && InRing(last, nonce)
      modifies bitmap
      ensures Agrees(bitmap[..], last, accepted + {nonce})
    {
      ghost var words := bitmap[..];
      var index := Block(nonce);
      bitmap[Slot(index)] := SetBit(bitmap[Slot(index)], Loc(nonce), SIZE_OF_INTEGER as int);
      StoreKeeps(words, last, accepted, nonce);
      assert bitmap[..] == Store(words, nonce);
    }

    method Update(nonce: u64) returns (ok: bool)
      requires Valid()
      modifies this, bitmap
      ensures Valid()
      ensures ok <==> old(View().Fresh(nonce))
      ensures View() == if ok then old(View()).Accept(nonce) else old(View())
    {
      ok := Check(nonce);
      if ok {
        UpdateStore(nonce);
      }
    }
  }

  // `update` on a filter that a session stores.
  method PassFilter(f: Filter, nonce: u64, ghost accepted: set<u64>) returns (ok: bool, f': Filter)
    requires f.Holds(accepted)
    ensures ok <==> Seen(f.last, accepted).Fresh(nonce)
    ensures ok ==> f'.Holds(accepted + {nonce}) && Seen(f'.last, accepted + {nonce}) == Seen(f.last, accepted).Accept(nonce)
    ensures !ok ==> f' == f
  {
    var filter := new AntiReplay.Restore(f, accepted);
    ok := filter.Update(nonce);
    f' := if ok then Filter(filter.bitmap[..], filter.last) else f;
  }
}
