// Shared vocabulary: fixed-width integers, bytes, optional values and outcomes.
module Types {

  newtype u16 = x: int | 0 <= x < 0x1_0000
  newtype u32 = x: int | 0 <= x < 0x1_0000_0000
  newtype u64 = x: int | 0 <= x < 0x1_0000_0000_0000_0000

  newtype byte = x: int | 0 <= x < 256
  type Bytes = seq<byte>

  datatype Option<+T> = None | Some(value: T) {
    function Or(other: Option<T>): Option<T> {
      if Some? then this else other
    }
  }

  datatype Result<+T> = Ok(value: T) | Err

  function Zeros(n: nat): (z: Bytes)
    ensures |z| == n
  {
    seq(n, _ => 0 as byte)
  }

  function Pow2(k: nat): (p: nat)
    ensures p > 0
  {
    if k == 0 then 1 else 2 * Pow2(k - 1)
  }

  function Pow256(n: nat): (p: nat)
    ensures p > 0
  {
    if n == 0 then 1 else 256 * Pow256(n - 1)
  }

  const TWO64: nat := 0x1_0000_0000_0000_0000

  lemma Pow256Widths()
    ensures Pow256(8) == TWO64
    ensures Pow256(4) == 0x1_0000_0000
  {
    assert Pow256(4) == 256 * (256 * Pow256(2));
    assert Pow256(8) == 256 * (256 * (256 * (256 * Pow256(4))));
  }

  lemma MulMono(a: nat, b: nat, c: nat)
    requires a <= b
    ensures a * c <= b * c
  {
  }

  lemma DivMod(y: nat, d: nat, q: nat, r: nat)
    requires d > 0 && r < d && y == q * d + r
    ensures y / d == q && y % d == r
  {
    var p := y / d;
    assert y == p * d + y % d;
    if p < q {
      MulMono(p + 1, q, d);
      assert false;
    } else if p > q {
      MulMono(q + 1, p, d);
      assert false;
    }
  }

  lemma MulParts(q: nat, b: nat, r: nat, a: nat)
    ensures (q * b + r) * a == q * (a * b) + r * a
  {
    assert (q * b) * a == q * (a * b);
  }

  lemma MulBelow(r: nat, b: nat, s: nat, a: nat)
    requires r < b && s < a
    ensures r * a + s < a * b
  {
    MulMono(r + 1, b, a);
  }

  // Dividing twice is dividing once by the product.
  lemma DivideTwice(x: nat, a: nat, b: nat)
    requires a > 0 && b > 0
    ensures x / (a * b) == x / a / b
  {
    QuotientOfProduct(x, a, b, x / a / b, x / a % b, x % a);
  }

  lemma QuotientOfProduct(x: nat, a: nat, b: nat, q: nat, r: nat, s: nat)
    requires x == (q * b + r) * a + s && r < b && s < a
    ensures a * b > 0 && x / (a * b) == q
  {
    MulParts(q, b, r, a);
    MulBelow(r, b, s, a);
    DivMod(x, a * b, q, r * a + s);
  }
}
