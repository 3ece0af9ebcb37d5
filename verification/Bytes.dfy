/** Fixed-width unsigned integers and their little-endian byte strings
    (Go's encoding/binary, the byte order of every wire and file format here). */
module Bytes {
  type u8 = x: int | 0 <= x < 0x100
  type u16 = x: int | 0 <= x < 0x1_0000
  type u32 = x: int | 0 <= x < 0x1_0000_0000
  type u64 = x: int | 0 <= x < 0x1_0000_0000_0000_0000

  function Pow256(n: nat): (p: nat)
    ensures p > 0
  {
    if n == 0 then 1 else 256 * Pow256(n - 1)
  }

  /** The n low-order bytes of v, least significant first; higher bits are lost. */
  function Le(v: nat, n: nat): (b: seq<u8>)
    ensures |b| == n
  {
    if n == 0 then [] else [v % 256] + Le(v / 256, n - 1)
  }

  function FromLe(b: seq<u8>): nat
  {
    if b == [] then 0 else b[0] + 256 * FromLe(b[1..])
  }

  lemma {:induction false} LeReadsBack(v: nat, n: nat)
    requires v < Pow256(n)
    ensures FromLe(Le(v, n)) == v
  {
    if n > 0 {
      LeReadsBack(v / 256, n - 1);
      assert Le(v, n)[1..] == Le(v / 256, n - 1);
    }
  }

  lemma {:induction false} FromLeBounded(b: seq<u8>)
    ensures FromLe(b) < Pow256(|b|)
  {
    if b != [] { FromLeBounded(b[1..]); }
  }

  lemma LowDigit(d: u8, rest: nat)
    ensures (d + 256 * rest) % 256 == d && (d + 256 * rest) / 256 == rest
  {
  }

  /** Equal-length byte strings with the same value are the same bytes. */
  lemma {:induction false} LeWritesBack(b: seq<u8>)
    ensures Le(FromLe(b), |b|) == b
  {
    if b != [] {
      LeWritesBack(b[1..]);
      LowDigit(b[0], FromLe(b[1..]));
      assert Le(FromLe(b), |b|) == [b[0]] + Le(FromLe(b[1..]), |b| - 1);
    }
  }

  /** The value of a byte string: byte i counts 256 to the power of i. */
  lemma {:induction false} FromLeOnePlace(b: seq<u8>, i: nat, d: u8)
    requires i < |b|
    ensures FromLe(b[i := d]) == FromLe(b) + (d - b[i]) * Pow256(i)
  {
    if i > 0 {
      FromLeOnePlace(b[1..], i - 1, d);
      assert b[i := d][1..] == b[1..][i - 1 := d];
      Distribute(d - b[i], Pow256(i - 1));
    } else {
      assert b[0 := d][1..] == b[1..];
    }
  }

  lemma Distribute(x: int, p: nat)
    ensures 256 * (x * p) == x * (256 * p)
  {
  }

  lemma Widths()
    ensures Pow256(2) == 0x1_0000
    ensures Pow256(4) == 0x1_0000_0000
    ensures Pow256(8) == 0x1_0000_0000_0000_0000
  {
    assert Pow256(0) == 1 && Pow256(1) == 256 && Pow256(2) == 0x1_0000;
    assert Pow256(3) == 0x100_0000 && Pow256(4) == 0x1_0000_0000;
    assert Pow256(5) == 0x100_0000_0000 && Pow256(6) == 0x1_0000_0000_0000;
    assert Pow256(7) == 0x100_0000_0000_0000;
  }
}
