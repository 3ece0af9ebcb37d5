/** seats.bin: the per-seat columns of a layout as one little-endian blob. */
module SeatsBin {
  import opened Bytes

  const HEADER: seq<u8> := [0x53, 0x45, 0x41, 0x54]   // "SEAT"
  const FORMAT_VERSION: u8 := 1

  /** Go's conversions between int16 and uint16. */
  function ToUint16(v: int): u16 {
    v % 0x1_0000
  }

  function ToInt16(v: int): int {
    if v % 0x1_0000 < 0x8000 then v % 0x1_0000 else v % 0x1_0000 - 0x1_0000
  }

  predicate IsInt16(v: int) {
    -0x8000 <= v < 0x8000
  }

  function Column(vs: seq<int>): (b: seq<u8>)
    ensures |b| == 2 * |vs|
  {
    if vs == [] then [] else Column(vs[..|vs| - 1]) + Le(ToUint16(vs[|vs| - 1]), 2)
  }

  function Header(n: nat, layoutVersion: u16): (b: seq<u8>)
    ensures |b| == 12
  {
    HEADER + [FORMAT_VERSION, 0] + Le(layoutVersion, 2) + Le(n % 0x1_0000_0000, 4)
  }

  function Encoded(x: seq<int>, y: seq<int>, seatNumber: seq<u16>, tierIdx: seq<u8>, layoutVersion: u16): (b: seq<u8>) {
    Header(|x|, layoutVersion) + Column(x) + Column(y) + Column(seatNumber) + tierIdx
  }

  method PutUint16(buf: array<u8>, off: nat, v: u16)
    requires off + 2 <= buf.Length
    modifies buf
    ensures buf[..] == old(buf[..off]) + Le(v, 2) + old(buf[off + 2..])
  {
    buf[off] := v % 256;
    buf[off + 1] := v / 256;
    assert Le(v / 256, 1) == [v / 256] + Le(v / 256 / 256, 0);
  }

  /** Writes one column in place; what comes before it stays. */
  method PutColumn(buf: array<u8>, off: nat, vs: seq<int>)
    requires off + 2 * |vs| <= buf.Length
    modifies buf
    ensures buf[..off + 2 * |vs|] == old(buf[..off]) + Column(vs)
  {
    for i := 0 to |vs|
      invariant buf[..off + 2 * i] == old(buf[..off]) + Column(vs[..i])
    {
      ghost var before := buf[..off + 2 * i];
      PutUint16(buf, off + 2 * i, ToUint16(vs[i]));
      assert vs[..i + 1][..i] == vs[..i];
      assert buf[..off + 2 * (i + 1)] == before + Le(ToUint16(vs[i]), 2);
    }
    assert vs[..|vs|] == vs;
  }

  /** Copies bytes into the buffer from off on; what comes before them stays. */
  method PutBytes(buf: array<u8>, off: nat, bytes: seq<u8>)
    requires off + |bytes| <= buf.Length
    modifies buf
    ensures buf[..off + |bytes|] == old(buf[..off]) + bytes
  {
    for i := 0 to |bytes|
      invariant buf[..off + i] == old(buf[..off]) + bytes[..i]
    {
      ghost var before := buf[..off + i];
      buf[off + i] := bytes[i];
      assert buf[..off + (i + 1)] == before + [bytes[i]];
    }
    assert bytes[..|bytes|] == bytes;
  }

  method PutAll(header: seq<u8>, x: seq<int>, y: seq<int>, seatNumber: seq<u16>, tierIdx: seq<u8>)
    returns (buf: array<u8>)
    ensures fresh(buf) && buf[..] == header + Column(x) + Column(y) + Column(seatNumber) + tierIdx
  {
    buf := new u8[|header| + 2 * |x| + 2 * |y| + 2 * |seatNumber| + |tierIdx|];
    PutBytes(buf, 0, header);
    ghost var done := header;
    assert buf[..|header|] == done;
    var off := |header|;
    PutColumn(buf, off, x);
    done, off := done + Column(x), off + 2 * |x|;
    assert buf[..off] == done;
    PutColumn(buf, off, y);
    done, off := done + Column(y), off + 2 * |y|;
    assert buf[..off] == done;
    PutColumn(buf, off, seatNumber);
    done, off := done + Column(seatNumber), off + 2 * |seatNumber|;
    assert buf[..off] == done;
    PutBytes(buf, off, tierIdx);
    assert buf[..] == buf[..off + |tierIdx|];
  }

  method EncodeSeatsBin(x: seq<int>, y: seq<int>, seatNumber: seq<u16>, tierIdx: seq<u8>, layoutVersion: u16)
    returns (bin: seq<u8>)
    requires |y| == |x| && |seatNumber| == |x| && |tierIdx| == |x|
    ensures bin == Encoded(x, y, seatNumber, tierIdx, layoutVersion)
  {
    var buf := PutAll(Header(|x|, layoutVersion), x, y, seatNumber, tierIdx);
    bin := buf[..];
  }

  // ---- Reading it back ----

  function Uint16At(b: seq<u8>, off: nat): nat
    requires off + 2 <= |b|
  {
    FromLe(b[off..off + 2])
  }

  lemma {:induction false} ColumnAt(vs: seq<int>, i: nat)
    requires i < |vs|
    ensures Column(vs)[2 * i..2 * i + 2] == Le(ToUint16(vs[i]), 2)
  {
    var init, last := vs[..|vs| - 1], Le(ToUint16(vs[|vs| - 1]), 2);
    assert Column(vs) == Column(init) + last;
    if i < |init| {
      ColumnAt(init, i);
      assert (Column(init) + last)[2 * i..2 * i + 2] == Column(init)[2 * i..2 * i + 2];
    } else {
      assert (Column(init) + last)[2 * i..2 * i + 2] == last;
    }
  }

  lemma {:induction false} LeTwo(v: u16)
    ensures FromLe(Le(v, 2)) == v
  {
    Widths();
    LeReadsBack(v, 2);
  }

  lemma {:induction false} LeFour(v: u32)
    ensures FromLe(Le(v, 4)) == v
  {
    Widths();
    LeReadsBack(v, 4);
  }

  lemma Middle(a: seq<u8>, m: seq<u8>, c: seq<u8>, i: nat, j: nat)
    requires i <= j <= |m|
    ensures (a + m + c)[|a| + i..|a| + j] == m[i..j]
  {
  }

  lemma {:induction false} HeaderReadsBack(n: nat, layoutVersion: u16)
    requires n < 0x1_0000_0000
    ensures var h := Header(n, layoutVersion);
            h[..4] == [0x53, 0x45, 0x41, 0x54] && h[4] == 1 && h[5] == 0 && Uint16At(h, 6) == layoutVersion && FromLe(h[8..12]) == n
  {
    var h := Header(n, layoutVersion);
    assert h[6..8] == Le(layoutVersion, 2) && h[8..12] == Le(n, 4);
    LeTwo(layoutVersion);
    LeFour(n);
  }

  /** Every column of the blob reads back to what was put in: coordinates as signed
      16-bit numbers, the rest unsigned. */
  lemma {:induction false} ReadsBack(x: seq<int>, y: seq<int>, seatNumber: seq<u16>, tierIdx: seq<u8>,
                                     layoutVersion: u16, i: nat)
    requires |y| == |x| && |seatNumber| == |x| && |tierIdx| == |x| && |x| < 0x1_0000_0000 && i < |x|
    requires IsInt16(x[i]) && IsInt16(y[i])
    ensures var b, n := Encoded(x, y, seatNumber, tierIdx, layoutVersion), |x|;
            && |b| == 12 + 7 * n
            && b[..4] == [0x53, 0x45, 0x41, 0x54] && b[4] == 1 && b[5] == 0 && Uint16At(b, 6) == layoutVersion && FromLe(b[8..12]) == n
            && ToInt16(Uint16At(b, 12 + 2 * i)) == x[i]
            && ToInt16(Uint16At(b, 12 + 2 * n + 2 * i)) == y[i]
            && Uint16At(b, 12 + 4 * n + 2 * i) == seatNumber[i]
            && b[12 + 6 * n + i] == tierIdx[i]
  {
    HeaderReadsBack(|x|, layoutVersion);
    PartsReadBack(Header(|x|, layoutVersion), x, y, seatNumber, tierIdx, i);
  }

  /** A column between other bytes reads back. */
  lemma {:induction false} MiddleColumn(a: seq<u8>, vs: seq<int>, c: seq<u8>, i: nat)
    requires i < |vs|
    ensures Uint16At(a + Column(vs) + c, |a| + 2 * i) == ToUint16(vs[i])
  {
    var b := a + Column(vs) + c;
    Middle(a, Column(vs), c, 2 * i, 2 * i + 2);
    assert b[|a| + 2 * i..|a| + 2 * i + 2] == Column(vs)[2 * i..2 * i + 2];
    ColumnAt(vs, i);
    LeTwo(ToUint16(vs[i]));
  }

  lemma Regroup(h: seq<u8>, x: seq<u8>, y: seq<u8>, s: seq<u8>, t: seq<u8>)
    ensures var b := h + x + y + s + t;
            && b == [] + h + (x + y + s + t) && b == h + x + (y + s + t) && b == h + x + y + (s + t)
            && b == (h + x) + y + (s + t) && b == (h + x + y) + s + t
  {
  }

  lemma {:induction false} ColumnsReadBack(h: seq<u8>, x: seq<int>, y: seq<int>, seatNumber: seq<u16>,
                                           tierIdx: seq<u8>, i: nat)
    requires |h| == 12 && |y| == |x| && |seatNumber| == |x| && i < |x|
    ensures var b, n := h + Column(x) + Column(y) + Column(seatNumber) + tierIdx, |x|;
            && |b| == 12 + 6 * n + |tierIdx|
            && Uint16At(b, 12 + 2 * i) == ToUint16(x[i])
            && Uint16At(b, 12 + 2 * n + 2 * i) == ToUint16(y[i])
            && Uint16At(b, 12 + 4 * n + 2 * i) == seatNumber[i]
  {
    var cx, cy, cs := Column(x), Column(y), Column(seatNumber);
    Regroup(h, cx, cy, cs, tierIdx);
    MiddleColumn(h, x, cy + cs + tierIdx, i);
    MiddleColumn(h + cx, y, cs + tierIdx, i);
    MiddleColumn(h + cx + cy, seatNumber, tierIdx, i);
  }

  lemma {:induction false} EndsReadBack(h: seq<u8>, cx: seq<u8>, cy: seq<u8>, cs: seq<u8>, tierIdx: seq<u8>, i: nat)
    requires |h| == 12 && i < |tierIdx|
    ensures var b := h + cx + cy + cs + tierIdx;
            b[..6] == h[..6] && Uint16At(b, 6) == Uint16At(h, 6) && b[8..12] == h[8..12]
            && b[|h| + |cx| + |cy| + |cs| + i] == tierIdx[i]
  {
    Regroup(h, cx, cy, cs, tierIdx);
    Middle([], h, cx + cy + cs + tierIdx, 0, 6);
    Middle([], h, cx + cy + cs + tierIdx, 6, 8);
    Middle([], h, cx + cy + cs + tierIdx, 8, 12);
  }

  /** The parts of a blob after any header of its length. */
  lemma {:induction false} PartsReadBack(h: seq<u8>, x: seq<int>, y: seq<int>, seatNumber: seq<u16>, tierIdx: seq<u8>,
                                         i: nat)
    requires |h| == 12 && |y| == |x| && |seatNumber| == |x| && |tierIdx| == |x| && i < |x| && IsInt16(x[i])
        && IsInt16(y[i])
    ensures var b, n := h + Column(x) + Column(y) + Column(seatNumber) + tierIdx, |x|;
            && |b| == 12 + 7 * n
            && b[..6] == h[..6] && Uint16At(b, 6) == Uint16At(h, 6) && b[8..12] == h[8..12]
            && ToInt16(Uint16At(b, 12 + 2 * i)) == x[i]
            && ToInt16(Uint16At(b, 12 + 2 * n + 2 * i)) == y[i]
            && Uint16At(b, 12 + 4 * n + 2 * i) == seatNumber[i]
            && b[12 + 6 * n + i] == tierIdx[i]
  {
    ColumnsReadBack(h, x, y, seatNumber, tierIdx, i);
    EndsReadBack(h, Column(x), Column(y), Column(seatNumber), tierIdx, i);
  }
}
