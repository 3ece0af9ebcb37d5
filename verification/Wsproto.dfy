/** The binary frames pushed to availability subscribers. */
module Wsproto {
  import opened Bytes
  import opened Wrappers

  const OP_SNAPSHOT: u8 := 0x01
  const OP_SPARSE: u8 := 0x02
  const PROTOCOL_VERSION: u8 := 1

  /** One seat's new state, as the encoder is given it: any 32-bit ordinal and any 8-bit state. */
  datatype Change = Change(ordinal: u32, state: u8)

  datatype Frame =
    | Snapshot(layoutVersion: u16, eventIdHash: u32, seqNo: u64, seatCount: u32, packed: seq<u8>)
    | Sparse(seqNo: u64, changes: seq<Change>)

  datatype ProtoError = TooShort | UnsupportedVersion | UnknownOp

  /** 30 bits of ordinal below 2 bits of state; whatever does not fit is shifted or masked away. */
  function PackChange(c: Change): u32 {
    (c.state % 4) * 0x4000_0000 + c.ordinal % 0x4000_0000
  }

  function UnpackChange(v: u32): Change {
    Change(v % 0x4000_0000, v / 0x4000_0000)
  }

  predicate Packable(c: Change) {
    c.ordinal < 0x4000_0000 && c.state < 4
  }

  function Normal(c: Change): (r: Change)
    ensures Packable(r) && (Packable(c) ==> r == c)
  {
    Change(c.ordinal % 0x4000_0000, c.state % 4)
  }

  function ChangeBytes(changes: seq<Change>): (b: seq<u8>)
    ensures |b| == 4 * |changes|
  {
    if changes == [] then [] else ChangeBytes(changes[..|changes| - 1]) + Le(PackChange(changes[|changes| - 1]), 4)
  }

  function SparseBytes(seqNo: u64, changes: seq<Change>): (b: seq<u8>)
    ensures |b| == 12 + 4 * |changes|
  {
    [OP_SPARSE, PROTOCOL_VERSION] + Le(seqNo, 8) + Le(|changes| % 0x1_0000, 2) + ChangeBytes(changes)
  }

  function SnapshotBytes(layoutVersion: u16, eventIdHash: u32, seqNo: u64, seatCount: u32,
                         packed: seq<u8>): (b: seq<u8>)
    ensures |b| == 20 + |packed|
  {
    [OP_SNAPSHOT, PROTOCOL_VERSION] + Le(layoutVersion, 2) + Le(eventIdHash, 4) + Le(seqNo, 8) + Le(seatCount, 4) + packed
  }

  method EncodeSparse(seqNo: u64, changes: seq<Change>) returns (buf: seq<u8>)
    ensures buf == SparseBytes(seqNo, changes)
  {
    buf := [OP_SPARSE, PROTOCOL_VERSION];
    buf := buf + Le(seqNo, 8);
    buf := buf + Le(|changes| % 0x1_0000, 2);
    ghost var header := buf;
    for i := 0 to |changes|
      invariant buf == header + ChangeBytes(changes[..i])
    {
      assert changes[..i + 1][..i] == changes[..i];
      buf := buf + Le(PackChange(changes[i]), 4);
    }
    assert changes[..|changes|] == changes;
  }

  function ReadU16(b: seq<u8>, off: nat): u16
    requires off + 2 <= |b|
  {
    FromLeBounded(b[off..off + 2]); Widths(); FromLe(b[off..off + 2])
  }

  function ReadU32(b: seq<u8>, off: nat): u32
    requires off + 4 <= |b|
  {
    FromLeBounded(b[off..off + 4]); Widths(); FromLe(b[off..off + 4])
  }

  function ReadU64(b: seq<u8>, off: nat): u64
    requires off + 8 <= |b|
  {
    FromLeBounded(b[off..off + 8]); Widths(); FromLe(b[off..off + 8])
  }

  function ReadChanges(b: seq<u8>, count: nat): (cs: seq<Change>)
    requires 12 + 4 * count <= |b|
    ensures |cs| == count
    ensures forall i | 0 <= i < count :: cs[i] == UnpackChange(ReadU32(b, 12 + 4 * i))
  {
    seq(count, i requires 0 <= i < count => UnpackChange(ReadU32(b, 12 + 4 * i)))
  }

  /** The changes of a sparse frame as the other side reads them. */
  function Received(changes: seq<Change>): (cs: seq<Change>)
    ensures |cs| == |changes| % 0x1_0000
    ensures forall i | 0 <= i < |cs| :: cs[i] == Normal(changes[i])
  {
    seq(|changes| % 0x1_0000, i requires 0 <= i < |changes| % 0x1_0000 => Normal(changes[i]))
  }

  /** What a received buffer means. */
  function Decoded(b: seq<u8>): Result<Frame, ProtoError> {
    if |b| < 2 then Err(TooShort)
    else if b[1] != PROTOCOL_VERSION then Err(UnsupportedVersion)
    else if b[0] == OP_SNAPSHOT then
      if |b| < 20 then Err(TooShort)
      else Ok(Snapshot(ReadU16(b, 2), ReadU32(b, 4), ReadU64(b, 8), ReadU32(b, 16), b[20..]))
    else if b[0] == OP_SPARSE then
      if |b| < 12 then Err(TooShort)
      else if |b| < 12 + 4 * ReadU16(b, 10) then Err(TooShort)
      else Ok(Sparse(ReadU64(b, 2), ReadChanges(b, ReadU16(b, 10))))
    else Err(UnknownOp)
  }

  method Decode(b: seq<u8>) returns (r: Result<Frame, ProtoError>)
    ensures r == Decoded(b)
  {
    if |b| < 2 { return Err(TooShort); }
    var op, ver := b[0], b[1];
    if ver != PROTOCOL_VERSION { return Err(UnsupportedVersion); }
    if op == OP_SNAPSHOT {
      if |b| < 20 { return Err(TooShort); }
      return Ok(Snapshot(ReadU16(b, 2), ReadU32(b, 4), ReadU64(b, 8), ReadU32(b, 16), b[20..]));
    } else if op == OP_SPARSE {
      if |b| < 12 { return Err(TooShort); }
      var seqNo, count: nat := ReadU64(b, 2), ReadU16(b, 10);
      if |b| < 12 + 4 * count { return Err(TooShort); }
      var changes: seq<Change> := [];
      for i := 0 to count
        invariant |changes| == i
        invariant forall k | 0 <= k < i :: changes[k] == UnpackChange(ReadU32(b, 12 + 4 * k))
      {
        changes := changes + [UnpackChange(ReadU32(b, 12 + 4 * i))];
      }
      assert changes == ReadChanges(b, count);
      return Ok(Sparse(seqNo, changes));
    } else {
      return Err(UnknownOp);
    }
  }

  /** Which buffers are refused, and why. */
  lemma RefusedIff(b: seq<u8>)
    ensures Decoded(b) == Err(TooShort) <==>
              |b| < 2 || (b[1] == 1 && ((b[0] == 1 && |b| < 20)
                                        || (b[0] == 2 && (|b| < 12 || |b| < 12 + 4 * ReadU16(b, 10)))))
    ensures Decoded(b) == Err(UnsupportedVersion) <==> |b| >= 2 && b[1] != 1
    ensures Decoded(b) == Err(UnknownOp) <==> |b| >= 2 && b[1] == 1 && b[0] != 1 && b[0] != 2
    ensures Decoded(b).Ok? ==> (Decoded(b).value.Snapshot? <==> b[0] == 1)
  {
  }

  lemma PackUnpack(c: Change)
    ensures UnpackChange(PackChange(c)) == Normal(c)
  {
  }

  lemma {:induction false} ChangeBytesAt(changes: seq<Change>, i: nat)
    requires i < |changes|
    ensures ChangeBytes(changes)[4 * i..4 * i + 4] == Le(PackChange(changes[i]), 4)
  {
    var last := |changes| - 1;
    var front, tail := ChangeBytes(changes[..last]), Le(PackChange(changes[last]), 4);
    if i == last {
      assert (front + tail)[4 * i..4 * i + 4] == tail;
    } else {
      ChangeBytesAt(changes[..last], i);
      assert (front + tail)[4 * i..4 * i + 4] == front[4 * i..4 * i + 4];
    }
  }

  lemma PackParts(c: Change)
    ensures PackChange(c) % 0x4000_0000 == c.ordinal % 0x4000_0000 && PackChange(c) / 0x4000_0000 == c.state % 4
  {
  }

  /** The four bytes of change i. */
  lemma ChangeLayout(seqNo: u64, changes: seq<Change>, i: nat)
    requires i < |changes|
    ensures FromLe(SparseBytes(seqNo, changes)[12 + 4 * i..16 + 4 * i]) == PackChange(changes[i])
  {
    Widths();
    ChangeBytesAt(changes, i);
    assert SparseBytes(seqNo, changes)[12 + 4 * i..16 + 4 * i] == ChangeBytes(changes)[4 * i..4 * i + 4];
    LeReadsBack(PackChange(changes[i]), 4);
  }

  /** A sparse frame byte by byte: opcode 2, version 1, the sequence number in bytes 2 to 9,
      the count in bytes 10 and 11, then four bytes a change, the state above the ordinal's
      30 bits; every number least significant byte first. */
  lemma SparseLayout(seqNo: u64, changes: seq<Change>)
    ensures var b := SparseBytes(seqNo, changes);
            && b[0] == 2 && b[1] == 1 && FromLe(b[2..10]) == seqNo && FromLe(b[10..12]) == |changes| % 0x1_0000
            && forall i | 0 <= i < |changes| ::
                 && FromLe(b[12 + 4 * i..16 + 4 * i]) % 0x4000_0000 == changes[i].ordinal % 0x4000_0000
                 && FromLe(b[12 + 4 * i..16 + 4 * i]) / 0x4000_0000 == changes[i].state % 4
  {
    var b := SparseBytes(seqNo, changes);
    Widths();
    LeReadsBack(seqNo, 8);
    LeReadsBack(|changes| % 0x1_0000, 2);
    assert b[2..10] == Le(seqNo, 8) && b[10..12] == Le(|changes| % 0x1_0000, 2);
    forall i: nat | i < |changes|
      ensures FromLe(b[12 + 4 * i..16 + 4 * i]) % 0x4000_0000 == changes[i].ordinal % 0x4000_0000
      ensures FromLe(b[12 + 4 * i..16 + 4 * i]) / 0x4000_0000 == changes[i].state % 4
    {
      ChangeLayout(seqNo, changes, i);
      PackParts(changes[i]);
    }
  }

  /** A snapshot byte by byte: opcode 1, version 1, layout version, event hash, sequence
      number and seat count, then the bitset. */
  lemma SnapshotLayout(layoutVersion: u16, eventIdHash: u32, seqNo: u64, seatCount: u32, packed: seq<u8>)
    ensures var b := SnapshotBytes(layoutVersion, eventIdHash, seqNo, seatCount, packed);
            && b[0] == 1 && b[1] == 1 && FromLe(b[2..4]) == layoutVersion && FromLe(b[4..8]) == eventIdHash
            && FromLe(b[8..16]) == seqNo && FromLe(b[16..20]) == seatCount && b[20..] == packed
  {
    var b := SnapshotBytes(layoutVersion, eventIdHash, seqNo, seatCount, packed);
    Widths();
    LeReadsBack(layoutVersion, 2);
    LeReadsBack(eventIdHash, 4);
    LeReadsBack(seqNo, 8);
    LeReadsBack(seatCount, 4);
    assert b[2..4] == Le(layoutVersion, 2) && b[4..8] == Le(eventIdHash, 4);
    assert b[8..16] == Le(seqNo, 8) && b[16..20] == Le(seatCount, 4);
  }

  /** Decoding a sparse frame gives back the sequence number and, after masking,
      as many changes as the 16-bit count could announce. */
  lemma SparseRoundTrip(seqNo: u64, changes: seq<Change>)
    ensures Decoded(SparseBytes(seqNo, changes)) == Ok(Sparse(seqNo, Received(changes)))
  {
    var b, n := SparseBytes(seqNo, changes), |changes| % 0x1_0000;
    Widths();
    LeReadsBack(seqNo, 8);
    LeReadsBack(n, 2);
    assert b[2..10] == Le(seqNo, 8);
    assert b[10..12] == Le(n, 2);
    forall i: nat | i < n ensures UnpackChange(ReadU32(b, 12 + 4 * i)) == Normal(changes[i]) {
      ChangeBytesAt(changes, i);
      assert b[12 + 4 * i..12 + 4 * i + 4] == ChangeBytes(changes)[4 * i..4 * i + 4];
      LeReadsBack(PackChange(changes[i]), 4);
      PackUnpack(changes[i]);
    }
    assert ReadChanges(b, n) == Received(changes);
  }

  /** The frame survives unchanged exactly when its count fits 16 bits and every change fits 32. */
  lemma SparseExact(seqNo: u64, changes: seq<Change>)
    ensures Decoded(SparseBytes(seqNo, changes)) == Ok(Sparse(seqNo, changes))
            <==> |changes| < 0x1_0000 && forall c | c in changes :: Packable(c)
  {
    SparseRoundTrip(seqNo, changes);
    var got := Received(changes);
    if |changes| < 0x1_0000 && forall c | c in changes :: Packable(c) {
      assert got == changes;
    }
    if got == changes {
      forall c | c in changes ensures Packable(c) {
        var i :| 0 <= i < |changes| && changes[i] == c;
        assert got[i] == Normal(changes[i]);
      }
    }
  }

  lemma SnapshotRoundTrip(layoutVersion: u16, eventIdHash: u32, seqNo: u64, seatCount: u32, packed: seq<u8>)
    ensures Decoded(SnapshotBytes(layoutVersion, eventIdHash, seqNo, seatCount, packed))
            == Ok(Snapshot(layoutVersion, eventIdHash, seqNo, seatCount, packed))
  {
    var b := SnapshotBytes(layoutVersion, eventIdHash, seqNo, seatCount, packed);
    Widths();
    LeReadsBack(layoutVersion, 2);
    LeReadsBack(eventIdHash, 4);
    LeReadsBack(seqNo, 8);
    LeReadsBack(seatCount, 4);
    assert b[2..4] == Le(layoutVersion, 2);
    assert b[4..8] == Le(eventIdHash, 4);
    assert b[8..16] == Le(seqNo, 8);
    assert b[16..20] == Le(seatCount, 4);
    assert b[20..] == packed;
  }

  lemma UnpackPack(v: u32)
    ensures PackChange(UnpackChange(v)) == v && Packable(UnpackChange(v))
  {
  }

  lemma WordWritesBack(b: seq<u8>, lo: nat, hi: nat)
    requires lo <= hi <= |b|
    ensures Le(FromLe(b[lo..hi]), hi - lo) == b[lo..hi]
  {
    LeWritesBack(b[lo..hi]);
  }

  predicate WordsOf(cs: seq<Change>, w: seq<u8>) {
    |w| == 4 * |cs| && forall i | 0 <= i < |cs| :: Le(PackChange(cs[i]), 4) == w[4 * i..4 * i + 4]
  }

  lemma {:induction false} WordsAreBytes(cs: seq<Change>, w: seq<u8>)
    requires WordsOf(cs, w)
    ensures ChangeBytes(cs) == w
  {
    if cs != [] {
      var last := |cs| - 1;
      var front := w[..4 * last];
      forall i | 0 <= i < last ensures Le(PackChange(cs[..last][i]), 4) == front[4 * i..4 * i + 4] {
        assert front[4 * i..4 * i + 4] == w[4 * i..4 * i + 4];
      }
      WordsAreBytes(cs[..last], front);
      assert w == front + w[4 * last..];
    }
  }

  lemma PackOfWord(b: seq<u8>, at: nat)
    requires at + 4 <= |b|
    ensures Le(PackChange(UnpackChange(ReadU32(b, at))), 4) == b[at..at + 4]
  {
    var v := ReadU32(b, at);
    assert PackChange(UnpackChange(v)) == v by { UnpackPack(v); }
    WordWritesBack(b, at, at + 4);
  }

  lemma SliceOfSlice(b: seq<u8>, lo: nat, hi: nat, x: nat, y: nat)
    requires lo <= hi <= |b| && x <= y <= hi - lo
    ensures b[lo..hi][x..y] == b[lo + x..lo + y]
  {
    var l, r := b[lo..hi][x..y], b[lo + x..lo + y];
    assert |l| == |r| == y - x;
    forall k | 0 <= k < y - x ensures l[k] == r[k] {
      assert l[k] == b[lo..hi][x + k] == b[lo + x + k];
    }
  }

  lemma ChangesAreTheirBytes(b: seq<u8>, count: nat)
    requires 12 + 4 * count <= |b|
    ensures ChangeBytes(ReadChanges(b, count)) == b[12..12 + 4 * count]
  {
    var cs, w := ReadChanges(b, count), b[12..12 + 4 * count];
    forall i | 0 <= i < count ensures Le(PackChange(cs[i]), 4) == w[4 * i..4 * i + 4] {
      var at := 12 + 4 * i;
      assert cs[i] == UnpackChange(ReadU32(b, at));
      PackOfWord(b, at);
      SliceOfSlice(b, 12, 12 + 4 * count, 4 * i, 4 * i + 4);
    }
    WordsAreBytes(cs, w);
  }

  lemma CutSnapshot(b: seq<u8>)
    requires |b| >= 20
    ensures b == b[..2] + b[2..4] + b[4..8] + b[8..16] + b[16..20] + b[20..]
  {
    assert b == b[..8] + b[8..];
    assert b[..8] == b[..2] + b[2..4] + b[4..8];
  }

  lemma SnapshotIsItsBytes(b: seq<u8>)
    requires |b| >= 20 && b[0] == OP_SNAPSHOT && b[1] == PROTOCOL_VERSION
    ensures SnapshotBytes(ReadU16(b, 2), ReadU32(b, 4), ReadU64(b, 8), ReadU32(b, 16), b[20..]) == b
  {
    WordWritesBack(b, 2, 4);
    WordWritesBack(b, 4, 8);
    WordWritesBack(b, 8, 16);
    WordWritesBack(b, 16, 20);
    assert b[..2] == [OP_SNAPSHOT, PROTOCOL_VERSION];
    CutSnapshot(b);
  }

  predicate SparseParts(b: seq<u8>, q: u64, cs: seq<Change>) {
    && 12 + 4 * |cs| <= |b| && |cs| < 0x1_0000
    && b[0] == OP_SPARSE && b[1] == PROTOCOL_VERSION
    && q == ReadU64(b, 2) && |cs| == ReadU16(b, 10) && cs == ReadChanges(b, |cs|)
  }

  lemma SparseFrameIsItsBytes(b: seq<u8>, q: u64, cs: seq<Change>)
    requires SparseParts(b, q, cs)
    ensures SparseBytes(q, cs) == b[..12 + 4 * |cs|]
  {
    ChangesAreTheirBytes(b, |cs|);
    HeaderIsItsBytes(b, q, |cs|);
    assert b[..12 + 4 * |cs|] == b[..12] + b[12..12 + 4 * |cs|];
  }

  lemma HeaderIsItsBytes(b: seq<u8>, q: u64, count: nat)
    requires |b| >= 12 && b[0] == OP_SPARSE && b[1] == PROTOCOL_VERSION
    requires q == ReadU64(b, 2) && count == ReadU16(b, 10)
    ensures [OP_SPARSE, PROTOCOL_VERSION] + Le(q, 8) + Le(count % 0x1_0000, 2) == b[..12]
  {
    WordWritesBack(b, 2, 10);
    WordWritesBack(b, 10, 12);
    assert count % 0x1_0000 == count;
    assert Le(q, 8) == b[2..10] && Le(count, 2) == b[10..12];
    assert b[..12] == [b[0], b[1]] + b[2..10] + b[10..12];
  }

  lemma ReadChangesPackable(b: seq<u8>, count: nat)
    requires 12 + 4 * count <= |b|
    ensures forall c | c in ReadChanges(b, count) :: Packable(c)
  {
    forall c | c in ReadChanges(b, count) ensures Packable(c) {
      var i :| 0 <= i < count && ReadChanges(b, count)[i] == c;
      UnpackPack(ReadU32(b, 12 + 4 * i));
    }
  }

  /** A decoded buffer is the encoding of its frame, up to bytes trailing a sparse frame. */
  lemma DecodedIsEncoded(b: seq<u8>)
    requires Decoded(b).Ok?
    ensures match Decoded(b).value
            case Snapshot(l, h, q, c, p) => SnapshotBytes(l, h, q, c, p) == b
            case Sparse(q, cs) => SparseBytes(q, cs) <= b && |cs| < 0x1_0000 && forall c | c in cs :: Packable(c)
  {
    match Decoded(b).value
    case Snapshot(_, _, _, _, _) =>
      SnapshotIsItsBytes(b);
    case Sparse(q, cs) =>
      SparseFrameIsItsBytes(b, q, cs);
      ReadChangesPackable(b, |cs|);
  }
}
