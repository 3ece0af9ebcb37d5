/** The packed availability bitset: four two-bit lanes in a byte, lane k holding
    bits 2k and 2k+1. Masks and shifts on a lane are written as division and
    remainder by the lane's weight. */
module Seatmap {
  import opened Bytes

  type State = x: int | 0 <= x < 4

  const FREE: State := 0
  const HELD: State := 1
  const SOLD: State := 2
  const UNAVAILABLE: State := 3

  function ByteLen(count: nat): nat {
    (count + 3) / 4
  }

  function Zeroed(count: nat): (packed: seq<u8>) {
    seq(ByteLen(count), _ => 0)
  }

  /** One lane of one byte. */
  function Lane(b: u8, ordinal: nat): State {
    match ordinal % 4
    case 0 => b % 4
    case 1 => b / 4 % 4
    case 2 => b / 4 / 4 % 4
    case _ => b / 4 / 4 / 4
  }

  function FourLanes(l0: State, l1: State, l2: State, l3: State): u8 {
    l0 + 4 * (l1 + 4 * (l2 + 4 * l3))
  }

  /** The byte with one lane cleared and then filled. */
  function WithLane(b: u8, ordinal: nat, s: State): u8 {
    match ordinal % 4
    case 0 => FourLanes(s, Lane(b, 1), Lane(b, 2), Lane(b, 3))
    case 1 => FourLanes(Lane(b, 0), s, Lane(b, 2), Lane(b, 3))
    case 2 => FourLanes(Lane(b, 0), Lane(b, 1), s, Lane(b, 3))
    case _ => FourLanes(Lane(b, 0), Lane(b, 1), Lane(b, 2), s)
  }

  function Get(packed: seq<u8>, ordinal: nat): State
    requires ordinal / 4 < |packed|
  {
    Lane(packed[ordinal / 4], ordinal)
  }

  function Write(packed: seq<u8>, ordinal: nat, s: State): (r: seq<u8>)
    requires ordinal / 4 < |packed|
    ensures |r| == |packed|
  {
    packed[ordinal / 4 := WithLane(packed[ordinal / 4], ordinal, s)]
  }

  lemma ByteIsItsLanes(b: u8)
    ensures b == FourLanes(Lane(b, 0), Lane(b, 1), Lane(b, 2), Lane(b, 3))
  {
  }

  lemma LanesMakeByte(l0: State, l1: State, l2: State, l3: State)
    ensures var b := FourLanes(l0, l1, l2, l3);
            Lane(b, 0) == l0 && Lane(b, 1) == l1 && Lane(b, 2) == l2 && Lane(b, 3) == l3
  {
    assert (4 * (l1 + 4 * (l2 + 4 * l3)) + l0) / 4 == l1 + 4 * (l2 + 4 * l3);
    assert (4 * (l2 + 4 * l3) + l1) / 4 == l2 + 4 * l3;
    assert (4 * l3 + l2) / 4 == l3;
  }

  lemma LaneOfRemainder(b: u8, ordinal: nat)
    ensures Lane(b, ordinal) == Lane(b, ordinal % 4)
  {
  }

  lemma LanesApart(b: u8, ordinal: nat, s: State, other: nat)
    ensures Lane(WithLane(b, ordinal, s), other) == if other % 4 == ordinal % 4 then s else Lane(b, other)
  {
    var l0, l1, l2, l3 := Lane(b, 0), Lane(b, 1), Lane(b, 2), Lane(b, 3);
    LaneOfRemainder(b, other);
    LaneOfRemainder(WithLane(b, ordinal, s), other);
    match ordinal % 4
    case 0 => LanesMakeByte(s, l1, l2, l3);
    case 1 => LanesMakeByte(l0, s, l2, l3);
    case 2 => LanesMakeByte(l0, l1, s, l3);
    case _ => LanesMakeByte(l0, l1, l2, s);
  }

  /** The bits of a byte, the lowest first. */
  function Bit(b: u8, i: nat): (d: nat)
    requires i < 8
  {
    match i
    case 0 => b % 2
    case 1 => b / 2 % 2
    case 2 => b / 4 % 2
    case 3 => b / 8 % 2
    case 4 => b / 16 % 2
    case 5 => b / 32 % 2
    case 6 => b / 64 % 2
    case _ => b / 128
  }

  /** Seat o lives in bits 2k and 2k+1 of byte o/4, k being o modulo 4. */
  lemma SeatBits(packed: seq<u8>, o: nat)
    requires o / 4 < |packed|
    ensures var b, k := packed[o / 4], o % 4; Get(packed, o) == Bit(b, 2 * k) + 2 * Bit(b, 2 * k + 1)
  {
    var b := packed[o / 4];
    TwoBits(b);
    TwoBits(b / 4);
    TwoBits(b / 4 / 4);
    TwoBits(b / 4 / 4 / 4);
    assert b / 4 / 2 == b / 8 && b / 4 / 4 == b / 16 && b / 16 / 2 == b / 32 && b / 16 / 4 == b / 64 && b / 64 / 2 == b / 128;
  }

  lemma TwoBits(b: u8)
    ensures b % 4 == b % 2 + 2 * (b / 2 % 2)
  {
  }

  /** Writing one seat changes that seat and no other. */
  lemma WriteGet(packed: seq<u8>, ordinal: nat, s: State, other: nat)
    requires ordinal / 4 < |packed| && other / 4 < |packed|
    ensures Get(Write(packed, ordinal, s), other) == if other == ordinal then s else Get(packed, other)
  {
    LanesApart(packed[ordinal / 4], ordinal, s, other);
  }

  lemma GetInByte(p: seq<u8>, i: nat)
    requires i < |p|
    ensures Get(p, 4 * i) == Lane(p[i], 0) && Get(p, 4 * i + 1) == Lane(p[i], 1)
    ensures Get(p, 4 * i + 2) == Lane(p[i], 2) && Get(p, 4 * i + 3) == Lane(p[i], 3)
  {
    assert (4 * i) / 4 == i && (4 * i + 1) / 4 == i && (4 * i + 2) / 4 == i && (4 * i + 3) / 4 == i;
  }

  /** The bytes carry nothing but the seats' states. */
  lemma SameSeatsSameBytes(p: seq<u8>, q: seq<u8>)
    requires |p| == |q|
    requires forall o: nat | o < 4 * |p| :: Get(p, o) == Get(q, o)
    ensures p == q
  {
    forall i: nat | i < |p| ensures p[i] == q[i] {
      GetInByte(p, i);
      GetInByte(q, i);
      ByteIsItsLanes(p[i]);
      ByteIsItsLanes(q[i]);
    }
  }

  method New(count: nat) returns (packed: array<u8>)
    ensures fresh(packed) && packed[..] == Zeroed(count) && count <= 4 * packed.Length < count + 4
    ensures forall o: nat | o < count :: Get(packed[..], o) == FREE
  {
    packed := new u8[ByteLen(count)](_ => 0);
  }

  method Set(packed: array<u8>, ordinal: nat, s: State)
    requires ordinal / 4 < packed.Length
    modifies packed
    ensures packed[..] == Write(old(packed[..]), ordinal, s)
    ensures forall o: nat | o / 4 < packed.Length :: Get(packed[..],
                                                         o) == if o == ordinal then s else Get(old(packed[..]), o)
  {
    var b := ordinal / 4;
    packed[b] := WithLane(packed[b], ordinal, s);
    forall o: nat | o / 4 < packed.Length
      ensures Get(packed[..], o) == if o == ordinal then s else Get(old(packed[..]), o)
    {
      WriteGet(old(packed[..]), ordinal, s, o);
    }
  }

  /** What a row of event_seats looks like on the wire: unsellable overrides
      every status, and an unknown status is advertised as unavailable. */
  function StateFromDB(status: int, sellable: bool): (s: State)
    ensures s == UNAVAILABLE <==> !sellable || status !in {0, 1, 2, 3}
    ensures s == FREE <==> sellable && status == 0
    ensures s == HELD <==> sellable && status in {1, 3}
    ensures s == SOLD <==> sellable && status == 2
  {
    if !sellable then UNAVAILABLE
    else match status
      case 0 => FREE
      case 1 => HELD
      case 3 => HELD
      case 2 => SOLD
      case _ => UNAVAILABLE
  }
}
